/**
 * The vanilla site's shared script: which page is showing, navigation to a
 * fortune page, and the one-shot session slot that carries a reading to the
 * result page, where it is rendered section by section and then removed.
 */
module MainScript {
  import opened Wrappers
  import opened Text
  import Utils

  // ---- the current page ----

  /** `getCurrentPage()`: the last path segment up to its first '.', or "index" when that is empty. */
  function GetCurrentPage(path: string): (page: string)
    ensures page != "" && '/' !in page && '.' !in page
  {
    var fileName := Last(Split(path, '/'));
    var stem := Split(fileName, '.')[0];
    if stem == "" then "index" else stem
  }

  /** `s.indexOf(c)` on a text made of a `c`-free head, `c` and anything after. */
  lemma IndexOfAfterHead(head: string, c: char, tail: string)
    requires c !in head
    ensures c in head + [c] + tail && IndexOf(head + [c] + tail, c) == |head|
  {
    IndexOfAfterFreePrefix(head, c, tail);
  }

  /** The last piece of a split is what follows the last separator. */
  lemma {:induction false} SplitLastPiece(prefix: string, c: char, last: string)
    requires c !in last
    ensures Last(Split(prefix + [c] + last, c)) == last
    decreases |prefix|
  {
    var s := prefix + [c] + last;
    var i := IndexOf(s, c);
    if c in prefix {
      var j := IndexOf(prefix, c);
      assert s[j] == c && s[..j] == prefix[..j];
      assert i == j;
      assert s[i + 1..] == prefix[j + 1..] + [c] + last;
      SplitLastPiece(prefix[j + 1..], c, last);
    } else {
      IndexOfAfterHead(prefix, c, last);
      assert s[i + 1..] == last;
    }
  }

  /** "/dir/name.ext" is page "name". */
  lemma PageOfFileName(dir: string, name: string, ext: string)
    requires name != "" && '/' !in name && '.' !in name && '/' !in ext
    ensures GetCurrentPage(dir + "/" + name + "." + ext) == name
  {
    assert dir + "/" + name + "." + ext == dir + ['/'] + (name + "." + ext);
    SplitLastPiece(dir, '/', name + "." + ext);
    IndexOfAfterHead(name, '.', ext);
    assert (name + "." + ext)[..|name|] == name;
  }

  /** A path ending in '/' is the index page. */
  lemma DirectoryIsIndex(dir: string)
    ensures GetCurrentPage(dir + "/") == "index"
  {
    assert dir + "/" == dir + ['/'] + "";
    SplitLastPiece(dir, '/', "");
  }

  // ---- navigation ----

  /** `navigateToFortune(fortuneType)`: the page it opens, or None when it stays put. */
  function NavigateToFortune(fortuneType: string): (page: Option<string>)
    ensures page.Some? <==> fortuneType in {"tarot", "zodiac", "omikuji", "numerology"}
    ensures page.Some? ==> page.value == fortuneType + ".html"
  {
    if fortuneType == "tarot" then Some("tarot.html")
    else if fortuneType == "zodiac" then Some("zodiac.html")
    else if fortuneType == "omikuji" then Some("omikuji.html")
    else if fortuneType == "numerology" then Some("numerology.html")
    else None
  }

  // ---- the result record and its rendering ----

  /** The lucky block of a reading; numbers are falsy when zero. */
  datatype LuckyFields = LuckyFields(color: Option<string>, number: Option<int>, item: Option<string>)

  /** A reading as stored: each field may be missing, null or empty. */
  datatype StructuredResult = StructuredResult(
    title: Option<string>, description: Option<string>, advice: Option<string>, lucky: Option<LuckyFields>)

  /** `result.result`: an object is rendered field by field, anything else as one paragraph. */
  datatype Payload = Structured(result: StructuredResult) | Plain(text: string)

  /** The JSON the slot holds: `{type, result, timestamp}`. */
  datatype StoredReading = StoredReading(fortuneType: string, payload: Payload, timestamp: string)

  datatype LuckyLine = ColorLine(color: string) | NumberLine(number: int) | ItemLine(item: string)

  datatype Section =
    | TitleSection(title: string)
    | DescriptionSection(description: string)
    | AdviceSection(advice: string)
    | LuckySection(lines: seq<LuckyLine>)
  {
    /** Where the section stands in the output. */
    function Rank(): nat
    {
      match this
      case TitleSection(_) => 0
      case DescriptionSection(_) => 1
      case AdviceSection(_) => 2
      case LuckySection(_) => 3
    }
  }

  predicate TruthyNumber(n: Option<int>) { n.Some? && n.value != 0 }

  /** The lines of the lucky block: one per truthy field, in the order color, number, item. */
  function LuckyLinesOf(lucky: LuckyFields): (lines: seq<LuckyLine>)
    ensures |lines| <= 3
    ensures |lines| == 0 <==> !Utils.Truthy(lucky.color) && !TruthyNumber(lucky.number) && !Utils.Truthy(lucky.item)
  {
    (if Utils.Truthy(lucky.color) then [ColorLine(lucky.color.value)] else [])
    + (if TruthyNumber(lucky.number) then [NumberLine(lucky.number.value)] else [])
    + (if Utils.Truthy(lucky.item) then [ItemLine(lucky.item.value)] else [])
  }

  /** The sections of a reading: one per truthy field, in the order title, description, advice, lucky. */
  function SectionsOf(r: StructuredResult): (sections: seq<Section>)
    ensures |sections| <= 4
    ensures r.lucky.Some? ==> |sections| > 0 && Last(sections) == LuckySection(LuckyLinesOf(r.lucky.value))
    ensures Utils.Truthy(r.title) ==> |sections| > 0 && sections[0] == TitleSection(r.title.value)
  {
    (if Utils.Truthy(r.title) then [TitleSection(r.title.value)] else [])
    + (if Utils.Truthy(r.description) then [DescriptionSection(r.description.value)] else [])
    + (if Utils.Truthy(r.advice) then [AdviceSection(r.advice.value)] else [])
    + (if r.lucky.Some? then [LuckySection(LuckyLinesOf(r.lucky.value))] else [])
  }

  /** The lucky block holds one line per truthy field, each at most once, color before number before item. */
  lemma LuckyLinesFollowFields(lucky: LuckyFields)
    ensures var lines := LuckyLinesOf(lucky);
      |lines| <= 3 &&
      (forall i, j :: 0 <= i < j < |lines| ==> LineRank(lines[i]) < LineRank(lines[j])) &&
      (Utils.Truthy(lucky.color) <==> ColorLine(lucky.color.GetOr("")) in lines) &&
      (TruthyNumber(lucky.number) <==> NumberLine(lucky.number.GetOr(0)) in lines) &&
      (Utils.Truthy(lucky.item) <==> ItemLine(lucky.item.GetOr("")) in lines)
  {
  }

  /** Sections appear in the fixed order title, description, advice, lucky, each at most once. */
  lemma SectionsInFixedOrder(r: StructuredResult)
    ensures var sections := SectionsOf(r);
      |sections| <= 4 &&
      forall i, j :: 0 <= i < j < |sections| ==> sections[i].Rank() < sections[j].Rank()
  {
  }

  /** A section is shown exactly for each truthy field, with that field's text. */
  lemma SectionsFollowFields(r: StructuredResult)
    ensures var sections := SectionsOf(r);
      (Utils.Truthy(r.title) <==> TitleSection(r.title.GetOr("")) in sections) &&
      (Utils.Truthy(r.description) <==> DescriptionSection(r.description.GetOr("")) in sections) &&
      (Utils.Truthy(r.advice) <==> AdviceSection(r.advice.GetOr("")) in sections) &&
      (r.lucky.Some? <==> |sections| > 0 && Last(sections).LuckySection?)
  {
  }

  /** The lucky block of `displayStructuredResult`, built with `+=`. */
  method LuckyLines(lucky: LuckyFields) returns (lines: seq<LuckyLine>)
    ensures lines == LuckyLinesOf(lucky)
  {
    lines := [];
    if Utils.Truthy(lucky.color) {
      lines := lines + [ColorLine(lucky.color.value)];
    }
    if TruthyNumber(lucky.number) {
      lines := lines + [NumberLine(lucky.number.value)];
    }
    if Utils.Truthy(lucky.item) {
      lines := lines + [ItemLine(lucky.item.value)];
    }
  }

  function LineRank(l: LuckyLine): nat
  {
    match l
    case ColorLine(_) => 0
    case NumberLine(_) => 1
    case ItemLine(_) => 2
  }

  /** `displayStructuredResult(result, container)`: the sections, appended one by one. */
  method DisplayStructuredResult(r: StructuredResult) returns (sections: seq<Section>)
    ensures sections == SectionsOf(r)
  {
    sections := [];
    if Utils.Truthy(r.title) {
      sections := sections + [TitleSection(r.title.value)];
    }
    if Utils.Truthy(r.description) {
      sections := sections + [DescriptionSection(r.description.value)];
    }
    if Utils.Truthy(r.advice) {
      sections := sections + [AdviceSection(r.advice.value)];
    }
    if r.lucky.Some? {
      var lines := LuckyLines(r.lucky.value);
      sections := sections + [LuckySection(lines)];
    }
  }

  /** `titles[result.type] || '占い結果'`. */
  function ResultTitle(fortuneType: string): (title: string)
    ensures fortuneType !in {"tarot", "zodiac", "omikuji", "numerology"} ==> title == "占い結果"
  {
    if fortuneType == "tarot" then "タロット占い結果"
    else if fortuneType == "zodiac" then "星座占い結果"
    else if fortuneType == "omikuji" then "おみくじ結果"
    else if fortuneType == "numerology" then "数秘術結果"
    else "占い結果"
  }

  /** What the result page shows. */
  datatype Body = Sections(sections: seq<Section>) | Paragraph(text: string)
  datatype Display =
    | GoHome                             // no stored reading
    | NoTarget                           // a target element is missing: nothing happens
    | Rendered(title: string, body: Body)

  const ResultKey := "fortuneResult"

  /** The page's `sessionStorage`, holding the parsed value of each key. */
  class SessionStore {
    var items: map<string, StoredReading>

    constructor()
      ensures items == map[]
    {
      items := map[];
    }

    /** `goToResult(fortuneType, result)`: the slot now holds this reading only, whatever it held. */
    method GoToResult(fortuneType: string, payload: Payload, timestamp: string)
      modifies this
      ensures items == old(items)[ResultKey := StoredReading(fortuneType, payload, timestamp)]
    {
      items := items[ResultKey := StoredReading(fortuneType, payload, timestamp)];
    }

    /**
     * `displayFortuneResult()`: with nothing stored it goes home; the
     * reading is rendered and removed only when both the container and the
     * title element exist.
     */
    method DisplayFortuneResult(hasContainer: bool, hasTitle: bool) returns (d: Display)
      modifies this
      ensures ResultKey !in old(items) ==> d == GoHome && items == old(items)
      ensures ResultKey in old(items) && !(hasContainer && hasTitle) ==> d == NoTarget && items == old(items)
      ensures ResultKey in old(items) && hasContainer && hasTitle ==>
        d.Rendered? && d.title == ResultTitle(old(items)[ResultKey].fortuneType) &&
        items == old(items) - {ResultKey}
      ensures d.Rendered? ==> d.body == match old(items)[ResultKey].payload
        case Structured(r) => Sections(SectionsOf(r))
        case Plain(text) => Paragraph(text)
    {
      if ResultKey !in items {
        return GoHome;
      }
      var stored := items[ResultKey];
      if !(hasContainer && hasTitle) {
        return NoTarget;
      }
      var body;
      match stored.payload {
        case Structured(r) =>
          var sections := DisplayStructuredResult(r);
          body := Sections(sections);
        case Plain(text) =>
          body := Paragraph(text);
      }
      d := Rendered(ResultTitle(stored.fortuneType), body);
      items := items - {ResultKey};
    }
  }

  /** A reading handed over and shown once is gone: showing the result page again goes home. */
  method ShownOnce(store: SessionStore, fortuneType: string, payload: Payload, timestamp: string)
    returns (first: Display, second: Display)
    modifies store
    ensures first.Rendered? && first.title == ResultTitle(fortuneType)
    ensures second == GoHome
  {
    store.GoToResult(fortuneType, payload, timestamp);
    first := store.DisplayFortuneResult(true, true);
    second := store.DisplayFortuneResult(true, true);
  }
}
