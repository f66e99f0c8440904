/**
 * The framework site's result page: it reads the result a fortune page
 * stored under `<type>-result`, shows it (without removing it), and can add
 * it to a history of at most ten entries, newest first.
 */
module ResultPage {
  import opened Wrappers
  import opened NextRecords

  const HistoryKey := "fortune-history"
  const HistoryLimit := 10

  /** The storage key of a fortune type's result. */
  function ResultKey(fortuneType: string): string
  {
    fortuneType + "-result"
  }

  /** `history.unshift(entry); history.slice(0, 10)`. */
  function CapHistory(entry: HistoryEntry, history: seq<HistoryEntry>): (capped: seq<HistoryEntry>)
    ensures 1 <= |capped| <= HistoryLimit
    ensures capped[0] == entry
  {
    var grown := [entry] + history;
    if |grown| <= HistoryLimit then grown else grown[..HistoryLimit]
  }

  /**
   * The new entry comes first, the earlier entries follow in their old
   * order, and only entries past the tenth place are dropped.
   */
  lemma CapHistoryKeepsOrder(entry: HistoryEntry, history: seq<HistoryEntry>)
    ensures var capped := CapHistory(entry, history);
      capped[1..] <= history &&
      |capped| == if |history| < HistoryLimit then |history| + 1 else HistoryLimit
  {
    var grown := [entry] + history;
    assert grown[1..] == history;
    if |grown| > HistoryLimit {
      assert grown[..HistoryLimit][1..] == history[..HistoryLimit - 1];
    }
  }

  /** With ten entries already saved, the oldest one (the last) drops out. */
  lemma FullHistoryDropsOldest(entry: HistoryEntry, history: seq<HistoryEntry>)
    requires |history| == HistoryLimit
    ensures CapHistory(entry, history) == [entry] + history[..HistoryLimit - 1]
  {
    assert ([entry] + history)[..HistoryLimit] == [entry] + history[..HistoryLimit - 1];
  }

  /** Saving twice puts the second entry first and the first one second. */
  lemma SavedTwice(first: HistoryEntry, second: HistoryEntry, history: seq<HistoryEntry>)
    ensures var h := CapHistory(second, CapHistory(first, history));
      |h| >= 2 && h[0] == second && h[1] == first
  {
    CapHistoryKeepsOrder(second, CapHistory(first, history));
  }

  /** `getFortuneTypeInfo(type)`'s entry, without the icon's styling. */
  datatype TypeInfo = TypeInfo(title: string, icon: string, color: string)

  /** `getFortuneTypeInfo(type)`: the entry of a known type, a generic one otherwise. */
  function GetFortuneTypeInfo(fortuneType: string): (info: TypeInfo)
    ensures fortuneType !in {"tarot", "zodiac", "omikuji", "numerology"} ==>
      info == TypeInfo("占い結果", "✨", "from-gold-400 to-gold-600")
    ensures fortuneType in {"tarot", "zodiac", "omikuji", "numerology"} ==> info.title != "占い結果"
  {
    if fortuneType == "tarot" then TypeInfo("タロット占い", "🔮", "from-purple-500 to-blue-500")
    else if fortuneType == "zodiac" then TypeInfo("星座占い", "⭐", "from-blue-500 to-cyan-500")
    else if fortuneType == "omikuji" then TypeInfo("おみくじ", "🎋", "from-green-500 to-teal-500")
    else if fortuneType == "numerology" then TypeInfo("数秘術", "🔢", "from-orange-500 to-red-500")
    else TypeInfo("占い結果", "✨", "from-gold-400 to-gold-600")
  }

  /** What the page renders. */
  datatype View = Spinner | NotFound | Shown(result: Json, info: TypeInfo)

  /** The page's state `result`, `fortuneType` and `isLoading`. */
  class ResultView {
    var result: Option<Json>
    var fortuneType: Option<string>
    var isLoading: bool

    constructor()
      ensures result.None? && fortuneType.None? && isLoading
    {
      result := None;
      fortuneType := None;
      isLoading := true;
    }

    /**
     * The effect that runs with the query's `type`: without one it returns
     * before clearing `isLoading`; otherwise it reads `<type>-result`, keeps
     * the parsed value when the text parses, and never removes the key.
     */
    method LoadResult(typeParam: Option<string>, storage: LocalStorage)
      modifies this
      ensures typeParam.None? || typeParam == Some("") ==>
        result == old(result) && fortuneType == old(fortuneType) && isLoading == old(isLoading)
      ensures typeParam.Some? && typeParam.value != "" ==>
        fortuneType == typeParam && !isLoading &&
        result == (if ResultKey(typeParam.value) in storage.items && storage.items[ResultKey(typeParam.value)].Parsed?
                   then Some(storage.items[ResultKey(typeParam.value)].value)
                   else old(result))
    {
      if typeParam.None? || typeParam.value == "" {
        return;
      }
      var fortuneTypeValue := typeParam.value;
      fortuneType := Some(fortuneTypeValue);
      var storageKey := ResultKey(fortuneTypeValue);
      if storageKey in storage.items {
        match storage.items[storageKey] {
          case Parsed(value) => result := Some(value);
          case Unparseable =>
        }
      }
      isLoading := false;
    }

    /** The page's three views: spinner while loading, "not found" without a truthy result or type. */
    function Render(): (v: View)
      reads this
      ensures isLoading <==> v == Spinner
      ensures v.Shown? ==> (result.Some? && result.value.Truthy() && fortuneType.Some? &&
        v.result == result.value && v.info == GetFortuneTypeInfo(fortuneType.value))
      ensures !isLoading && (result.None? || !result.value.Truthy() || fortuneType.None?) ==> v == NotFound
    {
      if isLoading then Spinner
      else if result.None? || !result.value.Truthy() || fortuneType.None? then NotFound
      else Shown(result.value, GetFortuneTypeInfo(fortuneType.value))
    }

    /**
     * `handleSaveResult()` with `id` and `createdAt` standing for the clock:
     * nothing without a result and a type; a history that does not parse or
     * is not a list makes it throw (Err), leaving storage as it was.
     */
    method HandleSaveResult(storage: LocalStorage, id: string, createdAt: string) returns (r: Result<()>)
      modifies storage
      ensures (result.None? || !result.value.Truthy() || fortuneType.None?) ==> storage.items == old(storage.items) && r.Ok?
      ensures result.Some? && result.value.Truthy() && fortuneType.Some? ==>
        var entry := HistoryEntry(id, fortuneType.value, result.value, createdAt);
        (HistoryKey !in old(storage.items) ==>
          r.Ok? && storage.items == old(storage.items)[HistoryKey := Parsed(HistoryJson([entry]))]) &&
        (HistoryKey in old(storage.items) && old(storage.items)[HistoryKey].Parsed? && old(storage.items)[HistoryKey].value.HistoryJson? ==>
          r.Ok? && storage.items == old(storage.items)[HistoryKey :=
            Parsed(HistoryJson(CapHistory(entry, old(storage.items)[HistoryKey].value.entries)))]) &&
        (HistoryKey in old(storage.items) && !(old(storage.items)[HistoryKey].Parsed? && old(storage.items)[HistoryKey].value.HistoryJson?) ==>
          r.Err? && storage.items == old(storage.items))
    {
      if result.None? || !result.value.Truthy() || fortuneType.None? {
        return Ok(());
      }
      var history: seq<HistoryEntry>;
      if HistoryKey !in storage.items {
        history := [];
      } else {
        match storage.items[HistoryKey] {
          case Unparseable => return Err("SyntaxError: history does not parse");
          case Parsed(value) =>
            if !value.HistoryJson? {
              return Err("TypeError: history.unshift is not a function");
            }
            history := value.entries;
        }
      }
      var newEntry := HistoryEntry(id, fortuneType.value, result.value, createdAt);
      ghost var previous := history;
      history := [newEntry] + history;
      assert previous == [] ==> history == [newEntry];
      var limitedHistory := if |history| <= HistoryLimit then history else history[..HistoryLimit];
      storage.SetItem(HistoryKey, HistoryJson(limitedHistory));
      r := Ok(());
    }
  }

  /**
   * The stored result is read, not taken: opening the result page twice for
   * the same type shows the same result both times.
   */
  method RevisitShowsSameResult(storage: LocalStorage, fortuneType: string) returns (first: View, second: View)
    requires fortuneType != ""
    ensures first == second
    ensures ResultKey(fortuneType) !in storage.items ==> first == NotFound
  {
    var page1 := new ResultView();
    page1.LoadResult(Some(fortuneType), storage);
    first := page1.Render();
    var page2 := new ResultView();
    page2.LoadResult(Some(fortuneType), storage);
    second := page2.Render();
  }

  /** Without a `type` in the query the spinner never goes away. */
  method NoTypeKeepsSpinner(storage: LocalStorage) returns (v: View)
    ensures v == Spinner
  {
    var page := new ResultView();
    page.LoadResult(None, storage);
    v := page.Render();
  }

  /** A stored result that does not parse leads to the "not found" view. */
  method UnparseableIsNotFound(storage: LocalStorage, fortuneType: string) returns (v: View)
    requires fortuneType != ""
    requires ResultKey(fortuneType) in storage.items && storage.items[ResultKey(fortuneType)] == Unparseable
    ensures v == NotFound
  {
    var page := new ResultView();
    page.LoadResult(Some(fortuneType), storage);
    v := page.Render();
  }
}
