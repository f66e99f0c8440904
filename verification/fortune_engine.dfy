/**
 * The vanilla site's fortune engine: one object holding the fortune data
 * (tarot, zodiac, omikuji tables, each possibly missing), the readings it
 * performs and the result records it assembles. A missing table falls back
 * to the built-in default where it is used.
 */
module FortuneEngine {
  import opened Wrappers
  import opened Text
  import opened TextReplace
  import opened Calendar
  import opened LifePath
  import opened EngineData
  import NumerologyTable
  import Utils

  /** The `lucky` block of a result. */
  datatype Lucky = Lucky(color: string, number: int, item: string)

  /** A result record; `overall` exists on tarot results only, `lucky` is null on the error result. */
  datatype Reading = Reading(title: string, description: string, advice: string, overall: Option<string>, lucky: Option<Lucky>)

  /** One entry of a tarot reading. */
  datatype CardResult = CardResult(position: nat, card: TarotCardText, isReversed: bool, meaning: string)

  /** The three `Math.random()` draws `generateLuckyItems` makes. */
  datatype LuckyDraws = LuckyDraws(color: real, number: real, item: real)
  {
    predicate Valid()
    {
      0.0 <= color < 1.0 && 0.0 <= number < 1.0 && 0.0 <= item < 1.0
    }
  }

  /** `this.fortuneData`: each table is absent until loaded (a failed load stores null). */
  datatype FortuneData = FortuneData(tarot: Option<TarotTable>, zodiac: Option<ZodiacTable>, omikuji: Option<OmikujiTable>)

  // ---- result builders ----

  /** `generateErrorResult(message)`. */
  function ErrorResult(message: string): (r: Reading)
    ensures r.lucky.None? && r.description == message
  {
    Reading("エラー", message, "もう一度お試しください。", None, None)
  }

  /** The pool `generateLuckyItems` draws from: the one of the type, the tarot pool for any other type. */
  function PoolFor(fortuneType: string): (p: LuckyPool)
    ensures |p.colors| > 0 && |p.numbers| > 0 && |p.items| > 0
    ensures fortuneType !in LuckyPools ==> p == LuckyPools["tarot"]
  {
    if fortuneType in LuckyPools then LuckyPools[fortuneType] else LuckyPools["tarot"]
  }

  /** `generateLuckyItems(fortuneType)`: one random color, number and item from the type's pools. */
  function GenerateLuckyItems(fortuneType: string, draws: LuckyDraws): (l: Lucky)
    requires draws.Valid()
    ensures l.color in PoolFor(fortuneType).colors
    ensures l.number in PoolFor(fortuneType).numbers
    ensures l.item in PoolFor(fortuneType).items
  {
    var pool := PoolFor(fortuneType);
    Lucky(Utils.GetRandomElement(pool.colors, draws.color).value,
          Utils.GetRandomElement(pool.numbers, draws.number).value,
          Utils.GetRandomElement(pool.items, draws.item).value)
  }

  /** An unknown fortune type draws from the tarot pools. */
  lemma UnknownTypeUsesTarotPools(fortuneType: string, draws: LuckyDraws)
    requires draws.Valid()
    requires fortuneType !in {"tarot", "zodiac", "omikuji", "numerology"}
    ensures GenerateLuckyItems(fortuneType, draws) == GenerateLuckyItems("tarot", draws)
  {
    assert LuckyPools.Keys == {"tarot", "zodiac", "omikuji", "numerology"};
  }

  /** `generateZodiacResult(sign, fortune)`. */
  function GenerateZodiacResult(sign: ZodiacSign, fortune: FortuneLevel): (r: Reading)
    ensures r.title == sign.name + "の今日の運勢"
    ensures r.lucky == Some(Lucky(fortune.luckyColor, fortune.luckyNumber, fortune.luckyItem))
  {
    Reading(sign.name + "の今日の運勢",
      sign.description + "\n\n今日のあなたの運勢は" + fortune.level + "です。",
      fortune.advice, None,
      Some(Lucky(fortune.luckyColor, fortune.luckyNumber, fortune.luckyItem)))
  }

  /** `generateOmikujiResult(result)`: the entry's level is the title. */
  function GenerateOmikujiResult(entry: OmikujiEntry): (r: Reading)
    ensures r.title == entry.level && r.description == entry.description && r.advice == entry.advice
    ensures r.lucky == Some(Lucky(entry.luckyColor, entry.luckyNumber, entry.luckyItem))
  {
    Reading(entry.level, entry.description, entry.advice, None,
      Some(Lucky(entry.luckyColor, entry.luckyNumber, entry.luckyItem)))
  }

  /** `generateNumerologyResult(lifePathNumber, result)`: the lucky number is the life-path number. */
  function GenerateNumerologyResult(lifePathNumber: int, entry: NumerologyEntry): (r: Reading)
    ensures r.lucky.Some? && r.lucky.value.number == lifePathNumber
    ensures r.title == "ライフパスナンバー " + IntToString(lifePathNumber)
  {
    Reading("ライフパスナンバー " + IntToString(lifePathNumber), entry.description, entry.advice, None,
      Some(Lucky(entry.luckyColor, lifePathNumber, entry.luckyItem)))
  }

  // ---- the overall tone of a tarot reading ----

  datatype Tone = AllUpright | MostlyUpright | Balanced | Challenging

  function ToneMessage(t: Tone): string
  {
    match t
    case AllUpright => "全体的に非常に良い運勢です。自信を持って行動しましょう。"
    case MostlyUpright => "概ね良い運勢です。少し注意深く進めば成功できるでしょう。"
    case Balanced => "バランスの取れた運勢です。慎重に判断して進みましょう。"
    case Challenging => "挑戦的な時期ですが、困難を乗り越えれば成長できるでしょう。"
  }

  /** The orientation of each drawn card, in order. */
  function Orientations(results: seq<CardResult>): (os: seq<bool>)
    ensures |os| == |results|
    ensures forall i :: 0 <= i < |results| ==> os[i] == results[i].isReversed
  {
    seq(|results|, i requires 0 <= i < |results| => results[i].isReversed)
  }

  /** `filter(card => !card.isReversed).length`. */
  function UprightCount(reversed: seq<bool>): (n: nat)
    ensures n <= |reversed|
    ensures n == |reversed| <==> forall i :: 0 <= i < |reversed| ==> !reversed[i]
  {
    if |reversed| == 0 then 0
    else UprightCount(reversed[..|reversed| - 1]) + (if reversed[|reversed| - 1] then 0 else 1)
  }

  /**
   * The branch `generateTarotOverall` takes. `positiveCount > total / 2` is a
   * division of numbers, so it compares twice the count with the total.
   */
  function TarotTone(results: seq<CardResult>): (t: Tone)
    ensures var up, total := UprightCount(Orientations(results)), |results|;
      (t == AllUpright <==> up == total) &&
      (t == MostlyUpright <==> up < total && 2 * up > total) &&
      (t == Balanced <==> up < total && 2 * up == total) &&
      (t == Challenging <==> 2 * up < total)
  {
    var up, total := UprightCount(Orientations(results)), |results|;
    if up == total then AllUpright
    else if 2 * up > total then MostlyUpright
    else if 2 * up == total then Balanced
    else Challenging
  }

  /** `generateTarotOverall(cardResults)`. */
  function GenerateTarotOverall(results: seq<CardResult>): (overall: string)
    ensures var up, total := UprightCount(Orientations(results)), |results|;
      (overall == ToneMessage(AllUpright) <==> up == total) &&
      (overall == ToneMessage(MostlyUpright) <==> up < total && 2 * up > total) &&
      (overall == ToneMessage(Balanced) <==> up < total && 2 * up == total) &&
      (overall == ToneMessage(Challenging) <==> 2 * up < total)
  {
    var tone := TarotTone(results);
    ToneMessagesDiffer(tone, AllUpright);
    ToneMessagesDiffer(tone, MostlyUpright);
    ToneMessagesDiffer(tone, Balanced);
    ToneMessagesDiffer(tone, Challenging);
    ToneMessage(tone)
  }

  /** The four messages differ, so the message tells which branch was taken. */
  lemma ToneMessagesDiffer(a: Tone, b: Tone)
    ensures ToneMessage(a) == ToneMessage(b) <==> a == b
  {
    if a != b {
      assert ToneMessage(a)[0] != ToneMessage(b)[0];
    }
  }

  /** The upright count is the number of `false` entries, whatever their order. */
  lemma {:induction false} UprightCountIsMultiplicity(reversed: seq<bool>)
    ensures UprightCount(reversed) == multiset(reversed)[false]
  {
    if |reversed| > 0 {
      var init := reversed[..|reversed| - 1];
      UprightCountIsMultiplicity(init);
      assert reversed == init + [reversed[|reversed| - 1]];
      assert multiset(reversed) == multiset(init) + multiset{reversed[|reversed| - 1]};
    }
  }

  /** Only how many cards are upright matters for the overall tone, not their order. */
  lemma ToneIgnoresOrder(a: seq<CardResult>, b: seq<CardResult>)
    requires multiset(Orientations(a)) == multiset(Orientations(b))
    ensures TarotTone(a) == TarotTone(b)
  {
    UprightCountIsMultiplicity(Orientations(a));
    UprightCountIsMultiplicity(Orientations(b));
    assert |a| == |Orientations(a)| == |multiset(Orientations(a))|;
    assert |b| == |Orientations(b)| == |multiset(Orientations(b))|;
  }

  // ---- the tarot result text ----

  function OrientationLabel(isReversed: bool): string
  {
    if isReversed then "（逆位置）" else "（正位置）"
  }

  /** `positions[index]` of the three-card text; past the third card JavaScript prints "undefined". */
  function PositionLabel(index: nat): (text: string)
    ensures index < 3 ==> text == ["過去", "現在", "未来"][index]
  {
    if index < 3 then ["過去", "現在", "未来"][index] else "undefined"
  }

  /** The block one card adds to the multi-card interpretation. */
  function CardSection(index: nat, c: CardResult): (section: string)
    ensures "【" + PositionLabel(index) + "】" + c.card.name <= section
    ensures |section| >= |c.meaning| + 2 && section[|section| - |c.meaning| - 2..] == c.meaning + "\n\n"
  {
    "【" + PositionLabel(index) + "】" + c.card.name + OrientationLabel(c.isReversed) + "\n" + c.meaning + "\n\n"
  }

  /** The multi-card interpretation: one section per card, in drawing order. */
  function Sections(results: seq<CardResult>): (text: string)
    ensures text == "" <==> |results| == 0
    ensures |results| > 0 ==> text[0] == '【'
  {
    if |results| == 0 then ""
    else Sections(results[..|results| - 1]) + CardSection(|results| - 1, results[|results| - 1])
  }

  // ---- the tarot advice ----

  /** The four `Math.random()` draws of `generateTarotAdvice`: the template and one word of each list. */
  datatype AdviceDraws = AdviceDraws(template: real, action: real, emotion: real, timing: real)
  {
    predicate Valid()
    {
      0.0 <= template < 1.0 && 0.0 <= action < 1.0 && 0.0 <= emotion < 1.0 && 0.0 <= timing < 1.0
    }
  }

  /** The three templates, each written as the text around its placeholders. */
  const AdviceTemplates: seq<string> := [
    "カードが示すように、" + "{action}" + "することが重要です。",
    "{emotion}" + "を大切にして、" + "{action}" + "してください。",
    "今は" + "{timing}" + "の時期です。" + "{action}" + "することをお勧めします。"
  ]
  const Actions: seq<string> := ["前向きに進む", "慎重に考える", "新しい挑戦をする", "人との繋がりを大切にする"]
  const Emotions: seq<string> := ["直感", "情熱", "冷静さ", "優しさ"]
  const Timings: seq<string> := ["行動する", "待つ", "準備する", "決断する"]

  /** The three `replace` calls, in the order the source makes them. */
  function FillTemplate(template: string, action: string, emotion: string, timing: string): string
  {
    ReplaceFirst(ReplaceFirst(ReplaceFirst(template, "{action}", action), "{emotion}", emotion), "{timing}", timing)
  }

  /** The three advice sentences written out with the chosen words in place. */
  function AdviceSentences(action: string, emotion: string, timing: string): (sentences: seq<string>)
    ensures |sentences| == |AdviceTemplates|
  {
    ["カードが示すように、" + action + "することが重要です。",
     emotion + "を大切にして、" + action + "してください。",
     "今は" + timing + "の時期です。" + action + "することをお勧めします。"]
  }

  /** A text that starts with the placeholder `p` has it replaced at once. */
  lemma ReplaceLeadingPlaceholder(p: string, rest: string, word: string)
    requires |p| > 0
    ensures ReplaceFirst(p + rest, p, word) == word + rest
  {
    assert (p + rest)[..|p|] == p;
    assert (p + rest)[|p|..] == rest;
  }

  /** Past a prefix without `{`, the first placeholder `p` is replaced. */
  lemma ReplacePlaceholderAfter(a: string, p: string, b: string, word: string)
    requires |p| > 0 && p[0] !in a
    ensures ReplaceFirst(a + (p + b), p, word) == a + (word + b)
  {
    ReplaceSkipsFreePrefix(a, p + b, p, word);
    ReplaceLeadingPlaceholder(p, b, word);
  }

  /** A template `a + "{action}" + b` (the first one). */
  lemma FillActionTemplate(a: string, b: string, action: string, emotion: string, timing: string)
    requires '{' !in a && '{' !in b && '{' !in action
    ensures FillTemplate(a + "{action}" + b, action, emotion, timing) == a + action + b
  {
    assert a + "{action}" + b == a + ("{action}" + b);
    ReplacePlaceholderAfter(a, "{action}", b, action);
    var filled := a + (action + b);
    assert filled == a + action + b;
    ReplaceFreeText(filled, "{emotion}", emotion);
    ReplaceFreeText(filled, "{timing}", timing);
  }

  /** In `"{emotion}" + a + "{action}" + b` the action placeholder is found past the emotion one. */
  lemma ReplaceActionAfterEmotion(a: string, b: string, action: string)
    requires '{' !in a
    ensures ReplaceFirst("{emotion}" + (a + ("{action}" + b)), "{action}", action) == "{emotion}" + (a + (action + b))
  {
    assert "{emotion}"[..8] != "{action}" by {
      assert "{emotion}"[..8][1] == 'e';
    }
    assert '{' !in "{emotion}"[1..];
    ReplaceSkipsOtherText("{emotion}", a + ("{action}" + b), "{action}", action);
    ReplacePlaceholderAfter(a, "{action}", b, action);
  }

  /** A template `"{emotion}" + a + "{action}" + b` (the second one). */
  lemma FillEmotionTemplate(a: string, b: string, action: string, emotion: string, timing: string)
    requires '{' !in a && '{' !in b && '{' !in action && '{' !in emotion
    ensures FillTemplate("{emotion}" + a + "{action}" + b, action, emotion, timing) == emotion + a + action + b
  {
    assert "{emotion}" + a + "{action}" + b == "{emotion}" + (a + ("{action}" + b));
    ReplaceActionAfterEmotion(a, b, action);
    var rest := a + (action + b);
    ReplaceLeadingPlaceholder("{emotion}", rest, emotion);
    ReplaceFreeText(emotion + rest, "{timing}", timing);
    assert emotion + rest == emotion + a + action + b;
  }

  /** In `c + "{timing}" + a + "{action}" + b` the action placeholder is found past the timing one. */
  lemma ReplaceActionAfterTiming(c: string, a: string, b: string, action: string)
    requires '{' !in c && '{' !in a
    ensures ReplaceFirst(c + ("{timing}" + (a + ("{action}" + b))), "{action}", action) ==
      c + ("{timing}" + (a + (action + b)))
  {
    assert "{timing}"[..8] != "{action}" by {
      assert "{timing}"[..8][1] == 't';
    }
    assert '{' !in "{timing}"[1..];
    ReplaceSkipsFreePrefix(c, "{timing}" + (a + ("{action}" + b)), "{action}", action);
    ReplaceSkipsOtherText("{timing}", a + ("{action}" + b), "{action}", action);
    ReplacePlaceholderAfter(a, "{action}", b, action);
  }

  /** Text `"{timing}" + rest` with no other `{` has no emotion placeholder. */
  lemma NoEmotionAtTiming(rest: string, emotion: string)
    requires '{' !in rest
    ensures ReplaceFirst("{timing}" + rest, "{emotion}", emotion) == "{timing}" + rest
  {
    var head := "{timing}" + rest;
    if |head| >= 9 {
      assert head[1] == 't' && "{emotion}"[1] == 'e';
      assert head[..9][1] == head[1];
      ReplaceSkipsHead(head, "{emotion}", emotion);
      assert head[1..] == "timing}" + rest;
      ReplaceFreeText("timing}" + rest, "{emotion}", emotion);
    }
  }

  /** A template `c + "{timing}" + a + "{action}" + b` (the third one). */
  lemma FillTimingTemplate(c: string, a: string, b: string, action: string, emotion: string, timing: string)
    requires '{' !in c && '{' !in a && '{' !in b && '{' !in action && '{' !in timing
    ensures FillTemplate(c + "{timing}" + a + "{action}" + b, action, emotion, timing) == c + timing + a + action + b
  {
    assert c + "{timing}" + a + "{action}" + b == c + ("{timing}" + (a + ("{action}" + b)));
    ReplaceActionAfterTiming(c, a, b, action);
    var rest := a + (action + b);
    ReplaceSkipsFreePrefix(c, "{timing}" + rest, "{emotion}", emotion);
    NoEmotionAtTiming(rest, emotion);
    ReplacePlaceholderAfter(c, "{timing}", rest, timing);
    assert c + (timing + rest) == c + timing + a + action + b;
  }

  /** With words free of `{`, no sentence has a placeholder left. */
  lemma SentencesHaveNoPlaceholder(i: nat, action: string, emotion: string, timing: string)
    requires i < |AdviceTemplates|
    requires '{' !in action && '{' !in emotion && '{' !in timing
    ensures '{' !in AdviceSentences(action, emotion, timing)[i]
  {
    assert '{' !in "カードが示すように、" && '{' !in "することが重要です。";
    assert '{' !in "を大切にして、" && '{' !in "してください。";
    assert '{' !in "今は" && '{' !in "の時期です。" && '{' !in "することをお勧めします。";
  }

  /** Filling a template with words free of `{` gives the written-out sentence. */
  lemma FillTemplateWritesSentence(i: nat, action: string, emotion: string, timing: string)
    requires i < |AdviceTemplates|
    requires '{' !in action && '{' !in emotion && '{' !in timing
    ensures FillTemplate(AdviceTemplates[i], action, emotion, timing) == AdviceSentences(action, emotion, timing)[i]
  {
    TemplatesAreSplitAtPlaceholders();
    if i == 0 {
      FillActionTemplate("カードが示すように、", "することが重要です。", action, emotion, timing);
    } else if i == 1 {
      FillEmotionTemplate("を大切にして、", "してください。", action, emotion, timing);
    } else {
      FillTimingTemplate("今は", "の時期です。", "することをお勧めします。", action, emotion, timing);
    }
  }

  /** The texts around the placeholders have no other `{`. */
  lemma TemplatesAreSplitAtPlaceholders()
    ensures '{' !in "カードが示すように、" && '{' !in "することが重要です。"
    ensures '{' !in "を大切にして、" && '{' !in "してください。"
    ensures '{' !in "今は" && '{' !in "の時期です。" && '{' !in "することをお勧めします。"
  {
  }

  /** `generateTarotAdvice(cardResults)`: a random template filled with a random action, emotion and timing; the cards are not read. */
  function GenerateTarotAdvice(draws: AdviceDraws): (advice: string)
    requires draws.Valid()
    ensures var action, emotion, timing :=
        Actions[Utils.RandomIndex(|Actions|, draws.action)],
        Emotions[Utils.RandomIndex(|Emotions|, draws.emotion)],
        Timings[Utils.RandomIndex(|Timings|, draws.timing)];
      advice == AdviceSentences(action, emotion, timing)[Utils.RandomIndex(|AdviceTemplates|, draws.template)]
    ensures '{' !in advice
  {
    var template := Utils.GetRandomElement(AdviceTemplates, draws.template).value;
    var action := Utils.GetRandomElement(Actions, draws.action).value;
    var emotion := Utils.GetRandomElement(Emotions, draws.emotion).value;
    var timing := Utils.GetRandomElement(Timings, draws.timing).value;
    assert '{' !in action && '{' !in emotion && '{' !in timing;
    FillTemplateWritesSentence(Utils.RandomIndex(|AdviceTemplates|, draws.template), action, emotion, timing);
    SentencesHaveNoPlaceholder(Utils.RandomIndex(|AdviceTemplates|, draws.template), action, emotion, timing);
    FillTemplate(template, action, emotion, timing)
  }

  /** `generateTarotResult(cardResults)`, with the draws its advice and lucky block make. */
  function GenerateTarotResult(results: seq<CardResult>, adviceDraws: AdviceDraws, luckyDraws: LuckyDraws): (r: Reading)
    requires adviceDraws.Valid() && luckyDraws.Valid()
    ensures r.title == "タロット占い結果" && r.advice == GenerateTarotAdvice(adviceDraws)
    ensures r.lucky == Some(GenerateLuckyItems("tarot", luckyDraws))
    ensures r.overall == Some(GenerateTarotOverall(results))
    ensures |results| == 1 ==> (r.description ==
      "選ばれたカードは「" + results[0].card.name + "」です。" + OrientationLabel(results[0].isReversed) + "\n\n" + results[0].meaning)
    ensures |results| != 1 ==> r.description == Sections(results)
  {
    var interpretation :=
      if |results| == 1 then
        "選ばれたカードは「" + results[0].card.name + "」です。" + OrientationLabel(results[0].isReversed) + "\n\n" + results[0].meaning
      else Sections(results);
    Reading("タロット占い結果", interpretation, GenerateTarotAdvice(adviceDraws), Some(GenerateTarotOverall(results)),
      Some(GenerateLuckyItems("tarot", luckyDraws)))
  }

  /** The sections of the first `k` cards are a prefix of the whole text. */
  lemma {:induction false} SectionsPrefix(results: seq<CardResult>, k: nat)
    requires k <= |results|
    ensures Sections(results[..k]) <= Sections(results)
    decreases |results|
  {
    if k < |results| {
      var init := results[..|results| - 1];
      assert init[..k] == results[..k];
      SectionsPrefix(init, k);
    } else {
      assert results[..k] == results;
    }
  }

  /** The section of the first card opens with the past label and the card's name. */
  lemma FirstSectionOpening(c: CardResult)
    ensures "【過去】" + c.card.name <= CardSection(0, c)
  {
    var head := "【過去】" + c.card.name;
    var rest := OrientationLabel(c.isReversed) + "\n" + c.meaning + "\n\n";
    assert CardSection(0, c) == head + rest;
  }

  /** With several cards, the text opens with the first card under the label "過去" (past). */
  lemma SpreadTextStartsWithPast(results: seq<CardResult>, adviceDraws: AdviceDraws, luckyDraws: LuckyDraws)
    requires |results| >= 2 && adviceDraws.Valid() && luckyDraws.Valid()
    ensures "【過去】" + results[0].card.name <= GenerateTarotResult(results, adviceDraws, luckyDraws).description
  {
    SectionsPrefix(results, 1);
    assert results[..1][..0] == [];
    assert Sections(results[..1]) == CardSection(0, results[0]);
    FirstSectionOpening(results[0]);
  }

  // ---- the zodiac fortune ----

  /**
   * JavaScript's `n % 5`: the remainder takes the sign of the dividend, so
   * for a negative dividend it is Dafny's (Euclidean) remainder less five,
   * or zero.
   */
  function JsRemainder5(n: int): (r: int)
    ensures n >= 0 ==> r == n % 5
    ensures n < 0 ==> -5 < r <= 0 && r == (if n % 5 == 0 then 0 else n % 5 - 5)
  {
    if n >= 0 then n % 5 else -((-n) % 5)
  }

  /**
   * `calculateZodiacFortune(sign, date)` for the date's day of the year:
   * level number `(dayOfYear + sign.id) % 5`; nothing when that index is
   * negative (JavaScript then reads `undefined`).
   */
  function CalculateZodiacFortune(signId: int, dayOfYear: int): (fortune: Option<FortuneLevel>)
    ensures dayOfYear + signId >= 0 ==> fortune == Some(FortuneLevels[(dayOfYear + signId) % 5])
    ensures fortune.None? <==> dayOfYear + signId < 0 && (dayOfYear + signId) % 5 != 0
    ensures fortune.Some? ==> fortune == Some(FortuneLevels[(dayOfYear + signId) % 5])
    ensures fortune.Some? ==> fortune.value in FortuneLevels
  {
    var index := JsRemainder5(dayOfYear + signId);
    if 0 <= index < 5 then Some(FortuneLevels[index]) else None
  }

  /** The level repeats every five days. */
  lemma ZodiacFortuneRepeats(signId: int, dayOfYear: int)
    requires dayOfYear + signId >= 0
    ensures CalculateZodiacFortune(signId, dayOfYear + 5) == CalculateZodiacFortune(signId, dayOfYear)
  {
    assert (dayOfYear + 5 + signId) % 5 == (dayOfYear + signId) % 5;
  }

  /** The levels a sign gets on five consecutive days starting at `dayOfYear`. */
  function FiveDays(signId: int, dayOfYear: int): (days: seq<Option<FortuneLevel>>)
    ensures |days| == 5
  {
    seq(5, k => CalculateZodiacFortune(signId, dayOfYear + k))
  }

  /** Five consecutive days show a sign all five levels. */
  lemma FiveDaysShowEveryLevel(signId: int, dayOfYear: int)
    requires dayOfYear + signId >= 0
    ensures forall level :: level in FortuneLevels ==> Some(level) in FiveDays(signId, dayOfYear)
  {
    var a := dayOfYear + signId;
    var days := FiveDays(signId, dayOfYear);
    forall level | level in FortuneLevels
      ensures Some(level) in days
    {
      var j :| 0 <= j < 5 && FortuneLevels[j] == level;
      var k := (j - a % 5 + 5) % 5;
      assert (dayOfYear + k + signId) % 5 == j;
      assert days[k] == CalculateZodiacFortune(signId, dayOfYear + k);
    }
  }

  /** The first sign with the given name (`signs.find(s => s.name === name)`). */
  function FindSign(signs: seq<ZodiacSign>, name: string): (r: Option<ZodiacSign>)
    ensures r.None? <==> forall i :: 0 <= i < |signs| ==> signs[i].name != name
    ensures r.Some? ==> r.value in signs && r.value.name == name
  {
    if |signs| == 0 then None
    else if signs[0].name == name then Some(signs[0])
    else
      var rest := FindSign(signs[1..], name);
      assert forall i :: 1 <= i < |signs| ==> signs[i] == signs[1..][i - 1];
      rest
  }

  /** A reading's card entries must name cards of the table. */
  predicate AllInRange(selected: seq<int>, count: nat)
  {
    forall i :: 0 <= i < |selected| ==> 0 <= selected[i] < count
  }

  /** The entry `performTarotReading` builds for the card selected `position`-th. */
  function CardEntry(cards: seq<TarotCardText>, cardIndex: int, position: nat, isReversed: bool): (e: CardResult)
    requires 0 <= cardIndex < |cards|
    ensures e.position == position && e.card == cards[cardIndex] && e.isReversed == isReversed
    ensures e.meaning == if isReversed then cards[cardIndex].reversedMeaning else cards[cardIndex].uprightMeaning
  {
    CardResult(position, cards[cardIndex], isReversed,
      if isReversed then cards[cardIndex].reversedMeaning else cards[cardIndex].uprightMeaning)
  }

  /** The object the site creates once and every page uses. */
  class Engine {
    var fortuneData: FortuneData

    /** `constructor`: starts with no data; the load it starts is asynchronous and is `LoadFortuneData`. */
    constructor()
      ensures fortuneData == FortuneData(None, None, None)
    {
      fortuneData := FortuneData(None, None, None);
    }

    /**
     * `loadFortuneData()`: stores what each `loadJSON` gave back, null on a
     * failed fetch. `loadJSON` catches its own errors, so the defaults are
     * never stored here.
     */
    method LoadFortuneData(tarot: Option<TarotTable>, zodiac: Option<ZodiacTable>, omikuji: Option<OmikujiTable>)
      modifies this
      ensures fortuneData == FortuneData(tarot, zodiac, omikuji)
    {
      fortuneData := FortuneData(tarot, zodiac, omikuji);
    }

    /** `loadDefaultData()`. */
    method LoadDefaultData()
      modifies this
      ensures fortuneData == FortuneData(Some(DefaultTarot), Some(DefaultZodiac), Some(DefaultOmikuji))
    {
      fortuneData := FortuneData(Some(DefaultTarot), Some(DefaultZodiac), Some(DefaultOmikuji));
    }

    /** `this.fortuneData.tarot || this.getDefaultTarotData()`. */
    function TarotData(): (t: TarotTable)
      reads this
      ensures fortuneData.tarot.None? ==> t == DefaultTarot
    {
      fortuneData.tarot.GetOr(DefaultTarot)
    }

    function ZodiacData(): (z: ZodiacTable)
      reads this
      ensures fortuneData.zodiac.None? ==> z == DefaultZodiac
    {
      fortuneData.zodiac.GetOr(DefaultZodiac)
    }

    function OmikujiData(): (o: OmikujiTable)
      reads this
      ensures fortuneData.omikuji.None? ==> o == DefaultOmikuji
    {
      fortuneData.omikuji.GetOr(DefaultOmikuji)
    }

    /**
     * `performTarotReading(selectedCards)`: one entry per selected index, in
     * selection order; `reversals[i]` is the orientation coin of the i-th card.
     * An index with no card makes the source throw (a TypeError).
     */
    method PerformTarotReading(selectedCards: seq<int>, reversals: seq<bool>, adviceDraws: AdviceDraws, draws: LuckyDraws)
      returns (r: Result<Reading>, results: seq<CardResult>)
      requires |reversals| == |selectedCards| && adviceDraws.Valid() && draws.Valid()
      ensures r.Ok? <==> AllInRange(selectedCards, |TarotData().cards|)
      ensures r.Ok? ==> |results| == |selectedCards|
      ensures r.Ok? ==> forall i :: 0 <= i < |results| ==>
        results[i] == CardEntry(TarotData().cards, selectedCards[i], i, reversals[i])
      ensures r.Ok? ==> r.value == GenerateTarotResult(results, adviceDraws, draws)
    {
      var cards := TarotData().cards;
      results := [];
      for position := 0 to |selectedCards|
        invariant |results| == position
        invariant AllInRange(selectedCards[..position], |cards|)
        invariant forall i :: 0 <= i < position ==> results[i] == CardEntry(cards, selectedCards[i], i, reversals[i])
      {
        var cardIndex := selectedCards[position];
        if !(0 <= cardIndex < |cards|) {
          return Err("TypeError: card is undefined"), results;
        }
        results := results + [CardEntry(cards, cardIndex, position, reversals[position])];
      }
      assert selectedCards[..|selectedCards|] == selectedCards;
      r := Ok(GenerateTarotResult(results, adviceDraws, draws));
    }

    /**
     * `performZodiacReading(zodiacSign)` on the day `dayOfYear`: the error
     * result when no sign has that name; a thrown TypeError when the level
     * index is negative; otherwise the zodiac record of the sign with the
     * level of the day.
     */
    function PerformZodiacReading(signName: string, dayOfYear: int): (r: Result<Reading>)
      reads this
      ensures FindSign(ZodiacData().signs, signName).None? ==> r == Ok(ErrorResult("星座が見つかりません"))
      ensures (forall i :: 0 <= i < |ZodiacData().signs| ==> ZodiacData().signs[i].name != signName) ==> r.Ok? && r.value.lucky.None?
      ensures r.Ok? && r.value.lucky.Some? ==>
        exists sign :: sign in ZodiacData().signs && sign.name == signName && r.value.title == signName + "の今日の運勢"
      ensures var found := FindSign(ZodiacData().signs, signName);
        found.Some? ==> var n := dayOfYear + found.value.id;
          (r.Err? <==> n < 0 && n % 5 != 0) &&
          (r.Ok? ==> r == Ok(GenerateZodiacResult(found.value, FortuneLevels[n % 5])))
    {
      match FindSign(ZodiacData().signs, signName)
      case None => Ok(ErrorResult("星座が見つかりません"))
      case Some(sign) =>
        var fortune := CalculateZodiacFortune(sign.id, dayOfYear);
        if fortune.None? then Err("TypeError: fortune is undefined")
        else
          assert fortune.value == FortuneLevels[(dayOfYear + sign.id) % 5];
          Ok(GenerateZodiacResult(sign, fortune.value))
    }

    /** `performOmikujiReading()`: a random entry of the omikuji table; an empty table throws. */
    function PerformOmikujiReading(u: real): (r: Result<Reading>)
      reads this
      requires 0.0 <= u < 1.0
      ensures r.Ok? <==> |OmikujiData().results| > 0
      ensures r.Ok? ==> exists e :: e in OmikujiData().results && r.value == GenerateOmikujiResult(e)
    {
      match Utils.GetRandomElement(OmikujiData().results, u)
      case None => Err("TypeError: result is undefined")
      case Some(entry) => Ok(GenerateOmikujiResult(entry))
    }

    /** `calculateLifePathNumber(birthDate)`: the engine's own copy of the reduction loop. */
    method CalculateLifePathNumber(birth: Date) returns (lifePath: int)
      ensures lifePath == Reduce(birth.year + birth.month + birth.day)
    {
      var sum := birth.year + birth.month + birth.day;
      while sum > 9 && sum != 11 && sum != 22 && sum != 33
        invariant Reduce(sum) == Reduce(birth.year + birth.month + birth.day)
        decreases if sum < 0 then 0 else sum
      {
        sum := DigitSumOfText(sum);
      }
      lifePath := sum;
    }

    /**
     * `performNumerologyReading(birthDate)`: the life-path number and its
     * numerology entry; a number without an entry makes the source throw.
     */
    method PerformNumerologyReading(birth: Date) returns (r: Result<Reading>)
      ensures var n := Reduce(birth.year + birth.month + birth.day);
        (r.Ok? <==> n in NumerologyData) &&
        (r.Ok? ==> r.value == GenerateNumerologyResult(n, NumerologyData[n]))
      ensures birth.year + birth.month + birth.day >= 1 ==> (r.Ok? && r.value.lucky.Some? &&
        r.value.lucky.value.number == Reduce(birth.year + birth.month + birth.day))
    {
      var lifePath := CalculateLifePathNumber(birth);
      NumerologyDataCoversLifePaths();
      if lifePath in NumerologyData {
        r := Ok(GenerateNumerologyResult(lifePath, NumerologyData[lifePath]));
      } else {
        r := Err("TypeError: result is undefined");
      }
    }
  }

  /** `getNumerologyData()` has an entry for exactly the life-path numbers. */
  lemma NumerologyDataCoversLifePaths()
    ensures forall n :: n in NumerologyData <==> IsLifePathNumber(n)
  {
    assert NumerologyData.Keys == {1, 2, 3, 4, 5, 6, 7, 8, 9, 11, 22, 33};
  }

  /** The engine's numerology texts are those of the framework site's profile table. */
  lemma NumerologyDataMatchesProfiles(n: int)
    ensures n in NumerologyData <==> n in NumerologyTable.Profiles
    ensures n in NumerologyData ==>
      var e, p := NumerologyData[n], NumerologyTable.Profiles[n];
      e.description == p.description && e.advice == p.advice && e.luckyColor == p.luckyColor && e.luckyItem == p.luckyItem
  {
    NumerologyDataCoversLifePaths();
    NumerologyTable.ProfilesCoverLifePaths();
  }

  /**
   * The tarot page offers card ids 0 to 21, but the default table has ten
   * cards: on an engine whose tarot data never loaded, picking card 10 or
   * later makes the reading throw.
   */
  method DefaultTableRejectsLaterCards(cardId: int) returns (r: Result<Reading>)
    requires 10 <= cardId <= 21
    ensures r.Err?
  {
    var engine := new Engine();
    var results;
    r, results := engine.PerformTarotReading([cardId], [false], AdviceDraws(0.0, 0.0, 0.0, 0.0), LuckyDraws(0.0, 0.0, 0.0));
  }
}
