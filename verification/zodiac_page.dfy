/**
 * The framework site's zodiac page: a sign is picked, and the reading of
 * the day is drawn from fixed message lists and stored for the result page.
 * The signs come from a table that is a parameter here.
 */
module ZodiacPageNext {
  import opened Wrappers
  import opened NextRecords
  import Utils

  const FortuneLevels: seq<string> := ["最高", "好調", "普通", "注意", "低調"]
  const LoveMessages: seq<string> := [
    "素敵な出会いが期待できます",
    "恋人との関係が深まります",
    "片思いが実るかもしれません",
    "相手の気持ちを理解しましょう",
    "焦らず自然体でいることが大切"
  ]
  const WorkMessages: seq<string> := [
    "重要なプロジェクトで活躍できます",
    "チームワークが成功の鍵です",
    "新しいアイデアが評価されます",
    "基本に立ち返って取り組みましょう",
    "先輩のアドバイスを聞きましょう"
  ]
  const HealthMessages: seq<string> := [
    "体調絶好調です",
    "適度な運動を心がけましょう",
    "バランスの良い食事を",
    "十分な休息を取りましょう",
    "無理は禁物です"
  ]
  const MoneyMessages: seq<string> := [
    "臨時収入があるかもしれません",
    "計画的な支出を心がけて",
    "投資のチャンスがあります",
    "節約を意識しましょう",
    "家計の見直しが必要です"
  ]
  const Directions: seq<string> := ["北", "南", "東", "西"]
  const DefaultColor := "金色"

  /** The eight draws of one reading, each in [0, 1). */
  datatype ZodiacDraws = ZodiacDraws(
    level: real, love: real, work: real, health: real, money: real, number: real, item: real, direction: real)
  {
    predicate Valid()
    {
      0.0 <= level < 1.0 && 0.0 <= love < 1.0 && 0.0 <= work < 1.0 && 0.0 <= health < 1.0 &&
      0.0 <= money < 1.0 && 0.0 <= number < 1.0 && 0.0 <= item < 1.0 && 0.0 <= direction < 1.0
    }
  }

  /** `arr[Math.floor(Math.random() * arr.length)]` on a list known to be non-empty. */
  function Pick(messages: seq<string>, u: real): (m: string)
    requires |messages| > 0 && 0.0 <= u < 1.0
    ensures m in messages
  {
    messages[Utils.RandomIndex(|messages|, u)]
  }

  /** `selectedSign.luckyItems[0] || '金色'`: the first lucky item when it is a non-empty string. */
  function LuckyColor(sign: ZodiacSign): (color: string)
    ensures color == DefaultColor <==> |sign.luckyItems| == 0 || sign.luckyItems[0] == "" || sign.luckyItems[0] == DefaultColor
    ensures color != DefaultColor ==> color == sign.luckyItems[0]
  {
    if |sign.luckyItems| > 0 && sign.luckyItems[0] != "" then sign.luckyItems[0] else DefaultColor
  }

  /** The `result` object written for a sign and the draws of the day. */
  function ZodiacReading(sign: ZodiacSign, draws: ZodiacDraws, timestamp: string): (r: FortuneResult)
    requires draws.Valid()
    ensures r.title == sign.name + "の今日の運勢"
    ensures r.description == sign.description && r.advice == sign.advice
    ensures r.detail.ZodiacDetail? && r.detail.sign == sign
    ensures r.detail.level in FortuneLevels
    ensures r.detail.aspects.love in LoveMessages && r.detail.aspects.work in WorkMessages
    ensures r.detail.aspects.health in HealthMessages && r.detail.aspects.money in MoneyMessages
    ensures r.lucky.color == Some(LuckyColor(sign))
    ensures r.lucky.number.Some? && 1 <= r.lucky.number.value <= 9
    ensures r.lucky.item.None? <==> |sign.luckyItems| == 0
    ensures r.lucky.item.Some? ==> r.lucky.item.value in sign.luckyItems
    ensures r.lucky.direction.Some? && r.lucky.direction.value in Directions
  {
    FortuneResult(
      sign.name + "の今日の運勢",
      sign.description,
      sign.advice,
      Lucky(
        Some(LuckyColor(sign)),
        Some(Utils.RandomIndex(9, draws.number) + 1),
        Utils.GetRandomElement(sign.luckyItems, draws.item),
        Utils.GetRandomElement(Directions, draws.direction)),
      timestamp,
      ZodiacDetail(sign, Pick(FortuneLevels, draws.level),
        Aspects(Pick(LoveMessages, draws.love), Pick(WorkMessages, draws.work),
          Pick(HealthMessages, draws.health), Pick(MoneyMessages, draws.money))))
  }

  /** Every level and every message of each list can be drawn. */
  lemma EveryMessageCanBeDrawn(messages: seq<string>, i: nat)
    requires i < |messages|
    ensures exists u: real :: 0.0 <= u < 1.0 && Pick(messages, u) == messages[i]
  {
    Utils.RandomIndexCovers(|messages|, i);
    var u := i as real / |messages| as real;
    assert Pick(messages, u) == messages[i];
  }

  datatype PageStep = Select | Loading

  /** The page's state. */
  class ZodiacPage {
    var currentStep: PageStep
    var selectedSign: Option<ZodiacSign>
    var isLoading: bool

    constructor()
      ensures currentStep == Select && selectedSign.None? && !isLoading
    {
      currentStep := Select;
      selectedSign := None;
      isLoading := false;
    }

    /** `handleSignSelect(sign)`. */
    method HandleSignSelect(sign: ZodiacSign)
      modifies this
      ensures selectedSign == Some(sign)
      ensures currentStep == old(currentStep) && isLoading == old(isLoading)
    {
      selectedSign := Some(sign);
    }

    /**
     * `handleComplete()`: nothing without a selected sign; otherwise the
     * reading of the day is stored as `zodiac-result`.
     */
    method HandleComplete(storage: LocalStorage, draws: ZodiacDraws, timestamp: string)
      returns (stored: Option<FortuneResult>)
      requires draws.Valid()
      modifies this, storage
      ensures selectedSign == old(selectedSign)
      ensures stored.Some? <==> selectedSign.Some?
      ensures stored.None? ==>
        (storage.items == old(storage.items) && currentStep == old(currentStep) && isLoading == old(isLoading))
      ensures stored.Some? ==> (currentStep == Loading && isLoading &&
        stored.value == ZodiacReading(selectedSign.value, draws, timestamp) &&
        storage.items == old(storage.items)["zodiac-result" := Parsed(ResultJson(stored.value))])
    {
      if selectedSign.None? {
        return None;
      }
      isLoading := true;
      currentStep := Loading;
      var result := ZodiacReading(selectedSign.value, draws, timestamp);
      storage.SetItem("zodiac-result", ResultJson(result));
      stored := Some(result);
    }
  }
}
