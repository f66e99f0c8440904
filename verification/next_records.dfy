/**
 * The framework site's result records and the browser's `localStorage`
 * they travel through from a fortune page to the result page. Storage holds
 * the parsed value of what was written, or marks text that does not parse.
 */
module NextRecords {
  import opened Wrappers
  import TarotData
  import NumerologyTable

  /** `lucky`: every field optional. */
  datatype Lucky = Lucky(color: Option<string>, number: Option<int>, item: Option<string>, direction: Option<string>)

  /** The four aspects an omikuji or a zodiac reading speaks to. */
  datatype Aspects = Aspects(love: string, work: string, health: string, money: string)

  /** One drawn card of a tarot result; `position` is undefined past the spread's positions. */
  datatype TarotEntry = TarotEntry(card: TarotData.Card, position: Option<string>, isReversed: bool, meaning: string)

  /** A sign of the framework site's zodiac table, with the fields the page reads. */
  datatype ZodiacSign = ZodiacSign(id: int, name: string, description: string, luckyItems: seq<string>, advice: string)

  /** `calculation` of a numerology result. */
  datatype Calculation = Calculation(birthDate: string, steps: seq<string>, finalNumber: int)

  /** What each kind of result adds to the common fields. */
  datatype Detail =
    | TarotDetail(cards: seq<TarotEntry>, spread: TarotData.SpreadKind)
    | ZodiacDetail(sign: ZodiacSign, level: string, aspects: Aspects)
    | OmikujiDetail(level: string, fortune: Aspects, warning: Option<string>)
    | NumerologyDetail(lifePathNumber: int, calculation: Calculation, personality: NumerologyTable.Personality)

  /** A result as a fortune page writes it. */
  datatype FortuneResult = FortuneResult(
    title: string, description: string, advice: string, lucky: Lucky, timestamp: string, detail: Detail)

  /** An entry of the saved history. */
  datatype HistoryEntry = HistoryEntry(id: string, fortuneType: string, result: Json, createdAt: string)

  /** A parsed stored value: a result, a history list, or anything else (truthy or not). */
  datatype Json = ResultJson(result: FortuneResult) | HistoryJson(entries: seq<HistoryEntry>) | OtherJson(truthy: bool)
  {
    predicate Truthy()
    {
      !OtherJson? || truthy
    }
  }

  /** What a key holds: text that parses to a value, or text that does not. */
  datatype Stored = Parsed(value: Json) | Unparseable

  /** `localStorage`. */
  class LocalStorage {
    var items: map<string, Stored>

    constructor()
      ensures items == map[]
    {
      items := map[];
    }

    /** `setItem(key, JSON.stringify(value))`: reading the key back parses to `value`. */
    method SetItem(key: string, value: Json)
      modifies this
      ensures items == old(items)[key := Parsed(value)]
    {
      items := items[key := Parsed(value)];
    }
  }
}
