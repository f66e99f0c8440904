/**
 * The framework site's omikuji page: one press draws an entry of the
 * omikuji table by its probabilities and stores the result for the result
 * page. The table itself is a parameter, and the two animation delays of
 * the press are collapsed into the one method.
 */
module OmikujiPageNext {
  import opened Wrappers
  import opened NextRecords
  import Utils

  /** An entry of `omikujiResults`, with the chance `probability` of drawing it. */
  datatype OmikujiEntry = OmikujiEntry(
    level: string, description: string, advice: string, fortune: Aspects, warning: Option<string>,
    luckyColor: Option<string>, luckyNumber: Option<int>, luckyItem: Option<string>, luckyDirection: Option<string>,
    probability: real)

  datatype PageStep = Ready | Drawing | Loading

  /** The table as weighted entries, for the running sums. */
  function Weights(table: seq<OmikujiEntry>): (w: seq<Utils.Weighted<OmikujiEntry>>)
    ensures |w| == |table|
    ensures forall i :: 0 <= i < |table| ==> w[i] == Utils.Weighted(table[i], table[i].probability)
  {
    seq(|table|, i requires 0 <= i < |table| => Utils.Weighted(table[i], table[i].probability))
  }

  /**
   * The position the draw lands on: the first entry whose running sum
   * reaches the draw, or the FIRST entry when none does.
   */
  function DrawnIndex(table: seq<OmikujiEntry>, random: real): (i: nat)
    requires |table| > 0
    ensures i < |table|
    ensures Utils.FirstReaching(Weights(table), random) < |table| ==> i == Utils.FirstReaching(Weights(table), random)
    ensures Utils.FirstReaching(Weights(table), random) == |table| ==> i == 0
  {
    var k := Utils.FirstReaching(Weights(table), random);
    if k < |table| then k else 0
  }

  /**
   * The draw of `handleDraw()`: the running sum of probabilities, stopping
   * at the first entry it reaches; `omikujiResults[0]` when the loop ends
   * without one.
   */
  method DrawEntry(table: seq<OmikujiEntry>, random: real) returns (selected: OmikujiEntry)
    requires |table| > 0
    ensures selected == table[DrawnIndex(table, random)]
    ensures selected in table
  {
    ghost var weights := Weights(table);
    var cumulativeProbability := 0.0;
    selected := table[0];
    for i := 0 to |table|
      invariant cumulativeProbability == Utils.Cumulative(weights, i)
      invariant forall j :: 0 < j <= i ==> Utils.Cumulative(weights, j) < random
    {
      cumulativeProbability := cumulativeProbability + table[i].probability;
      assert cumulativeProbability == Utils.Cumulative(weights, i + 1);
      if random <= cumulativeProbability {
        selected := table[i];
        assert Utils.FirstReaching(weights, random) == i;
        return;
      }
    }
    assert Utils.FirstReaching(weights, random) == |table|;
  }

  /** The `result` object written for a drawn entry. */
  function OmikujiReading(entry: OmikujiEntry, timestamp: string): (r: FortuneResult)
    ensures r.detail.OmikujiDetail? && r.detail.level == entry.level
    ensures r.title == "おみくじの結果: " + r.detail.level
    ensures r.lucky == Lucky(entry.luckyColor, entry.luckyNumber, entry.luckyItem, entry.luckyDirection)
  {
    FortuneResult(
      "おみくじの結果: " + entry.level,
      entry.description,
      entry.advice,
      Lucky(entry.luckyColor, entry.luckyNumber, entry.luckyItem, entry.luckyDirection),
      timestamp,
      OmikujiDetail(entry.level, entry.fortune, entry.warning))
  }

  /** The page's state. */
  class OmikujiPage {
    var currentStep: PageStep
    var isDrawing: bool

    constructor()
      ensures currentStep == Ready && !isDrawing
    {
      currentStep := Ready;
      isDrawing := false;
    }

    /**
     * `handleDraw()`: the page goes through drawing to loading, draws an
     * entry of the table and stores its result as `omikuji-result`.
     */
    method HandleDraw(storage: LocalStorage, table: seq<OmikujiEntry>, random: real, timestamp: string)
      returns (result: FortuneResult)
      requires |table| > 0
      modifies this, storage
      ensures isDrawing && currentStep == Loading
      ensures result == OmikujiReading(table[DrawnIndex(table, random)], timestamp)
      ensures storage.items == old(storage.items)["omikuji-result" := Parsed(ResultJson(result))]
    {
      isDrawing := true;
      currentStep := Drawing;
      currentStep := Loading;
      var selectedResult := DrawEntry(table, random);
      result := OmikujiReading(selectedResult, timestamp);
      storage.SetItem("omikuji-result", ResultJson(result));
    }
  }

  /** When the probabilities add up to at least the draw, the first-entry fallback is never used. */
  lemma FullTableNeedsNoFallback(table: seq<OmikujiEntry>, random: real)
    requires |table| > 0
    ensures random <= Utils.Cumulative(Weights(table), |table|) ==>
      DrawnIndex(table, random) == Utils.FirstReaching(Weights(table), random) &&
      random <= Utils.Cumulative(Weights(table), DrawnIndex(table, random) + 1)
  {
  }

  /**
   * When the probabilities fall short of the draw, the page falls back to
   * the first entry while the shared helper `selectByProbability` falls back
   * to the last.
   */
  lemma FallbackIsFirstEntry(a: OmikujiEntry, b: OmikujiEntry)
    requires a.probability == 0.1 && b.probability == 0.1
    ensures DrawnIndex([a, b], 0.5) == 0
    ensures Utils.FirstReaching(Weights([a, b]), 0.5) == 2
  {
    var w := Weights([a, b]);
    assert Utils.Cumulative(w, 1) == 0.1;
    assert Utils.Cumulative(w, 2) == 0.2;
  }
}
