/**
 * The card-picking panel of the framework site's tarot page: what it
 * derives from the spread and the current selection.
 */
module TarotSpreadView {
  import opened Wrappers
  import opened Text
  import opened TarotData

  /** `maxCards`: one card for the one-card spread, three otherwise. */
  function MaxCards(spread: SpreadKind): (n: nat)
    ensures n == |SpreadOf(spread).positions|
  {
    if spread == OneCard then 1 else 3
  }

  /** `isComplete`. */
  predicate IsComplete(spread: SpreadKind, selected: seq<int>)
  {
    |selected| == MaxCards(spread)
  }

  /** `isDisabled` of the card at `index` in the grid. */
  function IsDisabled(spread: SpreadKind, selected: seq<int>, index: int): (disabled: bool)
    ensures index in selected ==> !disabled
    ensures disabled <==> index !in selected && |selected| >= MaxCards(spread)
  {
    !(index in selected) && |selected| >= MaxCards(spread)
  }

  /** When the selection is not full, no card is disabled; when it is complete, exactly the unselected ones are. */
  lemma DisabledCardsFollowCompleteness(spread: SpreadKind, selected: seq<int>, index: int)
    ensures |selected| < MaxCards(spread) ==> !IsDisabled(spread, selected, index)
    ensures IsComplete(spread, selected) ==> (IsDisabled(spread, selected, index) <==> index !in selected)
  {
  }

  /** The complete button: disabled while incomplete; its label counts the cards still to pick. */
  datatype CompleteButton = CompleteButton(disabled: bool, caption: string)

  function CompleteButtonState(spread: SpreadKind, selected: seq<int>): (b: CompleteButton)
    ensures b.disabled <==> !IsComplete(spread, selected)
    ensures IsComplete(spread, selected) ==> b.caption == "運命を読み取る"
    ensures !IsComplete(spread, selected) ==>
      b.caption == "あと" + IntToString(MaxCards(spread) - |selected|) + "枚選択してください"
  {
    if IsComplete(spread, selected) then CompleteButton(false, "運命を読み取る")
    else CompleteButton(true, "あと" + IntToString(MaxCards(spread) - |selected|) + "枚選択してください")
  }

  /** `spreadData.positions[position]`: nothing past the spread's positions. */
  function PositionAt(spread: SpreadKind, position: nat): (text: Option<string>)
    ensures text.Some? <==> position < MaxCards(spread)
    ensures text.Some? ==> text.value == SpreadOf(spread).positions[position]
  {
    var positions := SpreadOf(spread).positions;
    if position < |positions| then Some(positions[position]) else None
  }

  /** The preview under the spread: the i-th selected card is labelled with the i-th position. */
  function PreviewLabels(spread: SpreadKind, selected: seq<int>): (labels: seq<Option<string>>)
    ensures |labels| == |selected|
    ensures forall i :: 0 <= i < |selected| ==> labels[i] == PositionAt(spread, i)
  {
    seq(|selected|, i requires 0 <= i < |selected| => PositionAt(spread, i))
  }

  /** A full three-card selection is labelled past, present, future, in selection order. */
  lemma ThreeCardPreview(selected: seq<int>)
    requires |selected| == 3
    ensures PreviewLabels(ThreeCard, selected) == [Some("過去"), Some("現在"), Some("未来")]
  {
    assert PreviewLabels(ThreeCard, selected)[0] == Some("過去");
  }
}
