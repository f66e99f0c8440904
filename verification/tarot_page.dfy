/**
 * The framework site's tarot page: choosing a spread, toggling cards in and
 * out of the selection, and assembling the reading it stores for the
 * result page.
 */
module TarotPageNext {
  import opened Wrappers
  import opened Text
  import opened TarotData
  import opened NextRecords
  import Utils
  import TarotSpreadView

  datatype PageStep = SelectSpread | SelectCards | Loading

  /** The two coins `Math.random() > 0.5` of one drawn card: its orientation and which meaning it shows. */
  datatype CardCoins = CardCoins(reversed: bool, upright: bool)

  /** The four draws of the lucky block. */
  datatype LuckyDraws = LuckyDraws(color: real, number: real, item: real, direction: real)
  {
    predicate Valid()
    {
      0.0 <= color < 1.0 && 0.0 <= number < 1.0 && 0.0 <= item < 1.0 && 0.0 <= direction < 1.0
    }
  }

  const LuckyColors: seq<string> := ["赤", "青", "金", "紫", "緑"]
  const LuckyItems: seq<string> := ["クリスタル", "鏡", "ペンダント", "指輪", "お守り"]
  const Directions: seq<string> := ["北", "南", "東", "西"]

  predicate NoDuplicates(s: seq<int>)
  {
    forall i, j :: 0 <= i < j < |s| ==> s[i] != s[j]
  }

  predicate AllCards(s: seq<int>)
  {
    forall i :: 0 <= i < |s| ==> 0 <= s[i] < |Cards|
  }

  /** `selectedCards.filter(index => index !== cardIndex)`. */
  function Without(s: seq<int>, x: int): (r: seq<int>)
    ensures x !in r
    ensures |r| <= |s|
    ensures forall y :: y in r <==> y in s && y != x
    ensures NoDuplicates(s) ==> NoDuplicates(r)
    ensures AllCards(s) ==> AllCards(r)
  {
    if |s| == 0 then []
    else
      var rest := Without(s[..|s| - 1], x);
      assert forall y :: y in s <==> y in s[..|s| - 1] || y == s[|s| - 1];
      assert NoDuplicates(s) ==> s[|s| - 1] !in s[..|s| - 1];
      if s[|s| - 1] == x then rest else rest + [s[|s| - 1]]
  }

  /** `selectedCards.indexOf(index)` for an index known to be selected. */
  function IndexIn(s: seq<int>, x: int): (i: nat)
    requires x in s
    ensures i < |s| && s[i] == x && x !in s[..i]
  {
    if s[0] == x then 0
    else
      var i := IndexIn(s[1..], x);
      assert s[1..][..i] == s[1..i + 1];
      1 + i
  }

  /** Without duplicates, `indexOf` of the i-th selected card is i. */
  lemma IndexOfDistinct(s: seq<int>, i: nat)
    requires NoDuplicates(s) && i < |s|
    ensures IndexIn(s, s[i]) == i
  {
    var k := IndexIn(s, s[i]);
  }

  /** The position a drawn card gets: the one-card label, or the spread label at its place in the selection. */
  function PositionOf(spread: SpreadKind, selected: seq<int>, index: int): Option<string>
    requires index in selected
  {
    if spread == OneCard then Some(SpreadOf(OneCard).positions[0])
    else TarotSpreadView.PositionAt(ThreeCard, IndexIn(selected, index))
  }

  /** `selectedCards.map(...)`: one entry per selected card, in selection order. */
  function DrawnCards(spread: SpreadKind, selected: seq<int>, coins: seq<CardCoins>): (entries: seq<TarotEntry>)
    requires AllCards(selected) && |coins| == |selected|
    ensures |entries| == |selected|
    ensures forall i :: 0 <= i < |selected| ==>
      entries[i].card == Cards[selected[i]] && entries[i].isReversed == coins[i].reversed &&
      entries[i].position == PositionOf(spread, selected, selected[i]) &&
      entries[i].meaning == (if coins[i].upright then Cards[selected[i]].uprightMeaning else Cards[selected[i]].reversedMeaning)
  {
    seq(|selected|, i requires 0 <= i < |selected| =>
      var index := selected[i];
      TarotEntry(Cards[index], PositionOf(spread, selected, index), coins[i].reversed,
        if coins[i].upright then Cards[index].uprightMeaning else Cards[index].reversedMeaning))
  }

  /** "position: name" of one drawn card; an undefined position prints as "undefined". */
  function EntryText(e: TarotEntry): string
  {
    e.position.GetOr("undefined") + ": " + e.card.name
  }

  function EntryTexts(entries: seq<TarotEntry>): (texts: seq<string>)
    ensures |texts| == |entries|
    ensures forall i :: 0 <= i < |entries| ==> texts[i] == EntryText(entries[i])
  {
    seq(|entries|, i requires 0 <= i < |entries| => EntryText(entries[i]))
  }

  /** The three-card reading labels its cards past, present, future in selection order. */
  lemma ThreeCardPositions(selected: seq<int>, coins: seq<CardCoins>)
    requires AllCards(selected) && |coins| == |selected| && NoDuplicates(selected) && |selected| == 3
    ensures var entries := DrawnCards(ThreeCard, selected, coins);
      entries[0].position == Some("過去") && entries[1].position == Some("現在") && entries[2].position == Some("未来")
  {
    IndexOfDistinct(selected, 0);
    IndexOfDistinct(selected, 1);
    IndexOfDistinct(selected, 2);
  }

  /** Every card of a one-card reading gets the one-card position. */
  lemma OneCardPositions(selected: seq<int>, coins: seq<CardCoins>)
    requires AllCards(selected) && |coins| == |selected|
    ensures forall e :: e in DrawnCards(OneCard, selected, coins) ==> e.position == Some("現在の状況")
  {
  }

  /** The shown meaning comes from its own coin: a reversed card can show its upright meaning. */
  lemma MeaningIndependentOfOrientation()
    ensures var e := DrawnCards(OneCard, [0], [CardCoins(true, true)])[0];
      e.isReversed && e.meaning == Cards[0].uprightMeaning && e.meaning != Cards[0].reversedMeaning
  {
    assert Cards[0].uprightMeaning == "新しい始まり、純粋さ、自由な精神、冒険心、可能性への信頼。今こそ新たな一歩を踏み出す時です。";
    assert Cards[0].reversedMeaning == "軽率な行動、無責任、混乱、準備不足。慎重さが必要な時期です。";
    assert |Cards[0].uprightMeaning| != |Cards[0].reversedMeaning|;
  }

  /** The page's state. */
  class TarotPage {
    var currentStep: PageStep
    var selectedSpread: SpreadKind
    var selectedCards: seq<int>
    var isLoading: bool

    /** Picked cards are distinct cards of the table. */
    predicate Valid()
      reads this
    {
      NoDuplicates(selectedCards) && AllCards(selectedCards)
    }

    constructor()
      ensures Valid()
      ensures currentStep == SelectSpread && selectedSpread == ThreeCard && selectedCards == [] && !isLoading
    {
      currentStep := SelectSpread;
      selectedSpread := ThreeCard;
      selectedCards := [];
      isLoading := false;
    }

    /** `handleSpreadSelect(spread)`: the selection is left as it is. */
    method HandleSpreadSelect(spread: SpreadKind)
      modifies this
      ensures selectedSpread == spread && currentStep == SelectCards
      ensures selectedCards == old(selectedCards) && isLoading == old(isLoading)
    {
      selectedSpread := spread;
      currentStep := SelectCards;
    }

    /**
     * `handleCardSelect(cardIndex)` for a card of the grid: a selected card is
     * taken out, a new one is appended while there is room.
     */
    method HandleCardSelect(cardIndex: int)
      requires Valid() && 0 <= cardIndex < |Cards|
      modifies this
      ensures Valid()
      ensures selectedSpread == old(selectedSpread) && currentStep == old(currentStep) && isLoading == old(isLoading)
      ensures cardIndex in old(selectedCards) ==> selectedCards == Without(old(selectedCards), cardIndex)
      ensures cardIndex !in old(selectedCards) && |old(selectedCards)| < TarotSpreadView.MaxCards(selectedSpread) ==>
        selectedCards == old(selectedCards) + [cardIndex]
      ensures cardIndex !in old(selectedCards) && |old(selectedCards)| >= TarotSpreadView.MaxCards(selectedSpread) ==>
        selectedCards == old(selectedCards)
      ensures |old(selectedCards)| <= TarotSpreadView.MaxCards(selectedSpread) ==>
        |selectedCards| <= TarotSpreadView.MaxCards(selectedSpread)
    {
      var maxCards := if selectedSpread == OneCard then 1 else 3;
      if cardIndex in selectedCards {
        selectedCards := Without(selectedCards, cardIndex);
      } else if |selectedCards| < maxCards {
        selectedCards := selectedCards + [cardIndex];
      }
    }

    /**
     * `handleComplete()`: with exactly the spread's number of cards it builds
     * the reading from the coins and draws and stores it as `tarot-result`;
     * otherwise nothing happens.
     */
    method HandleComplete(storage: LocalStorage, coins: seq<CardCoins>, draws: LuckyDraws, timestamp: string)
      returns (stored: Option<FortuneResult>)
      requires Valid() && |coins| == |selectedCards| && draws.Valid()
      modifies this, storage
      ensures |old(selectedCards)| != TarotSpreadView.MaxCards(old(selectedSpread)) ==>
        (stored.None? && storage.items == old(storage.items) && currentStep == old(currentStep) && isLoading == old(isLoading))
      ensures selectedCards == old(selectedCards) && selectedSpread == old(selectedSpread)
      ensures stored.Some? ==> (currentStep == Loading && isLoading &&
        storage.items == old(storage.items)["tarot-result" := Parsed(ResultJson(stored.value))])
      ensures |selectedCards| == TarotSpreadView.MaxCards(selectedSpread) ==> (stored.Some? &&
        var r, entries := stored.value, DrawnCards(selectedSpread, selectedCards, coins);
        r.title == SpreadOf(selectedSpread).name + "の結果" &&
        r.description == Join(EntryTexts(entries), ", ") &&
        r.advice == entries[0].meaning &&
        r.detail == TarotDetail(entries, selectedSpread) &&
        r.timestamp == timestamp &&
        r.lucky.color.Some? && r.lucky.color.value in LuckyColors &&
        r.lucky.number.Some? && 1 <= r.lucky.number.value <= 9 &&
        r.lucky.item.Some? && r.lucky.item.value in LuckyItems &&
        r.lucky.direction.Some? && r.lucky.direction.value in Directions)
    {
      if |selectedCards| != (if selectedSpread == OneCard then 1 else 3) {
        return None;
      }
      isLoading := true;
      currentStep := Loading;
      var entries := DrawnCards(selectedSpread, selectedCards, coins);
      var lucky := Lucky(
        Utils.GetRandomElement(LuckyColors, draws.color),
        Some(Utils.RandomIndex(9, draws.number) + 1),
        Utils.GetRandomElement(LuckyItems, draws.item),
        Utils.GetRandomElement(Directions, draws.direction));
      var result := FortuneResult(
        SpreadOf(selectedSpread).name + "の結果",
        Join(EntryTexts(entries), ", "),
        entries[0].meaning,
        lucky, timestamp, TarotDetail(entries, selectedSpread));
      storage.SetItem("tarot-result", ResultJson(result));
      stored := Some(result);
    }
  }
}
