/**
 * The vanilla site's tarot page: the deck it lays out, the choice between a
 * one-card and a three-card reading, and the card selection the deck's
 * click handlers build up.
 */
module TarotScript {
  import TarotData

  /** A card of the page's deck: only what the face shows. */
  datatype VanillaCard = VanillaCard(id: int, name: string, symbol: string)

  /** The deck `prepareTarotCards` installs: the 22 major arcana. */
  const VanillaDeck: seq<VanillaCard> :=
    [
      VanillaCard(0, "愚者", "🃏"),
      VanillaCard(1, "魔術師", "🎩"),
      VanillaCard(2, "女教皇", "👸"),
      VanillaCard(3, "女帝", "👑"),
      VanillaCard(4, "皇帝", "👨‍💼"),
      VanillaCard(5, "教皇", "🧙‍♂️"),
      VanillaCard(6, "恋人", "💕"),
      VanillaCard(7, "戦車", "🏛️"),
      VanillaCard(8, "力", "💪"),
      VanillaCard(9, "隠者", "🕯️"),
      VanillaCard(10, "運命の輪", "☸️"),
      VanillaCard(11, "正義", "⚖️"),
      VanillaCard(12, "吊られた男", "🙃"),
      VanillaCard(13, "死神", "💀"),
      VanillaCard(14, "節制", "🏺"),
      VanillaCard(15, "悪魔", "😈"),
      VanillaCard(16, "塔", "🗼"),
      VanillaCard(17, "星", "⭐"),
      VanillaCard(18, "月", "🌙"),
      VanillaCard(19, "太陽", "☀️"),
      VanillaCard(20, "審判", "📯"),
      VanillaCard(21, "世界", "🌍")
    ]

  /** The deck has 22 cards and each card's id is its place in the deck. */
  lemma VanillaDeckIsIndexed()
    ensures |VanillaDeck| == 22
    ensures forall i :: 0 <= i < |VanillaDeck| ==> VanillaDeck[i].id == i
  {
  }

  /** The page's deck shows the names and symbols of the framework site's card table. */
  lemma VanillaDeckMatchesCardTable()
    ensures |VanillaDeck| == |TarotData.Cards|
    ensures forall i :: 0 <= i < |VanillaDeck| ==>
      VanillaDeck[i].id == TarotData.Cards[i].id &&
      VanillaDeck[i].name == TarotData.Cards[i].name &&
      VanillaDeck[i].symbol == TarotData.Cards[i].symbol
  {
  }

  predicate NoDuplicates(s: seq<int>)
  {
    forall i, j :: 0 <= i < j < |s| ==> s[i] != s[j]
  }

  /** The page's globals `selectedCards`, `cardCount` and `tarotCards`, and the remaining-cards counter it shows. */
  class TarotPage {
    var selectedCards: seq<int>
    var cardCount: int
    var tarotCards: seq<VanillaCard>
    var remainingShown: int

    /** No card is picked twice and no more cards are picked than the reading needs. */
    predicate Valid()
      reads this
    {
      NoDuplicates(selectedCards) && (selectedCards == [] || |selectedCards| <= cardCount)
    }

    /** The script's initial values; `initializeTarot` then prepares the deck. */
    constructor()
      ensures Valid()
      ensures selectedCards == [] && cardCount == 1 && tarotCards == []
    {
      selectedCards := [];
      cardCount := 1;
      tarotCards := [];
      remainingShown := 1;
    }

    /** `prepareTarotCards()`. */
    method PrepareTarotCards()
      modifies this
      ensures tarotCards == VanillaDeck
      ensures selectedCards == old(selectedCards) && cardCount == old(cardCount) && remainingShown == old(remainingShown)
    {
      tarotCards := VanillaDeck;
    }

    /** `selectTarotMethod(count)`: a reading of `count` cards starts from an empty selection. */
    method SelectTarotMethod(count: int)
      modifies this
      ensures Valid()
      ensures cardCount == count && selectedCards == [] && remainingShown == count
      ensures tarotCards == old(tarotCards)
    {
      cardCount := count;
      selectedCards := [];
      remainingShown := count;
    }

    /**
     * `selectCard(cardId)`: ignored when the card is already picked or the
     * reading has its cards; otherwise the card is appended and the counter
     * shows how many are still to pick. `complete` is the `remaining === 0`
     * branch that enables the start button.
     */
    method SelectCard(cardId: int) returns (complete: bool)
      requires Valid()
      modifies this
      ensures Valid()
      ensures cardCount == old(cardCount) && tarotCards == old(tarotCards)
      ensures cardId in old(selectedCards) || |old(selectedCards)| >= cardCount ==>
        selectedCards == old(selectedCards) && remainingShown == old(remainingShown) && !complete
      ensures cardId !in old(selectedCards) && |old(selectedCards)| < cardCount ==>
        selectedCards == old(selectedCards) + [cardId] &&
        remainingShown == cardCount - |selectedCards| &&
        (complete <==> |selectedCards| == cardCount)
    {
      complete := false;
      if cardId in selectedCards {
        return;
      }
      if |selectedCards| >= cardCount {
        return;
      }
      selectedCards := selectedCards + [cardId];
      var remaining := cardCount - |selectedCards|;
      remainingShown := remaining;
      if remaining == 0 {
        complete := true;
      }
    }

    /** The guard of `startTarotReading`: the reading starts only with exactly `cardCount` cards. */
    method StartTarotReading() returns (proceeds: bool)
      ensures proceeds <==> |selectedCards| == cardCount
    {
      if |selectedCards| != cardCount {
        return false;
      }
      return true;
    }

    /** `goBackToMethod()`: back to an empty one-card selection. */
    method GoBackToMethod()
      modifies this
      ensures Valid()
      ensures selectedCards == [] && cardCount == 1
      ensures tarotCards == old(tarotCards) && remainingShown == old(remainingShown)
    {
      selectedCards := [];
      cardCount := 1;
    }
  }

  /**
   * Picking three distinct cards for a three-card reading fills it: the
   * start guard passes, and a fourth pick changes nothing.
   */
  method ThreeCardSelection(page: TarotPage, a: int, b: int, c: int, d: int) returns (proceeds: bool)
    requires a != b && b != c && a != c
    modifies page
    ensures page.selectedCards == [a, b, c] && proceeds
  {
    page.SelectTarotMethod(3);
    var done := page.SelectCard(a);
    done := page.SelectCard(b);
    done := page.SelectCard(c);
    done := page.SelectCard(d);
    proceeds := page.StartTarotReading();
  }
}
