/**
 * The XP of a protocol card for one day, and of the whole day.
 *
 * A `count_multiplier` card is worth its `maxXP` when every item is checked and
 * `perItemXP` (0 when absent) per checked item otherwise; any other card sums
 * the `xp` (0 when absent) of its checked items. Either way the result is
 * capped at `maxXP`.
 */
module Scoring {
  import opened Wrappers
  import opened Objects
  import opened Types

  function Min(a: int, b: int): int {
    if a < b then a else b
  }

  /** `i.xp || 0`. */
  function ItemXP(i: ProtocolItem): int {
    i.xp.GetOr(0)
  }

  /** `card.items.filter(i => checkedItems[i.id]).length`. */
  function CheckedCount(items: seq<ProtocolItem>, checked: seq<Prop<bool>>): (n: nat)
    ensures n <= |items|
    ensures n == |items| <==> forall i :: 0 <= i < |items| ==> IsChecked(checked, items[i].id)
  {
    if items == [] then 0
    else
      var init := items[..|items| - 1];
      var n := CheckedCount(init, checked) + if IsChecked(checked, items[|items| - 1].id) then 1 else 0;
      assert forall i :: 0 <= i < |init| ==> init[i] == items[i];
      n
  }

  /** The sum of `xp || 0` over the checked items. */
  function CheckedSum(items: seq<ProtocolItem>, checked: seq<Prop<bool>>): int {
    if items == [] then 0
    else CheckedSum(items[..|items| - 1], checked) + if IsChecked(checked, items[|items| - 1].id) then ItemXP(items[|items| - 1]) else 0
  }

  /** The card's XP before the cap. */
  function RawCardXP(card: ProtocolCard, checked: seq<Prop<bool>>): int {
    if card.scoringType == Some(CountMultiplier) then
      var count := CheckedCount(card.items, checked);
      if count == |card.items| then card.maxXP else count * card.perItemXP.GetOr(0)
    else CheckedSum(card.items, checked)
  }

  /** `calculateCardXP(card)`: never more than the card's `maxXP`. */
  function CardXP(card: ProtocolCard, checked: seq<Prop<bool>>): (r: int)
    ensures r <= card.maxXP
    ensures r == card.maxXP || r == RawCardXP(card, checked)
  {
    Min(RawCardXP(card, checked), card.maxXP)
  }

  /** `calculateCardXP` as the component runs it: the sum mode adds up in a loop. */
  method CalculateCardXP(card: ProtocolCard, checked: seq<Prop<bool>>) returns (result: int)
    ensures result == CardXP(card, checked)
  {
    var xp := 0;
    var checkedCount := CheckedCount(card.items, checked);
    if card.scoringType == Some(CountMultiplier) {
      if checkedCount == |card.items| {
        xp := card.maxXP;
      } else {
        xp := checkedCount * card.perItemXP.GetOr(0);
      }
    } else {
      var k := 0;
      while k < |card.items|
        invariant 0 <= k <= |card.items|
        invariant xp == CheckedSum(card.items[..k], checked)
      {
        assert card.items[..k + 1][..k] == card.items[..k];
        if IsChecked(checked, card.items[k].id) {
          xp := xp + ItemXP(card.items[k]);
        }
        k := k + 1;
      }
      assert card.items[..k] == card.items;
    }
    result := Min(xp, card.maxXP);
  }

  /** `isMaxed`: the progress bar turns gold. */
  predicate IsMaxed(currentXP: int, maxXP: int) {
    currentXP >= maxXP
  }

  /** Because of the cap, a card is maxed exactly when its XP equals its `maxXP`. */
  lemma MaxedIffAtCap(card: ProtocolCard, checked: seq<Prop<bool>>)
    ensures IsMaxed(CardXP(card, checked), card.maxXP) <==> CardXP(card, checked) == card.maxXP
  {
  }

  /** A `count_multiplier` card with every item checked scores `maxXP`, whatever `perItemXP` is (no items included). */
  lemma CountMultiplierComplete(card: ProtocolCard, checked: seq<Prop<bool>>)
    requires card.scoringType == Some(CountMultiplier)
    requires forall i :: 0 <= i < |card.items| ==> IsChecked(checked, card.items[i].id)
    ensures CardXP(card, checked) == card.maxXP
  {
  }

  /** With some item unchecked it scores `min(k * (perItemXP || 0), maxXP)` for `k` checked items. */
  lemma CountMultiplierPartial(card: ProtocolCard, checked: seq<Prop<bool>>, k: int)
    requires card.scoringType == Some(CountMultiplier)
    requires exists i :: 0 <= i < |card.items| && !IsChecked(checked, card.items[i].id)
    requires k == CheckedCount(card.items, checked)
    ensures k < |card.items|
    ensures CardXP(card, checked) == Min(k * card.perItemXP.GetOr(0), card.maxXP)
  {
  }

  /** A `sum` card, or one without a scoring type, scores `min(Σ checked xp, maxXP)`. */
  lemma SumMode(card: ProtocolCard, checked: seq<Prop<bool>>)
    requires card.scoringType != Some(CountMultiplier)
    ensures CardXP(card, checked) == Min(CheckedSum(card.items, checked), card.maxXP)
  {
  }

  /** Two day records that agree on the card's own item ids. */
  ghost predicate AgreeOn(items: seq<ProtocolItem>, a: seq<Prop<bool>>, b: seq<Prop<bool>>) {
    forall i :: 0 <= i < |items| ==> (IsChecked(a, items[i].id) <==> IsChecked(b, items[i].id))
  }

  lemma {:induction false} CheckedAgree(items: seq<ProtocolItem>, a: seq<Prop<bool>>, b: seq<Prop<bool>>)
    requires AgreeOn(items, a, b)
    ensures CheckedCount(items, a) == CheckedCount(items, b)
    ensures CheckedSum(items, a) == CheckedSum(items, b)
  {
    if items != [] {
      var init := items[..|items| - 1];
      assert AgreeOn(init, a, b) by {
        assert forall i :: 0 <= i < |init| ==> init[i] == items[i];
      }
      CheckedAgree(init, a, b);
    }
  }

  /** Checked ids that are not ids of the card's items do not change its XP. */
  lemma ForeignKeysIgnored(card: ProtocolCard, a: seq<Prop<bool>>, b: seq<Prop<bool>>)
    requires AgreeOn(card.items, a, b)
    ensures CardXP(card, a) == CardXP(card, b)
  {
    CheckedAgree(card.items, a, b);
  }

  ghost predicate Includes(a: seq<Prop<bool>>, b: seq<Prop<bool>>) {
    forall id :: IsChecked(a, id) ==> IsChecked(b, id)
  }

  predicate NonNegativeXP(card: ProtocolCard) {
    card.perItemXP.GetOr(0) >= 0 && forall i :: 0 <= i < |card.items| ==> ItemXP(card.items[i]) >= 0
  }

  lemma {:induction false} CheckedMonotone(items: seq<ProtocolItem>, a: seq<Prop<bool>>, b: seq<Prop<bool>>)
    requires Includes(a, b)
    requires forall i :: 0 <= i < |items| ==> ItemXP(items[i]) >= 0
    ensures CheckedCount(items, a) <= CheckedCount(items, b)
    ensures CheckedSum(items, a) <= CheckedSum(items, b)
  {
    if items != [] {
      var init := items[..|items| - 1];
      assert forall i :: 0 <= i < |init| ==> init[i] == items[i];
      CheckedMonotone(init, a, b);
    }
  }

  /** With no negative xp, checking more items never lowers a card's XP. */
  lemma CardXPMonotone(card: ProtocolCard, a: seq<Prop<bool>>, b: seq<Prop<bool>>)
    requires NonNegativeXP(card)
    requires Includes(a, b)
    ensures CardXP(card, a) <= CardXP(card, b)
  {
    CheckedMonotone(card.items, a, b);
    if card.scoringType == Some(CountMultiplier) {
      var ka := CheckedCount(card.items, a);
      var kb := CheckedCount(card.items, b);
      if ka < |card.items| && kb < |card.items| {
        assert ka * card.perItemXP.GetOr(0) <= kb * card.perItemXP.GetOr(0) by {
          MulMonotone(ka, kb, card.perItemXP.GetOr(0));
        }
      }
    }
  }

  lemma MulMonotone(a: int, b: int, p: int)
    requires a <= b && p >= 0
    ensures a * p <= b * p
  {
    assert b * p - a * p == (b - a) * p;
  }

  lemma {:induction false} CheckedSumNonNegative(items: seq<ProtocolItem>, checked: seq<Prop<bool>>)
    requires forall i :: 0 <= i < |items| ==> ItemXP(items[i]) >= 0
    ensures CheckedSum(items, checked) >= 0
  {
    if items != [] {
      var init := items[..|items| - 1];
      assert forall i :: 0 <= i < |init| ==> init[i] == items[i];
      CheckedSumNonNegative(init, checked);
    }
  }

  /** With no negative xp and a non-negative cap, a card never scores below zero. */
  lemma CardXPNonNegative(card: ProtocolCard, checked: seq<Prop<bool>>)
    requires NonNegativeXP(card) && card.maxXP >= 0
    ensures 0 <= CardXP(card, checked) <= card.maxXP
  {
    CheckedSumNonNegative(card.items, checked);
    MulMonotone(0, CheckedCount(card.items, checked), card.perItemXP.GetOr(0));
  }

  /** Checking one more item, as a toggle does, never lowers a card's XP. */
  lemma CheckOneMore(card: ProtocolCard, checked: seq<Prop<bool>>, id: string)
    requires NonNegativeXP(card)
    ensures CardXP(card, checked) <= CardXP(card, Put(checked, id, true))
  {
    CardXPMonotone(card, checked, Put(checked, id, true));
  }

  // ----- the day total -----

  function CardsXP(cards: seq<ProtocolCard>, checked: seq<Prop<bool>>): int {
    if cards == [] then 0
    else CardsXP(cards[..|cards| - 1], checked) + CardXP(cards[|cards| - 1], checked)
  }

  /** `calculateTotalXP`: the card XP summed over every card of every section. */
  function TotalXP(sections: seq<ProtocolSection>, checked: seq<Prop<bool>>): int {
    if sections == [] then 0
    else TotalXP(sections[..|sections| - 1], checked) + CardsXP(sections[|sections| - 1].cards, checked)
  }

  function CardsMaxXP(cards: seq<ProtocolCard>): int {
    if cards == [] then 0
    else CardsMaxXP(cards[..|cards| - 1]) + cards[|cards| - 1].maxXP
  }

  /** The sum of every card's `maxXP`. */
  function MaxTotal(sections: seq<ProtocolSection>): int {
    if sections == [] then 0
    else MaxTotal(sections[..|sections| - 1]) + CardsMaxXP(sections[|sections| - 1].cards)
  }

  lemma {:induction false} CardsXPBound(cards: seq<ProtocolCard>, checked: seq<Prop<bool>>)
    ensures CardsXP(cards, checked) <= CardsMaxXP(cards)
  {
    if cards != [] {
      CardsXPBound(cards[..|cards| - 1], checked);
    }
  }

  /** The day total never exceeds the sum of the cards' `maxXP`. */
  lemma {:induction false} TotalXPBound(sections: seq<ProtocolSection>, checked: seq<Prop<bool>>)
    ensures TotalXP(sections, checked) <= MaxTotal(sections)
  {
    if sections != [] {
      TotalXPBound(sections[..|sections| - 1], checked);
      CardsXPBound(sections[|sections| - 1].cards, checked);
    }
  }
}
