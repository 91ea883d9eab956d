/**
 * The card registration form (app/card/page.tsx): performance tiers are
 * collected in a temporary list kept sorted by amount, can be removed by
 * position, and are sent with the card when it is registered.
 */
module CardForm {
  import opened Wrappers
  import opened Seqs
  import opened Ledger
  import CardUsage

  /** The body of the `POST /api/card` request, before `Number(...)` turns `limit` and `dueDay` into numbers. */
  datatype CardRequest = CardRequest(name: string, limit: string, dueDay: string, performance: seq<Tier>)

  /** Lines 40-46: `!amount || !benefit`, where a failed `Number(...)` (NaN) is `None`. */
  predicate TierRejected(amount: Option<int>, benefit: string) {
    amount.None? || amount.value == 0 || benefit == ""
  }

  /** Line 48: append, then the stable sort by ascending amount. */
  function WithTier(tiers: seq<Tier>, t: Tier): seq<Tier> {
    SortBy(tiers + [t], CardUsage.TierKey)
  }

  /** Lines 57-59: `tiers.filter((_, i) => i !== index)`. */
  function WithoutIndex(tiers: seq<Tier>, index: int): seq<Tier>
    decreases |tiers|
  {
    if |tiers| == 0 then []
    else WithoutIndex(tiers[..|tiers| - 1], index) + (if |tiers| - 1 != index then [tiers[|tiers| - 1]] else [])
  }

  /** Line 67: `!name || !limit || !dueDay`, an absent input being the empty text. */
  predicate CardRejected(name: string, limit: string, dueDay: string) {
    name == "" || limit == "" || dueDay == ""
  }

  /** Adding a tier keeps the list sorted, adds exactly that tier and keeps every other. */
  lemma WithTierSpec(tiers: seq<Tier>, t: Tier)
    ensures SortedBy(WithTier(tiers, t), CardUsage.TierKey)
    ensures |WithTier(tiers, t)| == |tiers| + 1
    ensures multiset(WithTier(tiers, t)) == multiset(tiers) + multiset{t}
  {
    SortBySorted(tiers + [t], CardUsage.TierKey);
  }

  /**
   * Removing an index drops exactly that position: the rest keep their
   * order, so a sorted list stays sorted, and an index outside the list
   * changes nothing.
   */
  lemma {:induction false} WithoutIndexSpec(tiers: seq<Tier>, index: int)
    ensures 0 <= index < |tiers| ==> WithoutIndex(tiers, index) == tiers[..index] + tiers[index + 1..]
    ensures !(0 <= index < |tiers|) ==> WithoutIndex(tiers, index) == tiers
    decreases |tiers|
  {
    if |tiers| > 0 {
      var init, last := tiers[..|tiers| - 1], tiers[|tiers| - 1];
      WithoutIndexSpec(init, index);
      if 0 <= index < |init| {
        assert tiers[..index] == init[..index];
        assert tiers[index + 1..] == init[index + 1..] + [last];
      } else if index == |init| {
        assert tiers[..index] == init;
      } else {
        assert init + [last] == tiers;
      }
    }
  }

  lemma WithoutIndexSorted(tiers: seq<Tier>, index: int)
    requires SortedBy(tiers, CardUsage.TierKey)
    ensures SortedBy(WithoutIndex(tiers, index), CardUsage.TierKey)
  {
    WithoutIndexSpec(tiers, index);
    if 0 <= index < |tiers| {
      var r := WithoutIndex(tiers, index);
      forall i, j | 0 <= i < j < |r| ensures CardUsage.TierKey(r[i]) <= CardUsage.TierKey(r[j]) {
        var a := if i < index then i else i + 1;
        var b := if j < index then j else j + 1;
        assert r[i] == tiers[a] && r[j] == tiers[b];
      }
    }
  }

  /** The form's `tempTiers` state. */
  class TierForm {
    var tempTiers: seq<Tier>

    /** The tiers stay sorted by ascending amount. */
    predicate Valid()
      reads this
    {
      SortedBy(tempTiers, CardUsage.TierKey)
    }

    constructor ()
      ensures Valid() && tempTiers == []
    {
      tempTiers := [];
    }

    /** `addTier`, given the parsed amount and the benefit text. */
    method AddTier(amount: Option<int>, benefit: string)
      requires Valid()
      modifies this
      ensures Valid()
      ensures TierRejected(amount, benefit) ==> tempTiers == old(tempTiers)
      ensures !TierRejected(amount, benefit) ==> tempTiers == WithTier(old(tempTiers), Tier(amount.value, benefit))
    {
      if TierRejected(amount, benefit) {
        return;
      }
      WithTierSpec(tempTiers, Tier(amount.value, benefit));
      tempTiers := WithTier(tempTiers, Tier(amount.value, benefit));
    }

    /** `removeTier`. */
    method RemoveTier(index: int)
      requires Valid()
      modifies this
      ensures Valid()
      ensures tempTiers == WithoutIndex(old(tempTiers), index)
    {
      WithoutIndexSorted(tempTiers, index);
      tempTiers := WithoutIndex(tempTiers, index);
    }

    /**
     * `AddCard`: nothing is sent when a field is empty; otherwise the card is
     * sent with the collected tiers, which are cleared once it is `saved`.
     */
    method AddCard(name: string, limit: string, dueDay: string, saved: bool) returns (request: Option<CardRequest>)
      requires Valid()
      modifies this
      ensures Valid()
      ensures CardRejected(name, limit, dueDay) ==> request == None && tempTiers == old(tempTiers)
      ensures !CardRejected(name, limit, dueDay) ==> request == Some(CardRequest(name, limit, dueDay, old(tempTiers)))
      ensures !CardRejected(name, limit, dueDay) ==> tempTiers == if saved then [] else old(tempTiers)
      ensures request.Some? ==> SortedBy(request.value.performance, CardUsage.TierKey)
    {
      if CardRejected(name, limit, dueDay) {
        return None;
      }
      request := Some(CardRequest(name, limit, dueDay, tempTiers));
      if saved {
        tempTiers := [];
      }
    }
  }
}
