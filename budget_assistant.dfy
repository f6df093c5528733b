/** The budget assistant: a total budget chosen on a slider is split into four
    envelopes by fixed percentages, a set of priority chips is toggled on and off,
    and a fixed list of recommendations is shown. Amounts are whole Saudi riyals;
    ratings are tenths of a star. */
module Budget {
  import opened Seqs

  // ---------------------------------------------------------------------------
  // The envelope split
  // ---------------------------------------------------------------------------

  /** The slider's values: 500 to 5000 riyals in steps of 100. */
  predicate OnSlider(budget: int) {
    500 <= budget <= 5000 && budget % 100 == 0
  }

  const DefaultBudget: int := 1500

  /** `Math.round(budget * percent / 100)`: the integer nearest to the exact share,
      halves rounded up (towards positive infinity, as `Math.round` does). */
  function RoundPercent(budget: int, percent: int): (r: int)
    ensures 100 * r - 50 <= budget * percent < 100 * r + 50
  {
    (budget * percent + 50) / 100
  }

  /** The four envelopes of `budgetBreakdown`. */
  datatype Breakdown = Breakdown(accommodation: int, transportation: int, food: int, shopping: int)

  /** The shares of the four envelopes, in percent. */
  const AccommodationPercent := 45
  const TransportationPercent := 20
  const FoodPercent := 25
  const ShoppingPercent := 10

  /** `budgetBreakdown`: each envelope is its own share of the budget, rounded on
      its own. */
  function BudgetBreakdown(budget: int): Breakdown {
    Breakdown(
      RoundPercent(budget, AccommodationPercent),
      RoundPercent(budget, TransportationPercent),
      RoundPercent(budget, FoodPercent),
      RoundPercent(budget, ShoppingPercent))
  }

  function Total(b: Breakdown): int {
    b.accommodation + b.transportation + b.food + b.shopping
  }

  /** The four percentages add up to the whole budget. */
  lemma PercentsAddUp()
    ensures AccommodationPercent + TransportationPercent + FoodPercent + ShoppingPercent == 100
  {
  }

  /** On the slider every share is a whole number of riyals, so no envelope is
      rounded and the envelopes add up to the budget exactly. */
  lemma SliderSplitIsExact(budget: int)
    requires OnSlider(budget)
    ensures 100 * BudgetBreakdown(budget).accommodation == AccommodationPercent * budget
    ensures 100 * BudgetBreakdown(budget).transportation == TransportationPercent * budget
    ensures 100 * BudgetBreakdown(budget).food == FoodPercent * budget
    ensures 100 * BudgetBreakdown(budget).shopping == ShoppingPercent * budget
    ensures Total(BudgetBreakdown(budget)) == budget
  {
    var k := budget / 100;
    assert budget == 100 * k;
    ExactShare(k, AccommodationPercent);
    ExactShare(k, TransportationPercent);
    ExactShare(k, FoodPercent);
    ExactShare(k, ShoppingPercent);
  }

  /** A whole number of hundreds gives a whole share. */
  lemma ExactShare(k: int, percent: int)
    ensures RoundPercent(100 * k, percent) == k * percent
  {
    assert 100 * k * percent + 50 == 100 * (k * percent) + 50;
  }

  /** Off the slider the independent rounding shows: a budget of 10 gives envelopes
      of 5, 2, 3 and 1, which add up to 11. */
  lemma RoundingCanOvershoot()
    ensures BudgetBreakdown(10) == Breakdown(5, 2, 3, 1)
    ensures Total(BudgetBreakdown(10)) == 11
  {
  }

  /** For any budget the rounded envelopes add up to within one riyal below and two
      above the budget. */
  lemma TotalIsNearBudget(budget: int)
    ensures budget - 1 <= Total(BudgetBreakdown(budget)) <= budget + 2
  {
    var b := BudgetBreakdown(budget);
    assert 100 * Total(b) - 200 <= 100 * budget < 100 * Total(b) + 200;
  }

  /** The default budget of 1500 riyals. */
  lemma DefaultSplit()
    ensures BudgetBreakdown(DefaultBudget) == Breakdown(675, 300, 375, 150)
  {
    ExactShare(15, AccommodationPercent);
    ExactShare(15, TransportationPercent);
    ExactShare(15, FoodPercent);
    ExactShare(15, ShoppingPercent);
  }

  /** A larger share of a budget never rounds to less. */
  lemma RoundPercentMonotone(budget1: int, budget2: int, percent1: int, percent2: int)
    requires 0 <= percent1 <= percent2 && (0 <= budget1 <= budget2 || (budget1 == budget2 && percent1 == percent2))
    ensures RoundPercent(budget1, percent1) <= RoundPercent(budget2, percent2)
  {
    if budget1 != budget2 || percent1 != percent2 {
      assert budget1 * percent1 <= budget2 * percent1 by {
        MulMonotone(budget1, budget2, percent1);
      }
      assert budget2 * percent1 <= budget2 * percent2 by {
        MulMonotone(percent1, percent2, budget2);
      }
    }
  }

  lemma MulMonotone(x: int, y: int, c: int)
    requires x <= y && 0 <= c
    ensures x * c <= y * c
  {
    assert y * c - x * c == (y - x) * c;
  }

  /** Raising the budget never shrinks an envelope. */
  lemma EnvelopesGrowWithBudget(budget1: int, budget2: int)
    requires 0 <= budget1 <= budget2
    ensures BudgetBreakdown(budget1).accommodation <= BudgetBreakdown(budget2).accommodation
    ensures BudgetBreakdown(budget1).transportation <= BudgetBreakdown(budget2).transportation
    ensures BudgetBreakdown(budget1).food <= BudgetBreakdown(budget2).food
    ensures BudgetBreakdown(budget1).shopping <= BudgetBreakdown(budget2).shopping
  {
    RoundPercentMonotone(budget1, budget2, AccommodationPercent, AccommodationPercent);
    RoundPercentMonotone(budget1, budget2, TransportationPercent, TransportationPercent);
    RoundPercentMonotone(budget1, budget2, FoodPercent, FoodPercent);
    RoundPercentMonotone(budget1, budget2, ShoppingPercent, ShoppingPercent);
  }

  /** For a non-negative budget the envelopes are ordered by their shares:
      accommodation, then food, then transportation, then shopping. */
  lemma EnvelopesOrdered(budget: int)
    requires budget >= 0
    ensures BudgetBreakdown(budget).accommodation >= BudgetBreakdown(budget).food
    ensures BudgetBreakdown(budget).food >= BudgetBreakdown(budget).transportation
    ensures BudgetBreakdown(budget).transportation >= BudgetBreakdown(budget).shopping
  {
    RoundPercentMonotone(budget, budget, FoodPercent, AccommodationPercent);
    RoundPercentMonotone(budget, budget, TransportationPercent, FoodPercent);
    RoundPercentMonotone(budget, budget, ShoppingPercent, TransportationPercent);
  }

  // ---------------------------------------------------------------------------
  // The priority chips
  // ---------------------------------------------------------------------------

  /** The ids of the four priority chips. */
  const PriorityIds: seq<string> := ["comfort", "location", "transport", "food"]

  /** The list after `togglePriority(priority)`: a listed id is filtered out
      (every occurrence of it), an unlisted one is appended at the end. */
  function Toggled(priorities: seq<string>, priority: string): (r: seq<string>)
    ensures priority in r <==> priority !in priorities
  {
    if priority in priorities then
      FilterMembers(priorities, q => q != priority);
      Filter(priorities, q => q != priority)
    else
      priorities + [priority]
  }

  /** Toggling an unlisted id appends it and leaves the list before it alone. */
  lemma ToggleAbsentAppends(priorities: seq<string>, priority: string)
    requires priority !in priorities
    ensures |Toggled(priorities, priority)| == |priorities| + 1
    ensures Toggled(priorities, priority)[..|priorities|] == priorities
    ensures Toggled(priorities, priority)[|priorities|] == priority
  {
  }

  /** Toggling a listed id removes every occurrence of it, keeps every other id as
      often as before, and keeps their order. */
  lemma TogglePresentRemoves(priorities: seq<string>, priority: string)
    requires priority in priorities
    ensures multiset(Toggled(priorities, priority))[priority] == 0
    ensures forall q :: q != priority ==> multiset(Toggled(priorities, priority))[q] == multiset(priorities)[q]
    ensures IsSubsequence(Toggled(priorities, priority), priorities)
  {
    FilterMultiplicity(priorities, q => q != priority);
    FilterSubsequence(priorities, q => q != priority);
  }

  /** Toggling flips the toggled id's membership and no other id's. */
  lemma ToggleFlipsOnlyThatId(priorities: seq<string>, priority: string)
    ensures priority in Toggled(priorities, priority) <==> priority !in priorities
    ensures forall q :: q != priority ==> (q in Toggled(priorities, priority) <==> q in priorities)
  {
    if priority in priorities {
      FilterMembers(priorities, q => q != priority);
    }
  }

  /** Toggling an unlisted id twice gives back the original list. */
  lemma ToggleTwiceRestoresAbsent(priorities: seq<string>, priority: string)
    requires priority !in priorities
    ensures Toggled(Toggled(priorities, priority), priority) == priorities
  {
    var keep := (q: string) => q != priority;
    FilterAppend(priorities, [priority], keep);
    FilterAll(priorities, keep);
    FilterNone([priority], keep);
  }

  /** Toggling a listed id twice gives back the same ids, but the id moves to the
      end of the list. */
  lemma ToggleTwiceMovesPresentToEnd(priorities: seq<string>, priority: string)
    requires priority in priorities
    ensures Toggled(Toggled(priorities, priority), priority) == Filter(priorities, q => q != priority) + [priority]
    ensures forall q :: q in Toggled(Toggled(priorities, priority), priority) <==> q in priorities
  {
    FilterMembers(priorities, q => q != priority);
  }

  /** Toggling twice gives back the very same list exactly when the id is absent, or
      occurs once and last. */
  lemma ToggleTwiceRestoresIff(priorities: seq<string>, priority: string)
    ensures Toggled(Toggled(priorities, priority), priority) == priorities <==>
              || priority !in priorities
              || (priorities[|priorities| - 1] == priority && priority !in priorities[..|priorities| - 1])
  {
    if priority in priorities {
      var keep := (q: string) => q != priority;
      var front := priorities[..|priorities| - 1];
      ToggleTwiceMovesPresentToEnd(priorities, priority);
      FilterMembers(priorities, keep);
      if priorities[|priorities| - 1] == priority && priority !in front {
        assert priorities == front + [priority];
        FilterAppend(front, [priority], keep);
        FilterAll(front, keep);
        FilterNone([priority], keep);
      }
      if Filter(priorities, keep) + [priority] == priorities {
        assert front == Filter(priorities, keep);
      }
    } else {
      ToggleTwiceRestoresAbsent(priorities, priority);
    }
  }

  /** So selecting "comfort", then "location", then deselecting and reselecting
      "comfort" changes the order of the list: the other ids come back first and
      "comfort" last. */
  lemma ToggleTwiceReorders()
    ensures Toggled(Toggled(["comfort", "location"], "comfort"), "comfort") == ["location", "comfort"]
  {
    var ps := ["comfort", "location"];
    var keep := (q: string) => q != "comfort";
    assert ps == ["comfort"] + ["location"];
    FilterCons("comfort", ["location"], keep);
    FilterCons("location", [], keep);
    assert "comfort" in ps;
    assert "comfort" !in ["location"];
  }

  /** A list without repeated ids stays that way. */
  lemma ToggleKeepsNoDuplicates(priorities: seq<string>, priority: string)
    requires NoDuplicates(priorities)
    ensures NoDuplicates(Toggled(priorities, priority))
  {
    if priority in priorities {
      FilterNoDuplicates(priorities, q => q != priority);
    }
  }

  /** Only chip ids are ever listed when only chips are clicked. */
  lemma ToggleKeepsChipIds(priorities: seq<string>, priority: string)
    requires forall q :: q in priorities ==> q in PriorityIds
    requires priority in PriorityIds
    ensures forall q :: q in Toggled(priorities, priority) ==> q in PriorityIds
  {
    ToggleFlipsOnlyThatId(priorities, priority);
  }

  /** The screen's state: the slider's value and the selected priority ids. */
  class BudgetPlanner {
    var budget: int
    var priorities: seq<string>

    /** The budget is a slider value and no id is listed twice. */
    ghost predicate Valid()
      reads this
    {
      OnSlider(budget) && NoDuplicates(priorities)
    }

    /** The screen opens at 1500 riyals with no priority selected. */
    constructor ()
      ensures Valid()
      ensures budget == DefaultBudget && priorities == []
    {
      budget := DefaultBudget;
      priorities := [];
    }

    /** The slider's change handler. */
    method SetBudget(value: int)
      requires Valid() && OnSlider(value)
      modifies this
      ensures Valid()
      ensures budget == value && priorities == old(priorities)
    {
      budget := value;
    }

    /** `togglePriority`, clicked on a chip. */
    method TogglePriority(priority: string)
      requires Valid()
      modifies this
      ensures Valid()
      ensures priorities == Toggled(old(priorities), priority) && budget == old(budget)
    {
      ToggleKeepsNoDuplicates(priorities, priority);
      priorities := Toggled(priorities, priority);
    }

    /** The breakdown shown for the current budget. */
    function CurrentBreakdown(): (b: Breakdown)
      reads this
      requires Valid()
      ensures Total(b) == budget
    {
      SliderSplitIsExact(budget);
      BudgetBreakdown(budget)
    }
  }

  // ---------------------------------------------------------------------------
  // The recommendations
  // ---------------------------------------------------------------------------

  /** One recommendation card. */
  datatype Recommendation = Recommendation(
    category: string,
    option: string,
    price: string,
    ratingTenths: nat,
    distance: string,
    savings: string)

  /** `recommendations`: a constant, so it is the same whatever the budget, the
      priorities, the duration or the number of travelers. */
  const Recommendations: seq<Recommendation> := [
    Recommendation("Accommodation", "Fairmont Makkah", "180 SAR/night", 47, "500m from Haram",
                   "Save 25% vs premium hotels"),
    Recommendation("Transportation", "Shuttle + Occasional Taxi", "40 SAR/day", 45, "Every 15 minutes",
                   "60% vs private car"),
    Recommendation("Dining", "Mix of hotel & local restaurants", "80 SAR/day per person", 46, "Within 300m",
                   "40% vs hotel-only dining")
  ]
}
