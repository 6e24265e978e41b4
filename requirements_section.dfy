/**
 The filter toggles of the requirements section: the list of active filter
 ids starts as `["vegetarian"]` and each click on a filter button toggles
 that button's id in the list.
 */
module RequirementsSection {
  import opened Lists

  const InitialFilters: seq<string> := ["vegetarian"]

  /** The ids of the four filter buttons, in display order. */
  const FilterIds: seq<string> := ["vegetarian", "quick", "family", "global"]

  /** `toggleFilter(filterId)` applied to the previous list: an active id is
      dropped with the others kept in order, an inactive one is appended. */
  function ToggleFilter(activeFilters: seq<string>, filterId: string): (r: seq<string>)
    ensures filterId in activeFilters ==> r == RemoveAll(activeFilters, filterId)
    ensures filterId !in activeFilters ==> r == activeFilters + [filterId]
    ensures filterId in r <==> filterId !in activeFilters
    ensures forall id :: id != filterId ==> (id in r <==> id in activeFilters)
  {
    Toggle(activeFilters, filterId)
  }

  /** A button shows as active when its id is in the list. */
  predicate IsActive(activeFilters: seq<string>, filterId: string) {
    filterId in activeFilters
  }

  /** Toggling an inactive filter twice restores the list exactly; toggling an
      active one twice keeps the same active set but moves it to the end. */
  lemma ToggleFilterTwice(activeFilters: seq<string>, filterId: string)
    ensures filterId !in activeFilters ==> ToggleFilter(ToggleFilter(activeFilters, filterId), filterId) == activeFilters
    ensures filterId in activeFilters ==>
      ToggleFilter(ToggleFilter(activeFilters, filterId), filterId) == RemoveAll(activeFilters, filterId) + [filterId]
    ensures forall id :: IsActive(ToggleFilter(ToggleFilter(activeFilters, filterId), filterId), id) <==> IsActive(activeFilters, id)
  {
    if filterId in activeFilters {
      ToggleTwicePresent(activeFilters, filterId);
    } else {
      ToggleTwiceAbsent(activeFilters, filterId);
    }
  }

  /** The list after the given clicks, oldest first, from the initial list. */
  function ApplyClicks(clicks: seq<string>): seq<string>
    decreases |clicks|
  {
    if clicks == [] then InitialFilters
    else ToggleFilter(ApplyClicks(clicks[..|clicks| - 1]), clicks[|clicks| - 1])
  }

  /** How many of the clicks were on `filterId`. */
  function Clicks(clicks: seq<string>, filterId: string): nat {
    multiset(clicks)[filterId]
  }

  /** A filter is active exactly when its clicks, counting the initial
      "vegetarian" as one, are odd in number. */
  lemma {:induction false} ActiveIffOddClicks(clicks: seq<string>, filterId: string)
    ensures IsActive(ApplyClicks(clicks), filterId) <==>
      (Clicks(clicks, filterId) + (if filterId in InitialFilters then 1 else 0)) % 2 == 1
    decreases |clicks|
  {
    var initial := if filterId in InitialFilters then 1 else 0;
    if clicks != [] {
      var prefix, last := clicks[..|clicks| - 1], clicks[|clicks| - 1];
      assert clicks == prefix + [last];
      ClicksSnoc(prefix, last, filterId);
      ActiveIffOddClicks(prefix, filterId);
      if last == filterId {
        OddStep(Clicks(prefix, filterId) + initial);
      }
    } else {
      assert InitialFilters == ["vegetarian"];
    }
  }

  /** Adding one flips the parity. */
  lemma OddStep(n: nat)
    ensures (n + 1) % 2 == 1 <==> n % 2 != 1
  {
  }

  /** One more click adds one to the clicked filter's count and nothing to the others'. */
  lemma ClicksSnoc(prefix: seq<string>, last: string, filterId: string)
    ensures Clicks(prefix + [last], filterId) == Clicks(prefix, filterId) + (if last == filterId then 1 else 0)
  {
    assert multiset(prefix + [last]) == multiset(prefix) + multiset{last};
  }

  /** Clicking only the four buttons, the list never repeats an id and never
      holds anything but a button's id. */
  lemma {:induction false} ClicksKeepListWellFormed(clicks: seq<string>)
    requires forall i :: 0 <= i < |clicks| ==> clicks[i] in FilterIds
    ensures NoDup(ApplyClicks(clicks))
    ensures forall id :: id in ApplyClicks(clicks) ==> id in FilterIds
    decreases |clicks|
  {
    if clicks == [] {
      assert InitialFilters[0] in FilterIds;
    } else {
      var prefix := clicks[..|clicks| - 1];
      assert forall i :: 0 <= i < |prefix| ==> prefix[i] == clicks[i];
      ClicksKeepListWellFormed(prefix);
      ToggleKeepsNoDup(ApplyClicks(prefix), clicks[|clicks| - 1]);
    }
  }
}
