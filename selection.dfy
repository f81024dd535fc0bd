/**
 * The budget-capped selection of js/app.js as a state machine over values:
 * the list of selected ids (`state.selectedOptions`) and the running total
 * (`state.totalCost`, in tenths of a million), and the transitions made by
 * toggleOption and clearAllSelections. App.DraftState performs these
 * transitions in place and is proved against the functions here.
 *
 * In the source the running total is a JavaScript double updated with
 * `+=` and `-=`, so it can drift from the exact sum of costs; here it is an
 * integer number of tenths and the drift is not modelled.
 */
module Selection {
  import opened Catalog
  import opened SeqFacts

  /** The selection part of the application state. */
  datatype Draft = Draft(selected: seq<int>, totalCost: int)

  /** The state the page starts in. */
  const Empty := Draft([], 0)

  /** What toggleOption did: removed the id, added it, or showed the budget warning. */
  datatype ToggleOutcome = Deselected | Selected | BudgetWarning

  datatype Step = Step(draft: Draft, outcome: ToggleOutcome)

  /** The sum of the catalog costs of the ids, added left to right. */
  function CostOf(ids: seq<int>): nat
    requires AllInCatalog(ids)
  {
    if ids == [] then 0 else CostOf(ids[..|ids| - 1]) + Lookup(ids[|ids| - 1]).cost
  }

  /**
   * The invariant of every state reachable from Empty: no id twice, every id
   * in the catalog, the running total equal to the sum of the selected
   * costs, and within the budget.
   */
  predicate Consistent(d: Draft) {
    NoDuplicates(d.selected) && AllInCatalog(d.selected) &&
    d.totalCost == CostOf(d.selected) && d.totalCost <= BudgetLimit
  }

  /**
   * `s.filter(x => x !== id)`: every occurrence of id is dropped and every
   * other element kept.
   */
  function Remove(s: seq<int>, id: int): (r: seq<int>)
    ensures forall x :: x in r <==> x in s && x != id
    ensures |r| <= |s|
  {
    if s == [] then []
    else Remove(s[..|s| - 1], id) + (if s[|s| - 1] == id then [] else [s[|s| - 1]])
  }

  /**
   * The `disabled` flag createOptionCard puts on an option's card: the option
   * is not selected and adding its cost would pass the budget limit.
   */
  predicate WouldExceedBudget(d: Draft, option: Item) {
    option.id !in d.selected && d.totalCost + option.cost > BudgetLimit
  }

  /**
   * toggleOption: deselect a selected id; otherwise refuse (before changing
   * anything) when the new total would be strictly above the limit, or
   * append the id and add its cost.
   */
  function Toggle(d: Draft, id: int): (r: Step)
    requires InCatalog(id)
    ensures r.outcome == Deselected <==> id in d.selected
    ensures r.outcome == BudgetWarning ==> r.draft == d
  {
    var option := Lookup(id);
    if id in d.selected then
      Step(Draft(Remove(d.selected, id), d.totalCost - option.cost), Deselected)
    else if d.totalCost + option.cost > BudgetLimit then
      Step(d, BudgetWarning)
    else
      Step(Draft(d.selected + [id], d.totalCost + option.cost), Selected)
  }

  /**
   * clearAllSelections with the answer the user gave to the confirmation
   * dialog: nothing happens on an empty selection or when the user declines.
   */
  function Clear(d: Draft, confirmed: bool): Draft {
    if |d.selected| == 0 then d
    else if confirmed then Draft([], 0)
    else d
  }

  /** One user action on the selection. */
  datatype Action = ToggleOption(optionId: int) | ClearAll(confirmed: bool)

  predicate ValidAction(a: Action) {
    a.ToggleOption? ==> InCatalog(a.optionId)
  }

  /** Every toggle in the list names a catalog option. */
  predicate ValidActions(actions: seq<Action>) {
    forall i :: 0 <= i < |actions| ==> ValidAction(actions[i])
  }

  function Apply(d: Draft, a: Action): Draft
    requires ValidAction(a)
  {
    match a
    case ToggleOption(id) => Toggle(d, id).draft
    case ClearAll(confirmed) => Clear(d, confirmed)
  }

  /** The state after performing the actions in order. */
  function Run(d: Draft, actions: seq<Action>): Draft
    requires ValidActions(actions)
    decreases |actions|
  {
    if actions == [] then d else Run(Apply(d, actions[0]), actions[1..])
  }

  // ---------------------------------------------------------------------------
  // Facts about Remove and CostOf
  // ---------------------------------------------------------------------------

  lemma {:induction false} RemoveAbsent(s: seq<int>, id: int)
    requires id !in s
    ensures Remove(s, id) == s
  {
    if s != [] {
      var n := |s|;
      RemoveAbsent(s[..n - 1], id);
      assert s == s[..n - 1] + [s[n - 1]];
    }
  }

  /** On a list without duplicates, filtering out s[k] cuts out exactly position k. */
  lemma {:induction false} RemoveAt(s: seq<int>, k: int)
    requires NoDuplicates(s) && 0 <= k < |s|
    ensures Remove(s, s[k]) == s[..k] + s[k + 1..]
  {
    var n := |s|;
    var init := s[..n - 1];
    if k == n - 1 {
      assert s[k] !in init;
      RemoveAbsent(init, s[k]);
      assert s[..k] + s[k + 1..] == init;
    } else {
      RemoveAt(init, k);
      assert s[..k] + s[k + 1..] == init[..k] + init[k + 1..] + [s[n - 1]];
    }
  }

  lemma NoDuplicatesRemoveAt(s: seq<int>, k: int)
    requires NoDuplicates(s) && 0 <= k < |s|
    ensures NoDuplicates(s[..k] + s[k + 1..])
    ensures s[k] !in s[..k] + s[k + 1..]
  {
    var r := s[..k] + s[k + 1..];
    forall i, j | 0 <= i < j < |r| ensures r[i] != r[j] {
      var i' := if i < k then i else i + 1;
      var j' := if j < k then j else j + 1;
      assert r[i] == s[i'] && r[j] == s[j'];
    }
    forall i | 0 <= i < |r| ensures r[i] != s[k] {
      assert r[i] == s[if i < k then i else i + 1];
    }
  }

  /** Taking one id out of the cost sum subtracts exactly its cost. */
  lemma {:induction false} CostRemoveAt(ids: seq<int>, k: int)
    requires AllInCatalog(ids) && 0 <= k < |ids|
    ensures AllInCatalog(ids[..k] + ids[k + 1..])
    ensures CostOf(ids) == CostOf(ids[..k] + ids[k + 1..]) + Lookup(ids[k]).cost
  {
    var n := |ids|;
    var init := ids[..n - 1];
    if k == n - 1 {
      assert ids[..k] + ids[k + 1..] == init;
    } else {
      CostRemoveAt(init, k);
      var rest := init[..k] + init[k + 1..];
      assert ids[..k] + ids[k + 1..] == rest + [ids[n - 1]];
      assert (rest + [ids[n - 1]])[..|rest|] == rest;
    }
  }

  /** The cost of a selection does not depend on the order of its ids. */
  lemma {:induction false} CostPermutation(a: seq<int>, b: seq<int>)
    requires AllInCatalog(a) && AllInCatalog(b) && multiset(a) == multiset(b)
    ensures CostOf(a) == CostOf(b)
    decreases |a|
  {
    if a == [] {
      assert |b| == |multiset(b)| == 0;
    } else {
      var i := |a| - 1;
      var j := IndexOf(b, a[i]);
      CostRemoveAt(a, i);
      CostRemoveAt(b, j);
      MultisetRemoveAt(a, i);
      MultisetRemoveAt(b, j);
      CostPermutation(a[..i] + a[i + 1..], b[..j] + b[j + 1..]);
    }
  }

  // ---------------------------------------------------------------------------
  // Properties of the transitions
  // ---------------------------------------------------------------------------

  /** An id that is not selected is added to the end and its cost added. */
  lemma SelectAppends(d: Draft, id: int)
    requires Consistent(d) && InCatalog(id) && id !in d.selected
    ensures NoDuplicates(d.selected + [id]) && AllInCatalog(d.selected + [id])
    ensures CostOf(d.selected + [id]) == d.totalCost + Lookup(id).cost
  {
    var s := d.selected + [id];
    assert s[..|s| - 1] == d.selected;
  }

  /**
   * Deselecting always succeeds: it removes exactly that id, keeps the other
   * ids in their order, and lowers the total by the id's cost.
   */
  lemma DeselectRemovesExactly(d: Draft, k: int)
    requires Consistent(d) && 0 <= k < |d.selected|
    ensures var id := d.selected[k];
      Toggle(d, id) == Step(Draft(d.selected[..k] + d.selected[k + 1..], d.totalCost - Lookup(id).cost), Deselected)
    ensures Consistent(Toggle(d, d.selected[k]).draft)
    ensures d.selected[k] !in Toggle(d, d.selected[k]).draft.selected
  {
    RemoveAt(d.selected, k);
    NoDuplicatesRemoveAt(d.selected, k);
    CostRemoveAt(d.selected, k);
  }

  /**
   * An addition is refused exactly when the new total would be strictly
   * above the limit; an accepted addition keeps the total within it, and a
   * total landing exactly on the limit is accepted.
   */
  lemma SelectWithinBudget(d: Draft, id: int)
    requires Consistent(d) && InCatalog(id) && id !in d.selected
    ensures Toggle(d, id).outcome == BudgetWarning <==> d.totalCost + Lookup(id).cost > BudgetLimit
    ensures Toggle(d, id).outcome == Selected ==> Toggle(d, id).draft.totalCost <= BudgetLimit
    ensures d.totalCost + Lookup(id).cost == BudgetLimit ==>
      Toggle(d, id) == Step(Draft(d.selected + [id], BudgetLimit), Selected)
    ensures Consistent(Toggle(d, id).draft)
  {
    SelectAppends(d, id);
  }

  /** Every toggle of a catalog id keeps the invariant. */
  lemma ToggleKeepsConsistent(d: Draft, id: int)
    requires Consistent(d) && InCatalog(id)
    ensures Consistent(Toggle(d, id).draft)
  {
    if id in d.selected {
      var k :| 0 <= k < |d.selected| && d.selected[k] == id;
      DeselectRemovesExactly(d, k);
    } else {
      SelectWithinBudget(d, id);
    }
  }

  /**
   * Clearing: a no-op on an empty selection or without confirmation; with
   * confirmation on a non-empty selection, the empty state. Either way the
   * invariant is kept.
   */
  lemma ClearKeepsConsistent(d: Draft, confirmed: bool)
    requires Consistent(d)
    ensures Consistent(Clear(d, confirmed))
    ensures Clear(d, confirmed) == (if confirmed then Empty else d)
  {
  }

  /** Selecting an unselected id and toggling it again restores the state exactly. */
  lemma SelectThenDeselect(d: Draft, id: int)
    requires Consistent(d) && InCatalog(id) && id !in d.selected
    requires Toggle(d, id).outcome == Selected
    ensures Toggle(Toggle(d, id).draft, id) == Step(d, Deselected)
  {
    var s := d.selected + [id];
    assert s[..|s| - 1] == d.selected;
    RemoveAbsent(d.selected, id);
  }

  /** The card's disabled flag is true exactly when toggling that option is refused. */
  lemma CardFlagMatchesToggle(d: Draft, option: Item)
    requires option in Options
    ensures InCatalog(option.id)
    ensures WouldExceedBudget(d, option) <==> Toggle(d, option.id).outcome == BudgetWarning
  {
    LookupOfEntry(option);
  }

  /** Any sequence of toggles and clears keeps the invariant. */
  lemma {:induction false} RunKeepsConsistent(d: Draft, actions: seq<Action>)
    requires Consistent(d)
    requires ValidActions(actions)
    ensures Consistent(Run(d, actions))
    decreases |actions|
  {
    if actions != [] {
      match actions[0] {
        case ToggleOption(id) => ToggleKeepsConsistent(d, id);
        case ClearAll(confirmed) => ClearKeepsConsistent(d, confirmed);
      }
      RunKeepsConsistent(Apply(d, actions[0]), actions[1..]);
    }
  }

  /**
   * Every state reached from the empty page by toggles and clears has no
   * duplicate id, a total equal to the sum of its costs, and a total within
   * the budget.
   */
  lemma ReachableIsConsistent(actions: seq<Action>)
    requires ValidActions(actions)
    ensures Consistent(Run(Empty, actions))
  {
    RunKeepsConsistent(Empty, actions);
  }

  /** All ten ids, in catalog order. */
  const AllIds: seq<int> := [1, 2, 3, 4, 5, 6, 7, 8, 9, 10]

  /**
   * The ten costs add up to 18.9, above the 10.0 limit, so no reachable
   * state holds the whole catalog, in whatever order it was picked.
   */
  lemma CannotSelectEverything(d: Draft)
    requires Consistent(d)
    ensures AllInCatalog(AllIds) && CostOf(AllIds) == 189
    ensures multiset(d.selected) != multiset(AllIds)
  {
    PrefixCost(10);
    assert AllIds[..10] == AllIds;
    if multiset(d.selected) == multiset(AllIds) {
      CostPermutation(d.selected, AllIds);
    }
  }

  /** The running sums of the catalog costs, in catalog order. */
  lemma {:induction false} PrefixCost(k: nat)
    requires k <= 10
    ensures AllInCatalog(AllIds[..k])
    ensures CostOf(AllIds[..k]) == [0, 30, 55, 67, 82, 102, 125, 143, 163, 172, 189][k]
  {
    if k > 0 {
      PrefixCost(k - 1);
      assert AllIds[..k][..k - 1] == AllIds[..k - 1];
      assert AllIds[k - 1] == k;
      EntryAt(k - 1);
    }
  }

  /**
   * Elite Data Scientist, Hybrid Quant Scout, Machine Learning Engineer,
   * Real-Time Data Pipeline and Player Development Analyst, picked in this
   * order: 3.0 + 1.5 + 2.0 + 1.8 + 1.7 = 10.0.
   */
  const ExactLimitPicks: seq<Action> :=
    [ToggleOption(1), ToggleOption(4), ToggleOption(5), ToggleOption(7), ToggleOption(10)]

  /** One accepted toggle: the id is appended and its cost added. */
  lemma AcceptedToggle(d: Draft, id: int, next: Draft)
    requires InCatalog(id) && id !in d.selected
    requires next == Draft(d.selected + [id], d.totalCost + Lookup(id).cost)
    requires next.totalCost <= BudgetLimit
    ensures Toggle(d, id) == Step(next, Selected)
  {
  }

  /** Every pick of ExactLimitPicks is accepted, the last one landing exactly on the limit. */
  lemma ExactLimitRun()
    ensures ValidActions(ExactLimitPicks)
    ensures Run(Empty, ExactLimitPicks) == Draft([1, 4, 5, 7, 10], BudgetLimit)
  {
    var picks := ExactLimitPicks;
    EntryAt(0); EntryAt(3); EntryAt(4); EntryAt(6); EntryAt(9);
    var d1, d2, d3, d4, d5 :=
      Draft([1], 30), Draft([1, 4], 45), Draft([1, 4, 5], 65), Draft([1, 4, 5, 7], 83), Draft([1, 4, 5, 7, 10], 100);
    AcceptedToggle(Empty, 1, d1);
    AcceptedToggle(d1, 4, d2);
    AcceptedToggle(d2, 5, d3);
    AcceptedToggle(d3, 7, d4);
    AcceptedToggle(d4, 10, d5);
    var p4 := [ToggleOption(10)];
    var p3 := [ToggleOption(7)] + p4;
    var p2 := [ToggleOption(5)] + p3;
    var p1 := [ToggleOption(4)] + p2;
    RunOne(d4, ToggleOption(10), [], d5);
    RunOne(d3, ToggleOption(7), p4, d5);
    RunOne(d2, ToggleOption(5), p3, d5);
    RunOne(d1, ToggleOption(4), p2, d5);
    RunOne(Empty, ToggleOption(1), p1, d5);
    assert picks == [ToggleOption(1)] + p1;
  }

  /** After the exact-limit picks, the Culture/Communication Lead (0.9) is refused. */
  lemma ExactLimitScenario()
    ensures Toggle(Draft([1, 4, 5, 7, 10], BudgetLimit), 9) ==
      Step(Draft([1, 4, 5, 7, 10], BudgetLimit), BudgetWarning)
  {
    EntryAt(8);
  }

  /** Running [a] + rest performs a first. */
  lemma RunOne(d: Draft, a: Action, rest: seq<Action>, last: Draft)
    requires ValidAction(a) && ValidActions(rest)
    requires Run(Apply(d, a), rest) == last
    ensures ValidActions([a] + rest)
    ensures Run(d, [a] + rest) == last
  {
    assert ([a] + rest)[1..] == rest;
  }

}
