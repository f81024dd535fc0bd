/**
 * The constant option catalog and configuration of the Front Office Draft
 * (js/data.js): ten options, each a hire or a tool, with a cost and four
 * score attributes, and the budget limit and success threshold.
 *
 * Money is kept in whole TENTHS of a million: every cost in the catalog has
 * exactly one decimal place, so `cost: 3.0` becomes 30 and the limit 10.0
 * becomes 100, and every budget comparison is exact. The score attributes are
 * Dafny `real`s (exact rationals), an idealisation of the JavaScript doubles.
 */
module Catalog {

  datatype Option<T> = None | Some(value: T)

  datatype Category = Hire | Tool

  /** One entry of OPTIONS (display-only name and description omitted). */
  datatype Item = Item(
    id: int,
    cost: nat,          // tenths of a million
    awa: real,
    culture: real,
    risk: real,
    scalability: real,
    category: Category)

  /** CONFIG.BUDGET_LIMIT = 10.0, in tenths. */
  const BudgetLimit: nat := 100

  /** CONFIG.SUCCESS_THRESHOLD. */
  const SuccessThreshold: real := 5.0

  /** OPTIONS, in declaration order. */
  const Options: seq<Item> := [
    Item(1, 30, 1.8, 1.15, 0.0, 0.1, Hire),     // Elite Data Scientist
    Item(2, 25, 1.2, 1.15, 0.0, 0.2, Hire),     // Sports Scientist
    Item(3, 12, 0.2, 1.25, -0.15, 0.1, Hire),   // Veteran Scout
    Item(4, 15, 0.9, 1.05, -0.15, 0.2, Hire),   // Hybrid Quant Scout
    Item(5, 20, 1.4, 1.0, -0.15, 0.2, Hire),    // Machine Learning Engineer
    Item(6, 23, 1.0, 1.05, 0.0, 0.2, Tool),     // Tech Stack Upgrade
    Item(7, 18, 0.7, 1.05, -0.15, 0.1, Tool),   // Real-Time Data Pipeline
    Item(8, 20, 0.6, 1.15, -0.15, 0.1, Tool),   // Wearable Tracking System
    Item(9, 9, 0.3, 1.25, 0.0, 0.2, Hire),      // Culture/Communication Lead
    Item(10, 17, 1.0, 1.15, -0.15, 0.1, Hire)   // Player Development Analyst
  ]

  /** `OPTIONS.find(opt => opt.id === id)`: the first entry with that id. */
  function Find(options: seq<Item>, id: int): (r: Option<Item>)
    ensures r.Some? ==> r.value in options && r.value.id == id
    ensures r.Some? ==>
      exists i :: 0 <= i < |options| && options[i] == r.value && forall j :: 0 <= j < i ==> options[j].id != id
    ensures r.None? ==> forall i :: 0 <= i < |options| ==> options[i].id != id
  {
    if options == [] then None
    else if options[0].id == id then Some(options[0])
    else Find(options[1..], id)
  }

  /**
   * The id names an entry of the catalog, so `find` does not return
   * undefined; FindById shows this is exactly when `find` succeeds.
   */
  predicate InCatalog(id: int) {
    1 <= id <= |Options|
  }

  /** The catalog entry `find` returns for an id of the catalog (see FindById). */
  function Lookup(id: int): (r: Item)
    requires InCatalog(id)
    ensures r.id == id
  {
    EntryAt(id - 1);
    Options[id - 1]
  }

  /** Every id of a sequence names a catalog entry. */
  predicate AllInCatalog(ids: seq<int>) {
    forall i :: 0 <= i < |ids| ==> InCatalog(ids[i])
  }

  /** The catalog's ids are 1, 2, ..., 10 in declaration order. */
  lemma IdsAreOneToTen()
    ensures |Options| == 10
    ensures forall i :: 0 <= i < |Options| ==> Options[i].id == i + 1
    ensures forall i, j :: 0 <= i < j < |Options| ==> Options[i].id != Options[j].id
  {
    forall i | 0 <= i < |Options| ensures Options[i].id == i + 1 {
      EntryAt(i);
    }
  }

  /** Unfolds the catalog literal at one index. */
  lemma EntryAt(i: int)
    requires 0 <= i < |Options|
    ensures i == 0 ==> Options[i] == Item(1, 30, 1.8, 1.15, 0.0, 0.1, Hire)
    ensures i == 1 ==> Options[i] == Item(2, 25, 1.2, 1.15, 0.0, 0.2, Hire)
    ensures i == 2 ==> Options[i] == Item(3, 12, 0.2, 1.25, -0.15, 0.1, Hire)
    ensures i == 3 ==> Options[i] == Item(4, 15, 0.9, 1.05, -0.15, 0.2, Hire)
    ensures i == 4 ==> Options[i] == Item(5, 20, 1.4, 1.0, -0.15, 0.2, Hire)
    ensures i == 5 ==> Options[i] == Item(6, 23, 1.0, 1.05, 0.0, 0.2, Tool)
    ensures i == 6 ==> Options[i] == Item(7, 18, 0.7, 1.05, -0.15, 0.1, Tool)
    ensures i == 7 ==> Options[i] == Item(8, 20, 0.6, 1.15, -0.15, 0.1, Tool)
    ensures i == 8 ==> Options[i] == Item(9, 9, 0.3, 1.25, 0.0, 0.2, Hire)
    ensures i == 9 ==> Options[i] == Item(10, 17, 1.0, 1.15, -0.15, 0.1, Hire)
    ensures 0 <= i <= 9
  {
  }

  /** `find` over entries whose ids run k, k+1, ... returns the entry at id - k. */
  lemma {:induction false} FindNumbered(options: seq<Item>, k: int, id: int)
    requires forall i :: 0 <= i < |options| ==> options[i].id == k + i
    ensures Find(options, id) == if k <= id < k + |options| then Some(options[id - k]) else None
  {
    if options != [] && options[0].id != id {
      FindNumbered(options[1..], k + 1, id);
    }
  }

  /**
   * `OPTIONS.find(opt => opt.id === id)` succeeds exactly on the ids 1..10 and
   * then returns the entry Lookup names; ids are unique, so the first match
   * is the only one.
   */
  lemma FindById(id: int)
    ensures Find(Options, id) == if InCatalog(id) then Some(Lookup(id)) else None
    ensures InCatalog(id) ==> Lookup(id).id == id
  {
    IdsAreOneToTen();
    FindNumbered(Options, 1, id);
  }

  /**
   * Sign and range bounds of every entry: costs are positive, every risk is
   * at most 0 (the risk penalty is "already negative"), every culture value is
   * between 1.0 and 1.25, every scalability between 0.1 and 0.2, every awa
   * between 0.2 and 1.8.
   */
  lemma EntryBounds(item: Item)
    requires item in Options
    ensures 0 < item.cost <= 30
    ensures item.risk <= 0.0 && item.risk >= -0.15
    ensures 1.0 <= item.culture <= 1.25
    ensures 0.1 <= item.scalability <= 0.2
    ensures 0.2 <= item.awa <= 1.8
  {
    var i :| 0 <= i < |Options| && Options[i] == item;
    EntryAt(i);
  }

  /** Ids 1, 2, 3, 4, 5, 9 and 10 are hires; 6, 7 and 8 are tools. */
  lemma CategoryById(id: int)
    requires InCatalog(id)
    ensures Lookup(id).category == Tool <==> 6 <= id <= 8
    ensures Lookup(id).category == Hire <==> (1 <= id <= 5 || 9 <= id <= 10)
  {
    EntryAt(id - 1);
  }

  /** Each catalog entry is the one its id looks up. */
  lemma LookupOfEntry(item: Item)
    requires item in Options
    ensures InCatalog(item.id) && Lookup(item.id) == item
  {
    var i :| 0 <= i < |Options| && Options[i] == item;
    EntryAt(i);
  }
}
