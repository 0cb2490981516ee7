/** The command palette: a fixed list of entries filtered by a case-insensitive
    substring query, shown grouped by category in a fixed category order, and
    the keyboard rules that close it. */
module CommandPalette {
  import opened Wrappers
  import opened Strings

  /** One palette entry (`label` is a Dafny keyword, hence `title`); the icon is left out. */
  datatype Item = Item(title: string, category: string, shortcut: Option<string>)

  /** The entries, in the order they are declared. */
  const Items: seq<Item> := [
    Item("Run Batch Job...", "Commands", Some("R")),
    Item("obs_2026_01_25.parquet", "Recent Data", Some("↵")),
    Item("vlass-analysis:v1.0.2", "Recent Jobs", Some("↵")),
    Item("Manage Groups", "Collaboration", None),
    Item("Settings", "System", None)
  ]

  /** The order in which category groups are shown. */
  const CategoryOrder: seq<string> := ["Commands", "Recent Data", "Recent Jobs", "Collaboration", "System"]

  // ---------------------------------------------------------------------------
  // Filtering

  /** The entry's label, lower-cased, contains the lower-cased query. */
  function Matches(item: Item, query: string): (r: bool)
    ensures r <==> Occurs(ToLower(query), ToLower(item.title))
  {
    Includes(ToLower(item.title), ToLower(query))
  }

  /** The entries kept for a query, in their original order. */
  function Filter(items: seq<Item>, query: string): (r: seq<Item>)
    ensures |r| <= |items|
    ensures forall x :: x in r <==> x in items && Occurs(ToLower(query), ToLower(x.title))
  {
    if items == [] then []
    else (if Matches(items[0], query) then [items[0]] else []) + Filter(items[1..], query)
  }

  /** Filtering a list in two parts filters each part and keeps them in
      order: the filter never reorders entries. */
  lemma {:induction false} FilterAppend(a: seq<Item>, b: seq<Item>, query: string)
    ensures Filter(a + b, query) == Filter(a, query) + Filter(b, query)
  {
    if a == [] {
      assert a + b == b;
    } else {
      assert (a + b)[0] == a[0];
      assert (a + b)[1..] == a[1..] + b;
      FilterAppend(a[1..], b, query);
    }
  }

  /** The empty query keeps every entry. */
  lemma {:induction false} EmptyQueryKeepsAll(items: seq<Item>)
    ensures Filter(items, "") == items
  {
    if items != [] {
      IncludesEmpty(ToLower(items[0].title));
      EmptyQueryKeepsAll(items[1..]);
    }
  }

  /** Filtering is case-insensitive in the query. */
  lemma {:induction false} FilterIgnoresQueryCase(items: seq<Item>, query: string)
    ensures Filter(items, ToLower(query)) == Filter(items, query)
  {
    ToLowerIdempotent(query);
    if items != [] {
      FilterIgnoresQueryCase(items[1..], query);
    }
  }

  // ---------------------------------------------------------------------------
  // Grouping

  /** `items.filter(i => i.category === category)` */
  function InCategory(items: seq<Item>, category: string): (r: seq<Item>)
    ensures forall x :: x in r <==> x in items && x.category == category
  {
    if items == [] then []
    else (if items[0].category == category then [items[0]] else []) + InCategory(items[1..], category)
  }

  datatype Group = Group(category: string, items: seq<Item>)

  /** One group per category of `order` that has entries; empty ones are skipped. */
  function Groups(items: seq<Item>, order: seq<string>): (r: seq<Group>)
    ensures |r| <= |order|
    ensures forall g :: g in r ==> g.category in order && g.items != [] && g.items == InCategory(items, g.category)
  {
    if order == [] then []
    else
      var here := InCategory(items, order[0]);
      (if here == [] then [] else [Group(order[0], here)]) + Groups(items, order[1..])
  }

  /** A category of the order gets a group exactly when it has entries. */
  lemma {:induction false} GroupShownIffNonEmpty(items: seq<Item>, order: seq<string>, c: string)
    requires c in order
    ensures (exists g :: g in Groups(items, order) && g.category == c) <==> InCategory(items, c) != []
  {
    if order[0] == c {
      if InCategory(items, c) != [] {
        assert Groups(items, order)[0] == Group(c, InCategory(items, c));
      }
    } else {
      GroupShownIffNonEmpty(items, order[1..], c);
      assert forall g :: g in Groups(items, order) && g.category == c ==> g in Groups(items, order[1..]);
    }
  }

  /** The index of the first occurrence of `c` in `order`. */
  function IndexOf(order: seq<string>, c: string): (i: nat)
    requires c in order
    ensures i < |order| && order[i] == c && c !in order[..i]
  {
    if order[0] == c then 0 else 1 + IndexOf(order[1..], c)
  }

  predicate DistinctCategories(order: seq<string>) {
    forall i, j :: 0 <= i < j < |order| ==> order[i] != order[j]
  }

  /** With no category listed twice, groups follow the category order, so no
      category has two groups. */
  lemma {:induction false} GroupsFollowOrder(items: seq<Item>, order: seq<string>)
    requires DistinctCategories(order)
    ensures forall i, j :: 0 <= i < j < |Groups(items, order)| ==>
      IndexOf(order, Groups(items, order)[i].category) < IndexOf(order, Groups(items, order)[j].category)
  {
    if order != [] {
      var rest := Groups(items, order[1..]);
      GroupsFollowOrder(items, order[1..]);
      var gs := Groups(items, order);
      var k := |gs| - |rest|;
      assert gs[k..] == rest;
      forall i, j | 0 <= i < j < |gs|
        ensures IndexOf(order, gs[i].category) < IndexOf(order, gs[j].category)
      {
        assert gs[j] == rest[j - k];
        TailIndex(order, gs[j].category);
        if i >= k {
          assert gs[i] == rest[i - k];
          TailIndex(order, gs[i].category);
        } else {
          assert gs[i].category == order[0];
        }
      }
    }
  }

  /** In an order without repeats, a category of the tail sits one place
      further on in the whole order. */
  lemma TailIndex(order: seq<string>, c: string)
    requires DistinctCategories(order) && order != [] && c in order[1..]
    ensures c != order[0] && IndexOf(order, c) == 1 + IndexOf(order[1..], c)
  {
    var i :| 0 <= i < |order[1..]| && order[1..][i] == c;
    assert order[i + 1] == c;
  }

  lemma CategoryOrderDistinct()
    ensures DistinctCategories(CategoryOrder)
  {
  }

  /** An entry whose category is in the order appears in exactly one group:
      its own category's. */
  lemma ItemInItsOwnGroup(items: seq<Item>, order: seq<string>, x: Item)
    requires x in items && x.category in order
    ensures exists g :: g in Groups(items, order) && g.category == x.category && x in g.items
    ensures forall g :: g in Groups(items, order) && x in g.items ==> g.category == x.category
  {
    GroupShownIffNonEmpty(items, order, x.category);
  }

  /** Every declared entry has a category that is shown. */
  lemma ItemCategoriesAreOrdered()
    ensures forall x :: x in Items ==> x.category in CategoryOrder
  {
  }

  // ---------------------------------------------------------------------------
  // What the palette shows and how keys close it

  datatype View = Closed | NoResults(query: string) | Results(groups: seq<Group>)

  /** Nothing when closed; with no entry left, the no-results message;
      otherwise the groups of the kept entries. */
  function ViewOf(isOpen: bool, query: string): (v: View)
    ensures !isOpen <==> v == Closed
    ensures isOpen && Filter(Items, query) == [] <==> v == NoResults(query)
  {
    if !isOpen then Closed
    else
      var kept := Filter(Items, query);
      if kept == [] then NoResults(query) else Results(Groups(kept, CategoryOrder))
  }

  /** The converse of `ResultsListEveryKeptItem`: an open palette lists only
      entries the query keeps, each under its own category. */
  lemma ResultsListOnlyKeptItems(query: string)
    ensures ViewOf(true, query).Results? ==>
      forall g, y :: (g in ViewOf(true, query).groups && y in g.items) ==>
        y in Filter(Items, query) && Matches(y, query) && y.category == g.category
  {
    var kept := Filter(Items, query);
    if ViewOf(true, query).Results? {
      assert ViewOf(true, query).groups == Groups(kept, CategoryOrder);
      GroupedFromItems(kept, CategoryOrder);
    }
  }

  /** A group holds only entries of the grouped list, of the group's category. */
  lemma GroupedFromItems(items: seq<Item>, order: seq<string>)
    ensures forall g, y :: (g in Groups(items, order) && y in g.items) ==> y in items && y.category == g.category
  {
  }

  /** An open palette with matches lists every kept entry in exactly one
      group, its own category's, and no group lists an entry twice. */
  lemma ResultsListEveryKeptItem(query: string, x: Item)
    requires ViewOf(true, query).Results? && x in Filter(Items, query)
    ensures exists g :: g in ViewOf(true, query).groups && g.category == x.category && x in g.items
    ensures forall g :: g in ViewOf(true, query).groups && x in g.items ==> g.category == x.category
    ensures forall g, h :: (g in ViewOf(true, query).groups && h in ViewOf(true, query).groups
                           && x in g.items && x in h.items) ==> g == h
    ensures forall g :: g in ViewOf(true, query).groups ==> NoRepeats(g.items)
  {
    KeptItemListedOnce(query, x);
    assert ViewOf(true, query).groups == Groups(Filter(Items, query), CategoryOrder);
  }

  /** The same, for the groups of the kept entries. */
  lemma KeptItemListedOnce(query: string, x: Item)
    requires x in Filter(Items, query)
    ensures exists g :: g in Groups(Filter(Items, query), CategoryOrder) && g.category == x.category && x in g.items
    ensures forall g :: g in Groups(Filter(Items, query), CategoryOrder) && x in g.items ==> g.category == x.category
    ensures forall g, h :: (g in Groups(Filter(Items, query), CategoryOrder) && h in Groups(Filter(Items, query), CategoryOrder)
                           && x in g.items && x in h.items) ==> g == h
    ensures forall g :: g in Groups(Filter(Items, query), CategoryOrder) ==> NoRepeats(g.items)
  {
    var kept := Filter(Items, query);
    assert x.category in CategoryOrder by {
      ItemCategoriesAreOrdered();
    }
    assert NoRepeats(kept) by {
      ItemsNoRepeats();
      FilterNoRepeats(Items, query);
    }
    assert DistinctCategories(CategoryOrder) by {
      CategoryOrderDistinct();
    }
    ListedInOneGroup(kept, CategoryOrder, x);
  }

  /** With categories in an order without repeats, an entry of a listed
      category is in exactly one group, and groups of entries without
      repeats list each entry once. */
  lemma ListedInOneGroup(items: seq<Item>, order: seq<string>, x: Item)
    requires DistinctCategories(order) && NoRepeats(items) && x in items && x.category in order
    ensures exists g :: g in Groups(items, order) && g.category == x.category && x in g.items
    ensures forall g :: g in Groups(items, order) && x in g.items ==> g.category == x.category
    ensures forall g, h :: (g in Groups(items, order) && h in Groups(items, order)
                           && x in g.items && x in h.items) ==> g == h
    ensures forall g :: g in Groups(items, order) ==> NoRepeats(g.items)
  {
    var gs := Groups(items, order);
    ItemInItsOwnGroup(items, order, x);
    GroupsDistinctCategories(items, order);
    forall g, h | g in gs && h in gs && x in g.items && x in h.items
      ensures g == h
    {
      var i :| 0 <= i < |gs| && gs[i] == g;
      var j :| 0 <= j < |gs| && gs[j] == h;
      assert gs[i].category == gs[j].category;
    }
    forall g | g in gs
      ensures NoRepeats(g.items)
    {
      InCategoryNoRepeats(items, g.category);
    }
  }

  /** Two groups with the same category are the same group. */
  lemma GroupsDistinctCategories(items: seq<Item>, order: seq<string>)
    requires DistinctCategories(order)
    ensures forall i, j :: (0 <= i < |Groups(items, order)| && 0 <= j < |Groups(items, order)|
      && Groups(items, order)[i].category == Groups(items, order)[j].category) ==> i == j
  {
    var gs := Groups(items, order);
    GroupsFollowOrder(items, order);
    forall i, j | 0 <= i < |gs| && 0 <= j < |gs| && i != j
      ensures gs[i].category != gs[j].category
    {
      if i < j {
        assert IndexOf(order, gs[i].category) < IndexOf(order, gs[j].category);
      } else {
        assert IndexOf(order, gs[j].category) < IndexOf(order, gs[i].category);
      }
    }
  }

  /** No entry is listed twice. */
  predicate NoRepeats(items: seq<Item>) {
    forall i, j :: 0 <= i < j < |items| ==> items[i] != items[j]
  }

  lemma ConsNoRepeats(h: Item, rest: seq<Item>)
    requires h !in rest && NoRepeats(rest)
    ensures NoRepeats([h] + rest)
  {
    forall i, j | 0 <= i < j < |[h] + rest|
      ensures ([h] + rest)[i] != ([h] + rest)[j]
    {
      assert ([h] + rest)[j] == rest[j - 1];
    }
  }

  lemma ItemsNoRepeats()
    ensures NoRepeats(Items)
  {
  }

  /** Filtering never repeats an entry. */
  lemma {:induction false} FilterNoRepeats(items: seq<Item>, query: string)
    requires NoRepeats(items)
    ensures NoRepeats(Filter(items, query))
  {
    if items != [] {
      var rest := Filter(items[1..], query);
      FilterNoRepeats(items[1..], query);
      assert items[0] !in items[1..];
      if Matches(items[0], query) {
        ConsNoRepeats(items[0], rest);
      } else {
        assert Filter(items, query) == rest;
      }
    }
  }

  lemma {:induction false} InCategoryNoRepeats(items: seq<Item>, category: string)
    requires NoRepeats(items)
    ensures NoRepeats(InCategory(items, category))
  {
    if items != [] {
      var rest := InCategory(items[1..], category);
      InCategoryNoRepeats(items[1..], category);
      assert items[0] !in items[1..];
      if items[0].category == category {
        ConsNoRepeats(items[0], rest);
      } else {
        assert InCategory(items, category) == rest;
      }
    }
  }

  /** The keys of a keydown event that matter here. */
  datatype KeyEvent = KeyEvent(key: string, metaKey: bool, ctrlKey: bool)

  /** The effect of one keydown: whether the browser default is prevented and
      how many times `onClose` is called. */
  datatype KeyEffect = KeyEffect(preventDefault: bool, closeCalls: nat)

  predicate IsPaletteShortcut(e: KeyEvent) {
    e.key == "k" && (e.metaKey || e.ctrlKey)
  }

  function OnKeyDown(e: KeyEvent, isOpen: bool): (r: KeyEffect)
    ensures r.preventDefault <==> IsPaletteShortcut(e)
    ensures r.closeCalls <= 1
    ensures r.closeCalls == 1 <==> e.key == "Escape" || (IsPaletteShortcut(e) && isOpen)
  {
    var shortcutCloses := if IsPaletteShortcut(e) && isOpen then 1 else 0;
    var escapeCloses := if e.key == "Escape" then 1 else 0;
    KeyEffect(IsPaletteShortcut(e), shortcutCloses + escapeCloses)
  }
}
