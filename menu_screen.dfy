/** The menu screen of the FoodKiosk app: the catalog filtered by category chip and
    search text, and the per-item guard against rapid repeated taps on "add". The
    clock (`Date.now()`) is a parameter. */
module Menu {
  import opened Seqs

  /** A catalog entry (the image, original price, popularity and discount badges are
      display only). */
  datatype MenuItem = MenuItem(id: string, name: string, price: real, category: string,
                               description: string)

  /** The chip that selects every category. */
  const AllCategory: string := "all"

  /** The ids of the category chips, in display order. */
  const Categories: seq<string> := [AllCategory, "burgers", "chicken", "drinks", "desserts"]

  const MenuItems: seq<MenuItem> := [
    MenuItem("1", "Big Mac", 7.99, "burgers",
      "Two all-beef patties, special sauce, lettuce, cheese, pickles, onions on a sesame seed bun"),
    MenuItem("2", "Quarter Pounder", 9.49, "burgers",
      "Quarter pound of 100% fresh beef cooked when you order"),
    MenuItem("3", "Chicken McNuggets", 6.99, "chicken",
      "10 pieces of crispy chicken nuggets made with white meat"),
    MenuItem("4", "Coca-Cola", 2.49, "drinks", "Refreshing Coca-Cola soft drink - Medium size"),
    MenuItem("5", "Apple Pie", 1.99, "desserts", "Warm apple pie with flaky crust and cinnamon sugar"),
    MenuItem("6", "McFlurry Oreo", 3.49, "desserts", "Vanilla soft serve with Oreo cookie pieces")]

  /** `toLowerCase` on one character, restricted to ASCII letters. */
  function LowerChar(c: char): char
  {
    if 'A' <= c <= 'Z' then (c as int + 32) as char else c
  }

  function Lower(s: string): (r: string)
    ensures |r| == |s|
  {
    seq(|s|, i requires 0 <= i < |s| => LowerChar(s[i]))
  }

  /** Lower-casing leaves no upper-case ASCII letter, so doing it twice changes nothing. */
  lemma LowerIdempotent(s: string)
    ensures forall i :: 0 <= i < |s| ==> !('A' <= Lower(s)[i] <= 'Z')
    ensures Lower(Lower(s)) == Lower(s)
  {
    assert forall i :: 0 <= i < |s| ==> Lower(Lower(s))[i] == LowerChar(LowerChar(s[i]));
  }

  predicate StartsWith(s: string, t: string)
  {
    |t| <= |s| && s[..|t|] == t
  }

  /** `s.includes(t)`: `t` occurs in `s` at some position. */
  predicate Includes(s: string, t: string)
    decreases |s|
  {
    StartsWith(s, t) || (|s| > 0 && Includes(s[1..], t))
  }

  /** `t` occurs in `s` starting at index `i`. */
  predicate OccursAt(s: string, t: string, i: int)
  {
    0 <= i && i + |t| <= |s| && s[i..i + |t|] == t
  }

  /** The search is a substring test: it succeeds exactly when the text occurs at some
      position. */
  lemma {:induction false} IncludesIff(s: string, t: string)
    ensures Includes(s, t) <==> exists i :: OccursAt(s, t, i)
    decreases |s|
  {
    if exists i :: OccursAt(s, t, i) {
      var i :| OccursAt(s, t, i);
      if i > 0 {
        assert s[1..][i - 1..i - 1 + |t|] == s[i..i + |t|];
        assert OccursAt(s[1..], t, i - 1);
        IncludesIff(s[1..], t);
      } else {
        assert s[..|t|] == s[0..|t|];
      }
    }
    if Includes(s, t) {
      if StartsWith(s, t) {
        assert OccursAt(s, t, 0);
      } else {
        IncludesIff(s[1..], t);
        var i :| OccursAt(s[1..], t, i);
        assert s[1..][i..i + |t|] == s[i + 1..i + 1 + |t|];
        assert OccursAt(s, t, i + 1);
      }
    }
  }

  /** Items missing an id, a name or a description are never listed. */
  predicate WellFormed(item: MenuItem)
  {
    item.id != "" && item.name != "" && item.description != ""
  }

  predicate MatchesCategory(item: MenuItem, selected: string)
  {
    selected == AllCategory || item.category == selected
  }

  /** The case-insensitive search on the name or the description. */
  predicate MatchesSearch(item: MenuItem, query: string)
  {
    Includes(Lower(item.name), Lower(query)) || Includes(Lower(item.description), Lower(query))
  }

  function Shown(selected: string, query: string): MenuItem -> bool
  {
    (item: MenuItem) => WellFormed(item) && MatchesCategory(item, selected) && MatchesSearch(item, query)
  }

  /** `filteredItems`. */
  function FilteredItems(items: seq<MenuItem>, selected: string, query: string): (r: seq<MenuItem>)
    ensures |r| <= |items|
  {
    Filter(items, Shown(selected, query))
  }

  /** The listed items are exactly the well-formed items of the selected category whose
      name or description contains the query, each as often as in the catalog, in
      catalog order. */
  lemma FilteredItemsSpec(items: seq<MenuItem>, selected: string, query: string)
    ensures forall i :: 0 <= i < |FilteredItems(items, selected, query)| ==>
      var item := FilteredItems(items, selected, query)[i];
      WellFormed(item) && MatchesCategory(item, selected) && MatchesSearch(item, query)
    ensures forall i :: 0 <= i < |items| ==>
      (WellFormed(items[i]) && MatchesCategory(items[i], selected) && MatchesSearch(items[i], query)
       ==> items[i] in FilteredItems(items, selected, query))
    ensures forall x :: (multiset(FilteredItems(items, selected, query))[x] ==
      if WellFormed(x) && MatchesCategory(x, selected) && MatchesSearch(x, query) then multiset(items)[x] else 0)
    ensures IsSubsequence(FilteredItems(items, selected, query), items)
  {
    FilterMembers(items, Shown(selected, query));
    FilterCounts(items, Shown(selected, query));
  }

  /** The empty query matches every item. */
  lemma EmptyQueryMatches(item: MenuItem)
    ensures MatchesSearch(item, "")
  {
    assert Lower("") == "";
    assert StartsWith(Lower(item.name), "");
  }

  /** The search ignores the case of the query. */
  lemma SearchIgnoresCase(item: MenuItem, query: string, other: string)
    requires Lower(query) == Lower(other)
    ensures MatchesSearch(item, query) == MatchesSearch(item, other)
    ensures MatchesSearch(item, Lower(query)) == MatchesSearch(item, query)
  {
    LowerIdempotent(query);
  }

  /** With the "all" chip and no search text all six catalog items are listed. */
  lemma DefaultListsEverything()
    ensures FilteredItems(MenuItems, AllCategory, "") == MenuItems
    ensures |FilteredItems(MenuItems, AllCategory, "")| == 6
  {
    forall item | item in MenuItems ensures Shown(AllCategory, "")(item) {
      EmptyQueryMatches(item);
    }
    FilterKeepsAll(MenuItems, Shown(AllCategory, ""));
  }

  /** Every catalog item belongs to the category of one of the chips after "all". */
  lemma EveryItemHasChip()
    ensures forall i :: 0 <= i < |MenuItems| ==> MenuItems[i].category in Categories[1..]
  {
  }

  /** The "desserts" chip lists the apple pie and the McFlurry, in that order. */
  lemma DessertsChip()
    ensures Categories[4] == "desserts"
    ensures FilteredItems(MenuItems, Categories[4], "") == [MenuItems[4], MenuItems[5]]
  {
    var p := Shown("desserts", "");
    EmptyQueryMatches(MenuItems[4]);
    EmptyQueryMatches(MenuItems[5]);
    assert Filter(MenuItems[5..], p) == [MenuItems[5]];
    assert Filter(MenuItems[4..], p) == [MenuItems[4], MenuItems[5]];
    assert Filter(MenuItems[3..], p) == [MenuItems[4], MenuItems[5]];
    assert Filter(MenuItems[2..], p) == [MenuItems[4], MenuItems[5]];
    assert Filter(MenuItems[1..], p) == [MenuItems[4], MenuItems[5]];
  }

  /** Taps closer together than this, in milliseconds, count once. */
  const DebounceWindow: int := 1000

  /** The early return of `addToCart`: a tap on an item less than a second after the
      last recorded tap on it. A recorded time of 0 is falsy and so counts as no tap. */
  predicate TapIgnored(lastTapTimes: map<string, int>, id: string, now: int)
  {
    id in lastTapTimes && lastTapTimes[id] != 0 && now - lastTapTimes[id] < DebounceWindow
  }

  datatype Tap = Tap(id: string, time: int)

  /** The recorded tap times and the accepted taps after a run of taps, one
      `addToCart` call per tap. */
  function ProcessTaps(lastTapTimes: map<string, int>, taps: seq<Tap>): (map<string, int>, seq<Tap>)
    decreases |taps|
  {
    if |taps| == 0 then (lastTapTimes, [])
    else
      var (recorded, accepted) := ProcessTaps(lastTapTimes, taps[..|taps| - 1]);
      var tap := taps[|taps| - 1];
      if TapIgnored(recorded, tap.id, tap.time) then (recorded, accepted)
      else (recorded[tap.id := tap.time], accepted + [tap])
  }

  /** Any two accepted taps on the same item are at least a second apart. */
  ghost predicate Spaced(accepted: seq<Tap>)
  {
    forall i, j :: 0 <= i < j < |accepted| && accepted[i].id == accepted[j].id ==>
      accepted[j].time - accepted[i].time >= DebounceWindow
  }

  ghost predicate TapsInvariant(recorded: map<string, int>, accepted: seq<Tap>)
  {
    && (forall id :: id in recorded ==> recorded[id] > 0)
    && (forall k :: 0 <= k < |accepted| ==>
          accepted[k].id in recorded && accepted[k].time <= recorded[accepted[k].id])
    && Spaced(accepted)
  }

  lemma {:induction false} ProcessTapsInvariant(lastTapTimes: map<string, int>, taps: seq<Tap>)
    requires forall id :: id in lastTapTimes ==> lastTapTimes[id] > 0
    requires forall i :: 0 <= i < |taps| ==> taps[i].time > 0
    ensures TapsInvariant(ProcessTaps(lastTapTimes, taps).0, ProcessTaps(lastTapTimes, taps).1)
    decreases |taps|
  {
    if |taps| > 0 {
      var prefix := taps[..|taps| - 1];
      ProcessTapsInvariant(lastTapTimes, prefix);
      var (recorded, accepted) := ProcessTaps(lastTapTimes, prefix);
      var tap := taps[|taps| - 1];
      if !TapIgnored(recorded, tap.id, tap.time) {
        var recorded', accepted' := recorded[tap.id := tap.time], accepted + [tap];
        forall k | 0 <= k < |accepted| && accepted[k].id == tap.id
          ensures tap.time - accepted[k].time >= DebounceWindow
        {
          assert accepted[k].time <= recorded[tap.id];
        }
        forall k | 0 <= k < |accepted'|
          ensures accepted'[k].id in recorded' && accepted'[k].time <= recorded'[accepted'[k].id]
        {
          if k < |accepted| && accepted[k].id == tap.id {
            assert accepted[k].time <= recorded[tap.id];
          }
        }
        assert TapsInvariant(recorded', accepted');
      }
    }
  }

  /** With a clock that never reads 0, guarded taps on the same item are accepted at
      most once per second, starting from an empty tap record. */
  lemma AcceptedTapsSpaced(taps: seq<Tap>)
    requires forall i :: 0 <= i < |taps| ==> taps[i].time > 0
    ensures Spaced(ProcessTaps(map[], taps).1)
  {
    ProcessTapsInvariant(map[], taps);
  }

  /** A clock reading of 0 defeats the guard: two taps on the same item at time 0 are
      both accepted, because the recorded 0 is falsy. */
  lemma ZeroTimeNotGuarded()
    ensures ProcessTaps(map[], [Tap("1", 0), Tap("1", 0)]).1 == [Tap("1", 0), Tap("1", 0)]
    ensures !Spaced(ProcessTaps(map[], [Tap("1", 0), Tap("1", 0)]).1)
  {
    var taps := [Tap("1", 0), Tap("1", 0)];
    assert taps[..1] == [Tap("1", 0)];
    assert [Tap("1", 0)][..0] == [];
    var once := ProcessTaps(map[], [Tap("1", 0)]);
    assert once.0 == map[]["1" := 0] && once.1 == [Tap("1", 0)];
    assert !TapIgnored(once.0, "1", 0);
  }

  /** The state of the menu screen. */
  class MenuScreen {
    var selectedCategory: string
    var searchQuery: string
    var lastTapTimes: map<string, int>

    constructor ()
      ensures selectedCategory == AllCategory && searchQuery == "" && lastTapTimes == map[]
      ensures Listed() == MenuItems
    {
      selectedCategory := AllCategory;
      searchQuery := "";
      lastTapTimes := map[];
      DefaultListsEverything();
    }

    /** The items currently listed. */
    function Listed(): seq<MenuItem>
      reads this
    {
      FilteredItems(MenuItems, selectedCategory, searchQuery)
    }

    /** Tapping a category chip. */
    method SelectCategory(id: string)
      modifies this
      ensures selectedCategory == id
      ensures searchQuery == old(searchQuery) && lastTapTimes == old(lastTapTimes)
      ensures Listed() == FilteredItems(MenuItems, id, old(searchQuery))
    {
      selectedCategory := id;
    }

    /** Typing in the search box. */
    method SetSearchQuery(query: string)
      modifies this
      ensures searchQuery == query
      ensures selectedCategory == old(selectedCategory) && lastTapTimes == old(lastTapTimes)
      ensures Listed() == FilteredItems(MenuItems, old(selectedCategory), query)
    {
      searchQuery := query;
    }

    /** The guard at the start of `addToCart`: an ignored tap returns early and records
        nothing; an accepted tap records `now` for this item and for no other. */
    method AddToCart(item: MenuItem, now: int) returns (accepted: bool)
      modifies this
      ensures accepted <==> !TapIgnored(old(lastTapTimes), item.id, now)
      ensures !accepted ==> lastTapTimes == old(lastTapTimes)
      ensures accepted ==> item.id in lastTapTimes && lastTapTimes[item.id] == now
      ensures forall id :: id != item.id ==>
        (id in lastTapTimes <==> id in old(lastTapTimes)) &&
        (id in lastTapTimes ==> lastTapTimes[id] == old(lastTapTimes)[id])
      ensures selectedCategory == old(selectedCategory) && searchQuery == old(searchQuery)
    {
      if item.id in lastTapTimes && lastTapTimes[item.id] != 0
         && now - lastTapTimes[item.id] < DebounceWindow {
        return false;
      }
      lastTapTimes := lastTapTimes[item.id := now];
      accepted := true;
    }
  }
}
