/** The improvement grid (components/VisualGrid.tsx): four tiles the user
    toggles on and off, and a submit button that reports the selection. */
module VisualGrid {

  /** A tile; `caption` is the source's `label` field (`label` is a Dafny keyword). */
  datatype GridItem = GridItem(id: string, caption: string, imageUrl: string)

  /** The four tiles of the grid. */
  const Items: seq<GridItem> := [
    GridItem("speed", "Slow Delivery",
      "https://images.unsplash.com/photo-1626071477287-25bfd376241b?auto=format&fit=crop&w=400&q=80"),
    GridItem("price", "Too Expensive",
      "https://images.unsplash.com/photo-1554672723-b208dc2513af?auto=format&fit=crop&w=400&q=80"),
    GridItem("packaging", "Bad Packaging",
      "https://images.unsplash.com/photo-1605701250441-2bfa95839417?auto=format&fit=crop&w=400&q=80"),
    GridItem("freshness", "Not Fresh",
      "https://images.unsplash.com/photo-1463428784770-9831c1a92e1b?auto=format&fit=crop&w=400&q=80")
  ]

  /** The ids the tiles' click handlers can pass to the toggle. */
  const ItemIds: set<string> := {"speed", "price", "packaging", "freshness"}

  /** Every tile's id is one of `ItemIds`, and the tiles' ids are distinct. */
  lemma ItemIdsOfItems()
    ensures forall i :: 0 <= i < |Items| ==> Items[i].id in ItemIds
    ensures forall i, j :: 0 <= i < j < |Items| ==> Items[i].id != Items[j].id
  {
  }

  /** `prev.filter(i => i !== id)`. */
  function Without(s: seq<string>, id: string): (r: seq<string>)
    ensures multiset(r) == multiset(s)[id := 0]
    decreases |s|
  {
    if s == [] then []
    else
      assert s == [s[0]] + s[1..];
      (if s[0] == id then [] else [s[0]]) + Without(s[1..], id)
  }

  /** Filtering keeps the order of what it keeps: it distributes over concatenation. */
  lemma {:induction false} WithoutAppend(a: seq<string>, b: seq<string>, id: string)
    ensures Without(a + b, id) == Without(a, id) + Without(b, id)
    decreases |a|
  {
    if a == [] {
      assert a + b == b;
    } else {
      assert (a + b)[0] == a[0];
      assert (a + b)[1..] == a[1..] + b;
      WithoutAppend(a[1..], b, id);
    }
  }

  /** Filtering out an absent id changes nothing. */
  lemma {:induction false} WithoutAbsent(s: seq<string>, id: string)
    requires id !in s
    ensures Without(s, id) == s
    decreases |s|
  {
    if s != [] {
      WithoutAbsent(s[1..], id);
    }
  }

  /** `toggleItem`'s update: drop every copy of a present id, append an absent one. */
  function Toggle(s: seq<string>, id: string): (r: seq<string>)
    ensures id in r <==> id !in s
    ensures id !in s ==> r == s + [id]
    ensures id in s ==> multiset(r) == multiset(s)[id := 0]
  {
    if id in s then
      assert id !in multiset(Without(s, id));
      Without(s, id)
    else s + [id]
  }

  /** The selection after a run of toggles. */
  function ToggleAll(s: seq<string>, ids: seq<string>): seq<string>
    decreases |ids|
  {
    if ids == [] then s else ToggleAll(Toggle(s, ids[0]), ids[1..])
  }

  predicate NoDuplicates(s: seq<string>)
  {
    forall i, j :: 0 <= i < j < |s| ==> s[i] != s[j]
  }

  lemma {:induction false} WithoutKeepsNoDuplicates(s: seq<string>, id: string)
    requires NoDuplicates(s)
    ensures NoDuplicates(Without(s, id))
    decreases |s|
  {
    if s != [] {
      WithoutKeepsNoDuplicates(s[1..], id);
      var rest := Without(s[1..], id);
      assert s[0] !in s[1..];
      assert s[0] !in multiset(rest);
      var head := if s[0] == id then [] else [s[0]];
      assert Without(s, id) == head + rest;
      forall i, j | 0 <= i < j < |head + rest|
        ensures (head + rest)[i] != (head + rest)[j]
      {
        if i < |head| {
          assert (head + rest)[j] == rest[j - |head|];
          assert rest[j - |head|] in multiset(rest);
        }
      }
    }
  }

  /** The selection never holds an id twice: toggling keeps it duplicate-free. */
  lemma ToggleKeepsNoDuplicates(s: seq<string>, id: string)
    requires NoDuplicates(s)
    ensures NoDuplicates(Toggle(s, id))
  {
    if id in s {
      WithoutKeepsNoDuplicates(s, id);
    }
  }

  /** Toggling an absent id twice gives back exactly the list it started from. */
  lemma ToggleTwiceAbsent(s: seq<string>, id: string)
    requires id !in s
    ensures Toggle(Toggle(s, id), id) == s
  {
    WithoutAppend(s, [id], id);
    WithoutAbsent(s, id);
    assert Without([id], id) == [];
  }

  /** Toggling a present id twice gives back the same elements, with that id
      moved to the end. */
  lemma ToggleTwicePresent(s: seq<string>, id: string)
    requires id in s
    ensures Toggle(Toggle(s, id), id) == Without(s, id) + [id]
    ensures forall x :: x in Toggle(Toggle(s, id), id) <==> x in s
  {
    var once := Without(s, id);
    assert id !in multiset(once);
    forall x
      ensures x in once + [id] <==> x in s
    {
      assert x in once <==> x in multiset(once);
      assert x in s <==> x in multiset(s);
    }
  }

  /** Driven only by the grid's own tiles, the selection stays a duplicate-free
      subset of the tiles' ids. */
  lemma {:induction false} ToggleAllWithinItems(s: seq<string>, ids: seq<string>)
    requires forall x :: x in s ==> x in ItemIds
    requires forall x :: x in ids ==> x in ItemIds
    requires NoDuplicates(s)
    ensures forall x :: x in ToggleAll(s, ids) ==> x in ItemIds
    ensures NoDuplicates(ToggleAll(s, ids))
    decreases |ids|
  {
    if ids != [] {
      var t := Toggle(s, ids[0]);
      ToggleKeepsNoDuplicates(s, ids[0]);
      forall x | x in t
        ensures x in ItemIds
      {
        assert x in multiset(t);
      }
      ToggleAllWithinItems(t, ids[1..]);
    }
  }

  /** The component's `selected` state. */
  class Grid {
    var selected: seq<string>

    constructor ()
      ensures selected == []
    {
      selected := [];
    }

    /** `toggleItem`. */
    method ToggleItem(id: string)
      modifies this
      ensures selected == Toggle(old(selected), id)
    {
      if id in selected {
        selected := Without(selected, id);
      } else {
        selected := selected + [id];
      }
    }

    /** Whether a tile is drawn as selected. */
    function IsSelected(id: string): (b: bool)
      reads this
      ensures b <==> exists i :: 0 <= i < |selected| && selected[i] == id
    {
      id in selected
    }

    /** The submit button: what it hands to `onComplete`. */
    method Submit() returns (ids: seq<string>)
      ensures ids == selected
    {
      ids := selected;
    }

    /** The submit button's caption. */
    function SubmitLabel(): (caption: string)
      reads this
      ensures caption == "Everything was perfect!" <==> |selected| == 0
      ensures caption == "Fix these for me" <==> |selected| > 0
    {
      if |selected| > 0 then "Fix these for me" else "Everything was perfect!"
    }
  }
}
