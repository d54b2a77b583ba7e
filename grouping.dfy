/** Grouping a sequence by a key into an insertion-ordered dict of lists, as a Python
    `defaultdict(list)` filled in one pass does. */
module Grouping {
  import opened SeqUtil

  /** A dict of key to items, with its keys in insertion order. */
  datatype Groups<T> = Groups(keys: seq<string>, groups: map<string, seq<T>>)

  function KeysOf<T>(data: seq<T>, key: T -> string): (r: seq<string>)
    ensures |r| == |data| && forall k :: 0 <= k < |data| ==> r[k] == key(data[k])
  {
    seq(|data|, k requires 0 <= k < |data| => key(data[k]))
  }

  /** The items with key `g`, in input order. */
  function ItemsOf<T>(data: seq<T>, key: T -> string, g: string): (r: seq<T>)
    ensures |r| <= |data|
  {
    if |data| == 0 then []
    else ItemsOf(data[..|data| - 1], key, g) + (if key(data[|data| - 1]) == g then [data[|data| - 1]] else [])
  }

  /** The items of a group are exactly the items with its key. */
  lemma {:induction false} ItemsOfMembers<T>(data: seq<T>, key: T -> string, g: string)
    ensures forall x :: x in ItemsOf(data, key, g) ==> x in data && key(x) == g
    ensures forall x :: x in data && key(x) == g ==> x in ItemsOf(data, key, g)
  {
    if |data| > 0 {
      var init := data[..|data| - 1];
      ItemsOfMembers(init, key, g);
      assert forall x :: x in data <==> x in init || x == data[|data| - 1];
    }
  }

  /** `r` is the grouping of `data`: its keys in order of first appearance, each holding
      exactly the items with that key, in input order. */
  ghost predicate IsGrouping<T>(r: Groups<T>, data: seq<T>, key: T -> string)
  {
    && r.keys == Firsts(KeysOf(data, key))
    && (forall g :: g in r.groups ==> g in r.keys)
    && (forall g :: g in r.keys ==> g in r.groups)
    && (forall g :: g in r.groups ==> r.groups[g] == ItemsOf(data, key, g))
  }

  /** The grouping of a sequence is determined by it: two groupings of the same data are equal. */
  lemma GroupingUnique<T>(a: Groups<T>, b: Groups<T>, data: seq<T>, key: T -> string)
    requires IsGrouping(a, data, key) && IsGrouping(b, data, key)
    ensures a == b
  {
    assert a.groups.Keys == b.groups.Keys;
    assert forall g :: g in a.groups ==> a.groups[g] == b.groups[g];
  }

  /** Every item is in the group of its own key, and a group holds only items with its key. */
  lemma GroupsPartition<T>(r: Groups<T>, data: seq<T>, key: T -> string)
    requires IsGrouping(r, data, key)
    ensures forall k :: 0 <= k < |data| ==> key(data[k]) in r.groups && data[k] in r.groups[key(data[k])]
    ensures forall g, x :: g in r.groups && x in r.groups[g] ==> x in data && key(x) == g
  {
    forall g | g in r.groups
      ensures forall x :: x in r.groups[g] ==> x in data && key(x) == g
    {
      ItemsOfMembers(data, key, g);
    }
    forall k | 0 <= k < |data|
      ensures key(data[k]) in r.groups && data[k] in r.groups[key(data[k])]
    {
      assert KeysOf(data, key)[k] == key(data[k]);
      ItemsOfMembers(data, key, key(data[k]));
    }
  }

  /** What one more item does to the key order and to the groups. */
  lemma GroupStep<T>(data: seq<T>, key: T -> string, i: nat)
    requires i < |data|
    ensures var g := key(data[i]);
      var keys := Firsts(KeysOf(data[..i], key));
      Firsts(KeysOf(data[..i + 1], key)) == (if g in keys then keys else keys + [g])
      && (g !in keys ==> ItemsOf(data[..i], key, g) == [])
      && forall h :: ItemsOf(data[..i + 1], key, h) == ItemsOf(data[..i], key, h) + (if g == h then [data[i]] else [])
  {
    var g := key(data[i]);
    assert data[..i + 1][..i] == data[..i];
    assert KeysOf(data[..i + 1], key) == KeysOf(data[..i], key) + [g];
    assert (KeysOf(data[..i], key) + [g])[..i] == KeysOf(data[..i], key);
    if ItemsOf(data[..i], key, g) != [] {
      var x := ItemsOf(data[..i], key, g)[0];
      ItemsOfMembers(data[..i], key, g);
      assert x in ItemsOf(data[..i], key, g);
      assert x in data[..i];
      var k :| 0 <= k < i && data[..i][k] == x;
      assert KeysOf(data[..i], key)[k] == g;
    }
  }

  /** Appending the next item to its group (opening the group if it is new) keeps the grouping. */
  lemma GroupAdd<T>(r: Groups<T>, data: seq<T>, key: T -> string, i: nat)
    requires i < |data| && IsGrouping(r, data[..i], key)
    ensures var g := key(data[i]);
      IsGrouping(if g in r.groups then Groups(r.keys, r.groups[g := r.groups[g] + [data[i]]])
                 else Groups(r.keys + [g], r.groups[g := [data[i]]]), data[..i + 1], key)
  {
    GroupStep(data, key, i);
    var g := key(data[i]);
    if g in r.groups {
      GroupAddOld(r, data, key, i);
    } else {
      GroupAddNew(r, data, key, i);
    }
  }

  lemma GroupAddOld<T>(r: Groups<T>, data: seq<T>, key: T -> string, i: nat)
    requires i < |data| && IsGrouping(r, data[..i], key) && key(data[i]) in r.groups
    ensures var g := key(data[i]);
      IsGrouping(Groups(r.keys, r.groups[g := r.groups[g] + [data[i]]]), data[..i + 1], key)
  {
    GroupStep(data, key, i);
    var g := key(data[i]);
    var s := Groups(r.keys, r.groups[g := r.groups[g] + [data[i]]]);
    forall h | h in s.groups
      ensures s.groups[h] == ItemsOf(data[..i + 1], key, h)
    {
      if h != g {
        assert s.groups[h] == r.groups[h];
      }
    }
  }

  lemma GroupAddNew<T>(r: Groups<T>, data: seq<T>, key: T -> string, i: nat)
    requires i < |data| && IsGrouping(r, data[..i], key) && key(data[i]) !in r.groups
    ensures var g := key(data[i]);
      IsGrouping(Groups(r.keys + [g], r.groups[g := [data[i]]]), data[..i + 1], key)
  {
    GroupStep(data, key, i);
    var g := key(data[i]);
    var s := Groups(r.keys + [g], r.groups[g := [data[i]]]);
    forall h | h in s.groups
      ensures s.groups[h] == ItemsOf(data[..i + 1], key, h)
    {
      if h != g {
        assert s.groups[h] == r.groups[h];
      } else {
        assert ItemsOf(data[..i], key, g) == [];
      }
    }
  }

  /** The one-pass loop filling the dict. */
  method GroupBy<T>(data: seq<T>, key: T -> string) returns (r: Groups<T>)
    ensures IsGrouping(r, data, key)
  {
    r := Groups([], map[]);
    for i := 0 to |data|
      invariant IsGrouping(r, data[..i], key)
    {
      GroupAdd(r, data, key, i);
      var g := key(data[i]);
      if g in r.groups {
        r := r.(groups := r.groups[g := r.groups[g] + [data[i]]]);
      } else {
        r := Groups(r.keys + [g], r.groups[g := [data[i]]]);
      }
    }
    assert data[..|data|] == data;
  }
}
