/**
 * An ordered map from integer keys to lists of items, as the web handler's
 * `BTreeMap<String, Vec<_>>` is used: items are pushed one at a time into the
 * list of their key (`entry(key).or_insert_with(Vec::new).push(item)`), and
 * iteration visits the keys in ascending order. The map is represented by
 * its iteration order: a sequence of groups with strictly ascending keys.
 */
module OrderedGroups {
  import opened Seqs

  datatype Group<T> = Group(key: int, items: seq<T>)

  predicate Ascending<T>(g: seq<Group<T>>) {
    forall i, j :: 0 <= i < j < |g| ==> g[i].key < g[j].key
  }

  /** Every item sits in the group of its own key. */
  predicate Keyed<T>(g: seq<Group<T>>, keyOf: T -> int) {
    forall i, j :: 0 <= i < |g| && 0 <= j < |g[i].items| ==> keyOf(g[i].items[j]) == g[i].key
  }

  /** A key is present only once something was pushed under it. */
  predicate NonEmptyGroups<T>(g: seq<Group<T>>) {
    forall i :: 0 <= i < |g| ==> |g[i].items| > 0
  }

  predicate WellFormed<T>(g: seq<Group<T>>, keyOf: T -> int) {
    Ascending(g) && Keyed(g, keyOf) && NonEmptyGroups(g)
  }

  /** The keys in iteration order. */
  function Keys<T>(g: seq<Group<T>>): (ks: seq<int>)
    ensures |ks| == |g|
    ensures forall i :: 0 <= i < |g| ==> ks[i] == g[i].key
  {
    seq(|g|, i requires 0 <= i < |g| => g[i].key)
  }

  /** The list stored under `k`, or the empty list when `k` is absent. */
  function Lookup<T>(g: seq<Group<T>>, k: int): seq<T>
    decreases |g|
  {
    if |g| == 0 then []
    else if g[0].key == k then g[0].items
    else Lookup(g[1..], k)
  }

  /** All items in iteration order: group by group, each group in push order. */
  function Flatten<T>(g: seq<Group<T>>): seq<T>
    decreases |g|
  {
    if |g| == 0 then [] else g[0].items + Flatten(g[1..])
  }

  /** `KeyIs(keyOf, k)` selects the items whose key is `k`. */
  function KeyIs<T>(keyOf: T -> int, k: int): T -> bool {
    x => keyOf(x) == k
  }

  lemma LookupAbsent<T>(g: seq<Group<T>>, k: int)
    requires forall i :: 0 <= i < |g| ==> g[i].key != k
    ensures Lookup(g, k) == []
  {
  }

  /** A group placed before a well-formed map with larger keys keeps it well formed. */
  lemma ConsWellFormed<T>(h: Group<T>, rest: seq<Group<T>>, keyOf: T -> int)
    requires WellFormed(rest, keyOf)
    requires |h.items| > 0 && forall j :: 0 <= j < |h.items| ==> keyOf(h.items[j]) == h.key
    requires forall i :: 0 <= i < |rest| ==> h.key < rest[i].key
    ensures WellFormed([h] + rest, keyOf)
  {
    var r := [h] + rest;
    forall i | 1 <= i < |r|
      ensures r[i] == rest[i - 1]
    {
    }
  }

  /** `entry(keyOf(x)).or_insert_with(Vec::new).push(x)`. */
  function Push<T>(g: seq<Group<T>>, keyOf: T -> int, x: T): seq<Group<T>>
    decreases |g|
  {
    var k := keyOf(x);
    if |g| == 0 then [Group(k, [x])]
    else if k < g[0].key then [Group(k, [x])] + g
    else if k == g[0].key then [Group(k, g[0].items + [x])] + g[1..]
    else [g[0]] + Push(g[1..], keyOf, x)
  }

  /** A push into a map whose keys all exceed `lo`, of an item whose key exceeds `lo`, keeps every key above `lo`. */
  lemma {:induction false} PushKeysAbove<T>(g: seq<Group<T>>, keyOf: T -> int, x: T, lo: int)
    requires forall i :: 0 <= i < |g| ==> lo < g[i].key
    requires lo < keyOf(x)
    ensures forall i :: 0 <= i < |Push(g, keyOf, x)| ==> lo < Push(g, keyOf, x)[i].key
    decreases |g|
  {
    if |g| > 0 && keyOf(x) > g[0].key {
      PushKeysAbove(g[1..], keyOf, x, lo);
    }
  }

  /**
   * A push keeps the map well formed: keys strictly ascending, every item
   * under its own key, no empty list.
   */
  lemma {:induction false} PushWellFormed<T>(g: seq<Group<T>>, keyOf: T -> int, x: T)
    requires WellFormed(g, keyOf)
    ensures WellFormed(Push(g, keyOf, x), keyOf)
    decreases |g|
  {
    var k := keyOf(x);
    if |g| == 0 {
    } else if k < g[0].key {
      ConsWellFormed(Group(k, [x]), g, keyOf);
    } else if k == g[0].key {
      var h := Group(k, g[0].items + [x]);
      ConsWellFormed(h, g[1..], keyOf);
    } else {
      var tail := g[1..];
      assert WellFormed(tail, keyOf);
      PushWellFormed(tail, keyOf, x);
      assert forall i :: 0 <= i < |tail| ==> g[0].key < tail[i].key;
      PushKeysAbove(tail, keyOf, x, g[0].key);
      ConsWellFormed(g[0], Push(tail, keyOf, x), keyOf);
    }
  }

  /** A push appends `x` to the list of its own key and leaves every other key alone. */
  lemma {:induction false} PushLookup<T>(g: seq<Group<T>>, keyOf: T -> int, x: T, k: int)
    requires WellFormed(g, keyOf)
    ensures Lookup(Push(g, keyOf, x), k) == if k == keyOf(x) then Lookup(g, k) + [x] else Lookup(g, k)
    decreases |g|
  {
    var r := Push(g, keyOf, x);
    if |g| > 0 {
      if keyOf(x) < g[0].key {
        assert r[1..] == g;
        if k == keyOf(x) {
          LookupAbsent(g, k);
        }
      } else if keyOf(x) == g[0].key {
        assert r[1..] == g[1..];
      } else {
        assert r[1..] == Push(g[1..], keyOf, x);
        PushLookup(g[1..], keyOf, x, k);
      }
    }
  }

  /** A push adds exactly `x` to the items of the map. */
  lemma {:induction false} PushFlatten<T>(g: seq<Group<T>>, keyOf: T -> int, x: T)
    requires WellFormed(g, keyOf)
    ensures multiset(Flatten(Push(g, keyOf, x))) == multiset(Flatten(g)) + multiset{x}
    decreases |g|
  {
    var r := Push(g, keyOf, x);
    if |g| > 0 {
      if keyOf(x) < g[0].key {
        assert r[1..] == g;
      } else if keyOf(x) == g[0].key {
        assert r[1..] == g[1..];
      } else {
        assert r[1..] == Push(g[1..], keyOf, x);
        PushFlatten(g[1..], keyOf, x);
      }
    }
  }

  /** The ordered map after pushing every item of `s` in order. */
  function GroupAll<T>(keyOf: T -> int, s: seq<T>): (r: seq<Group<T>>)
    ensures WellFormed(r, keyOf)
    decreases |s|
  {
    if |s| == 0 then []
    else
      var before := GroupAll(keyOf, s[..|s| - 1]);
      PushWellFormed(before, keyOf, s[|s| - 1]);
      Push(before, keyOf, s[|s| - 1])
  }

  lemma GroupAllSnoc<T>(keyOf: T -> int, s: seq<T>, x: T)
    ensures GroupAll(keyOf, s + [x]) == Push(GroupAll(keyOf, s), keyOf, x)
  {
    assert (s + [x])[..|s|] == s;
  }

  /** The list under each key holds exactly the items of that key, in input order. */
  lemma {:induction false} GroupAllLookup<T>(keyOf: T -> int, s: seq<T>, k: int)
    ensures Lookup(GroupAll(keyOf, s), k) == Filter(KeyIs(keyOf, k), s)
    decreases |s|
  {
    if |s| > 0 {
      var n := |s| - 1;
      GroupAllLookup(keyOf, s[..n], k);
      PushLookup(GroupAll(keyOf, s[..n]), keyOf, s[n], k);
      assert KeyIs(keyOf, k)(s[n]) <==> keyOf(s[n]) == k;
    }
  }

  /** Grouping neither loses nor duplicates an item. */
  lemma {:induction false} GroupAllFlatten<T>(keyOf: T -> int, s: seq<T>)
    ensures multiset(Flatten(GroupAll(keyOf, s))) == multiset(s)
    decreases |s|
  {
    if |s| > 0 {
      var n := |s| - 1;
      var before := GroupAll(keyOf, s[..n]);
      assert GroupAll(keyOf, s) == Push(before, keyOf, s[n]);
      GroupAllFlatten(keyOf, s[..n]);
      PushFlatten(before, keyOf, s[n]);
      assert s == s[..n] + [s[n]];
      assert multiset(s) == multiset(s[..n]) + multiset{s[n]};
    }
  }

  /** In a well-formed map every group holds exactly the list stored under its key. */
  lemma {:induction false} GroupIsLookup<T>(g: seq<Group<T>>, keyOf: T -> int, i: int)
    requires WellFormed(g, keyOf)
    requires 0 <= i < |g|
    ensures g[i].items == Lookup(g, g[i].key)
    decreases |g|
  {
    if i > 0 {
      assert WellFormed(g[1..], keyOf);
      GroupIsLookup(g[1..], keyOf, i - 1);
    }
  }

  /** Strictly ascending keys inside `[lo, hi)` number at most `hi - lo`. */
  lemma {:induction false} AscendingKeysBounded<T>(g: seq<Group<T>>, lo: int, hi: int)
    requires Ascending(g)
    requires forall i :: 0 <= i < |g| ==> lo <= g[i].key < hi
    ensures |g| <= if lo <= hi then hi - lo else 0
    decreases |g|
  {
    if |g| > 0 {
      AscendingKeysBounded(g[1..], g[0].key + 1, hi);
    }
  }
}
