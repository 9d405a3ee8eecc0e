/** Python's `list.sort(key=...)`: the keys are computed once, then the
    entries are ordered by key, stably (equal keys keep their order). Here
    an entry is paired with its key and sorted by insertion. */
module DateOrder {

  datatype Keyed<T> = Keyed(key: int, item: T)

  predicate SortedByKey<T>(s: seq<Keyed<T>>)
  {
    forall i, j :: 0 <= i < j < |s| ==> s[i].key <= s[j].key
  }

  /** The entries without their keys. */
  function Items<T>(s: seq<Keyed<T>>): (r: seq<T>)
    ensures |r| == |s| && forall i :: 0 <= i < |s| ==> r[i] == s[i].item
  {
    seq(|s|, i requires 0 <= i < |s| => s[i].item)
  }

  /** Where a stable insertion puts an entry of key `k`: after the last
      entry whose key is at most `k`. */
  function Slot<T>(s: seq<Keyed<T>>, k: int): nat
  {
    if s == [] || s[|s| - 1].key <= k then |s| else Slot(s[..|s| - 1], k)
  }

  /** Inserts `x` at its slot. */
  function Insert<T>(s: seq<Keyed<T>>, x: Keyed<T>): seq<Keyed<T>>
  {
    if s == [] || s[|s| - 1].key <= x.key then s + [x]
    else Insert(s[..|s| - 1], x) + [s[|s| - 1]]
  }

  /** Stable sort by key: each entry in turn is inserted after every entry
      already placed whose key does not exceed its own. */
  function StableSort<T>(s: seq<Keyed<T>>): seq<Keyed<T>>
  {
    if s == [] then [] else Insert(StableSort(s[..|s| - 1]), s[|s| - 1])
  }

  /** The insertion keeps the old order: it splits `s` at the slot, every
      entry after the slot has a larger key, and, when `s` is sorted, every
      entry before it has a key at most that of `x`. */
  lemma {:induction false} InsertAt<T>(s: seq<Keyed<T>>, x: Keyed<T>)
    ensures Slot(s, x.key) <= |s|
    ensures Insert(s, x) == s[..Slot(s, x.key)] + [x] + s[Slot(s, x.key)..]
    ensures forall i :: Slot(s, x.key) <= i < |s| ==> x.key < s[i].key
    ensures SortedByKey(s) ==> forall i :: 0 <= i < Slot(s, x.key) ==> s[i].key <= x.key
  {
    if s == [] || s[|s| - 1].key <= x.key {
    } else {
      var init := s[..|s| - 1];
      InsertAt(init, x);
      var k := Slot(init, x.key);
      assert s[..k] == init[..k];
      assert s[k..] == init[k..] + [s[|s| - 1]];
    }
  }

  /** Inserting into a sorted sequence leaves it sorted. */
  lemma InsertSorted<T>(s: seq<Keyed<T>>, x: Keyed<T>)
    requires SortedByKey(s)
    ensures SortedByKey(Insert(s, x))
  {
    InsertAt(s, x);
    var k := Slot(s, x.key);
    var r := Insert(s, x);
    assert forall i :: 0 <= i < k ==> r[i] == s[i];
    assert r[k] == x;
    assert forall i :: k < i < |r| ==> r[i] == s[i - 1];
    forall i, j | 0 <= i < j < |r|
      ensures r[i].key <= r[j].key
    {
      if j < k {
      } else if j == k {
      } else if i < k {
      } else if i == k {
      } else {
      }
    }
  }

  /** Inserting adds `x` and nothing else. */
  lemma {:induction false} InsertPermutes<T>(s: seq<Keyed<T>>, x: Keyed<T>)
    ensures multiset(Insert(s, x)) == multiset(s) + multiset{x}
  {
    if s == [] || s[|s| - 1].key <= x.key {
    } else {
      var init := s[..|s| - 1];
      InsertPermutes(init, x);
      assert s == init + [s[|s| - 1]];
    }
  }

  /** The sort yields an ordering by key. */
  lemma {:induction false} StableSortSorted<T>(s: seq<Keyed<T>>)
    ensures SortedByKey(StableSort(s))
  {
    if s != [] {
      StableSortSorted(s[..|s| - 1]);
      InsertSorted(StableSort(s[..|s| - 1]), s[|s| - 1]);
    }
  }

  /** The sort is a permutation of its input. */
  lemma {:induction false} StableSortPermutes<T>(s: seq<Keyed<T>>)
    ensures multiset(StableSort(s)) == multiset(s)
  {
    if s != [] {
      var init, last := s[..|s| - 1], s[|s| - 1];
      StableSortPermutes(init);
      InsertPermutes(StableSort(init), last);
      assert s == init + [last];
      assert multiset(s) == multiset(init) + multiset{last};
    }
  }

  /** Inserting adds the item of `x` to the items and nothing else. */
  lemma InsertItems<T>(s: seq<Keyed<T>>, x: Keyed<T>)
    ensures multiset(Items(Insert(s, x))) == multiset(Items(s)) + multiset{x.item}
  {
    InsertAt(s, x);
    var k := Slot(s, x.key);
    assert Items(Insert(s, x)) == Items(s[..k]) + [x.item] + Items(s[k..]);
    assert Items(s) == Items(s[..k]) + Items(s[k..]);
  }

  /** The items of the sorted sequence are a permutation of the items of
      the input. */
  lemma {:induction false} StableSortItems<T>(s: seq<Keyed<T>>)
    ensures multiset(Items(StableSort(s))) == multiset(Items(s))
  {
    if s != [] {
      var init, last := s[..|s| - 1], s[|s| - 1];
      StableSortItems(init);
      InsertItems(StableSort(init), last);
      assert Items(s) == Items(init) + [last.item];
    }
  }

  /** A sorted sequence is left as it is. */
  lemma {:induction false} StableSortOfSorted<T>(s: seq<Keyed<T>>)
    requires SortedByKey(s)
    ensures StableSort(s) == s
  {
    if s != [] {
      var init, last := s[..|s| - 1], s[|s| - 1];
      assert SortedByKey(init);
      StableSortOfSorted(init);
      assert init == [] || init[|init| - 1].key <= last.key;
      assert Insert(init, last) == init + [last];
      assert s == init + [last];
    }
  }

  /** Sorting a sorted sequence with one entry appended is one stable
      insertion: the sequence is split at the slot of the new key. */
  lemma SortAppended<T>(s: seq<Keyed<T>>, x: Keyed<T>)
    requires SortedByKey(s)
    ensures Slot(s, x.key) <= |s|
    ensures StableSort(s + [x]) == s[..Slot(s, x.key)] + [x] + s[Slot(s, x.key)..]
    ensures SortedByKey(StableSort(s + [x]))
  {
    assert (s + [x])[..|s|] == s;
    StableSortOfSorted(s);
    InsertAt(s, x);
    InsertSorted(s, x);
  }
}
