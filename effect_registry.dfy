/**
 * The registry of concrete effect types: each entry is the `EffectType` tag and
 * the `Order` of one non-abstract effect class carrying an effect attribute,
 * listed in the order the assembly enumerates its types. This module gives the
 * stable order-by that the effect dropdown uses and the first-match lookup that
 * adding an effect uses.
 */
module EffectRegistry {

  datatype Option<T> = None | Some(value: T)

  datatype EffectEntry = EffectEntry(tag: string, order: int)

  /** The tags of a list of entries, in the same order. */
  function TagsOf(entries: seq<EffectEntry>): (tags: seq<string>)
    ensures |tags| == |entries|
    ensures forall i :: 0 <= i < |entries| ==> tags[i] == entries[i].tag
  {
    if entries == [] then [] else [entries[0].tag] + TagsOf(entries[1..])
  }

  /**
   * The index of the first entry whose tag is `tag`, or `None` when there is
   * none (the `FirstOrDefault` of a filtered sequence).
   */
  function FindFirst(registry: seq<EffectEntry>, tag: string): (r: Option<nat>)
    ensures r.Some? ==> r.value < |registry| && registry[r.value].tag == tag
    ensures r.Some? ==> forall j :: 0 <= j < r.value ==> registry[j].tag != tag
    ensures r.None? <==> forall j :: 0 <= j < |registry| ==> registry[j].tag != tag
  {
    if registry == [] then None
    else if registry[0].tag == tag then Some(0)
    else match FindFirst(registry[1..], tag)
      case None => None
      case Some(j) => Some(j + 1)
  }

  /** Orders never decrease along the list. */
  ghost predicate Sorted(s: seq<EffectEntry>) {
    forall i, j :: 0 <= i < j < |s| ==> s[i].order <= s[j].order
  }

  /** The entries of `s` whose order is `k`, in the order they appear in `s`. */
  function WithOrder(s: seq<EffectEntry>, k: int): seq<EffectEntry> {
    if s == [] then []
    else if s[0].order == k then [s[0]] + WithOrder(s[1..], k)
    else WithOrder(s[1..], k)
  }

  /**
   * `r` is `s` stably ordered by `order`: sorted, and the entries sharing any
   * one order value appear in `r` exactly as they appear in `s`.
   */
  ghost predicate StableOrderOf(s: seq<EffectEntry>, r: seq<EffectEntry>) {
    Sorted(r) && forall k :: WithOrder(r, k) == WithOrder(s, k)
  }

  /** Puts `e` in front of the first entry whose order is at least its own. */
  function InsertByOrder(e: EffectEntry, s: seq<EffectEntry>): seq<EffectEntry> {
    if s == [] then [e]
    else if e.order <= s[0].order then [e] + s
    else [s[0]] + InsertByOrder(e, s[1..])
  }

  /** A stable sort by `order` (insertion from the back, earlier entries before equal ones). */
  function SortByOrder(s: seq<EffectEntry>): seq<EffectEntry> {
    if s == [] then [] else InsertByOrder(s[0], SortByOrder(s[1..]))
  }

  lemma {:induction false} InsertPermutes(e: EffectEntry, s: seq<EffectEntry>)
    ensures multiset(InsertByOrder(e, s)) == multiset{e} + multiset(s)
  {
    if s != [] && e.order > s[0].order {
      InsertPermutes(e, s[1..]);
      assert s == [s[0]] + s[1..];
    }
  }

  lemma {:induction false} TagsOfConcat(a: seq<EffectEntry>, b: seq<EffectEntry>)
    ensures TagsOf(a + b) == TagsOf(a) + TagsOf(b)
  {
    var l, r := TagsOf(a + b), TagsOf(a) + TagsOf(b);
    assert |l| == |r|;
    forall i | 0 <= i < |l| ensures l[i] == r[i] {
      if i < |a| {
        assert (a + b)[i] == a[i];
      } else {
        assert (a + b)[i] == b[i - |a|];
      }
    }
  }

  lemma {:induction false} InsertPermutesTags(e: EffectEntry, s: seq<EffectEntry>)
    ensures multiset(TagsOf(InsertByOrder(e, s))) == multiset{e.tag} + multiset(TagsOf(s))
  {
    if s == [] {
      assert TagsOf([e]) == [e.tag];
    } else if e.order <= s[0].order {
      TagsOfConcat([e], s);
      assert TagsOf([e]) == [e.tag];
    } else {
      InsertPermutesTags(e, s[1..]);
      TagsOfConcat([s[0]], InsertByOrder(e, s[1..]));
      TagsOfConcat([s[0]], s[1..]);
      assert TagsOf([s[0]]) == [s[0].tag];
      assert s == [s[0]] + s[1..];
    }
  }

  lemma {:induction false} InsertKeepsSorted(e: EffectEntry, s: seq<EffectEntry>)
    requires Sorted(s)
    ensures Sorted(InsertByOrder(e, s))
  {
    if s != [] && e.order > s[0].order {
      var t := s[1..];
      assert Sorted(t);
      InsertKeepsSorted(e, t);
      InsertPermutes(e, t);
      var r := InsertByOrder(e, t);
      forall x | x in r ensures s[0].order <= x.order {
        assert x in multiset(r);
        assert x == e || x in t;
      }
      forall i, j | 0 <= i < j < |[s[0]] + r| ensures ([s[0]] + r)[i].order <= ([s[0]] + r)[j].order {
        if i == 0 {
          assert ([s[0]] + r)[j] == r[j - 1];
        }
      }
    }
  }

  lemma {:induction false} InsertWithOrder(e: EffectEntry, s: seq<EffectEntry>, k: int)
    ensures WithOrder(InsertByOrder(e, s), k)
         == if e.order == k then [e] + WithOrder(s, k) else WithOrder(s, k)
  {
    if s == [] {
    } else if e.order <= s[0].order {
      assert ([e] + s)[1..] == s;
    } else {
      InsertWithOrder(e, s[1..], k);
      assert ([s[0]] + InsertByOrder(e, s[1..]))[1..] == InsertByOrder(e, s[1..]);
    }
  }

  /** `SortByOrder` is a stable order-by of its input and a permutation of it. */
  lemma {:induction false} SortByOrderIsStable(s: seq<EffectEntry>)
    ensures StableOrderOf(s, SortByOrder(s))
    ensures multiset(SortByOrder(s)) == multiset(s)
    ensures multiset(TagsOf(SortByOrder(s))) == multiset(TagsOf(s))
    ensures |SortByOrder(s)| == |s|
  {
    if s != [] {
      var t := SortByOrder(s[1..]);
      SortByOrderIsStable(s[1..]);
      InsertKeepsSorted(s[0], t);
      InsertPermutes(s[0], t);
      InsertPermutesTags(s[0], t);
      forall k ensures WithOrder(SortByOrder(s), k) == WithOrder(s, k) {
        InsertWithOrder(s[0], t, k);
      }
      assert s == [s[0]] + s[1..];
      TagsOfConcat([s[0]], s[1..]);
      assert TagsOf([s[0]]) == [s[0].tag];
      assert |multiset(SortByOrder(s))| == |s|;
    }
  }

  lemma {:induction false} WithOrderMembers(s: seq<EffectEntry>, k: int, x: EffectEntry)
    ensures x in WithOrder(s, k) <==> x in s && x.order == k
  {
    if s != [] {
      WithOrderMembers(s[1..], k, x);
      assert x in s <==> x == s[0] || x in s[1..];
    }
  }

  lemma NonEmptyHasGroup(s: seq<EffectEntry>)
    requires s != []
    ensures WithOrder(s, s[0].order) != []
  {
  }

  /** The head of a sorted list has the least order of all its entries. */
  lemma HeadIsLeast(s: seq<EffectEntry>, x: EffectEntry)
    requires Sorted(s) && x in s
    ensures s[0].order <= x.order
  {
  }

  /**
   * There is only one stable order-by of a list: two sorted lists that agree
   * on the entries of every order value are equal.
   */
  lemma {:induction false} StableOrderIsUnique(s: seq<EffectEntry>, a: seq<EffectEntry>, b: seq<EffectEntry>)
    requires StableOrderOf(s, a) && StableOrderOf(s, b)
    ensures a == b
  {
    SameGroupsSortedEqual(a, b);
  }

  lemma {:induction false} SameGroupsSortedEqual(a: seq<EffectEntry>, b: seq<EffectEntry>)
    requires Sorted(a) && Sorted(b)
    requires forall k :: WithOrder(a, k) == WithOrder(b, k)
    ensures a == b
  {
    if a == [] && b != [] {
      NonEmptyHasGroup(b);
      assert false;
    } else if a != [] && b == [] {
      NonEmptyHasGroup(a);
      assert false;
    } else if a != [] {
      var m := a[0].order;
      assert WithOrder(a, m)[0] == a[0];
      assert WithOrder(b, m)[0] in WithOrder(b, m);
      WithOrderMembers(b, m, WithOrder(b, m)[0]);
      HeadIsLeast(b, WithOrder(b, m)[0]);
      var n := b[0].order;
      assert WithOrder(b, n)[0] == b[0];
      assert WithOrder(a, n)[0] in WithOrder(a, n);
      WithOrderMembers(a, n, WithOrder(a, n)[0]);
      HeadIsLeast(a, WithOrder(a, n)[0]);
      assert m == n;
      assert a[0] == b[0];
      forall k ensures WithOrder(a[1..], k) == WithOrder(b[1..], k) {
        if k == m {
          assert WithOrder(a[1..], k) == WithOrder(a, k)[1..];
          assert WithOrder(b[1..], k) == WithOrder(b, k)[1..];
        } else {
          assert WithOrder(a[1..], k) == WithOrder(a, k);
          assert WithOrder(b[1..], k) == WithOrder(b, k);
        }
      }
      SameGroupsSortedEqual(a[1..], b[1..]);
      assert a == [a[0]] + a[1..];
      assert b == [b[0]] + b[1..];
    }
  }
}
