/**
  `slice::sort_by` with a comparator that compares the lower-cased paths of two
  elements, as the back end sorts its lists in place. The model is an insertion
  sort by adjacent swaps, stable like Rust's: elements with equal keys keep their
  relative order.
*/
module Sorting {
  import opened Text

  ghost predicate SortedBy<T>(s: seq<T>, key: T -> string) {
    forall i, j :: 0 <= i < j < |s| ==> LexLe(key(s[i]), key(s[j]))
  }

  /** `s` is `t` rearranged so that position `p` of `s` holds element `origin[p]`
      of `t`, and elements with equal keys appear in their order in `t`. */
  ghost predicate StableArrangement<T>(s: seq<T>, t: seq<T>, key: T -> string, origin: seq<nat>) {
    && |s| == |t| == |origin|
    && (forall p :: 0 <= p < |s| ==> origin[p] < |t| && s[p] == t[origin[p]])
    && (forall p, q :: 0 <= p < q < |s| ==> origin[p] != origin[q])
    && (forall p, q :: 0 <= p < q < |s| && key(s[p]) == key(s[q]) ==> origin[p] < origin[q])
  }

  /** `s` is a stable sort of `t` by `key`. */
  ghost predicate StablySortedFrom<T>(s: seq<T>, t: seq<T>, key: T -> string) {
    && SortedBy(s, key)
    && multiset(s) == multiset(t)
    && exists origin :: StableArrangement(s, t, key, origin)
  }

  /** The first `n` elements of `s` are ordered by `key`. */
  ghost predicate SortedPrefix<T>(s: seq<T>, key: T -> string, n: nat)
    requires n <= |s|
  {
    forall p, q :: 0 <= p < q < n ==> LexLe(key(s[p]), key(s[q]))
  }

  /** Midway through inserting `s[i]`: the element being moved sits at `j`,
      the rest of `s[..i + 1]` is ordered and nothing after `j` is below it. */
  ghost predicate Inserting<T>(s: seq<T>, key: T -> string, i: nat, j: nat)
    requires j <= i < |s|
  {
    && (forall p, q :: 0 <= p < q <= i && p != j && q != j ==> LexLe(key(s[p]), key(s[q])))
    && (forall q :: j < q <= i ==> LexLe(key(s[j]), key(s[q])))
  }

  /** Sorts `a` by `key` in place: the result is ordered, a permutation of the
      original contents, and keeps elements with equal keys in their order. */
  method SortBy<T>(a: array<T>, key: T -> string)
    modifies a
    ensures StablySortedFrom(a[..], old(a[..]), key)
  {
    ghost var origin: seq<nat> := seq(a.Length, p requires 0 <= p < a.Length => p);
    if a.Length == 0 {
      assert StableArrangement(a[..], old(a[..]), key, origin);
      return;
    }
    var i := 1;
    while i < a.Length
      invariant 1 <= i <= a.Length
      invariant SortedPrefix(a[..], key, i)
      invariant multiset(a[..]) == multiset(old(a[..]))
      invariant StableArrangement(a[..], old(a[..]), key, origin)
    {
      origin := InsertLast(a, i, key, old(a[..]), origin);
      i := i + 1;
    }
  }

  /** One pass of the insertion sort: `a[i]` is swapped down past the larger
      elements of the sorted prefix `a[..i]`, so `a[..i + 1]` becomes sorted. */
  method InsertLast<T>(a: array<T>, i: nat, key: T -> string, ghost t: seq<T>, ghost origin: seq<nat>)
    returns (ghost origin': seq<nat>)
    requires 0 < i < a.Length
    requires SortedPrefix(a[..], key, i)
    requires StableArrangement(a[..], t, key, origin)
    modifies a
    ensures SortedPrefix(a[..], key, i + 1)
    ensures multiset(a[..]) == multiset(old(a[..]))
    ensures StableArrangement(a[..], t, key, origin')
  {
    origin' := origin;
    var j := i;
    StartInserting(a[..], key, i);
    while j > 0 && !LexLe(key(a[j - 1]), key(a[j]))
      invariant 0 <= j <= i
      invariant Inserting(a[..], key, i, j)
      invariant multiset(a[..]) == multiset(old(a[..]))
      invariant StableArrangement(a[..], t, key, origin')
    {
      ghost var before := a[..];
      SwapStep(before, key, i, j, t, origin');
      a[j - 1], a[j] := a[j], a[j - 1];
      assert a[..] == before[j - 1 := before[j]][j := before[j - 1]];
      origin' := origin'[j - 1 := origin'[j]][j := origin'[j - 1]];
      j := j - 1;
    }
    FinishInserting(a[..], key, i, j);
  }

  /** Before any swap the whole prefix is in insertion state. */
  lemma StartInserting<T>(s: seq<T>, key: T -> string, i: nat)
    requires i < |s| && SortedPrefix(s, key, i)
    ensures Inserting(s, key, i, i)
  { }

  /** Once the moved element is not below its left neighbour, the prefix is sorted. */
  lemma FinishInserting<T>(s: seq<T>, key: T -> string, i: nat, j: nat)
    requires j <= i < |s| && Inserting(s, key, i, j)
    requires j > 0 ==> LexLe(key(s[j - 1]), key(s[j]))
    ensures SortedPrefix(s, key, i + 1)
  {
    if j > 0 {
      forall p | 0 <= p < j - 1
        ensures LexLe(key(s[p]), key(s[j]))
      {
        LexLeTransitive(key(s[p]), key(s[j - 1]), key(s[j]));
      }
    }
  }

  /** One swap of `InsertLast` on the array's contents: the element being
      inserted moves one place down, the rest of the pass's invariant is kept. */
  lemma SwapStep<T>(before: seq<T>, key: T -> string, i: nat, j: nat, t: seq<T>, origin: seq<nat>)
    requires 0 < j <= i < |before|
    requires !LexLe(key(before[j - 1]), key(before[j]))
    requires Inserting(before, key, i, j)
    requires StableArrangement(before, t, key, origin)
    ensures var after := before[j - 1 := before[j]][j := before[j - 1]];
      && Inserting(after, key, i, j - 1)
      && multiset(after) == multiset(before)
      && StableArrangement(after, t, key, origin[j - 1 := origin[j]][j := origin[j - 1]])
  {
    var after := before[j - 1 := before[j]][j := before[j - 1]];
    LexLeTotal(key(before[j - 1]), key(before[j]));
    LexLeReflexive(key(before[j]));
    forall q | j - 1 < q <= i
      ensures LexLe(key(after[j - 1]), key(after[q]))
    {
      if q > j {
        assert after[j - 1] == before[j] && after[q] == before[q];
      }
    }
    SwapKeepsArrangement(before, t, key, origin, j);
  }

  /** Swapping two neighbours with different keys keeps a stable arrangement. */
  lemma SwapKeepsArrangement<T>(s: seq<T>, t: seq<T>, key: T -> string, origin: seq<nat>, j: nat)
    requires StableArrangement(s, t, key, origin)
    requires 0 < j < |s| && key(s[j - 1]) != key(s[j])
    ensures StableArrangement(s[j - 1 := s[j]][j := s[j - 1]], t, key,
                              origin[j - 1 := origin[j]][j := origin[j - 1]])
  {
    var s', o' := s[j - 1 := s[j]][j := s[j - 1]], origin[j - 1 := origin[j]][j := origin[j - 1]];
    forall p, q | 0 <= p < q < |s'| && key(s'[p]) == key(s'[q])
      ensures o'[p] < o'[q]
    {
      var p0 := if p == j - 1 then j else if p == j then j - 1 else p;
      var q0 := if q == j - 1 then j else if q == j then j - 1 else q;
      assert s'[p] == s[p0] && o'[p] == origin[p0];
      assert s'[q] == s[q0] && o'[q] == origin[q0];
    }
    forall p | 0 <= p < |s'|
      ensures o'[p] < |t| && s'[p] == t[o'[p]]
    {
      var p0 := if p == j - 1 then j else if p == j then j - 1 else p;
      assert s'[p] == s[p0] && o'[p] == origin[p0];
    }
    forall p, q | 0 <= p < q < |s'|
      ensures o'[p] != o'[q]
    {
      var p0 := if p == j - 1 then j else if p == j then j - 1 else p;
      var q0 := if q == j - 1 then j else if q == j then j - 1 else q;
      assert o'[p] == origin[p0] && o'[q] == origin[q0];
      assert p0 != q0;
    }
  }
}
