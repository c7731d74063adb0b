/** Small generic building blocks shared by every page model: an optional value,
    the order-preserving `filter` of JavaScript arrays, and the first-occurrence
    de-duplication that `Array.from(new Set(xs))` performs. */
module Basics {

  datatype Option<T> = None | Some(value: T)

  /** `xs.filter(p)`: the elements of `xs` satisfying `p`, in their original order. */
  function Filter<T(!new)>(xs: seq<T>, p: T -> bool): (r: seq<T>)
    ensures |r| <= |xs|
    ensures forall x :: x in r <==> x in xs && p(x)
    ensures forall i :: 0 <= i < |r| ==> p(r[i])
  {
    if xs == [] then []
    else if p(xs[0]) then [xs[0]] + Filter(xs[1..], p)
    else Filter(xs[1..], p)
  }

  /** `sub` can be obtained from `xs` by deleting elements (an order-preserving sublist). */
  predicate IsSubsequence<T(==)>(sub: seq<T>, xs: seq<T>)
  {
    if sub == [] then true
    else if xs == [] then false
    else if sub[0] == xs[0] then IsSubsequence(sub[1..], xs[1..])
    else IsSubsequence(sub, xs[1..])
  }

  lemma {:induction false} FilterIsSubsequence<T(!new)>(xs: seq<T>, p: T -> bool)
    ensures IsSubsequence(Filter(xs, p), xs)
  {
    if xs != [] {
      FilterIsSubsequence(xs[1..], p);
      if !p(xs[0]) {
        SubsequenceOfTail(Filter(xs[1..], p), xs);
      }
    }
  }

  lemma {:induction false} SubsequenceOfTail<T>(sub: seq<T>, xs: seq<T>)
    requires xs != [] && IsSubsequence(sub, xs[1..])
    ensures IsSubsequence(sub, xs)
    decreases |xs|, 0
  {
    if sub != [] && sub[0] == xs[0] {
      // The head of sub matched later in xs; it matches here as well.
      SubsequenceDropHead(sub, xs[1..]);
    }
  }

  lemma {:induction false} SubsequenceDropHead<T>(sub: seq<T>, xs: seq<T>)
    requires sub != [] && IsSubsequence(sub, xs)
    ensures IsSubsequence(sub[1..], xs)
    decreases |xs|, 1
  {
    if xs != [] && sub[0] != xs[0] {
      SubsequenceDropHead(sub, xs[1..]);
      SubsequenceOfTail(sub[1..], xs);
    } else if xs != [] {
      SubsequenceOfTail(sub[1..], xs);
    }
  }

  /** Filtering with a predicate that holds everywhere returns the input. */
  lemma {:induction false} FilterAll<T(!new)>(xs: seq<T>, p: T -> bool)
    requires forall x :: x in xs ==> p(x)
    ensures Filter(xs, p) == xs
  {
    if xs != [] {
      FilterAll(xs[1..], p);
    }
  }

  /** Filtering distributes over concatenation. */
  lemma {:induction false} FilterAppend<T(!new)>(xs: seq<T>, ys: seq<T>, p: T -> bool)
    ensures Filter(xs + ys, p) == Filter(xs, p) + Filter(ys, p)
  {
    if xs != [] {
      assert (xs + ys)[1..] == xs[1..] + ys;
      FilterAppend(xs[1..], ys, p);
      if p(xs[0]) {
        assert Filter(xs + ys, p) == [xs[0]] + Filter(xs[1..] + ys, p);
        assert Filter(xs, p) == [xs[0]] + Filter(xs[1..], p);
      }
    } else {
      assert xs + ys == ys;
    }
  }

  /** Filtering with a predicate that holds nowhere returns the empty sequence. */
  lemma {:induction false} FilterNone<T(!new)>(xs: seq<T>, p: T -> bool)
    requires forall x :: x in xs ==> !p(x)
    ensures Filter(xs, p) == []
  {
    if xs != [] {
      FilterNone(xs[1..], p);
    }
  }

  /** Filtering keeps every element exactly when every element satisfies the predicate. */
  lemma {:induction false} FilterKeepsAll<T(!new)>(xs: seq<T>, p: T -> bool)
    ensures |Filter(xs, p)| == |xs| <==> forall x :: x in xs ==> p(x)
  {
    if xs != [] {
      FilterKeepsAll(xs[1..], p);
      assert forall x :: x in xs <==> x == xs[0] || x in xs[1..];
    }
  }

  /** The multiset of a filtered non-empty sequence, one element at a time. */
  lemma FilterConsMultiset<T(!new)>(xs: seq<T>, p: T -> bool)
    requires xs != []
    ensures multiset(Filter(xs, p)) ==
            (if p(xs[0]) then multiset{xs[0]} else multiset{}) + multiset(Filter(xs[1..], p))
  {
  }

  /** A concatenation of four sequences of which three are empty is the fourth. */
  lemma ConcatOfOne<T>(a: seq<T>, b: seq<T>, c: seq<T>, d: seq<T>)
    ensures b == c == d == [] ==> a + b + c + d == a
    ensures a == c == d == [] ==> a + b + c + d == b
    ensures a == b == d == [] ==> a + b + c + d == c
    ensures a == b == c == [] ==> a + b + c + d == d
  {
  }

  /** `if (condition) list.push(item)` on an empty list: `[item]` or `[]`. */
  function When<T(==)>(condition: bool, item: T): (pushed: seq<T>)
    ensures |pushed| == (if condition then 1 else 0)
    ensures item in pushed <==> condition
    ensures forall x :: x in pushed ==> x == item
  {
    if condition then [item] else []
  }

  /** Pushing an item not yet in a duplicate-free list keeps it duplicate-free. */
  lemma AppendFresh<T>(xs: seq<T>, condition: bool, item: T)
    requires NoDuplicates(xs) && item !in xs
    ensures NoDuplicates(xs + When(condition, item))
  {
  }

  /** Number of elements of `xs` satisfying `p`. */
  function Count<T(!new)>(xs: seq<T>, p: T -> bool): (n: nat)
    ensures n <= |xs|
  {
    if xs == [] then 0 else (if p(xs[0]) then 1 else 0) + Count(xs[1..], p)
  }

  /** Some element satisfies `p` exactly when the count is positive. */
  lemma {:induction false} CountPositive<T(!new)>(xs: seq<T>, p: T -> bool)
    ensures Count(xs, p) > 0 <==> exists x :: x in xs && p(x)
  {
    if xs != [] {
      CountPositive(xs[1..], p);
      assert forall x :: x in xs <==> x == xs[0] || x in xs[1..];
    }
  }

  predicate NoDuplicates<T(==)>(xs: seq<T>)
  {
    forall i, j :: 0 <= i < j < |xs| ==> xs[i] != xs[j]
  }

  /** `Array.from(new Set(xs))`: each distinct element once, at the place of its first occurrence. */
  function Dedupe<T(==,!new)>(xs: seq<T>): (r: seq<T>)
    ensures NoDuplicates(r)
    ensures forall x :: x in r <==> x in xs
    ensures IsSubsequence(r, xs)
  {
    DedupeFromNoDuplicates(xs, {});
    DedupeFromIsSubsequence(xs, {});
    DedupeFrom(xs, {})
  }

  /** Helper of Dedupe: the first occurrences in `xs` of elements not already `seen`. */
  function DedupeFrom<T(==,!new)>(xs: seq<T>, seen: set<T>): (r: seq<T>)
    ensures forall x :: x in r <==> x in xs && x !in seen
  {
    if xs == [] then []
    else if xs[0] in seen then DedupeFrom(xs[1..], seen)
    else [xs[0]] + DedupeFrom(xs[1..], seen + {xs[0]})
  }

  lemma {:induction false} DedupeFromIsSubsequence<T(!new)>(xs: seq<T>, seen: set<T>)
    ensures IsSubsequence(DedupeFrom(xs, seen), xs)
  {
    if xs != [] {
      if xs[0] in seen {
        DedupeFromIsSubsequence(xs[1..], seen);
        SubsequenceOfTail(DedupeFrom(xs[1..], seen), xs);
      } else {
        DedupeFromIsSubsequence(xs[1..], seen + {xs[0]});
      }
    }
  }

  lemma {:induction false} DedupeFromNoDuplicates<T(!new)>(xs: seq<T>, seen: set<T>)
    ensures NoDuplicates(DedupeFrom(xs, seen))
  {
    if xs != [] {
      if xs[0] in seen {
        DedupeFromNoDuplicates(xs[1..], seen);
      } else {
        var rest := DedupeFrom(xs[1..], seen + {xs[0]});
        DedupeFromNoDuplicates(xs[1..], seen + {xs[0]});
        assert xs[0] !in rest;
        var r := [xs[0]] + rest;
        forall i, j | 0 <= i < j < |r| ensures r[i] != r[j] {
          if i > 0 {
            assert r[i] == rest[i - 1] && r[j] == rest[j - 1];
          } else {
            assert r[j] == rest[j - 1];
          }
        }
      }
    }
  }

  /** First-occurrence order: an element placed before another in the result
      also occurs first before the other's first occurrence in the input. */
  lemma {:induction false} DedupeKeepsFirstOccurrenceOrder<T(!new)>(xs: seq<T>, seen: set<T>, i: nat, j: nat)
    requires i < j < |DedupeFrom(xs, seen)|
    ensures FirstIndex(xs, DedupeFrom(xs, seen)[i]) < FirstIndex(xs, DedupeFrom(xs, seen)[j])
    decreases |xs|
  {
    var r := DedupeFrom(xs, seen);
    assert xs != [];
    if xs[0] in seen {
      var rest := DedupeFrom(xs[1..], seen);
      assert r == rest;
      DedupeKeepsFirstOccurrenceOrder(xs[1..], seen, i, j);
      assert r[i] in rest && r[j] in rest;
      FirstIndexOfTail(xs, r[i]);
      FirstIndexOfTail(xs, r[j]);
    } else {
      var rest := DedupeFrom(xs[1..], seen + {xs[0]});
      assert r == [xs[0]] + rest;
      assert r[j] == rest[j - 1];
      assert r[j] in rest;
      assert r[j] != xs[0];
      FirstIndexOfTail(xs, r[j]);
      if i > 0 {
        assert r[i] == rest[i - 1];
        assert r[i] in rest;
        DedupeKeepsFirstOccurrenceOrder(xs[1..], seen + {xs[0]}, i - 1, j - 1);
        assert FirstIndex(xs[1..], rest[i - 1]) < FirstIndex(xs[1..], rest[j - 1]);
        FirstIndexOfTail(xs, r[i]);
      } else {
        assert r[i] == xs[0];
        assert FirstIndex(xs, r[i]) == 0;
      }
    }
  }

  /** Index of the first occurrence of `x` in `xs` (or |xs| when absent). */
  function FirstIndex<T(==)>(xs: seq<T>, x: T): (k: nat)
    ensures k <= |xs|
    ensures k < |xs| ==> xs[k] == x
  {
    if xs == [] then 0 else if xs[0] == x then 0 else 1 + FirstIndex(xs[1..], x)
  }

  lemma FirstIndexOfTail<T>(xs: seq<T>, x: T)
    requires xs != [] && xs[0] != x
    ensures FirstIndex(xs, x) == 1 + FirstIndex(xs[1..], x)
  {
  }

  /** The present values of a list of optional results, in order. */
  function Somes<T>(xs: seq<Option<T>>): (ys: seq<T>)
    ensures |ys| <= |xs|
    decreases |xs|
  {
    if xs == [] then []
    else
      var last := |xs| - 1;
      Somes(xs[..last]) + (if xs[last].Some? then [xs[last].value] else [])
  }

  lemma SomesSnoc<T>(xs: seq<Option<T>>, x: Option<T>)
    ensures Somes(xs + [x]) == Somes(xs) + (if x.Some? then [x.value] else [])
  {
    assert (xs + [x])[..|xs|] == xs;
  }

  /** Every present value is kept. */
  lemma {:induction false} SomesKeepsAll<T>(xs: seq<Option<T>>)
    ensures forall j :: 0 <= j < |xs| && xs[j].Some? ==> xs[j].value in Somes(xs)
    decreases |xs|
  {
    if xs != [] {
      var last := |xs| - 1;
      var front := xs[..last];
      SomesKeepsAll(front);
      assert Somes(xs) == Somes(front) + (if xs[last].Some? then [xs[last].value] else []);
      forall j | 0 <= j < last && xs[j].Some? ensures xs[j].value in Somes(xs) {
        assert front[j] == xs[j];
      }
    }
  }

  /** Every kept value is one of the present values. */
  lemma {:induction false} SomesFromOptions<T>(xs: seq<Option<T>>)
    ensures forall i :: 0 <= i < |Somes(xs)| ==> exists j :: 0 <= j < |xs| && xs[j] == Some(Somes(xs)[i])
    decreases |xs|
  {
    if xs != [] {
      var last := |xs| - 1;
      var front := xs[..last];
      SomesFromOptions(front);
      var prefix := Somes(front);
      var ys := Somes(xs);
      assert ys == prefix + (if xs[last].Some? then [xs[last].value] else []);
      forall i | 0 <= i < |ys| ensures exists j :: 0 <= j < |xs| && xs[j] == Some(ys[i]) {
        if i < |prefix| {
          assert ys[i] == prefix[i];
          var j :| 0 <= j < |front| && front[j] == Some(prefix[i]);
          assert xs[j] == front[j];
        } else {
          assert xs[last] == Some(ys[i]);
        }
      }
    } else {
      assert Somes(xs) == [];
    }
  }

  /** Where each kept value comes from: strictly increasing positions of the list, the `i`-th
      holding the `i`-th kept value. */
  function SomeIndices<T>(xs: seq<Option<T>>): (idx: seq<nat>)
    ensures |idx| == |Somes(xs)|
    ensures forall i :: 0 <= i < |idx| ==> idx[i] < |xs| && xs[idx[i]] == Some(Somes(xs)[i])
    ensures forall i, k :: 0 <= i < k < |idx| ==> idx[i] < idx[k]
    decreases |xs|
  {
    if xs == [] then []
    else
      var last := |xs| - 1;
      var front := xs[..last];
      var prefix := SomeIndices(front);
      assert forall i :: 0 <= i < |prefix| ==> xs[prefix[i]] == front[prefix[i]];
      assert Somes(xs) == Somes(front) + (if xs[last].Some? then [xs[last].value] else []);
      prefix + (if xs[last].Some? then [last] else [])
  }
}
