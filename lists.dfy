/** Order-preserving duplicate removal, the `seen`-set loop the scrapers run
    over links and code blocks. */
module Lists {
  import opened Wrappers

  /** No element occurs twice. */
  predicate NoDuplicates<T(==)>(s: seq<T>) {
    forall i, j :: 0 <= i < j < |s| ==> s[i] != s[j]
  }

  /** The position where `x` first occurs in `s`. */
  function FirstAt<T(==)>(s: seq<T>, x: T): (k: nat)
    requires x in s
    ensures k < |s| && s[k] == x
    ensures forall j :: 0 <= j < k ==> s[j] != x
  {
    if s[0] == x then 0 else 1 + FirstAt(s[1..], x)
  }

  /** The elements of `s`, each kept at its first occurrence. */
  function Dedup<T(==)>(s: seq<T>): (d: seq<T>)
    ensures forall x :: x in d ==> x in s
    decreases |s|
  {
    if s == [] then []
    else
      var d := Dedup(s[..|s| - 1]);
      if s[|s| - 1] in d then d else d + [s[|s| - 1]]
  }

  /** `Dedup` drops repeats and nothing else: the result holds no element
      twice, holds the same elements as the input, and lists them in the order
      of their first occurrences. */
  lemma {:induction false} DedupMeaning<T>(s: seq<T>)
    ensures NoDuplicates(Dedup(s))
    ensures forall x :: x in Dedup(s) <==> x in s
    ensures forall i, j :: 0 <= i < j < |Dedup(s)| ==> FirstAt(s, Dedup(s)[i]) < FirstAt(s, Dedup(s)[j])
    decreases |s|
  {
    if s != [] {
      var init := s[..|s| - 1];
      var x := s[|s| - 1];
      DedupMeaning(init);
      assert s == init + [x];
      forall y | y in init
        ensures FirstAt(s, y) == FirstAt(init, y)
      {
        FirstAtPrefix(init, [x], y);
      }
      if x !in Dedup(init) {
        assert x !in init;
        assert FirstAt(s, x) == |init| by {
          FirstAtBeyond(s, init, x);
        }
      }
    }
  }

  /** First occurrences of elements of a prefix stay where they were. */
  lemma FirstAtPrefix<T>(a: seq<T>, b: seq<T>, y: T)
    requires y in a
    ensures y in a + b && FirstAt(a + b, y) == FirstAt(a, y)
  {
    var k := FirstAt(a, y);
    assert (a + b)[k] == y;
    var k2 := FirstAt(a + b, y);
    assert forall j :: 0 <= j < |a| ==> (a + b)[j] == a[j];
  }

  /** An element absent from a prefix first occurs after it. */
  lemma FirstAtBeyond<T>(s: seq<T>, init: seq<T>, x: T)
    requires |s| == |init| + 1 && s[..|init|] == init && s[|init|] == x && x !in init
    ensures FirstAt(s, x) == |init|
  {
    assert forall j :: 0 <= j < |init| ==> s[j] == init[j];
  }

  /** The `seen`-set loop: walk the list once, keeping each element the first
      time it is met. */
  method DedupInOrder<T(==)>(s: seq<T>) returns (unique: seq<T>)
    ensures unique == Dedup(s)
  {
    var seen: set<T> := {};
    unique := [];
    for i := 0 to |s|
      invariant unique == Dedup(s[..i])
      invariant forall x :: x in seen <==> x in unique
    {
      assert s[..i + 1][..i] == s[..i];
      if s[i] !in seen {
        seen := seen + {s[i]};
        unique := unique + [s[i]];
      }
    }
    assert s[..|s|] == s;
  }

  /** `[f(x) for x in s if keep(x)]` */
  function Select<T, U>(s: seq<T>, keep: T -> bool, f: T -> U): (r: seq<U>)
    ensures |r| <= |s|
    decreases |s|
  {
    if s == [] then []
    else Select(s[..|s| - 1], keep, f) + (if keep(s[|s| - 1]) then [f(s[|s| - 1])] else [])
  }

  /** The selected values are exactly the images of the kept elements. */
  lemma {:induction false} SelectMeaning<T, U>(s: seq<T>, keep: T -> bool, f: T -> U)
    ensures forall y :: y in Select(s, keep, f) <==> exists i :: 0 <= i < |s| && keep(s[i]) && f(s[i]) == y
    decreases |s|
  {
    if s != [] {
      var init := s[..|s| - 1];
      SelectMeaning(init, keep, f);
      assert forall i :: 0 <= i < |init| ==> init[i] == s[i];
    }
  }

  /** Nothing is selected when no element is kept. */
  lemma {:induction false} SelectNoneKept<T, U>(s: seq<T>, keep: T -> bool, f: T -> U)
    requires forall i :: 0 <= i < |s| ==> !keep(s[i])
    ensures Select(s, keep, f) == []
    decreases |s|
  {
    if s != [] {
      SelectNoneKept(s[..|s| - 1], keep, f);
    }
  }

  /** One more element of the input adds its image when it is kept. */
  lemma SelectSnoc<T, U>(s: seq<T>, i: nat, keep: T -> bool, f: T -> U)
    requires i < |s|
    ensures Select(s[..i + 1], keep, f) == Select(s[..i], keep, f) + (if keep(s[i]) then [f(s[i])] else [])
  {
    assert s[..i + 1][..i] == s[..i];
  }

  /** One more element adds itself unless it was already there. */
  lemma DedupSnoc<T>(s: seq<T>, x: T)
    ensures Dedup(s + [x]) == if x in Dedup(s) then Dedup(s) else Dedup(s) + [x]
  {
    assert (s + [x])[..|s|] == s;
  }

  /** The values `f` yields for the elements of `s`, in order, skipping the
      elements it maps to `None`. */
  function Collect<T, U>(s: seq<T>, f: T -> Option<U>): (r: seq<U>)
    ensures |r| <= |s|
    decreases |s|
  {
    if s == [] then []
    else
      var c := f(s[|s| - 1]);
      Collect(s[..|s| - 1], f) + (if c.Some? then [c.value] else [])
  }

  /** Collecting one more element appends what it yields, if anything. */
  lemma CollectSnoc<T, U>(s: seq<T>, i: nat, f: T -> Option<U>)
    requires i < |s|
    ensures Collect(s[..i + 1], f) == Collect(s[..i], f) + (if f(s[i]).Some? then [f(s[i]).value] else [])
  { assert s[..i + 1][..i] == s[..i]; }

  /** A collected value is the image of some element. */
  lemma {:induction false} CollectMeaning<T, U>(s: seq<T>, f: T -> Option<U>)
    ensures forall y :: y in Collect(s, f) <==> exists i :: 0 <= i < |s| && f(s[i]) == Some(y)
    decreases |s|
  {
    if s != [] {
      var init := s[..|s| - 1];
      CollectMeaning(init, f);
      assert forall i :: 0 <= i < |init| ==> init[i] == s[i];
    }
  }

  /** Collecting over two sequences one after the other collects over each. */
  lemma {:induction false} CollectConcat<T, U>(a: seq<T>, b: seq<T>, f: T -> Option<U>)
    ensures Collect(a + b, f) == Collect(a, f) + Collect(b, f)
    decreases |b|
  {
    if b != [] {
      var init := b[..|b| - 1];
      CollectConcat(a, init, f);
      assert (a + b)[..|a + b| - 1] == a + init;
      assert (a + b)[|a + b| - 1] == b[|b| - 1];
    } else {
      assert a + b == a;
    }
  }

  /** A value collected from the images of the kept elements comes from a kept
      element, and every kept element's value is collected. */
  lemma {:induction false} CollectSelect<T, U, V>(s: seq<T>, keep: T -> bool, g: T -> U, f: U -> Option<V>, y: V)
    ensures y in Collect(Select(s, keep, g), f) <==> exists i :: 0 <= i < |s| && keep(s[i]) && f(g(s[i])) == Some(y)
    decreases |s|
  {
    if s != [] {
      var n := |s| - 1;
      var init := s[..n];
      var last: seq<U> := if keep(s[n]) then [g(s[n])] else [];
      assert Select(s, keep, g) == Select(init, keep, g) + last;
      CollectSelect(init, keep, g, f, y);
      CollectConcat(Select(init, keep, g), last, f);
      CollectLast(last, f, y);
      assert s == init + [s[n]];
      ExistsInitOrLast(init, s[n], keep, g, f, y);
    }
  }

  /** An element of a non-empty sequence is in its front or is its last. */
  lemma ExistsInitOrLast<T, U, V>(init: seq<T>, x: T, keep: T -> bool, g: T -> U, f: U -> Option<V>, y: V)
    ensures (exists i :: 0 <= i < |init + [x]| && keep((init + [x])[i]) && f(g((init + [x])[i])) == Some(y)) <==>
      (exists i :: 0 <= i < |init| && keep(init[i]) && f(g(init[i])) == Some(y)) || (keep(x) && f(g(x)) == Some(y))
  {
    var s := init + [x];
    if exists i :: 0 <= i < |s| && keep(s[i]) && f(g(s[i])) == Some(y) {
      var i :| 0 <= i < |s| && keep(s[i]) && f(g(s[i])) == Some(y);
      if i < |init| {
        assert init[i] == s[i];
      }
    }
    if exists i :: 0 <= i < |init| && keep(init[i]) && f(g(init[i])) == Some(y) {
      var i :| 0 <= i < |init| && keep(init[i]) && f(g(init[i])) == Some(y);
      assert s[i] == init[i];
    }
    assert s[|init|] == x;
  }

  /** Collecting from at most one element yields its value, if any. */
  lemma CollectLast<U, V>(last: seq<U>, f: U -> Option<V>, y: V)
    requires |last| <= 1
    ensures y in Collect(last, f) <==> |last| == 1 && f(last[0]) == Some(y)
  {
    if |last| == 1 {
      assert last[..0] == [];
    }
  }

  /** A value collected from the kept images of two sequences, one after the
      other, comes from a kept element of one of them, and every such value is
      collected. */
  lemma CollectSelectBoth<T, U, V>(a: seq<T>, b: seq<T>, keepA: T -> bool, keepB: T -> bool,
                                   g: T -> U, f: U -> Option<V>, y: V)
    ensures y in Collect(Select(a, keepA, g) + Select(b, keepB, g), f) <==>
      ((exists i :: 0 <= i < |a| && keepA(a[i]) && f(g(a[i])) == Some(y))
       || (exists i :: 0 <= i < |b| && keepB(b[i]) && f(g(b[i])) == Some(y)))
  {
    CollectConcat(Select(a, keepA, g), Select(b, keepB, g), f);
    CollectSelect(a, keepA, g, f, y);
    CollectSelect(b, keepB, g, f, y);
  }

  /** Index of the last element equal to `x`, or -1: `s.rfind(x)` for a
      single character, and the backward search for a line. */
  function LastIndex<T(==)>(s: seq<T>, x: T): (r: int)
    ensures -1 <= r < |s|
    ensures r >= 0 ==> s[r] == x
    ensures forall j :: r < j < |s| ==> s[j] != x
  {
    if s == [] then -1
    else if s[|s| - 1] == x then |s| - 1
    else LastIndex(s[..|s| - 1], x)
  }

  /** The last occurrence is the only index holding `x` with none after it. */
  lemma LastIndexAt<T>(s: seq<T>, x: T, k: nat)
    requires k < |s| && s[k] == x
    requires forall j :: k < j < |s| ==> s[j] != x
    ensures LastIndex(s, x) == k
  {
  }
}
