/**
 * A JavaScript `Set`, or an array kept free of duplicates, as a sequence in
 * insertion order: adding an element already present changes nothing, deleting
 * removes the one occurrence and keeps the others in order.
 */
module OrderedSets {

  predicate NoDup<T(==,!new)>(s: seq<T>) {
    forall i, j :: 0 <= i < j < |s| ==> s[i] != s[j]
  }

  /** `set.add(x)` / push-if-absent. */
  function Add<T(==,!new)>(s: seq<T>, x: T): (r: seq<T>)
    ensures x in r
    ensures forall y :: y in r <==> y in s || y == x
    ensures |r| == if x in s then |s| else |s| + 1
    ensures r[..|s|] == s
    ensures NoDup(s) ==> NoDup(r)
  {
    if x in s then s else s + [x]
  }

  /** `set.delete(x)`: every element except `x`, in their original order. */
  function Remove<T(==,!new)>(s: seq<T>, x: T): (r: seq<T>)
    ensures x !in r
    ensures forall y :: y != x ==> (y in r <==> y in s)
    ensures |r| <= |s|
    ensures x !in s ==> r == s
    ensures NoDup(s) ==> NoDup(r)
  {
    if s == [] then []
    else if s[0] == x then Remove(s[1..], x)
    else
      assert NoDup(s) ==> s[0] !in s[1..];
      [s[0]] + Remove(s[1..], x)
  }

  /** Cutting the single occurrence out with `splice(i, 1)` is `Remove`. */
  lemma {:induction false} SpliceIsRemove<T(!new)>(s: seq<T>, i: nat)
    requires NoDup(s) && i < |s|
    ensures s[..i] + s[i + 1..] == Remove(s, s[i])
    ensures |Remove(s, s[i])| == |s| - 1
  {
    if i == 0 {
      assert s[0] !in s[1..];
      assert s[..0] + s[1..] == s[1..];
    } else {
      var t := s[1..];
      assert NoDup(t);
      SpliceIsRemove(t, i - 1);
      assert t[i - 1] == s[i];
      assert s[0] != s[i];
      assert s[..i] + s[i + 1..] == [s[0]] + (t[..i - 1] + t[i..]);
    }
  }

  /** Adding an element and then deleting it restores a set that did not contain it. */
  lemma {:induction false} RemoveAfterAdd<T(!new)>(s: seq<T>, x: T)
    requires x !in s
    ensures Remove(Add(s, x), x) == s
  {
    RemoveAppendOther(s, x);
  }

  lemma {:induction false} RemoveAppendOther<T(!new)>(s: seq<T>, x: T)
    requires x !in s
    ensures Remove(s + [x], x) == s
    decreases |s|
  {
    if s == [] {
      assert [x][1..] == [];
    } else {
      assert (s + [x])[1..] == s[1..] + [x];
      RemoveAppendOther(s[1..], x);
      assert s == [s[0]] + s[1..];
    }
  }
}

/**
 * `callbacks.forEach(cb => { try { cb(arg) } catch { … } })` and the same loop
 * without the inner `try`. Which callbacks throw is an input.
 */
module FanOut {

  /** The callbacks of `s` that throw, in order: those whose failure is caught and logged. */
  function Throwing<T(==,!new)>(s: seq<T>, throwing: set<T>): (r: seq<T>)
    ensures |r| <= |s|
    ensures forall c :: c in r <==> c in s && c in throwing
  {
    if s == [] then []
    else Throwing(s[..|s| - 1], throwing) + (if s[|s| - 1] in throwing then [s[|s| - 1]] else [])
  }

  /** What a loop without a per-callback `try` reaches: everything up to and including the first thrower. */
  function UntilFirstThrow<T(==,!new)>(s: seq<T>, throwing: set<T>): (r: seq<T>)
    ensures |r| <= |s| && r == s[..|r|]
    ensures forall i :: 0 <= i < |r| - 1 ==> r[i] !in throwing
    ensures |r| < |s| ==> r != [] && r[|r| - 1] in throwing
    ensures (forall c :: c in s ==> c !in throwing) ==> r == s
  {
    if s == [] then []
    else if s[0] in throwing then [s[0]]
    else [s[0]] + UntilFirstThrow(s[1..], throwing)
  }

  /** Isolated fan-out: each callback is invoked exactly once, in order, whatever the others do. */
  method InvokeIsolated<T(==,!new)>(callbacks: seq<T>, throwing: set<T>) returns (invoked: seq<T>, failed: seq<T>)
    ensures invoked == callbacks
    ensures failed == Throwing(callbacks, throwing)
  {
    invoked, failed := [], [];
    var i := 0;
    while i < |callbacks|
      invariant 0 <= i <= |callbacks|
      invariant invoked == callbacks[..i]
      invariant failed == Throwing(callbacks[..i], throwing)
    {
      var cb := callbacks[i];
      invoked := invoked + [cb];
      if cb in throwing {
        failed := failed + [cb];
      }
      assert callbacks[..i + 1][..i] == callbacks[..i];
      i := i + 1;
    }
    assert callbacks[..i] == callbacks;
  }

  /** Unisolated fan-out: the first callback that throws ends the loop and the exception leaves it. */
  method InvokeUntilThrow<T(==,!new)>(callbacks: seq<T>, throwing: set<T>) returns (invoked: seq<T>, threw: bool)
    ensures invoked == UntilFirstThrow(callbacks, throwing)
    ensures threw <==> exists c :: c in callbacks && c in throwing
  {
    invoked, threw := [], false;
    var i := 0;
    while i < |callbacks| && !threw
      invariant 0 <= i <= |callbacks|
      invariant !threw ==> invoked == callbacks[..i] && forall j :: 0 <= j < i ==> callbacks[j] !in throwing
      invariant threw ==> invoked == UntilFirstThrow(callbacks, throwing) && i > 0 && callbacks[i - 1] in throwing
    {
      invoked := invoked + [callbacks[i]];
      threw := callbacks[i] in throwing;
      if threw {
        UntilFirstThrowAt(callbacks, throwing, i);
      }
      i := i + 1;
    }
    if !threw {
      assert callbacks[..i] == callbacks;
    }
  }

  /** When the first thrower sits at index `i`, the loop reaches exactly the first `i + 1` callbacks. */
  lemma {:induction false} UntilFirstThrowAt<T(!new)>(s: seq<T>, throwing: set<T>, i: nat)
    requires i < |s| && s[i] in throwing
    requires forall j :: 0 <= j < i ==> s[j] !in throwing
    ensures UntilFirstThrow(s, throwing) == s[..i + 1]
  {
    if i > 0 {
      UntilFirstThrowAt(s[1..], throwing, i - 1);
      assert s[..i + 1] == [s[0]] + s[1..][..i];
    }
  }
}
