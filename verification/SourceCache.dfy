/** A renderer slot's source cache: a bounded recency list. It is compared with the
    unbounded list of every source touched since the last clear. */
module SourceCache {

  type SourceHash = nat

  predicate Distinct<T(==)>(s: seq<T>) {
    forall i, j | 0 <= i < j < |s| :: s[i] != s[j]
  }

  /** Without the first occurrence of `h`. */
  function Remove<T(==)>(s: seq<T>, h: T): seq<T> {
    if s == [] then [] else if s[0] == h then s[1..] else [s[0]] + Remove(s[1..], h)
  }

  function LastOf<T>(s: seq<T>, n: nat): seq<T> {
    if |s| <= n then s else s[|s| - n..]
  }

  /** Every source touched, oldest last touch first. */
  function Recency<T(==)>(touches: seq<T>): seq<T> {
    if touches == [] then []
    else Remove(Recency(touches[..|touches| - 1]), touches[|touches| - 1]) + [touches[|touches| - 1]]
  }

  lemma Reassociate<T>(x: T, a: seq<T>, b: seq<T>)
    ensures [x] + (a + b) == ([x] + a) + b
  {
  }

  lemma {:induction false} RemoveFirst<T>(a: seq<T>, b: seq<T>, h: T)
    requires h in a
    ensures Remove(a + b, h) == Remove(a, h) + b
  {
    assert (a + b)[1..] == a[1..] + b && (a + b)[0] == a[0];
    if a[0] != h {
      RemoveFirst(a[1..], b, h);
      Reassociate(a[0], Remove(a[1..], h), b);
    }
  }

  lemma {:induction false} RemoveLater<T>(a: seq<T>, b: seq<T>, h: T)
    requires h !in a
    ensures Remove(a + b, h) == a + Remove(b, h)
  {
    if a == [] {
      assert a + b == b;
    } else {
      assert (a + b)[1..] == a[1..] + b && (a + b)[0] == a[0];
      RemoveLater(a[1..], b, h);
      Reassociate(a[0], a[1..], Remove(b, h));
      assert a == [a[0]] + a[1..];
    }
  }

  lemma {:induction false} RemoveIs<T>(s: seq<T>, h: T)
    requires Distinct(s)
    ensures Distinct(Remove(s, h)) && h !in Remove(s, h)
    ensures |Remove(s, h)| == if h in s then |s| - 1 else |s|
    ensures forall x :: x in Remove(s, h) <==> x in s && x != h
  {
    if s != [] {
      RemoveIs(s[1..], h);
      assert s == [s[0]] + s[1..] && s[0] !in s[1..];
      assert forall x :: x in s <==> x == s[0] || x in s[1..];
      assert s[0] !in Remove(s[1..], h);
    }
  }

  lemma {:induction false} RemoveAbsent<T>(s: seq<T>, h: T)
    requires h !in s
    ensures Remove(s, h) == s
  {
    if s != [] {
      RemoveAbsent(s[1..], h);
    }
  }

  /** Recency lists each touched source once. */
  lemma {:induction false} RecencyIs<T>(touches: seq<T>)
    ensures Distinct(Recency(touches)) && forall x :: x in Recency(touches) <==> x in touches
  {
    if touches != [] {
      var n := |touches| - 1;
      RecencyIs(touches[..n]);
      RemoveIs(Recency(touches[..n]), touches[n]);
      assert touches == touches[..n] + [touches[n]];
    }
  }

  /** When a source was touched last. */
  function LastTouch<T(==)>(touches: seq<T>, h: T): nat
    requires h in touches
  {
    if touches[|touches| - 1] == h then |touches| - 1
    else
      assert touches == touches[..|touches| - 1] + [touches[|touches| - 1]];
      LastTouch(touches[..|touches| - 1], h)
  }

  lemma {:induction false} LastTouchIs<T>(touches: seq<T>, h: T)
    requires h in touches
    ensures LastTouch(touches, h) < |touches| && touches[LastTouch(touches, h)] == h
    ensures h !in touches[LastTouch(touches, h) + 1..]
  {
    var n := |touches| - 1;
    if touches[n] != h {
      assert touches == touches[..n] + [touches[n]];
      LastTouchIs(touches[..n], h);
      var k := LastTouch(touches[..n], h);
      assert touches[k + 1..] == touches[..n][k + 1..] + [touches[n]];
    }
  }

  lemma {:induction false} RemoveKeepsOrder<T>(s: seq<T>, h: T, a: nat, b: nat) returns (c: nat, d: nat)
    requires a < b < |Remove(s, h)|
    ensures c < d < |s| && s[c] == Remove(s, h)[a] && s[d] == Remove(s, h)[b]
  {
    if s[0] == h {
      c, d := a + 1, b + 1;
    } else if a > 0 {
      c, d := RemoveKeepsOrder(s[1..], h, a - 1, b - 1);
      c, d := c + 1, d + 1;
    } else {
      c := 0;
      d := RemoveOrigin(s[1..], h, b - 1);
      d := d + 1;
    }
  }

  lemma {:induction false} RemoveOrigin<T>(s: seq<T>, h: T, b: nat) returns (d: nat)
    requires b < |Remove(s, h)|
    ensures d < |s| && s[d] == Remove(s, h)[b]
  {
    if s[0] == h {
      d := b + 1;
    } else if b == 0 {
      d := 0;
    } else {
      d := RemoveOrigin(s[1..], h, b - 1);
      d := d + 1;
    }
  }

  lemma {:induction false} RecencyTouched<T>(touches: seq<T>, a: nat)
    requires a < |Recency(touches)|
    ensures Recency(touches)[a] in touches
  {
    var n := |touches| - 1;
    assert touches == touches[..n] + [touches[n]];
    if a < |Recency(touches)| - 1 {
      var c := RemoveOrigin(Recency(touches[..n]), touches[n], a);
      RecencyTouched(touches[..n], c);
    }
  }

  /** Recency lists the sources in the order of their last touches. */
  lemma {:induction false} RecencyOrder<T>(touches: seq<T>, a: nat, b: nat)
    requires a < b < |Recency(touches)|
    ensures Recency(touches)[a] in touches && Recency(touches)[b] in touches
    ensures LastTouch(touches, Recency(touches)[a]) < LastTouch(touches, Recency(touches)[b])
  {
    var n := |touches| - 1;
    var before, h := touches[..n], touches[n];
    var kept := Remove(Recency(before), h);
    assert Recency(touches) == kept + [h];
    RecencyTouched(touches, a);
    RecencyTouched(touches, b);
    RecencyIs(before);
    RemoveIs(Recency(before), h);
    assert kept[a] in kept;
    if b < |kept| {
      var c, d := RemoveKeepsOrder(Recency(before), h, a, b);
      assert kept[b] in kept;
      RecencyOrder(before, c, d);
    } else {
      var c := RemoveOrigin(Recency(before), h, a);
      RecencyTouched(before, c);
      LastTouchIs(before, kept[a]);
    }
  }

  /** One touch of a bounded list is one touch of the unbounded list, bounded. */
  lemma TouchCommutes<T>(r: seq<T>, h: T, n: nat)
    requires Distinct(r) && n > 0
    ensures LastOf(Remove(LastOf(r, n), h) + [h], n) == LastOf(Remove(r, h) + [h], n)
  {
    if |r| > n {
      SplitTouch(r[..|r| - n], r[|r| - n..], h, n);
      assert r == r[..|r| - n] + r[|r| - n..];
    }
  }

  lemma SplitTouch<T>(a: seq<T>, s: seq<T>, h: T, n: nat)
    requires Distinct(a + s) && |s| == n > 0
    ensures LastOf(Remove(s, h) + [h], n) == LastOf(Remove(a + s, h) + [h], n)
  {
    hide Remove;
    if h in a {
      NotInBoth(a, s, h);
      RemoveAbsent(s, h);
      RemoveFirst(a, s, h);
      Ending(Remove(a, h), s + [h], n);
      assert Remove(a, h) + s + [h] == Remove(a, h) + (s + [h]);
    } else {
      RemoveLater(a, s, h);
      DistinctEnd(a, s);
      RemoveIs(s, h);
      Ending(a, Remove(s, h) + [h], n);
      assert a + Remove(s, h) + [h] == a + (Remove(s, h) + [h]);
    }
  }

  lemma Ending<T>(a: seq<T>, x: seq<T>, n: nat)
    requires |x| >= n
    ensures LastOf(a + x, n) == LastOf(x, n)
  {
  }

  lemma DistinctEnd<T>(a: seq<T>, s: seq<T>)
    requires Distinct(a + s)
    ensures Distinct(s)
  {
    forall i, j | 0 <= i < j < |s| ensures s[i] != s[j] {
      assert (a + s)[|a| + i] != (a + s)[|a| + j];
    }
  }

  lemma NotInBoth<T>(a: seq<T>, s: seq<T>, h: T)
    requires Distinct(a + s) && h in a
    ensures h !in s
  {
    var i :| 0 <= i < |a| && a[i] == h;
    forall j | 0 <= j < |s| ensures s[j] != h {
      assert (a + s)[i] != (a + s)[|a| + j];
    }
  }

  class Cache {
    const capacity: nat
    var entries: seq<SourceHash>
    ghost var touches: seq<SourceHash>

    /** The list is the most recent part of everything touched. */
    ghost predicate Valid()
      reads this
    {
      capacity > 0 && entries == LastOf(Recency(touches), capacity)
    }

    constructor (requested: nat)
      ensures Valid() && touches == [] && capacity == if requested == 0 then 1 else requested
    {
      capacity := if requested == 0 then 1 else requested;
      entries, touches := [], [];
    }

    /** A source is held exactly when it is among the `capacity` sources touched
        most recently. */
    method Contains(h: SourceHash) returns (held: bool)
      requires Valid()
      ensures held <==> h in LastOf(Recency(touches), capacity)
    {
      held := false;
      for n := 0 to |entries|
        invariant held <==> h in entries[..n]
      {
        held := held || entries[n] == h;
      }
    }

    method Touch(h: SourceHash)
      requires Valid()
      modifies this`entries, this`touches
      ensures Valid() && touches == old(touches) + [h]
    {
      RecencyIs(touches);
      TouchCommutes(Recency(touches), h, capacity);
      assert (touches + [h])[..|touches|] == touches;
      var kept := Drop(entries, h);
      kept := kept + [h];
      ghost var all := kept;
      while |kept| > capacity
        invariant LastOf(kept, capacity) == LastOf(all, capacity)
        decreases |kept|
      {
        kept := kept[1..];
      }
      entries, touches := kept, touches + [h];
    }

    method Clear()
      requires Valid()
      modifies this`entries, this`touches
      ensures Valid() && touches == [] && entries == []
    {
      entries, touches := [], [];
    }
  }

  lemma RemoveAtFirst<T>(s: seq<T>, h: T, n: nat)
    requires n < |s| && h !in s[..n] && s[n] == h
    ensures Remove(s, h) == s[..n] + s[n + 1..]
  {
    RemoveLater(s[..n], s[n..], h);
    assert s == s[..n] + s[n..] && s[n..][1..] == s[n + 1..];
  }

  /** `position` and `remove`. */
  method Drop(s: seq<SourceHash>, h: SourceHash) returns (kept: seq<SourceHash>)
    ensures kept == Remove(s, h)
  {
    hide Remove;
    for n := 0 to |s|
      invariant h !in s[..n]
    {
      if s[n] == h {
        RemoveAtFirst(s, h, n);
        return s[..n] + s[n + 1..];
      }
    }
    RemoveAbsent(s, h);
    kept := s;
  }
}
