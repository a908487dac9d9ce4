/** Sequences element by element, and files made of parts: how a reader that takes whole parts
    fares on a file cut short. */
module Sequences {
  ghost predicate Defined<A, B>(f: A --> B, s: seq<A>)
  {
    forall i :: 0 <= i < |s| ==> f.requires(s[i])
  }

  function Mapped<A, B>(f: A --> B, s: seq<A>): (t: seq<B>)
    requires Defined(f, s)
    ensures |t| == |s|
    decreases |s|
  {
    if s == [] then [] else [f(s[0])] + Mapped(f, s[1..])
  }

  lemma {:induction false} MappedFirst<A, B>(f: A --> B, s: seq<A>)
    requires Defined(f, s) && s != []
    ensures Mapped(f, s) != [] && Mapped(f, s)[0] == f(s[0]) && Mapped(f, s)[1..] == Mapped(f, s[1..])
  {}

  lemma {:induction false} MappedAt<A, B>(f: A --> B, s: seq<A>, i: nat)
    requires Defined(f, s) && i < |s|
    ensures Mapped(f, s)[i] == f(s[i])
    decreases |s|
  {
    if i > 0 { MappedAt(f, s[1..], i - 1); }
  }

  lemma {:induction false} MappedPrefix<A, B>(f: A --> B, s: seq<A>, k: nat)
    requires Defined(f, s) && k <= |s|
    ensures Mapped(f, s)[..k] == Mapped(f, s[..k])
    decreases k
  {
    if k > 0 {
      MappedPrefix(f, s[1..], k - 1);
      assert s[..k][1..] == s[1..][..k - 1];
      assert Mapped(f, s)[..k] == [f(s[0])] + Mapped(f, s[1..])[..k - 1];
    }
  }

  lemma {:induction false} MappedSnoc<A, B>(f: A --> B, s: seq<A>, x: A)
    requires Defined(f, s) && f.requires(x)
    ensures Defined(f, s + [x]) && Mapped(f, s + [x]) == Mapped(f, s) + [f(x)]
    decreases |s|
  {
    if s == [] {
      assert (s + [x])[1..] == [];
    } else {
      assert (s + [x])[1..] == s[1..] + [x];
      MappedSnoc(f, s[1..], x);
    }
  }

  // ----- concatenation -----

  lemma Regroup<T>(a: seq<T>, b: seq<T>, c: seq<T>)
    ensures a + b + c == a + (b + c)
  {}

  lemma FrontOfSuffix<T>(s: seq<T>, d: nat)
    requires d < |s|
    ensures s[d..][..|s| - d - 1] == s[..|s| - 1][d..]
  {}

  lemma Chain<T>(a: seq<T>, x: T, more: seq<T>, r: seq<T>, whole: seq<T>)
    requires r == (a + [x]) + more && whole == [x] + more
    ensures r == a + whole
  {}

  // ----- files made of parts -----

  /** The parts one after another, each laid out by f. */
  function Joined<A, T>(f: A -> seq<T>, parts: seq<A>): seq<T>
    decreases |parts|
  {
    if parts == [] then [] else f(parts[0]) + Joined(f, parts[1..])
  }

  lemma {:induction false} JoinedSnoc<A, T>(f: A -> seq<T>, parts: seq<A>, p: A)
    ensures Joined(f, parts + [p]) == Joined(f, parts) + f(p)
    decreases |parts|
  {
    if parts == [] {
      assert (parts + [p])[1..] == [];
    } else {
      assert (parts + [p])[1..] == parts[1..] + [p];
      JoinedSnoc(f, parts[1..], p);
    }
  }

  /** How many whole parts fit in the first cut elements. */
  function Whole<A, T>(f: A -> seq<T>, parts: seq<A>, cut: nat): (k: nat)
    ensures k <= |parts|
    decreases |parts|
  {
    if parts == [] || cut < |f(parts[0])| then 0 else 1 + Whole(f, parts[1..], cut - |f(parts[0])|)
  }

  /** The first k parts fit, and no more do. */
  ghost predicate Fit<A, T>(f: A -> seq<T>, parts: seq<A>, cut: nat, k: nat)
  {
    && k <= |parts|
    && |Joined(f, parts[..k])| <= cut
    && (k < |parts| ==> cut < |Joined(f, parts[..k + 1])|)
  }

  lemma {:induction false} WholeFit<A, T>(f: A -> seq<T>, parts: seq<A>, cut: nat)
    requires cut <= |Joined(f, parts)|
    ensures Fit(f, parts, cut, Whole(f, parts, cut))
    decreases |parts|
  {
    if parts != [] {
      var size := |f(parts[0])|;
      if cut < size {
        assert parts[..1][1..] == [];
      } else {
        var k := Whole(f, parts[1..], cut - size);
        WholeFit(f, parts[1..], cut - size);
        assert parts[..k + 1][1..] == parts[1..][..k];
        if k + 1 < |parts| {
          assert parts[..k + 2][1..] == parts[1..][..k + 1];
        }
      }
    }
  }

  function Folded<A, R>(step: (A, R) -> R, parts: seq<A>, end: R): R
    decreases |parts|
  {
    if parts == [] then end else step(parts[0], Folded(step, parts[1..], end))
  }

  /** A reader that takes part p whole whatever follows it, and ends on any shorter piece of it:
      at(true) when there is nothing left, at(false) when there is a stump. */
  ghost predicate Takes<A, T(!new), R>(read: seq<T> -> R, f: A -> seq<T>, step: (A, R) -> R, at: bool -> R, p: A)
  {
    && f(p) != []
    && (forall rest :: read(f(p) + rest) == step(p, read(rest)))
    && (forall cut :: 0 < cut < |f(p)| ==> read(f(p)[..cut]) == at(false))
  }

  /** What such a reader makes of the first cut elements of a file: exactly the whole parts, in
      order, and whether the cut fell inside a part. */
  function Cut<A, T, R>(f: A -> seq<T>, step: (A, R) -> R, at: bool -> R, parts: seq<A>, cut: nat): R
  {
    var k := Whole(f, parts, cut);
    Folded(step, parts[..k], at(cut == |Joined(f, parts[..k])|))
  }

  lemma {:induction false} CutStep<A, T, R>(f: A -> seq<T>, step: (A, R) -> R, at: bool -> R, parts: seq<A>, cut: nat)
    requires parts != [] && |f(parts[0])| <= cut
    ensures Cut(f, step, at, parts, cut) == step(parts[0], Cut(f, step, at, parts[1..], cut - |f(parts[0])|))
  {
    var k := Whole(f, parts[1..], cut - |f(parts[0])|);
    assert parts[..k + 1][1..] == parts[1..][..k];
  }

  lemma {:induction false} ReadCut<A, T(!new), R>(
      read: seq<T> -> R, f: A -> seq<T>, step: (A, R) -> R, at: bool -> R, parts: seq<A>, cut: nat)
    requires read([]) == at(true) && cut <= |Joined(f, parts)|
    requires forall i :: 0 <= i < |parts| ==> Takes(read, f, step, at, parts[i])
    ensures read(Joined(f, parts)[..cut]) == Cut(f, step, at, parts, cut)
    decreases |parts|
  {
    if cut == 0 {
      assert Joined(f, parts)[..cut] == [];
      if parts != [] { assert Takes(read, f, step, at, parts[0]); }
    } else {
      assert Takes(read, f, step, at, parts[0]);
      var size := |f(parts[0])|;
      if cut < size {
        assert Joined(f, parts)[..cut] == f(parts[0])[..cut];
      } else {
        var rest := Joined(f, parts[1..])[..cut - size];
        ReadCut(read, f, step, at, parts[1..], cut - size);
        CutStep(f, step, at, parts, cut);
        assert Joined(f, parts)[..cut] == f(parts[0]) + rest;
      }
    }
  }

  /** What such a reader makes of whole parts followed by anything: the parts, and then what it makes of
      the rest. */
  lemma {:induction false} ReadOn<A, T(!new), R>(
      read: seq<T> -> R, f: A -> seq<T>, step: (A, R) -> R, at: bool -> R, parts: seq<A>, rest: seq<T>)
    requires forall i :: 0 <= i < |parts| ==> Takes(read, f, step, at, parts[i])
    ensures read(Joined(f, parts) + rest) == Folded(step, parts, read(rest))
    decreases |parts|
  {
    if parts == [] {
      assert Joined(f, parts) + rest == rest;
    } else {
      assert Takes(read, f, step, at, parts[0]);
      ReadOn(read, f, step, at, parts[1..], rest);
      Regroup(f(parts[0]), Joined(f, parts[1..]), rest);
    }
  }
}
