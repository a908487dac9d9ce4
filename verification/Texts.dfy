/** Byte strings and the trimming of white space around them. */
module Texts {
  import opened Bytes

  type text = seq<octet>

  /** Space, tab, carriage return, line feed. */
  predicate Blank(b: octet)
  {
    b == 0x20 || b == 0x09 || b == 0x0D || b == 0x0A
  }

  function TrimLeft(s: text): text
    decreases |s|
  {
    if s != [] && Blank(s[0]) then TrimLeft(s[1..]) else s
  }

  function TrimRight(s: text): text
    decreases |s|
  {
    if s != [] && Blank(s[|s| - 1]) then TrimRight(s[..|s| - 1]) else s
  }

  function Trim(s: text): text
  {
    TrimRight(TrimLeft(s))
  }

  /** Nothing left to trim. */
  predicate Trimmed(s: text)
  {
    s == [] || (!Blank(s[0]) && !Blank(s[|s| - 1]))
  }

  lemma {:induction false} TrimLeftStarts(s: text)
    ensures TrimLeft(s) == [] || !Blank(TrimLeft(s)[0])
    decreases |s|
  {
    if s != [] && Blank(s[0]) { TrimLeftStarts(s[1..]); }
  }

  lemma {:induction false} TrimRightEnds(s: text)
    ensures TrimRight(s) == [] || !Blank(TrimRight(s)[|TrimRight(s)| - 1])
    ensures TrimRight(s) <= s
    decreases |s|
  {
    if s != [] && Blank(s[|s| - 1]) { TrimRightEnds(s[..|s| - 1]); }
  }

  /** Trimming leaves nothing to trim, and changes nothing when there is nothing to trim. */
  lemma TrimTrims(s: text)
    ensures Trimmed(Trim(s)) && (Trimmed(s) <==> Trim(s) == s)
  {
    TrimLeftStarts(s);
    TrimRightEnds(TrimLeft(s));
  }

  /** White space around a text is trimmed away. */
  lemma {:induction false} TrimPadded(left: text, s: text, right: text)
    requires Trimmed(s) && (forall i :: 0 <= i < |left| ==> Blank(left[i])) && (forall i :: 0 <= i < |right| ==> Blank(right[i]))
    ensures Trim(left + s + right) == s
  {
    TrimLeftPadding(left, s + right);
    assert left + s + right == left + (s + right);
    if s == [] {
      assert s + right == right;
      TrimLeftPadding(right, []);
      assert right + [] == right;
    } else {
      TrimRightPadding(s, right);
    }
  }

  lemma {:induction false} TrimLeftPadding(left: text, s: text)
    requires forall i :: 0 <= i < |left| ==> Blank(left[i])
    ensures TrimLeft(left + s) == TrimLeft(s)
    decreases |left|
  {
    if left == [] {
      assert left + s == s;
    } else {
      assert (left + s)[1..] == left[1..] + s;
      TrimLeftPadding(left[1..], s);
    }
  }

  lemma {:induction false} TrimRightPadding(s: text, right: text)
    requires forall i :: 0 <= i < |right| ==> Blank(right[i])
    ensures TrimRight(s + right) == TrimRight(s)
    decreases |right|
  {
    if right == [] {
      assert s + right == s;
    } else {
      assert (s + right)[..|s + right| - 1] == s + right[..|right| - 1];
      TrimRightPadding(s, right[..|right| - 1]);
    }
  }

  /** Space, tab, carriage return and line feed go at both ends; what is between stays, and so does a
      vertical tab. */
  lemma TrimExample()
    ensures Trim([0x20, 0x09, 0x61, 0x20, 0x62, 0x0D, 0x0A]) == [0x61, 0x20, 0x62] && Trim([0x0B]) == [0x0B]
  {
    var left, s, right: text := [0x20, 0x09], [0x61, 0x20, 0x62], [0x0D, 0x0A];
    TrimPadded(left, s, right);
    assert left + s + right == [0x20, 0x09, 0x61, 0x20, 0x62, 0x0D, 0x0A];
    TrimTrims([0x0B]);
  }

  /** Trimming keeps what is not blank, no further from the start than it was. */
  lemma {:induction false} TrimKeeps(s: text, i: nat)
    requires i < |s| && !Blank(s[i])
    ensures |Trim(s)| <= |s| && exists j :: 0 <= j <= i && j < |Trim(s)| && Trim(s)[j] == s[i]
  {
    var j := LeftKeeps(s, i);
    RightKeeps(TrimLeft(s), j);
  }

  lemma {:induction false} LeftKeeps(s: text, i: nat) returns (j: nat)
    requires i < |s| && !Blank(s[i])
    ensures |TrimLeft(s)| <= |s| && j <= i && j < |TrimLeft(s)| && TrimLeft(s)[j] == s[i]
    decreases |s|
  {
    if Blank(s[0]) { j := LeftKeeps(s[1..], i - 1); } else { j := i; }
  }

  lemma {:induction false} RightKeeps(s: text, j: nat)
    requires j < |s| && !Blank(s[j])
    ensures j < |TrimRight(s)| <= |s| && TrimRight(s)[j] == s[j]
    decreases |s|
  {
    if Blank(s[|s| - 1]) { RightKeeps(s[..|s| - 1], j); }
  }

  lemma {:induction false} TrimShortens(s: text)
    ensures |Trim(s)| <= |s|
  {
    LeftShortens(s);
    TrimRightEnds(TrimLeft(s));
  }

  lemma {:induction false} LeftShortens(s: text)
    ensures |TrimLeft(s)| <= |s|
    decreases |s|
  {
    if s != [] && Blank(s[0]) { LeftShortens(s[1..]); }
  }

  /** Trimming brings in nothing new. */
  lemma {:induction false} TrimWithin(s: text)
    ensures forall b :: b in Trim(s) ==> b in s
  {
    LeftWithin(s);
    TrimRightEnds(TrimLeft(s));
  }

  lemma {:induction false} LeftWithin(s: text)
    ensures forall b :: b in TrimLeft(s) ==> b in s
    decreases |s|
  {
    if s != [] && Blank(s[0]) { LeftWithin(s[1..]); }
  }
}
