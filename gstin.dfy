/** The GSTIN format the Vendors and Customers forms accept:
    `^[0-9]{2}[A-Z]{5}[0-9]{4}[A-Z]{1}[1-9A-Z]{1}Z[0-9A-Z]{1}$`. The format is
    written twice: as a per-position predicate, and as the pattern itself (a list
    of character classes with repeat counts) run by a small anchored matcher.
    The two are proved to accept the same strings. */
module Gstin {
  import opened Wrappers
  import opened Text
  import Gst

  predicate IsUpper(c: char)
  {
    'A' <= c <= 'Z'
  }

  /** The fifteen positions: a two-digit state code, five letters, four digits,
      a letter, a digit 1-9 or letter, a literal 'Z', and a digit or letter. */
  predicate IsGstin(s: string)
  {
    |s| == 15
    && IsDigit(s[0]) && IsDigit(s[1])
    && IsUpper(s[2]) && IsUpper(s[3]) && IsUpper(s[4]) && IsUpper(s[5]) && IsUpper(s[6])
    && IsDigit(s[7]) && IsDigit(s[8]) && IsDigit(s[9]) && IsDigit(s[10])
    && IsUpper(s[11])
    && (('1' <= s[12] <= '9') || IsUpper(s[12]))
    && s[13] == 'Z'
    && (IsDigit(s[14]) || IsUpper(s[14]))
  }

  // ---------------------------------------------------------------------------
  // The pattern

  /** A bracket expression `[lo-hi...]` repeated `count` times. */
  datatype Atom = Atom(ranges: seq<(char, char)>, count: nat)

  predicate InRanges(c: char, ranges: seq<(char, char)>)
  {
    exists k :: 0 <= k < |ranges| && ranges[k].0 <= c <= ranges[k].1
  }

  const Digits: (char, char) := ('0', '9')
  const Letters: (char, char) := ('A', 'Z')

  const GstinPattern: seq<Atom> := [
    Atom([Digits], 2),
    Atom([Letters], 5),
    Atom([Digits], 4),
    Atom([Letters], 1),
    Atom([('1', '9'), Letters], 1),
    Atom([('Z', 'Z')], 1),
    Atom([Digits, Letters], 1)
  ]

  /** The first `a.count` characters of `s` all lie in `a`'s ranges. */
  predicate AtomAt(s: string, a: Atom)
  {
    a.count <= |s| && forall i :: 0 <= i < a.count ==> InRanges(s[i], a.ranges)
  }

  /** `^atoms$`: each atom consumes its characters in turn and nothing is left over. */
  predicate Matches(s: string, atoms: seq<Atom>)
    decreases |atoms|
  {
    if |atoms| == 0 then s == ""
    else AtomAt(s, atoms[0]) && Matches(s[atoms[0].count..], atoms[1..])
  }

  lemma OneRange(c: char, lo: char, hi: char)
    ensures InRanges(c, [(lo, hi)]) <==> lo <= c <= hi
  {
    if lo <= c <= hi {
      assert [(lo, hi)][0].0 <= c <= [(lo, hi)][0].1;
    }
  }

  lemma TwoRanges(c: char, r0: (char, char), r1: (char, char))
    ensures InRanges(c, [r0, r1]) <==> (r0.0 <= c <= r0.1) || (r1.0 <= c <= r1.1)
  {
    if r0.0 <= c <= r0.1 {
      assert [r0, r1][0] == r0;
    }
    if r1.0 <= c <= r1.1 {
      assert [r0, r1][1] == r1;
    }
  }

  /** One atom over the first characters of `s`, read position by position. */
  lemma DigitsAt(s: string, n: nat)
    ensures AtomAt(s, Atom([Digits], n)) <==> n <= |s| && forall i :: 0 <= i < n ==> IsDigit(s[i])
  {
    forall i | 0 <= i < n && i < |s| {
      OneRange(s[i], '0', '9');
    }
  }

  lemma LettersAt(s: string, n: nat)
    ensures AtomAt(s, Atom([Letters], n)) <==> n <= |s| && forall i :: 0 <= i < n ==> IsUpper(s[i])
  {
    forall i | 0 <= i < n && i < |s| {
      OneRange(s[i], 'A', 'Z');
    }
  }

  /** The number of characters a pattern consumes. */
  function Width(atoms: seq<Atom>): nat
    decreases |atoms|
  {
    if |atoms| == 0 then 0 else atoms[0].count + Width(atoms[1..])
  }

  lemma {:induction false} MatchesWidth(s: string, atoms: seq<Atom>)
    requires Matches(s, atoms)
    ensures |s| == Width(atoms)
    decreases |atoms|
  {
    if |atoms| > 0 {
      MatchesWidth(s[atoms[0].count..], atoms[1..]);
    }
  }

  /** The pattern consumes fifteen characters. */
  lemma PatternWidth()
    ensures Width(GstinPattern) == 15
  {
    var p := GstinPattern;
    assert p[6..][1..] == [];
    assert Width(p[6..]) == 1;
    assert p[5..][1..] == p[6..];
    assert Width(p[5..]) == 2;
    assert p[4..][1..] == p[5..];
    assert Width(p[4..]) == 3;
    assert p[3..][1..] == p[4..];
    assert Width(p[3..]) == 4;
    assert p[2..][1..] == p[3..];
    assert Width(p[2..]) == 8;
    assert p[1..][1..] == p[2..];
    assert Width(p[1..]) == 13;
  }

  lemma MatchesFifteen(s: string)
    ensures Matches(s, GstinPattern) ==> |s| == 15
  {
    if Matches(s, GstinPattern) {
      MatchesWidth(s, GstinPattern);
      PatternWidth();
    }
  }

  /** The matcher, unrolled over the seven atoms. */
  lemma MatchesUnrolled(s: string)
    requires |s| == 15
    ensures Matches(s, GstinPattern) <==>
      AtomAt(s, GstinPattern[0])
      && AtomAt(s[2..], GstinPattern[1])
      && AtomAt(s[7..], GstinPattern[2])
      && AtomAt(s[11..], GstinPattern[3])
      && AtomAt(s[12..], GstinPattern[4])
      && AtomAt(s[13..], GstinPattern[5])
      && AtomAt(s[14..], GstinPattern[6])
  {
    var p := GstinPattern;
    var p1, p2, p3, p4, p5, p6 := p[1..], p[2..], p[3..], p[4..], p[5..], p[6..];
    assert p1[1..] == p2 && p2[1..] == p3 && p3[1..] == p4 && p4[1..] == p5 && p5[1..] == p6;
    assert p6[1..] == [];
    assert s[2..][5..] == s[7..];
    assert s[7..][4..] == s[11..];
    assert s[11..][1..] == s[12..];
    assert s[12..][1..] == s[13..];
    assert s[13..][1..] == s[14..];
    assert s[14..][1..] == "";
    assert Matches(s[14..], p6) <==> AtomAt(s[14..], p[6]);
    assert Matches(s[13..], p5) <==> AtomAt(s[13..], p[5]) && Matches(s[14..], p6);
    assert Matches(s[12..], p4) <==> AtomAt(s[12..], p[4]) && Matches(s[13..], p5);
    assert Matches(s[11..], p3) <==> AtomAt(s[11..], p[3]) && Matches(s[12..], p4);
    assert Matches(s[7..], p2) <==> AtomAt(s[7..], p[2]) && Matches(s[11..], p3);
    assert Matches(s[2..], p1) <==> AtomAt(s[2..], p[1]) && Matches(s[7..], p2);
  }

  /** The first three atoms: the state code, five letters and four digits. */
  lemma LeadingAtoms(s: string)
    requires |s| == 15
    ensures (AtomAt(s, GstinPattern[0]) && AtomAt(s[2..], GstinPattern[1]) && AtomAt(s[7..], GstinPattern[2]))
      <==> (IsDigit(s[0]) && IsDigit(s[1])
        && IsUpper(s[2]) && IsUpper(s[3]) && IsUpper(s[4]) && IsUpper(s[5]) && IsUpper(s[6])
        && IsDigit(s[7]) && IsDigit(s[8]) && IsDigit(s[9]) && IsDigit(s[10]))
  {
    DigitsAt(s, 2);
    LettersAt(s[2..], 5);
    DigitsAt(s[7..], 4);
    assert s[2..][0] == s[2] && s[2..][1] == s[3] && s[2..][2] == s[4] && s[2..][3] == s[5] && s[2..][4] == s[6];
    assert s[7..][0] == s[7] && s[7..][1] == s[8] && s[7..][2] == s[9] && s[7..][3] == s[10];
  }

  /** The last four atoms, one character each. */
  lemma TrailingAtoms(s: string)
    requires |s| == 15
    ensures (AtomAt(s[11..], GstinPattern[3]) && AtomAt(s[12..], GstinPattern[4])
        && AtomAt(s[13..], GstinPattern[5]) && AtomAt(s[14..], GstinPattern[6]))
      <==> (IsUpper(s[11])
        && (('1' <= s[12] <= '9') || IsUpper(s[12]))
        && s[13] == 'Z'
        && (IsDigit(s[14]) || IsUpper(s[14])))
  {
    LettersAt(s[11..], 1);
    TwoRanges(s[12], ('1', '9'), Letters);
    OneRange(s[13], 'Z', 'Z');
    TwoRanges(s[14], Digits, Letters);
    assert AtomAt(s[12..], GstinPattern[4]) <==> InRanges(s[12], [('1', '9'), Letters]);
    assert AtomAt(s[13..], GstinPattern[5]) <==> InRanges(s[13], [('Z', 'Z')]);
    assert AtomAt(s[14..], GstinPattern[6]) <==> InRanges(s[14], [Digits, Letters]);
  }

  /** The pattern and the per-position predicate accept exactly the same strings. */
  lemma PatternIff(s: string)
    ensures Matches(s, GstinPattern) <==> IsGstin(s)
  {
    MatchesFifteen(s);
    if |s| == 15 {
      MatchesUnrolled(s);
      LeadingAtoms(s);
      TrailingAtoms(s);
    }
  }

  // ---------------------------------------------------------------------------
  // The state code

  /** Every accepted GSTIN begins with its two-digit state code, which is what the
      invoice forms compare with the seller's "23". */
  lemma AcceptedStateCode(g: string)
    requires IsGstin(g)
    ensures Gst.StateCode(Some(g)) == Some(g[..2])
    ensures IsDigit(g[0]) && IsDigit(g[1])
    ensures Gst.IsIntraState(Some(g)) <==> g[0] == '2' && g[1] == '3'
  {
    Gst.IntraStateIff(Some(g));
  }

  /** The seller's own GSTIN, shown on each invoice. */
  const CompanyGstin: string := "23CAWPV8800M1ZT"

  /** The seller's GSTIN is well formed and in its own state. */
  lemma CompanyGstinValid()
    ensures IsGstin(CompanyGstin)
    ensures Gst.StateCode(Some(CompanyGstin)) == Some(Gst.CompanyStateCode)
  {
    AcceptedStateCode(CompanyGstin);
  }
}
