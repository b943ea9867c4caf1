/** `convertNumberToWords` with its recursive `numToWords`: an amount spelled
    out in words with the Indian grouping (Hundred, Thousand, Lakh, Crore),
    rupees first and paise after. The amount comes in as whole rupees and
    paise; how the source rounds a fractional amount into them is not modelled. */
module AmountWords {
  import opened Wrappers
  import opened Text

  const Ones: seq<string> := [
    "", "One", "Two", "Three", "Four", "Five", "Six", "Seven", "Eight", "Nine",
    "Ten", "Eleven", "Twelve", "Thirteen", "Fourteen", "Fifteen", "Sixteen", "Seventeen", "Eighteen", "Nineteen"
  ]

  const Tens: seq<string> := ["", "", "Twenty", "Thirty", "Forty", "Fifty", "Sixty", "Seventy", "Eighty", "Ninety"]

  /** The words the converter puts around and between the number words. */
  const Markers: seq<string> := ["Hundred", "and", "Thousand", "Lakh", "Crore", "Rupees", "Zero", "Paise", "Only"]

  /** A non-empty word without spaces. */
  predicate IsWord(w: string)
  {
    |w| > 0 && ' ' !in w
  }

  /** The number a single word names; 0 for any other word. */
  function WordValue(w: string): nat
  {
    if w == "One" then 1
    else if w == "Two" then 2
    else if w == "Three" then 3
    else if w == "Four" then 4
    else if w == "Five" then 5
    else if w == "Six" then 6
    else if w == "Seven" then 7
    else if w == "Eight" then 8
    else if w == "Nine" then 9
    else if w == "Ten" then 10
    else if w == "Eleven" then 11
    else if w == "Twelve" then 12
    else if w == "Thirteen" then 13
    else if w == "Fourteen" then 14
    else if w == "Fifteen" then 15
    else if w == "Sixteen" then 16
    else if w == "Seventeen" then 17
    else if w == "Eighteen" then 18
    else if w == "Nineteen" then 19
    else if w == "Twenty" then 20
    else if w == "Thirty" then 30
    else if w == "Forty" then 40
    else if w == "Fifty" then 50
    else if w == "Sixty" then 60
    else if w == "Seventy" then 70
    else if w == "Eighty" then 80
    else if w == "Ninety" then 90
    else 0
  }

  lemma OnesWord(i: nat)
    requires 1 <= i < 20
    ensures WordValue(Ones[i]) == i && IsWord(Ones[i]) && Ones[i] !in Markers
  {
    if i < 5 {
      OnesWordA(i);
    } else if i < 10 {
      OnesWordB(i);
    } else if i < 15 {
      OnesWordC(i);
    } else {
      OnesWordD(i);
    }
  }

  lemma OnesWordA(i: nat)
    requires 1 <= i < 5
    ensures WordValue(Ones[i]) == i && IsWord(Ones[i]) && Ones[i] !in Markers
  {
    if i == 1 {
      assert Ones[1] == "One";
    } else if i == 2 {
      assert Ones[2] == "Two";
    } else if i == 3 {
      assert Ones[3] == "Three";
    } else {
      assert Ones[4] == "Four";
    }
  }

  lemma OnesWordB(i: nat)
    requires 5 <= i < 10
    ensures WordValue(Ones[i]) == i && IsWord(Ones[i]) && Ones[i] !in Markers
  {
    if i == 5 {
      assert Ones[5] == "Five";
    } else if i == 6 {
      assert Ones[6] == "Six";
    } else if i == 7 {
      assert Ones[7] == "Seven";
    } else if i == 8 {
      assert Ones[8] == "Eight";
    } else {
      assert Ones[9] == "Nine";
    }
  }

  lemma OnesWordC(i: nat)
    requires 10 <= i < 15
    ensures WordValue(Ones[i]) == i && IsWord(Ones[i]) && Ones[i] !in Markers
  {
    if i == 10 {
      assert Ones[10] == "Ten";
    } else if i == 11 {
      assert Ones[11] == "Eleven";
    } else if i == 12 {
      assert Ones[12] == "Twelve";
    } else if i == 13 {
      assert Ones[13] == "Thirteen";
    } else {
      assert Ones[14] == "Fourteen";
    }
  }

  lemma OnesWordD(i: nat)
    requires 15 <= i < 20
    ensures WordValue(Ones[i]) == i && IsWord(Ones[i]) && Ones[i] !in Markers
  {
    if i == 15 {
      assert Ones[15] == "Fifteen";
    } else if i == 16 {
      assert Ones[16] == "Sixteen";
    } else if i == 17 {
      assert Ones[17] == "Seventeen";
    } else if i == 18 {
      assert Ones[18] == "Eighteen";
    } else {
      assert Ones[19] == "Nineteen";
    }
  }

  lemma TensWord(j: nat)
    requires 2 <= j < 10
    ensures WordValue(Tens[j]) == 10 * j && IsWord(Tens[j]) && Tens[j] !in Markers
  {
    if j < 6 {
      LowTensWord(j);
    } else {
      HighTensWord(j);
    }
  }

  lemma LowTensWord(j: nat)
    requires 2 <= j < 6
    ensures WordValue(Tens[j]) == 10 * j && IsWord(Tens[j]) && Tens[j] !in Markers
  {
    if j == 2 {
      assert Tens[2] == "Twenty";
    } else if j == 3 {
      assert Tens[3] == "Thirty";
    } else if j == 4 {
      assert Tens[4] == "Forty";
    } else {
      assert Tens[5] == "Fifty";
    }
  }

  lemma HighTensWord(j: nat)
    requires 6 <= j < 10
    ensures WordValue(Tens[j]) == 10 * j && IsWord(Tens[j]) && Tens[j] !in Markers
  {
    if j == 6 {
      assert Tens[6] == "Sixty";
    } else if j == 7 {
      assert Tens[7] == "Seventy";
    } else if j == 8 {
      assert Tens[8] == "Eighty";
    } else {
      assert Tens[9] == "Ninety";
    }
  }

  /** A word neither starts nor ends with a space. */
  lemma WordEnds(w: string)
    requires IsWord(w)
    ensures w[0] != ' ' && w[|w| - 1] != ' '
  {
    assert w[0] in w;
    assert w[|w| - 1] in w;
  }

  /** `numToWords(n)`: below twenty a single word, then tens, hundreds (with
      "and" before the remainder), thousands, lakhs and crores, each group
      followed by the rest when the rest is not zero. */
  function NumToWords(n: nat): string
  {
    if n < 20 then Ones[n]
    else if n < 100 then Tens[n / 10] + (if n % 10 != 0 then " " + Ones[n % 10] else "")
    else if n < 1000 then Ones[n / 100] + " Hundred" + (if n % 100 != 0 then " and " + NumToWords(n % 100) else "")
    else if n < 100000 then
      NumToWords(n / 1000) + " Thousand" + (if n % 1000 != 0 then " " + NumToWords(n % 1000) else "")
    else if n < 10000000 then
      NumToWords(n / 100000) + " Lakh" + (if n % 100000 != 0 then " " + NumToWords(n % 100000) else "")
    else
      NumToWords(n / 10000000) + " Crore" + (if n % 10000000 != 0 then " " + NumToWords(n % 10000000) else "")
  }

  /** The same spelling as a list of words; zero is the empty list. */
  function Words(n: nat): seq<string>
  {
    if n == 0 then []
    else if n < 20 then [Ones[n]]
    else if n < 100 then [Tens[n / 10]] + Words(n % 10)
    else if n < 1000 then [Ones[n / 100], "Hundred"] + (if n % 100 != 0 then ["and"] + Words(n % 100) else [])
    else if n < 100000 then Words(n / 1000) + ["Thousand"] + Words(n % 1000)
    else if n < 10000000 then Words(n / 100000) + ["Lakh"] + Words(n % 100000)
    else Words(n / 10000000) + ["Crore"] + Words(n % 10000000)
  }

  predicate Avoids(t: seq<string>, w: string)
  {
    forall i :: 0 <= i < |t| ==> t[i] != w
  }

  predicate AllWords(t: seq<string>)
  {
    forall i :: 0 <= i < |t| ==> IsWord(t[i])
  }

  /** Whether the number `n` is too small to need the marker `w`: a group
      word only appears from its group on, "and" only from a hundred on, and
      the remaining markers never appear. */
  predicate Below(n: nat, w: string)
  {
    if w == "Crore" then n < 10000000
    else if w == "Lakh" then n < 100000
    else if w == "Thousand" then n < 1000
    else if w == "Hundred" || w == "and" then n < 100
    else true
  }

  lemma AllWordsAppend(a: seq<string>, b: seq<string>)
    requires AllWords(a) && AllWords(b)
    ensures AllWords(a + b)
  {
    forall i | 0 <= i < |a + b|
      ensures IsWord((a + b)[i])
    {
      if i < |a| {
        assert (a + b)[i] == a[i];
      } else {
        assert (a + b)[i] == b[i - |a|];
      }
    }
  }

  lemma AvoidsAppend(a: seq<string>, b: seq<string>, w: string)
    requires Avoids(a, w) && Avoids(b, w)
    ensures Avoids(a + b, w)
  {
    forall i | 0 <= i < |a + b|
      ensures (a + b)[i] != w
    {
      if i < |a| {
        assert (a + b)[i] == a[i];
      } else {
        assert (a + b)[i] == b[i - |a|];
      }
    }
  }

  /** A spelling consists of words without spaces, and is empty only for zero. */
  lemma {:induction false} WordsAreWords(n: nat)
    ensures n >= 1 <==> |Words(n)| >= 1
    ensures AllWords(Words(n))
    decreases n, 1
  {
    if n == 0 {
    } else if n < 20 {
      OnesWord(n);
      assert Words(n) == [Ones[n]];
    } else if n < 100 {
      WordsAreWordsTens(n);
    } else if n < 1000 {
      WordsAreWordsHundreds(n);
    } else if n < 100000 {
      WordsAreWords(n / 1000);
      WordsAreWords(n % 1000);
      GroupWords(Words(n / 1000), "Thousand", Words(n % 1000));
      assert Words(n) == Words(n / 1000) + ["Thousand"] + Words(n % 1000);
    } else if n < 10000000 {
      WordsAreWords(n / 100000);
      WordsAreWords(n % 100000);
      GroupWords(Words(n / 100000), "Lakh", Words(n % 100000));
      assert Words(n) == Words(n / 100000) + ["Lakh"] + Words(n % 100000);
    } else {
      WordsAreWords(n / 10000000);
      WordsAreWords(n % 10000000);
      GroupWords(Words(n / 10000000), "Crore", Words(n % 10000000));
      assert Words(n) == Words(n / 10000000) + ["Crore"] + Words(n % 10000000);
    }
  }

  lemma WordsAreWordsTens(n: nat)
    requires 20 <= n < 100
    ensures |Words(n)| >= 1 && AllWords(Words(n))
  {
    TensWord(n / 10);
    var b := n % 10;
    if b != 0 {
      OnesWord(b);
      assert Words(n) == [Tens[n / 10], Ones[b]];
    } else {
      assert Words(n) == [Tens[n / 10]];
    }
  }

  lemma {:induction false} WordsAreWordsHundreds(n: nat)
    requires 100 <= n < 1000
    ensures |Words(n)| >= 1 && AllWords(Words(n))
    decreases n, 0
  {
    var h, r := n / 100, n % 100;
    OnesWord(h);
    var head := [Ones[h], "Hundred"];
    assert IsWord("Hundred") && IsWord("and");
    assert AllWords(head);
    if r != 0 {
      WordsAreWords(r);
      AllWordsAppend(head + ["and"], Words(r));
      assert Words(n) == head + ["and"] + Words(r);
    } else {
      assert Words(n) == head;
    }
  }

  /** A group marker between two spellings. */
  lemma GroupWords(q: seq<string>, marker: string, r: seq<string>)
    requires AllWords(q) && IsWord(marker) && AllWords(r)
    ensures |q + [marker] + r| >= 1 && AllWords(q + [marker] + r)
  {
    AllWordsAppend(q, [marker]);
    AllWordsAppend(q + [marker], r);
  }

  lemma BelowSmaller(m: nat, n: nat, w: string)
    requires m <= n && Below(n, w)
    ensures Below(m, w)
  {
  }

  /** A spelling contains a marker only when the number reaches it. */
  lemma {:induction false} WordsAvoid(n: nat, w: string)
    requires w in Markers && Below(n, w)
    ensures Avoids(Words(n), w)
    decreases n, 1
  {
    if n == 0 {
    } else if n < 20 {
      OnesWord(n);
      assert Words(n) == [Ones[n]];
    } else if n < 100 {
      WordsAvoidTens(n, w);
    } else if n < 1000 {
      WordsAvoidHundreds(n, w);
    } else if n < 100000 {
      WordsAvoidGroup(n, 1000, "Thousand", w);
    } else if n < 10000000 {
      WordsAvoidGroup(n, 100000, "Lakh", w);
    } else {
      WordsAvoidGroup(n, 10000000, "Crore", w);
    }
  }

  lemma WordsAvoidTens(n: nat, w: string)
    requires 20 <= n < 100 && w in Markers
    ensures Avoids(Words(n), w)
  {
    TensWord(n / 10);
    var b := n % 10;
    if b != 0 {
      OnesWord(b);
      assert Words(n) == [Tens[n / 10], Ones[b]];
    } else {
      assert Words(n) == [Tens[n / 10]];
    }
  }

  lemma {:induction false} WordsAvoidHundreds(n: nat, w: string)
    requires 100 <= n < 1000 && w in Markers && Below(n, w)
    ensures Avoids(Words(n), w)
    decreases n, 0
  {
    var h, r := n / 100, n % 100;
    OnesWord(h);
    var head := [Ones[h], "Hundred"];
    assert w != "Hundred" && w != "and";
    if r != 0 {
      BelowSmaller(r, n, w);
      WordsAvoid(r, w);
      AvoidsAppend(head + ["and"], Words(r), w);
      assert Words(n) == head + ["and"] + Words(r);
    } else {
      assert Words(n) == head;
    }
  }

  /** One group: the multiplier's words, the marker, the remainder's words. */
  lemma {:induction false} WordsAvoidGroup(n: nat, unit: nat, marker: string, w: string)
    requires (unit == 1000 && marker == "Thousand" && 1000 <= n < 100000)
      || (unit == 100000 && marker == "Lakh" && 100000 <= n < 10000000)
      || (unit == 10000000 && marker == "Crore" && 10000000 <= n)
    requires w in Markers && Below(n, w)
    ensures Avoids(Words(n), w)
    decreases n, 0
  {
    var q, r := n / unit, n % unit;
    assert Words(n) == Words(q) + [marker] + Words(r) by {
      if unit == 1000 {
        assert q == n / 1000 && r == n % 1000;
      } else if unit == 100000 {
        assert q == n / 100000 && r == n % 100000;
      } else {
        assert q == n / 10000000 && r == n % 10000000;
      }
    }
    assert marker != w;
    assert q < n && r < n by {
      if unit == 1000 {
        assert q == n / 1000 && r == n % 1000;
      } else if unit == 100000 {
        assert q == n / 100000 && r == n % 100000;
      } else {
        assert q == n / 10000000 && r == n % 10000000;
      }
    }
    BelowSmaller(q, n, w);
    BelowSmaller(r, n, w);
    WordsAvoid(q, w);
    WordsAvoid(r, w);
    AvoidsAppend(Words(q), [marker], w);
    AvoidsAppend(Words(q) + [marker], Words(r), w);
  }

  /** Joining `left`, a marker and `right` puts single spaces around the marker. */
  lemma JoinAround(left: seq<string>, marker: string, right: seq<string>)
    requires |left| >= 1 && |right| >= 1
    ensures Join(left + [marker] + right, ' ') == Join(left, ' ') + [' '] + marker + [' '] + Join(right, ' ')
  {
    JoinAppend(left, [marker], ' ');
    JoinAppend(left + [marker], right, ' ');
    assert Join([marker], ' ') == marker;
  }

  /** Joining `left` and a final marker puts one space before the marker. */
  lemma JoinLast(left: seq<string>, marker: string)
    requires |left| >= 1
    ensures Join(left + [marker], ' ') == Join(left, ' ') + [' '] + marker
  {
    JoinAppend(left, [marker], ' ');
    assert Join([marker], ' ') == marker;
  }

  /** Regrouping a marker that comes with its spaces, as the source writes it. */
  lemma Spaced(x: string, lit: string, w: string, y: string)
    requires lit == [' '] + w + [' ']
    ensures x + (lit + y) == x + [' '] + w + [' '] + y
  {
  }

  /** Regrouping a marker with a leading space, followed by a spaced remainder. */
  lemma Led(x: string, lit: string, w: string, y: string)
    requires lit == [' '] + w
    ensures x + lit + (" " + y) == x + [' '] + w + [' '] + y
    ensures x + lit + "" == x + [' '] + w
  {
  }

  /** The text is the word list joined with single spaces. */
  lemma {:induction false} WordsJoin(n: nat)
    requires n >= 1
    ensures NumToWords(n) == Join(Words(n), ' ')
    decreases n, 1
  {
    if n < 20 {
    } else if n < 100 {
      WordsJoinTens(n);
    } else if n < 1000 {
      WordsJoinHundreds(n);
    } else if n < 100000 {
      WordsJoinThousands(n);
    } else if n < 10000000 {
      WordsJoinLakhs(n);
    } else {
      WordsJoinCrores(n);
    }
  }

  /** A join of words starts with the first word's first character and ends
      with the last word's last character. */
  lemma {:induction false} JoinEnds(t: seq<string>)
    requires |t| >= 1 && AllWords(t)
    ensures var j := Join(t, ' ');
      |j| > 0 && j[0] == t[0][0] && j[|j| - 1] == t[|t| - 1][|t[|t| - 1]| - 1]
    decreases |t|
  {
    assert IsWord(t[0]);
    if |t| > 1 {
      var rest := t[1..];
      AllWordsTail(t);
      JoinEnds(rest);
      var j := Join(rest, ' ');
      assert Join(t, ' ') == t[0] + [' '] + j;
      assert rest[|rest| - 1] == t[|t| - 1];
    }
  }

  lemma AllWordsTail(t: seq<string>)
    requires |t| >= 1 && AllWords(t)
    ensures AllWords(t[1..])
  {
    var rest := t[1..];
    forall i | 0 <= i < |rest|
      ensures IsWord(rest[i])
    {
      assert rest[i] == t[i + 1];
    }
  }

  /** For n >= 1 the spelling is non-empty and neither starts nor ends with a
      space, so the recursive pieces meet at single spaces. */
  lemma NumToWordsEnds(n: nat)
    requires n >= 1
    ensures var r := NumToWords(n); |r| > 0 && r[0] != ' ' && r[|r| - 1] != ' '
  {
    var t := Words(n);
    WordsJoin(n);
    WordsAreWords(n);
    JoinEnds(t);
    WordEnds(t[0]);
    WordEnds(t[|t| - 1]);
  }

  lemma WordsJoinTens(n: nat)
    requires 20 <= n < 100
    ensures NumToWords(n) == Join(Words(n), ' ')
  {
    TensShape(n);
    if n % 10 != 0 {
      PairJoin(Tens[n / 10], Ones[n % 10]);
    }
  }

  lemma TensShape(n: nat)
    requires 20 <= n < 100
    ensures NumToWords(n) == Tens[n / 10] + (if n % 10 != 0 then " " + Ones[n % 10] else "")
    ensures Words(n) == if n % 10 != 0 then [Tens[n / 10], Ones[n % 10]] else [Tens[n / 10]]
  {
  }

  lemma PairJoin(a: string, b: string)
    ensures Join([a, b], ' ') == a + (" " + b)
  {
    var t := [a, b];
    assert t[1..] == [b];
  }

  lemma {:induction false} WordsJoinHundreds(n: nat)
    requires 100 <= n < 1000
    ensures NumToWords(n) == Join(Words(n), ' ')
    decreases n, 0
  {
    var h, r := n / 100, n % 100;
    var head := [Ones[h], "Hundred"];
    assert Join(head, ' ') == Ones[h] + " Hundred" by {
      assert head[1..] == ["Hundred"];
    }
    if r != 0 {
      WordsAreWords(r);
      WordsJoin(r);
      JoinAround(head, "and", Words(r));
      Spaced(Ones[h] + " Hundred", " and ", "and", NumToWords(r));
      assert Words(n) == head + ["and"] + Words(r);
    } else {
      assert Words(n) == head;
    }
  }

  /** One group step: the multiplier's words, the marker, then the remainder's words. */
  lemma GroupJoin(q: nat, marker: string, r: nat)
    requires q >= 1
    requires NumToWords(q) == Join(Words(q), ' ')
    requires r >= 1 ==> NumToWords(r) == Join(Words(r), ' ')
    ensures Join(Words(q) + [marker] + Words(r), ' ')
         == if r != 0 then NumToWords(q) + [' '] + marker + [' '] + NumToWords(r) else NumToWords(q) + [' '] + marker
  {
    WordsAreWords(q);
    WordsAreWords(r);
    if r != 0 {
      JoinAround(Words(q), marker, Words(r));
    } else {
      JoinLast(Words(q), marker);
      assert Words(q) + [marker] + Words(r) == Words(q) + [marker];
    }
  }

  /** One group step told only the pieces: the text and the words of the
      multiplier and of the remainder, around the marker. */
  lemma GroupStep(q: nat, marker: string, lit: string, r: nat, text: string, words: seq<string>)
    requires q >= 1 && lit == [' '] + marker
    requires NumToWords(q) == Join(Words(q), ' ')
    requires r >= 1 ==> NumToWords(r) == Join(Words(r), ' ')
    requires text == NumToWords(q) + lit + (if r != 0 then " " + NumToWords(r) else "")
    requires words == Words(q) + [marker] + Words(r)
    ensures text == Join(words, ' ')
  {
    GroupJoin(q, marker, r);
    Led(NumToWords(q), lit, marker, NumToWords(r));
  }

  lemma {:induction false} WordsJoinThousands(n: nat)
    requires 1000 <= n < 100000
    ensures NumToWords(n) == Join(Words(n), ' ')
    decreases n, 0
  {
    var q, r := n / 1000, n % 1000;
    WordsJoin(q);
    if r != 0 {
      WordsJoin(r);
    }
    ThousandsShape(n);
    GroupStep(q, "Thousand", " Thousand", r, NumToWords(n), Words(n));
  }

  lemma ThousandsShape(n: nat)
    requires 1000 <= n < 100000
    ensures NumToWords(n) == NumToWords(n / 1000) + " Thousand" + (if n % 1000 != 0 then " " + NumToWords(n % 1000) else "")
    ensures Words(n) == Words(n / 1000) + ["Thousand"] + Words(n % 1000)
  {
  }

  lemma {:induction false} WordsJoinLakhs(n: nat)
    requires 100000 <= n < 10000000
    ensures NumToWords(n) == Join(Words(n), ' ')
    decreases n, 0
  {
    var q, r := n / 100000, n % 100000;
    WordsJoin(q);
    if r != 0 {
      WordsJoin(r);
    }
    LakhsShape(n);
    GroupStep(q, "Lakh", " Lakh", r, NumToWords(n), Words(n));
  }

  lemma LakhsShape(n: nat)
    requires 100000 <= n < 10000000
    ensures NumToWords(n) == NumToWords(n / 100000) + " Lakh" + (if n % 100000 != 0 then " " + NumToWords(n % 100000) else "")
    ensures Words(n) == Words(n / 100000) + ["Lakh"] + Words(n % 100000)
  {
  }

  lemma {:induction false} WordsJoinCrores(n: nat)
    requires 10000000 <= n
    ensures NumToWords(n) == Join(Words(n), ' ')
    decreases n, 0
  {
    var q, r := n / 10000000, n % 10000000;
    WordsJoin(q);
    if r != 0 {
      WordsJoin(r);
    }
    CroresShape(n);
    GroupStep(q, "Crore", " Crore", r, NumToWords(n), Words(n));
  }

  lemma CroresShape(n: nat)
    requires 10000000 <= n
    ensures NumToWords(n) == NumToWords(n / 10000000) + " Crore" + (if n % 10000000 != 0 then " " + NumToWords(n % 10000000) else "")
    ensures Words(n) == Words(n / 10000000) + ["Crore"] + Words(n % 10000000)
  {
  }

  /** The position of the last occurrence of `w` in `t`, or -1. */
  function LastIndex(t: seq<string>, w: string): (k: int)
    ensures -1 <= k < |t|
    decreases |t|
  {
    if |t| == 0 then -1
    else if t[|t| - 1] == w then |t| - 1
    else LastIndex(t[..|t| - 1], w)
  }

  /** LastIndex finds an occurrence with none after it, and -1 means none at all. */
  lemma LastIndexSpec(t: seq<string>, w: string)
    ensures LastIndex(t, w) >= 0 ==> t[LastIndex(t, w)] == w && Avoids(t[LastIndex(t, w) + 1..], w)
    ensures LastIndex(t, w) == -1 <==> Avoids(t, w)
  {
    LastIndexFound(t, w);
    LastIndexNone(t, w);
  }

  lemma {:induction false} LastIndexFound(t: seq<string>, w: string)
    ensures LastIndex(t, w) >= 0 ==> t[LastIndex(t, w)] == w && Avoids(t[LastIndex(t, w) + 1..], w)
    decreases |t|
  {
    if |t| != 0 && t[|t| - 1] != w {
      var p := t[..|t| - 1];
      LastIndexFound(p, w);
      var k := LastIndex(p, w);
      assert LastIndex(t, w) == k;
      if k >= 0 {
        assert t[k] == p[k];
        assert t[k + 1..] == p[k + 1..] + [t[|t| - 1]];
      }
    }
  }

  lemma {:induction false} LastIndexNone(t: seq<string>, w: string)
    ensures LastIndex(t, w) == -1 <==> Avoids(t, w)
    decreases |t|
  {
    if |t| != 0 && t[|t| - 1] != w {
      var p := t[..|t| - 1];
      LastIndexNone(p, w);
      assert forall i :: 0 <= i < |p| ==> t[i] == p[i];
    }
  }

  /** The last `w` of `a + [w] + b`, when `b` has no `w`, is the one after `a`. */
  lemma {:induction false} LastIndexPast(a: seq<string>, w: string, b: seq<string>)
    requires Avoids(b, w)
    ensures LastIndex(a + [w] + b, w) == |a|
    decreases |b|
  {
    var t := a + [w] + b;
    if |b| == 0 {
      assert t[|t| - 1] == w;
    } else {
      var b' := b[..|b| - 1];
      assert t[|t| - 1] == b[|b| - 1];
      assert t[..|t| - 1] == a + [w] + b';
      LastIndexPast(a, w, b');
    }
  }

  /** Cutting at the last `w` of `a + [w] + b`, when `b` has no `w`, gives back `a` and `b`. */
  lemma CutAt(a: seq<string>, w: string, b: seq<string>)
    requires Avoids(b, w)
    ensures LastIndex(a + [w] + b, w) == |a|
    ensures (a + [w] + b)[..|a|] == a && (a + [w] + b)[|a| + 1..] == b
  {
    LastIndexPast(a, w, b);
    var t := a + [w] + b;
    assert t[..|a|] == a;
    assert t[|a| + 1..] == b;
  }

  /** The value of a list of words with no group marker: the sum of the words. */
  function SmallValue(t: seq<string>): nat
    decreases |t|
  {
    if |t| == 0 then 0 else WordValue(t[0]) + SmallValue(t[1..])
  }

  /** Reads a word list back into a number: the last group marker splits it
      into a multiplier and a remainder, "and" after "Hundred" is skipped, and
      a list without markers is the sum of its words. */
  function Decode(t: seq<string>): nat
    decreases |t|
  {
    var c := LastIndex(t, "Crore");
    if c >= 0 then Decode(t[..c]) * 10000000 + Decode(t[c + 1..])
    else
      var l := LastIndex(t, "Lakh");
      if l >= 0 then Decode(t[..l]) * 100000 + Decode(t[l + 1..])
      else
        var th := LastIndex(t, "Thousand");
        if th >= 0 then Decode(t[..th]) * 1000 + Decode(t[th + 1..])
        else
          var h := LastIndex(t, "Hundred");
          if h >= 0 then
            var u := t[h + 1..];
            Decode(t[..h]) * 100 + (if |u| > 0 && u[0] == "and" then Decode(u[1..]) else Decode(u))
          else SmallValue(t)
  }

  /** A list with no group marker reads as the sum of its words. */
  lemma DecodeNoMarkers(t: seq<string>)
    requires Avoids(t, "Crore") && Avoids(t, "Lakh") && Avoids(t, "Thousand") && Avoids(t, "Hundred")
    ensures Decode(t) == SmallValue(t)
  {
    LastIndexSpec(t, "Crore");
    LastIndexSpec(t, "Lakh");
    LastIndexSpec(t, "Thousand");
    LastIndexSpec(t, "Hundred");
  }

  /** Below a hundred the words add up to the number. */
  lemma SmallWords(n: nat)
    requires n < 100
    ensures SmallValue(Words(n)) == n
  {
    if 20 <= n {
      var b := n % 10;
      TensWord(n / 10);
      assert Words(n)[1..] == Words(b);
      if b != 0 {
        OnesWord(b);
        assert Words(b)[1..] == [];
      }
    } else if n != 0 {
      OnesWord(n);
      assert Words(n)[1..] == [];
    }
  }

  /** Below a thousand no spelling holds a marker above "Hundred". */
  lemma NoHighMarkers(n: nat)
    requires n < 1000
    ensures Avoids(Words(n), "Crore") && Avoids(Words(n), "Lakh") && Avoids(Words(n), "Thousand")
  {
    WordsAvoid(n, "Crore");
    WordsAvoid(n, "Lakh");
    WordsAvoid(n, "Thousand");
  }

  /** Reading a spelling back gives the number spelled. */
  lemma {:induction false} DecodeWords(n: nat)
    ensures Decode(Words(n)) == n
    decreases n, 1
  {
    if n < 100 {
      NoHighMarkers(n);
      WordsAvoid(n, "Hundred");
      DecodeNoMarkers(Words(n));
      SmallWords(n);
    } else if n < 1000 {
      DecodeHundreds(n);
    } else if n < 100000 {
      DecodeThousands(n);
    } else if n < 10000000 {
      DecodeLakhs(n);
    } else {
      DecodeCrores(n);
    }
  }

  /** Reading a list whose last marker is "Hundred". */
  lemma HundredStep(head: seq<string>, tail: seq<string>)
    requires Avoids(tail, "Hundred")
    requires var t := head + ["Hundred"] + tail;
      Avoids(t, "Crore") && Avoids(t, "Lakh") && Avoids(t, "Thousand")
    ensures Decode(head + ["Hundred"] + tail)
         == Decode(head) * 100 + (if |tail| > 0 && tail[0] == "and" then Decode(tail[1..]) else Decode(tail))
  {
    var t := head + ["Hundred"] + tail;
    LastIndexSpec(t, "Crore");
    LastIndexSpec(t, "Lakh");
    LastIndexSpec(t, "Thousand");
    CutAt(head, "Hundred", tail);
  }

  lemma {:induction false} DecodeHundreds(n: nat)
    requires 100 <= n < 1000
    ensures Decode(Words(n)) == n
    decreases n, 0
  {
    if n % 100 != 0 {
      DecodeWords(n % 100);
      HundredsAnd(n);
    } else {
      WholeHundreds(n);
    }
  }

  /** A single number word reads as its value. */
  lemma DecodeOne(i: nat)
    requires 1 <= i < 20
    ensures Decode([Ones[i]]) == i
  {
    var t := [Ones[i]];
    OnesWord(i);
    assert Avoids(t, "Crore") && Avoids(t, "Lakh") && Avoids(t, "Thousand") && Avoids(t, "Hundred");
    DecodeNoMarkers(t);
    assert t[1..] == [];
  }

  /** A hundreds spelling with a remainder reads as hundreds plus the words after "and". */
  lemma HundredsAnd(n: nat)
    requires 100 <= n < 1000 && n % 100 != 0
    ensures Decode(Words(n)) == n / 100 * 100 + Decode(Words(n % 100))
  {
    var h, r := n / 100, n % 100;
    var w := Words(r);
    var tail := ["and"] + w;
    NoHighMarkers(n);
    WordsAvoid(r, "Hundred");
    AndAvoidsHundred(w);
    HundredsAndShape(n);
    HundredStep([Ones[h]], tail);
    assert tail[1..] == w;
    DecodeOne(h);
  }

  lemma AndAvoidsHundred(w: seq<string>)
    requires Avoids(w, "Hundred")
    ensures Avoids(["and"] + w, "Hundred")
  {
    var t := ["and"] + w;
    forall i | 0 <= i < |t|
      ensures t[i] != "Hundred"
    {
      if i > 0 {
        assert t[i] == w[i - 1];
      }
    }
  }

  lemma HundredsAndShape(n: nat)
    requires 100 <= n < 1000 && n % 100 != 0
    ensures Words(n) == [Ones[n / 100]] + ["Hundred"] + (["and"] + Words(n % 100))
  {
  }

  /** A whole number of hundreds reads as its hundreds. */
  lemma WholeHundreds(n: nat)
    requires 100 <= n < 1000 && n % 100 == 0
    ensures Decode(Words(n)) == n
  {
    var h := n / 100;
    var none: seq<string> := [];
    NoHighMarkers(n);
    assert Words(n) == [Ones[h]] + ["Hundred"] + none;
    HundredStep([Ones[h]], none);
    LastIndexSpec(none, "Crore");
    LastIndexSpec(none, "Lakh");
    LastIndexSpec(none, "Thousand");
    LastIndexSpec(none, "Hundred");
    assert Decode(none) == 0;
    DecodeOne(h);
  }

  /** Reading a list whose last marker is "Thousand". */
  lemma ThousandStep(head: seq<string>, tail: seq<string>)
    requires Avoids(tail, "Thousand")
    requires var t := head + ["Thousand"] + tail; Avoids(t, "Crore") && Avoids(t, "Lakh")
    ensures Decode(head + ["Thousand"] + tail) == Decode(head) * 1000 + Decode(tail)
  {
    var t := head + ["Thousand"] + tail;
    LastIndexSpec(t, "Crore");
    LastIndexSpec(t, "Lakh");
    CutAt(head, "Thousand", tail);
  }

  /** Reading a list whose last marker is "Lakh". */
  lemma LakhStep(head: seq<string>, tail: seq<string>)
    requires Avoids(tail, "Lakh")
    requires Avoids(head + ["Lakh"] + tail, "Crore")
    ensures Decode(head + ["Lakh"] + tail) == Decode(head) * 100000 + Decode(tail)
  {
    LastIndexSpec(head + ["Lakh"] + tail, "Crore");
    CutAt(head, "Lakh", tail);
  }

  /** Reading a list whose last marker is "Crore". */
  lemma CroreStep(head: seq<string>, tail: seq<string>)
    requires Avoids(tail, "Crore")
    ensures Decode(head + ["Crore"] + tail) == Decode(head) * 10000000 + Decode(tail)
  {
    CutAt(head, "Crore", tail);
  }

  lemma {:induction false} DecodeThousands(n: nat)
    requires 1000 <= n < 100000
    ensures Decode(Words(n)) == n
    decreases n, 0
  {
    var q, r := n / 1000, n % 1000;
    assert Words(n) == Words(q) + ["Thousand"] + Words(r);
    WordsAvoid(n, "Crore");
    WordsAvoid(n, "Lakh");
    WordsAvoid(r, "Thousand");
    ThousandStep(Words(q), Words(r));
    DecodeWords(q);
    DecodeWords(r);
    assert n == q * 1000 + r;
  }

  lemma {:induction false} DecodeLakhs(n: nat)
    requires 100000 <= n < 10000000
    ensures Decode(Words(n)) == n
    decreases n, 0
  {
    var q, r := n / 100000, n % 100000;
    assert Words(n) == Words(q) + ["Lakh"] + Words(r);
    WordsAvoid(n, "Crore");
    WordsAvoid(r, "Lakh");
    LakhStep(Words(q), Words(r));
    DecodeWords(q);
    DecodeWords(r);
    assert n == q * 100000 + r;
  }

  lemma {:induction false} DecodeCrores(n: nat)
    requires 10000000 <= n
    ensures Decode(Words(n)) == n
    decreases n, 0
  {
    var q, r := n / 10000000, n % 10000000;
    assert Words(n) == Words(q) + ["Crore"] + Words(r);
    WordsAvoid(r, "Crore");
    CroreStep(Words(q), Words(r));
    DecodeWords(q);
    DecodeWords(r);
    assert n == q * 10000000 + r;
  }

  /** `convertNumberToWords`, on the amount split into whole rupees and
      paise: "Rupees ", the rupees in words ("Zero" for none), " and …
      Paise" only when there are paise, then " Only". */
  function ConvertNumberToWords(rupees: nat, paise: nat): (r: string)
    ensures IsPrefix("Rupees ", r)
    ensures |r| >= 12 && r[|r| - 5..] == " Only"
  {
    "Rupees " + (if rupees == 0 then "Zero" else NumToWords(rupees))
    + (if paise > 0 then " and " + NumToWords(paise) + " Paise" else "")
    + " Only"
  }

  /** The words between "Rupees" and "Only". */
  function AmountBody(rupees: nat, paise: nat): seq<string>
  {
    if paise > 0 then RupeeWords(rupees) + ["and"] + Words(paise) + ["Paise"] else RupeeWords(rupees)
  }

  /** The words of an amount, in order. */
  function AmountTokens(rupees: nat, paise: nat): seq<string>
  {
    ["Rupees"] + AmountBody(rupees, paise) + ["Only"]
  }

  /** The rupee words as the converter writes them. */
  function RupeeWords(rupees: nat): seq<string>
  {
    if rupees == 0 then ["Zero"] else Words(rupees)
  }

  /** Reads an amount back from its words: None unless they are framed by
      "Rupees" and "Only"; the last "and" before a final "Paise" separates
      the paise. */
  function ParseTokens(t: seq<string>): Option<(nat, nat)>
  {
    if |t| >= 2 && t[0] == "Rupees" && t[|t| - 1] == "Only" then
      var body := t[1..|t| - 1];
      if |body| >= 1 && body[|body| - 1] == "Paise" then
        var front := body[..|body| - 1];
        var k := LastIndex(front, "and");
        if k >= 0 then Some((Decode(front[..k]), Decode(front[k + 1..]))) else None
      else Some((Decode(body), 0))
    else None
  }

  /** Reads an amount back from its text, split at spaces. */
  function ParseAmount(s: string): Option<(nat, nat)>
  {
    ParseTokens(Split(s, ' '))
  }

  /** "Zero" reads as zero. */
  lemma ZeroWord()
    ensures Decode(["Zero"]) == 0
  {
    var t := ["Zero"];
    assert WordValue("Zero") == 0;
    assert t[1..] == [];
    assert SmallValue(t) == 0;
    assert Avoids(t, "Crore") && Avoids(t, "Lakh") && Avoids(t, "Thousand") && Avoids(t, "Hundred");
    DecodeNoMarkers(t);
  }

  lemma RupeeWordsShape(rupees: nat)
    ensures |RupeeWords(rupees)| >= 1 && AllWords(RupeeWords(rupees))
    ensures Join(RupeeWords(rupees), ' ') == if rupees == 0 then "Zero" else NumToWords(rupees)
    ensures Avoids(RupeeWords(rupees), "Paise")
    ensures Decode(RupeeWords(rupees)) == rupees
  {
    if rupees != 0 {
      SomeRupees(rupees);
    } else {
      NoRupees();
    }
  }

  lemma SomeRupees(rupees: nat)
    requires rupees != 0
    ensures |Words(rupees)| >= 1 && AllWords(Words(rupees))
    ensures Join(Words(rupees), ' ') == NumToWords(rupees)
    ensures Avoids(Words(rupees), "Paise")
    ensures Decode(Words(rupees)) == rupees
  {
    WordsAreWords(rupees);
    WordsAvoid(rupees, "Paise");
    DecodeWords(rupees);
    WordsJoin(rupees);
  }

  lemma NoRupees()
    ensures AllWords(["Zero"]) && Join(["Zero"], ' ') == "Zero"
    ensures Avoids(["Zero"], "Paise") && Decode(["Zero"]) == 0
  {
    ZeroAllWords();
    ZeroJoin();
    ZeroAvoidsPaise();
    ZeroWord();
  }

  lemma ZeroAllWords()
    ensures AllWords(["Zero"])
  {
    var t := ["Zero"];
    assert |t| == 1 && t[0] == "Zero";
    ZeroIsWord();
  }

  lemma ZeroJoin()
    ensures Join(["Zero"], ' ') == "Zero"
  {
  }

  lemma ZeroAvoidsPaise()
    ensures Avoids(["Zero"], "Paise")
  {
  }

  lemma ZeroIsWord()
    ensures IsWord("Zero")
  {
    var z := "Zero";
    assert z == ['Z', 'e', 'r', 'o'];
    assert forall i :: 0 <= i < |z| ==> z[i] != ' ';
  }

  /** How the text regroups around the words, as the converter concatenates them. */
  lemma AmountText(x: string, y: string)
    ensures "Rupees " + x + (" and " + y + " Paise") + " Only"
         == "Rupees" + [' '] + (x + [' '] + "and" + [' '] + y + [' '] + "Paise") + [' '] + "Only"
    ensures "Rupees " + x + "" + " Only" == "Rupees" + [' '] + x + [' '] + "Only"
  {
  }

  /** Joining the words of the body. */
  lemma BodyJoin(rupees: nat, paise: nat)
    requires paise >= 1
    ensures Join(AmountBody(rupees, paise), ' ')
         == (if rupees == 0 then "Zero" else NumToWords(rupees)) + [' '] + "and" + [' '] + NumToWords(paise) + [' '] + "Paise"
  {
    RupeeWordsShape(rupees);
    WordsAreWords(paise);
    WordsJoin(paise);
    JoinAround(RupeeWords(rupees), "and", Words(paise));
    JoinLast(RupeeWords(rupees) + ["and"] + Words(paise), "Paise");
  }

  /** The converted text is the amount's words joined with single spaces. */
  lemma AmountJoin(rupees: nat, paise: nat)
    ensures ConvertNumberToWords(rupees, paise) == Join(AmountTokens(rupees, paise), ' ')
  {
    RupeeWordsShape(rupees);
    var body := AmountBody(rupees, paise);
    JoinAppend(["Rupees"], body, ' ');
    JoinLast(["Rupees"] + body, "Only");
    assert Join(["Rupees"], ' ') == "Rupees";
    var x := if rupees == 0 then "Zero" else NumToWords(rupees);
    if paise > 0 {
      BodyJoin(rupees, paise);
      AmountText(x, NumToWords(paise));
    } else {
      AmountText(x, "");
    }
  }

  /** Framing words without spaces keeps them without spaces. */
  lemma FramedWords(r: seq<string>, w: seq<string>)
    requires AllWords(r) && AllWords(w)
    ensures AllWords(["Rupees"] + r + ["Only"])
    ensures AllWords(["Rupees"] + (r + ["and"] + w + ["Paise"]) + ["Only"])
  {
    assert IsWord("and") && IsWord("Paise") && IsWord("Rupees") && IsWord("Only");
    AllWordsAppend(r, ["and"]);
    AllWordsAppend(r + ["and"], w);
    AllWordsAppend(r + ["and"] + w, ["Paise"]);
    AllWordsAppend(["Rupees"], r);
    AllWordsAppend(["Rupees"] + r, ["Only"]);
    var body := r + ["and"] + w + ["Paise"];
    AllWordsAppend(["Rupees"], body);
    AllWordsAppend(["Rupees"] + body, ["Only"]);
  }

  /** No word of an amount contains a space. */
  lemma AmountWordsAreWords(rupees: nat, paise: nat)
    ensures AllWords(AmountTokens(rupees, paise))
  {
    RupeeWordsShape(rupees);
    WordsAreWords(paise);
    FramedWords(RupeeWords(rupees), Words(paise));
  }

  /** Words without spaces: no character of any of them is a space. */
  lemma NoSpaceInWords(t: seq<string>)
    requires AllWords(t)
    ensures forall k, i :: 0 <= k < |t| && 0 <= i < |t[k]| ==> t[k][i] != ' '
  {
    forall k, i | 0 <= k < |t| && 0 <= i < |t[k]|
      ensures t[k][i] != ' '
    {
      assert t[k][i] in t[k];
    }
  }

  /** Reading a framed body that ends in "Paise". */
  lemma ParsePaise(front: seq<string>, w: seq<string>)
    requires Avoids(w, "and")
    ensures ParseTokens(["Rupees"] + (front + ["and"] + w + ["Paise"]) + ["Only"]) == Some((Decode(front), Decode(w)))
  {
    var body := front + ["and"] + w + ["Paise"];
    Framed(body);
    PaiseCut(front + ["and"] + w);
    CutAt(front, "and", w);
  }

  /** The frame "Rupees" ... "Only" around a body. */
  lemma Framed(body: seq<string>)
    ensures var t := ["Rupees"] + body + ["Only"];
      |t| >= 2 && t[0] == "Rupees" && t[|t| - 1] == "Only" && t[1..|t| - 1] == body
  {
  }

  /** A body ending in "Paise", and what comes before it. */
  lemma PaiseCut(cut: seq<string>)
    ensures var body := cut + ["Paise"];
      |body| >= 1 && body[|body| - 1] == "Paise" && body[..|body| - 1] == cut
  {
  }

  /** Reading a framed body that does not end in "Paise". */
  lemma ParseNoPaise(body: seq<string>)
    requires |body| >= 1 && body[|body| - 1] != "Paise"
    ensures ParseTokens(["Rupees"] + body + ["Only"]) == Some((Decode(body), 0))
  {
    var t := ["Rupees"] + body + ["Only"];
    assert t[1..|t| - 1] == body;
  }

  /** The paise as words never hold "and" before the "Paise" marker it is read by:
      below a hundred there is none, and a hundred is "One Hundred". */
  lemma PaiseWords(paise: nat)
    requires 1 <= paise <= 100
    ensures Avoids(Words(paise), "and") && Decode(Words(paise)) == paise
  {
    DecodeWords(paise);
    if paise < 100 {
      WordsAvoid(paise, "and");
    } else {
      HundredPaise();
    }
  }

  lemma HundredPaise()
    ensures Words(100) == [Ones[1], "Hundred"] && Avoids(Words(100), "and")
  {
    assert Ones[1] == "One";
  }

  /** Reading the words of an amount back gives the rupees and the paise. */
  lemma TokensRoundTrip(rupees: nat, paise: nat)
    requires paise <= 100
    ensures ParseTokens(AmountTokens(rupees, paise)) == Some((rupees, paise))
  {
    if paise > 0 {
      PaidTokens(rupees, paise);
    } else {
      UnpaidTokens(rupees);
    }
  }

  lemma PaidTokens(rupees: nat, paise: nat)
    requires 1 <= paise <= 100
    ensures ParseTokens(AmountTokens(rupees, paise)) == Some((rupees, paise))
  {
    var front, w := RupeeWords(rupees), Words(paise);
    assert AmountTokens(rupees, paise) == ["Rupees"] + (front + ["and"] + w + ["Paise"]) + ["Only"];
    RupeesRead(rupees);
    PaiseWords(paise);
    ParsePaise(front, w);
  }

  lemma UnpaidTokens(rupees: nat)
    ensures ParseTokens(AmountTokens(rupees, 0)) == Some((rupees, 0))
  {
    var body := RupeeWords(rupees);
    assert AmountTokens(rupees, 0) == ["Rupees"] + body + ["Only"];
    RupeesRead(rupees);
    assert body[|body| - 1] != "Paise";
    ParseNoPaise(body);
  }

  /** The rupee words are not empty, hold no "Paise" and read as the rupees. */
  lemma RupeesRead(rupees: nat)
    ensures |RupeeWords(rupees)| >= 1 && Avoids(RupeeWords(rupees), "Paise")
    ensures Decode(RupeeWords(rupees)) == rupees
  {
    RupeeWordsShape(rupees);
  }

  /** Round trip: reading the converted text back gives the rupees and the
      paise, for any paise up to one hundred (rounding can yield exactly 100). */
  lemma AmountRoundTrip(rupees: nat, paise: nat)
    requires paise <= 100
    ensures ParseAmount(ConvertNumberToWords(rupees, paise)) == Some((rupees, paise))
  {
    AmountJoin(rupees, paise);
    AmountWordsAreWords(rupees, paise);
    NoSpaceInWords(AmountTokens(rupees, paise));
    SplitJoin(AmountTokens(rupees, paise), ' ');
    TokensRoundTrip(rupees, paise);
  }

  /** The words of an amount: "Rupees" first and "Only" last; the rupees read
      "Zero" exactly when there are none; "Paise" comes before "Only" exactly
      when there are paise. */
  lemma TokensShape(rupees: nat, paise: nat)
    ensures var t := AmountTokens(rupees, paise);
      |t| >= 3 && t[0] == "Rupees" && t[|t| - 1] == "Only"
      && (t[1] == "Zero" <==> rupees == 0)
      && (t[|t| - 2] == "Paise" <==> paise > 0)
  {
    RupeeWordsShape(rupees);
    RupeeToken(rupees, paise);
    PaiseToken(rupees, paise);
  }

  lemma RupeeToken(rupees: nat, paise: nat)
    requires |RupeeWords(rupees)| >= 1
    ensures AmountTokens(rupees, paise)[1] == RupeeWords(rupees)[0]
    ensures RupeeWords(rupees)[0] == "Zero" <==> rupees == 0
  {
    if rupees != 0 {
      WordsAvoid(rupees, "Zero");
    }
  }

  lemma PaiseToken(rupees: nat, paise: nat)
    requires |RupeeWords(rupees)| >= 1 && Avoids(RupeeWords(rupees), "Paise")
    ensures var t := AmountTokens(rupees, paise);
      |t| >= 3 && t[0] == "Rupees" && t[|t| - 1] == "Only" && (t[|t| - 2] == "Paise" <==> paise > 0)
  {
    var r := RupeeWords(rupees);
    if paise > 0 {
      var body := r + ["and"] + Words(paise) + ["Paise"];
      assert AmountTokens(rupees, paise) == ["Rupees"] + body + ["Only"];
    } else {
      assert AmountTokens(rupees, paise) == ["Rupees"] + r + ["Only"];
    }
  }

  /** The same shape, read off the converted text split at its spaces. */
  lemma AmountShape(rupees: nat, paise: nat)
    ensures var t := Split(ConvertNumberToWords(rupees, paise), ' ');
      |t| >= 3 && t[0] == "Rupees" && t[|t| - 1] == "Only"
      && (t[1] == "Zero" <==> rupees == 0)
      && (t[|t| - 2] == "Paise" <==> paise > 0)
  {
    AmountJoin(rupees, paise);
    AmountWordsAreWords(rupees, paise);
    NoSpaceInWords(AmountTokens(rupees, paise));
    SplitJoin(AmountTokens(rupees, paise), ' ');
    TokensShape(rupees, paise);
  }
}
