/** The `roman` filter. */
module Roman {

  // The table of values and letters, largest value first.
  const ENTRIES: nat := 13

  function Value(j: nat): (v: nat)
    requires j < ENTRIES
    ensures v > 0
  {
    match j
    case 0 => 1000
    case 1 => 900
    case 2 => 500
    case 3 => 400
    case 4 => 100
    case 5 => 90
    case 6 => 50
    case 7 => 40
    case 8 => 10
    case 9 => 9
    case 10 => 5
    case 11 => 4
    case _ => 1
  }

  function Letters(j: nat): string
    requires j < ENTRIES
  {
    match j
    case 0 => "M"
    case 1 => "CM"
    case 2 => "D"
    case 3 => "CD"
    case 4 => "C"
    case 5 => "XC"
    case 6 => "L"
    case 7 => "XL"
    case 8 => "X"
    case 9 => "IX"
    case 10 => "V"
    case 11 => "IV"
    case _ => "I"
  }

  // Uses the entries from j on, each as often as it fits.
  function Greedy(n: nat, j: nat): string
    requires j <= ENTRIES
    decreases n, ENTRIES - j
  {
    if j == ENTRIES then ""
    else if n >= Value(j) then Letters(j) + Greedy(n - Value(j), j)
    else Greedy(n, j + 1)
  }

  function Numeral(n: int): string {
    if n <= 0 then "" else Greedy(n, 0)
  }

  // What is left when entry j no longer fits.
  predicate Below(n: nat, j: nat)
    requires j <= ENTRIES
  {
    j > 0 ==> n < Value(j - 1)
  }

  lemma GreedyTake(done: string, n: nat, j: nat)
    requires j < ENTRIES && n >= Value(j)
    ensures done + Greedy(n, j) == (done + Letters(j)) + Greedy(n - Value(j), j)
  {
    assert done + (Letters(j) + Greedy(n - Value(j), j)) == (done + Letters(j)) + Greedy(n - Value(j), j);
  }

  method Filter(n: int) returns (result: string)
    ensures result == Numeral(n) && (n <= 0 ==> result == "")
  {
    result := "";
    var left := n;
    while left > 0
      invariant (left == n && result == "") || (left == 0 && result == Numeral(n))
    {
      ghost var all := Numeral(n);
      assert all == result + Greedy(left, 0);
      for j := 0 to ENTRIES
        invariant 0 <= left <= n && Below(left, j) && all == result + Greedy(left, j)
      {
        while left >= Value(j)
          invariant 0 <= left <= n && Below(left, j) && all == result + Greedy(left, j)
        {
          GreedyTake(result, left, j);
          result := result + Letters(j);
          left := left - Value(j);
        }
      }
      assert left < Value(ENTRIES - 1) == 1 && Greedy(left, ENTRIES) == "";
    }
  }

  /******* Reading a numeral *******/

  function Digit(c: char): nat {
    match c
    case 'M' => 1000
    case 'D' => 500
    case 'C' => 100
    case 'L' => 50
    case 'X' => 10
    case 'V' => 5
    case 'I' => 1
    case _ => 0
  }

  // A digit counts negatively exactly when a larger one follows it.
  function Read(s: string): int {
    if s == "" then 0
    else if |s| > 1 && Digit(s[0]) < Digit(s[1]) then Read(s[1..]) - Digit(s[0])
    else Read(s[1..]) + Digit(s[0])
  }

  function Head(s: string): nat {
    if s == "" then 0 else Digit(s[0])
  }

  // An entry is a single letter, or a smaller letter in front of a larger one.
  lemma EntryDigits(j: nat)
    requires j < ENTRIES
    ensures var r := Letters(j);
            || (|r| == 1 && Digit(r[0]) == Value(j))
            || (|r| == 2 && Digit(r[0]) < Digit(r[1]) && Digit(r[1]) - Digit(r[0]) == Value(j))
  {
  }

  predicate IsDigit(d: nat) {
    d in {0, 1, 5, 10, 50, 100, 500, 1000}
  }

  // No digit that can follow entry j exceeds the last digit of the entry.
  lemma EntryRoom(n: nat, j: nat, d: nat)
    requires j < ENTRIES && Below(n, j) && n >= Value(j) && d <= n - Value(j) && IsDigit(d)
    ensures var r := Letters(j); r != "" && d <= Digit(r[|r| - 1])
  {
  }

  lemma ReadCons(c: char, s: string)
    ensures Read([c] + s) == if Digit(c) < Head(s) then Read(s) - Digit(c) else Read(s) + Digit(c)
  {
    assert ([c] + s)[1..] == s;
  }

  lemma Split(r: string, rest: string)
    requires |r| == 1 || |r| == 2
    ensures r + rest == if |r| == 1 then [r[0]] + rest else [r[0]] + ([r[1]] + rest)
  {
  }

  lemma ReadEntry(n: nat, j: nat, rest: string)
    requires j < ENTRIES && Below(n, j) && n >= Value(j)
    requires Read(rest) == n - Value(j) && Head(rest) <= n - Value(j) && IsDigit(Head(rest))
    ensures Read(Letters(j) + rest) == n
    ensures Head(Letters(j) + rest) <= n && IsDigit(Head(Letters(j) + rest))
  {
    var r := Letters(j);
    EntryDigits(j);
    EntryRoom(n, j, Head(rest));
    Split(r, rest);
    if |r| == 1 {
      ReadCons(r[0], rest);
    } else {
      ReadCons(r[1], rest);
      ReadCons(r[0], [r[1]] + rest);
    }
  }

  lemma {:induction false} ReadGreedy(n: nat, j: nat)
    requires j <= ENTRIES && Below(n, j)
    ensures Read(Greedy(n, j)) == n
    ensures Head(Greedy(n, j)) <= n && IsDigit(Head(Greedy(n, j)))
    decreases n, ENTRIES - j
  {
    if j == ENTRIES {
    } else if n >= Value(j) {
      ReadGreedy(n - Value(j), j);
      ReadEntry(n, j, Greedy(n - Value(j), j));
    } else {
      ReadGreedy(n, j + 1);
    }
  }

  // Reading what the filter prints gives the number back.
  lemma ReadNumeral(n: int)
    requires n >= 0
    ensures Read(Numeral(n)) == n
  {
    if n > 0 {
      ReadGreedy(n, 0);
    }
  }

  lemma NumeralInjective(m: int, n: int)
    requires m >= 0 && n >= 0 && Numeral(m) == Numeral(n)
    ensures m == n
  {
    ReadNumeral(m);
    ReadNumeral(n);
  }

  /******* Shape of a numeral *******/

  function Occurrences(s: string, c: char): nat {
    if s == "" then 0 else (if s[0] == c then 1 else 0) + Occurrences(s[1..], c)
  }

  // Length of the run of c at the front of s.
  function Lead(s: string, c: char): nat {
    if s == "" || s[0] != c then 0 else 1 + Lead(s[1..], c)
  }

  predicate RunsAtMost(s: string, c: char, k: nat) {
    Lead(s, c) <= k && (s == "" || RunsAtMost(s[1..], c, k))
  }

  lemma Cons(c: char, d: char, s: string)
    ensures Occurrences([c] + s, d) == (if c == d then 1 else 0) + Occurrences(s, d)
    ensures Lead([c] + s, d) == if c == d then 1 + Lead(s, d) else 0
    ensures forall k: nat :: RunsAtMost([c] + s, d, k) <==> Lead([c] + s, d) <= k && RunsAtMost(s, d, k)
  {
    assert ([c] + s)[1..] == s;
  }

  // V, L and D occur only in numbers from four fifths of their value on, and then once.
  function FiveBound(n: nat, five: char): nat {
    if 5 * n < 4 * Digit(five) then 0 else 1
  }

  // How long a run of I, X or C can start the numeral of n.
  function LeadBound(n: nat, one: char): nat {
    var d := Digit(one);
    if n < d then 0 else if n < 2 * d then 1 else if n < 3 * d then 2 else if n < 4 * d then 3 else 1
  }

  lemma EntryFive(n: nat, j: nat, five: char)
    requires j < ENTRIES && Below(n, j) && n >= Value(j) && five in {'V', 'L', 'D'}
    ensures five in Letters(j) ==> FiveBound(n - Value(j), five) == 0 && FiveBound(n, five) == 1
    ensures FiveBound(n - Value(j), five) <= FiveBound(n, five)
  {
  }

  lemma EntryLead(n: nat, j: nat, one: char)
    requires j < ENTRIES && Below(n, j) && n >= Value(j) && one in {'I', 'X', 'C'}
    ensures var r, rest := Letters(j), n - Value(j);
            && r != ""
            && (r[0] == one && |r| == 1 ==> 1 + LeadBound(rest, one) <= LeadBound(n, one))
            && (r[0] == one && |r| == 2 ==> LeadBound(n, one) >= 1)
            && (|r| == 2 && r[1] == one ==> LeadBound(rest, one) == 0)
  {
  }

  lemma {:induction false} FivesGreedy(n: nat, j: nat, five: char)
    requires j <= ENTRIES && Below(n, j) && five in {'V', 'L', 'D'}
    ensures Occurrences(Greedy(n, j), five) <= FiveBound(n, five)
    decreases n, ENTRIES - j
  {
    if j == ENTRIES {
    } else if n >= Value(j) {
      FivesGreedy(n - Value(j), j, five);
      FivesEntry(n, j, five, Greedy(n - Value(j), j));
    } else {
      FivesGreedy(n, j + 1, five);
    }
  }

  lemma FivesEntry(n: nat, j: nat, five: char, rest: string)
    requires j < ENTRIES && Below(n, j) && n >= Value(j) && five in {'V', 'L', 'D'}
    requires Occurrences(rest, five) <= FiveBound(n - Value(j), five)
    ensures Occurrences(Letters(j) + rest, five) <= FiveBound(n, five)
  {
    var r := Letters(j);
    EntryFive(n, j, five);
    EntryDigits(j);
    Split(r, rest);
    if |r| == 1 {
      Cons(r[0], five, rest);
    } else {
      Cons(r[1], five, rest);
      Cons(r[0], five, [r[1]] + rest);
    }
  }

  lemma {:induction false} OnesGreedy(n: nat, j: nat, one: char)
    requires j <= ENTRIES && Below(n, j) && one in {'I', 'X', 'C'}
    ensures RunsAtMost(Greedy(n, j), one, 3) && Lead(Greedy(n, j), one) <= LeadBound(n, one)
    decreases n, ENTRIES - j
  {
    if j == ENTRIES {
    } else if n >= Value(j) {
      OnesGreedy(n - Value(j), j, one);
      OnesEntry(n, j, one, Greedy(n - Value(j), j));
    } else {
      OnesGreedy(n, j + 1, one);
    }
  }

  lemma OnesEntry(n: nat, j: nat, one: char, rest: string)
    requires j < ENTRIES && Below(n, j) && n >= Value(j) && one in {'I', 'X', 'C'}
    requires RunsAtMost(rest, one, 3) && Lead(rest, one) <= LeadBound(n - Value(j), one)
    ensures RunsAtMost(Letters(j) + rest, one, 3) && Lead(Letters(j) + rest, one) <= LeadBound(n, one)
  {
    var r := Letters(j);
    EntryLead(n, j, one);
    EntryDigits(j);
    Split(r, rest);
    if |r| == 1 {
      Cons(r[0], one, rest);
    } else {
      Cons(r[1], one, rest);
      Cons(r[0], one, [r[1]] + rest);
    }
  }

  // V, L and D at most once, I, X and C never more than three times in a row.
  lemma NumeralShape(n: int)
    ensures forall five :: five in {'V', 'L', 'D'} ==> Occurrences(Numeral(n), five) <= 1
    ensures forall one :: one in {'I', 'X', 'C'} ==> RunsAtMost(Numeral(n), one, 3)
  {
    if n > 0 {
      forall five | five in {'V', 'L', 'D'} ensures Occurrences(Numeral(n), five) <= 1 {
        FivesGreedy(n, 0, five);
      }
      forall one | one in {'I', 'X', 'C'} ensures RunsAtMost(Numeral(n), one, 3) {
        OnesGreedy(n, 0, one);
      }
    }
  }

  /******* The usual numeral *******/

  function Repeat(s: string, k: nat): string {
    if k == 0 then "" else s + Repeat(s, k - 1)
  }

  const HUNDREDS: seq<string> := ["", "C", "CC", "CCC", "CD", "D", "DC", "DCC", "DCCC", "CM"]
  const TENS: seq<string> := ["", "X", "XX", "XXX", "XL", "L", "LX", "LXX", "LXXX", "XC"]
  const ONES: seq<string> := ["", "I", "II", "III", "IV", "V", "VI", "VII", "VIII", "IX"]

  // n is d times the unit u and a rest below it.
  predicate Spans(n: nat, d: nat, u: nat, rest: nat) {
    && rest < u
    && ((u == 1 && n == d + rest) || (u == 10 && n == 10 * d + rest) || (u == 100 && n == 100 * d + rest)
        || (u == 1000 && n == 1000 * d + rest))
  }

  // Entry j is used as often as it fits.
  lemma {:induction false} GreedyRepeats(n: nat, j: nat, d: nat, rest: nat)
    requires j < ENTRIES && Spans(n, d, Value(j), rest)
    ensures Greedy(n, j) == Repeat(Letters(j), d) + Greedy(rest, j + 1)
    decreases d
  {
    if d > 0 {
      GreedyRepeats(n - Value(j), j, d - 1, rest);
      Associative(Letters(j), Repeat(Letters(j), d - 1), Greedy(rest, j + 1));
    } else {
      assert n == rest && Repeat(Letters(j), d) == "";
    }
  }

  // The entries from j on are nine, five, four and one of the unit.
  predicate UnitAt(j: nat, u: nat) {
    (j == 1 && u == 100) || (j == 5 && u == 10) || (j == 9 && u == 1)
  }

  function DigitLetters(j: nat, d: nat): string
    requires j + 3 < ENTRIES && d < 10
  {
    if d == 9 then Letters(j)
    else if d >= 5 then Letters(j + 1) + Repeat(Letters(j + 3), d - 5)
    else if d == 4 then Letters(j + 2)
    else Repeat(Letters(j + 3), d)
  }

  lemma GreedyDigit(n: nat, j: nat, u: nat, d: nat, rest: nat)
    requires UnitAt(j, u) && Spans(n, d, u, rest) && d < 10
    ensures Greedy(n, j) == DigitLetters(j, d) + Greedy(rest, j + 4)
  {
    if d == 9 {
      SkipUnit(rest, j, u);
    } else if d >= 5 {
      GreedyFive(n, j, u, d, rest);
    } else if d == 4 {
      SkipUnit(rest, j, u);
      assert Greedy(n, j) == Greedy(n, j + 1) == Greedy(n, j + 2);
    } else {
      SkipUnit(n, j, u);
      GreedyRepeats(n, j + 3, d, rest);
    }
  }

  lemma GreedyFive(n: nat, j: nat, u: nat, d: nat, rest: nat)
    requires UnitAt(j, u) && Spans(n, d, u, rest) && 5 <= d < 9
    ensures Greedy(n, j) == DigitLetters(j, d) + Greedy(rest, j + 4)
  {
    TakeFive(n, j, u, d, rest);
    GreedyRepeats(n - Value(j + 1), j + 3, d - 5, rest);
    Associative(Letters(j + 1), Repeat(Letters(j + 3), d - 5), Greedy(rest, j + 4));
  }

  lemma TakeFive(n: nat, j: nat, u: nat, d: nat, rest: nat)
    requires UnitAt(j, u) && Spans(n, d, u, rest) && 5 <= d < 9
    ensures n >= Value(j + 1) && Spans(n - Value(j + 1), d - 5, u, rest)
    ensures Greedy(n, j) == Letters(j + 1) + Greedy(n - Value(j + 1), j + 3)
  {
    SkipUnit(n - Value(j + 1), j, u);
    assert Greedy(n, j) == Greedy(n, j + 1);
  }

  lemma Associative(a: string, b: string, c: string)
    ensures a + (b + c) == a + b + c
  {
  }

  // Below four units only ones fit, below one unit nothing.
  lemma SkipUnit(n: nat, j: nat, u: nat)
    requires UnitAt(j, u) && n < 4 * u
    ensures Greedy(n, j) == Greedy(n, j + 1) == Greedy(n, j + 2) == Greedy(n, j + 3)
    ensures n < u ==> Greedy(n, j + 3) == Greedy(n, j + 4)
  {
  }

  lemma RepeatFew(s: string)
    ensures Repeat(s, 0) == "" && Repeat(s, 1) == s && Repeat(s, 2) == s + s && Repeat(s, 3) == s + s + s
  {
    assert Repeat(s, 1) == s + Repeat(s, 0) && Repeat(s, 2) == s + Repeat(s, 1);
    assert Repeat(s, 3) == s + Repeat(s, 2);
  }

  lemma DigitTable(d: nat)
    requires d < 10
    ensures DigitLetters(1, d) == HUNDREDS[d] && DigitLetters(5, d) == TENS[d] && DigitLetters(9, d) == ONES[d]
  {
    RepeatFew("C");
    RepeatFew("X");
    RepeatFew("I");
  }

  // Numbers below a thousand.
  lemma GreedySmall(h: nat, t: nat, o: nat)
    requires h < 10 && t < 10 && o < 10
    ensures Greedy(100 * h + 10 * t + o, 1) == HUNDREDS[h] + TENS[t] + ONES[o]
  {
    GreedyDigit(100 * h + 10 * t + o, 1, 100, h, 10 * t + o);
    GreedyTens(t, o);
    DigitTable(h);
    Associative(HUNDREDS[h], TENS[t], ONES[o]);
  }

  lemma GreedyTens(t: nat, o: nat)
    requires t < 10 && o < 10
    ensures Greedy(10 * t + o, 5) == TENS[t] + ONES[o]
  {
    GreedyDigit(10 * t + o, 5, 10, t, o);
    GreedyDigit(o, 9, 1, o, 0);
    DigitTable(t);
    DigitTable(o);
    assert DigitLetters(9, o) + "" == DigitLetters(9, o);
  }

  // The thousands as so many M, then hundreds, tens and ones in the usual letters.
  lemma UsualNumeral(q: nat, h: nat, t: nat, o: nat)
    requires h < 10 && t < 10 && o < 10
    ensures Numeral(1000 * q + 100 * h + 10 * t + o) == Repeat("M", q) + HUNDREDS[h] + TENS[t] + ONES[o]
  {
    GreedySmall(h, t, o);
    GreedyRepeats(1000 * q + 100 * h + 10 * t + o, 0, q, 100 * h + 10 * t + o);
    Associative(Repeat("M", q), HUNDREDS[h] + TENS[t], ONES[o]);
    Associative(Repeat("M", q), HUNDREDS[h], TENS[t]);
  }
}
