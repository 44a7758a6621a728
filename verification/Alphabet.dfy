/** The `of_alphabet` filter: 0 is a, 25 is z, 26 is aa. */
module Alphabet {

  const SIZE: nat := 26

  function Letter(m: nat): char
    requires m < SIZE
  {
    'a' + m as char
  }

  predicate IsLetter(c: char) {
    'a' <= c <= 'z'
  }

  function Spelling(n: int): string
    decreases n
  {
    if n < 0 then "" else Spelling(n / SIZE - 1) + [Letter(n % SIZE)]
  }

  function Reversed(s: string): (r: string)
    ensures |r| == |s|
  {
    if s == "" then "" else Reversed(s[1..]) + [s[0]]
  }

  lemma ReversedAppend(s: string, c: char)
    ensures Reversed(s + [c]) == [c] + Reversed(s)
  {
    if s != "" {
      assert (s + [c])[1..] == s[1..] + [c];
    }
  }

  // Least significant letter first, reversed at the end.
  method Filter(n: int) returns (text: string)
    ensures text == Spelling(n)
  {
    var result: string := [];
    var left := n;
    while left >= 0
      invariant Spelling(n) == Spelling(left) + Reversed(result)
      decreases left
    {
      var m := left % SIZE;
      left := left / SIZE;
      ReversedAppend(result, Letter(m));
      assert Spelling(left - 1) + [Letter(m)] + Reversed(result)
          == Spelling(left - 1) + ([Letter(m)] + Reversed(result));
      result := result + [Letter(m)];
      left := left - 1;
    }
    assert Spelling(left) + Reversed(result) == Reversed(result);
    text := Reversed(result);
  }

  /******* Position of a word *******/

  // The place of s in the order a, b, ..., z, aa, ab, ...; -1 for the empty word.
  function Position(s: string): int {
    if s == "" then -1 else (Position(s[..|s| - 1]) + 1) * SIZE + (s[|s| - 1] as int - 'a' as int)
  }

  predicate Lowercase(s: string) {
    forall i :: 0 <= i < |s| ==> IsLetter(s[i])
  }

  lemma PositionAppend(s: string, m: nat)
    requires m < SIZE
    ensures Position(s + [Letter(m)]) == (Position(s) + 1) * SIZE + m
  {
    assert (s + [Letter(m)])[..|s|] == s;
  }

  lemma {:induction false} SpelledInLetters(n: int)
    ensures Lowercase(Spelling(n))
    decreases n
  {
    if n >= 0 {
      SpelledInLetters(n / SIZE - 1);
      assert IsLetter(Letter(n % SIZE));
    }
  }

  lemma {:induction false} PositionOfSpelling(n: int)
    requires n >= -1
    ensures Position(Spelling(n)) == n
    decreases n
  {
    if n >= 0 {
      PositionOfSpelling(n / SIZE - 1);
      PositionAppend(Spelling(n / SIZE - 1), n % SIZE);
    }
  }

  lemma {:induction false} SpellingOfPosition(s: string)
    requires Lowercase(s)
    ensures Position(s) >= -1 && Spelling(Position(s)) == s && (s != "" ==> Position(s) >= 0)
  {
    if s != "" {
      var init, m := s[..|s| - 1], s[|s| - 1] as int - 'a' as int;
      SpellingOfPosition(init);
      var p := Position(init) + 1;
      assert (p * SIZE + m) / SIZE == p && (p * SIZE + m) % SIZE == m;
      assert s == init + [s[|s| - 1]];
    }
  }

  // The naturals and the non-empty lowercase words correspond one to one.
  lemma Bijection()
    ensures forall n: nat :: Spelling(n) != "" && Lowercase(Spelling(n))
    ensures forall m: nat, n: nat :: Spelling(m) == Spelling(n) ==> m == n
    ensures forall s: string :: s != "" && Lowercase(s) ==> Position(s) >= 0 && Spelling(Position(s)) == s
  {
    forall n: nat ensures Spelling(n) != "" && Lowercase(Spelling(n)) && Position(Spelling(n)) == n {
      SpelledInLetters(n);
      PositionOfSpelling(n);
    }
    forall s: string | s != "" && Lowercase(s) ensures Position(s) >= 0 && Spelling(Position(s)) == s {
      SpellingOfPosition(s);
    }
  }

  /******* Order *******/

  // t follows s in the dictionary, for words of one length.
  predicate Lexicographic(s: string, t: string)
    requires |s| == |t|
  {
    s != "" && (Lexicographic(s[..|s| - 1], t[..|t| - 1]) ||
                (s[..|s| - 1] == t[..|t| - 1] && s[|s| - 1] < t[|t| - 1]))
  }

  predicate ShortLex(s: string, t: string) {
    |s| < |t| || (|s| == |t| && Lexicographic(s, t))
  }

  // The first difference decides, as the definition from the right suggests.
  lemma {:induction false} LexicographicMeans(s: string, t: string)
    requires |s| == |t|
    ensures Lexicographic(s, t) <==> exists k :: 0 <= k < |s| && s[..k] == t[..k] && s[k] < t[k]
  {
    if s != "" {
      var s', t' := s[..|s| - 1], t[..|t| - 1];
      LexicographicMeans(s', t');
      forall k | 0 <= k < |s'| ensures s[..k] == s'[..k] && t[..k] == t'[..k] {
      }
      if Lexicographic(s', t') {
        var k :| 0 <= k < |s'| && s'[..k] == t'[..k] && s'[k] < t'[k];
        assert s[..k] == t[..k] && s[k] < t[k];
      }
      if k :| 0 <= k < |s| && s[..k] == t[..k] && s[k] < t[k] {
        if k < |s'| {
          assert s'[..k] == t'[..k] && s'[k] < t'[k];
        }
      }
    }
  }

  lemma {:induction false} Increasing(m: int, n: int)
    requires -1 <= m < n
    ensures ShortLex(Spelling(m), Spelling(n))
    decreases n
  {
    var n1 := n / SIZE - 1;
    assert Spelling(n)[..|Spelling(n1)|] == Spelling(n1);
    if m >= 0 {
      var m1 := m / SIZE - 1;
      assert Spelling(m)[..|Spelling(m1)|] == Spelling(m1);
      if m1 < n1 {
        Increasing(m1, n1);
      }
    }
  }

  // Strictly increasing for the length-then-dictionary order, and reflecting it.
  lemma OrderIso(m: nat, n: nat)
    ensures m < n <==> ShortLex(Spelling(m), Spelling(n))
  {
    if m < n {
      Increasing(m, n);
    } else if n < m {
      Increasing(n, m);
      Asymmetric(Spelling(n), Spelling(m));
    } else {
      Asymmetric(Spelling(n), Spelling(m));
    }
  }

  lemma {:induction false} Asymmetric(s: string, t: string)
    ensures !(ShortLex(s, t) && ShortLex(t, s))
  {
    if |s| == |t| && s != "" {
      Asymmetric(s[..|s| - 1], t[..|t| - 1]);
      Asymmetric(s[..|s| - 1], s[..|s| - 1]);
    }
  }
}
