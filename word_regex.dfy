/** The regular expression `\b[a-zA-Z]{k,}\b` under `re.findall`, restricted to ASCII.

    A word character (Python's `\w`) is an ASCII letter, digit or underscore; every other
    character, every non-ASCII one included, is a non-word character. `\b` holds between
    two positions when exactly one side is a word character (outside the string counts
    as non-word). */
module WordRegex {
  import opened Wrappers
  import Seqs

  predicate IsAsciiLetter(c: char)
  {
    'a' <= c <= 'z' || 'A' <= c <= 'Z'
  }

  predicate IsDigit(c: char)
  {
    '0' <= c <= '9'
  }

  predicate IsWordChar(c: char)
  {
    IsAsciiLetter(c) || IsDigit(c) || c == '_'
  }

  predicate WordAt(s: string, i: int)
  {
    0 <= i < |s| && IsWordChar(s[i])
  }

  /** `\b` at position i: between s[i - 1] and s[i] */
  predicate BoundaryAt(s: string, i: int)
  {
    WordAt(s, i - 1) != WordAt(s, i)
  }

  predicate AllLetters(w: string)
  {
    forall m :: 0 <= m < |w| ==> IsAsciiLetter(w[m])
  }

  /** End of the longest run of ASCII letters that starts at i: how far the greedy
      `[a-zA-Z]{k,}` reaches before it starts giving letters back. */
  function LetterRunEnd(s: string, i: nat): (e: nat)
    requires i <= |s|
    ensures i <= e <= |s|
    ensures forall m :: i <= m < e ==> IsAsciiLetter(s[m])
    ensures e < |s| ==> !IsAsciiLetter(s[e])
    decreases |s| - i
  {
    if i < |s| && IsAsciiLetter(s[i]) then LetterRunEnd(s, i + 1) else i
  }

  /** Backtracking of the greedy quantifier: try the end positions j, j - 1, ..., i + k
      in that order and stop at the first one where the closing `\b` holds. */
  function Backtrack(s: string, i: nat, j: nat, k: nat): (r: Option<nat>)
    requires i <= j <= |s| && k >= 1
    ensures r.Some? ==> i + k <= r.value <= j && BoundaryAt(s, r.value)
    ensures r.None? ==> forall p :: i + k <= p <= j ==> !BoundaryAt(s, p)
    decreases j
  {
    if j < i + k then None
    else if BoundaryAt(s, j) then Some(j)
    else Backtrack(s, i, j - 1, k)
  }

  /** The end of the match that starts at i, if the pattern matches there. */
  function MatchAt(s: string, i: nat, k: nat): (r: Option<nat>)
    requires i <= |s| && k >= 1
    ensures r.Some? ==> i + k <= r.value <= |s|
  {
    if BoundaryAt(s, i) then Backtrack(s, i, LetterRunEnd(s, i), k) else None
  }

  /** `re.findall` from position i: at each position try a match; after a match the
      search resumes where the match ended, otherwise one position further on. */
  function ScanFrom(s: string, i: nat, k: nat): seq<string>
    requires i <= |s| && k >= 1
    decreases |s| - i
  {
    if i == |s| then []
    else match MatchAt(s, i, k)
      case Some(j) => [s[i..j]] + ScanFrom(s, j, k)
      case None => ScanFrom(s, i + 1, k)
  }

  /** `re.findall(r'\b[a-zA-Z]{k,}\b', s)` */
  function FindAll(s: string, k: nat): seq<string>
    requires k >= 1
  {
    ScanFrom(s, 0, k)
  }

  /** Length of the longest prefix of s made of word characters. */
  function WordRunLen(s: string): (n: nat)
    ensures n <= |s|
    ensures forall m :: 0 <= m < n ==> IsWordChar(s[m])
    ensures n < |s| ==> !IsWordChar(s[n])
    decreases |s|
  {
    if s != [] && IsWordChar(s[0]) then 1 + WordRunLen(s[1..]) else 0
  }

  /** Reference reading of the pattern: cut s into maximal runs of word characters and
      keep, in order, each run that is made only of letters and has at least k of them. */
  function LetterWords(s: string, k: nat): seq<string>
    decreases |s|
  {
    if s == [] then []
    else if !IsWordChar(s[0]) then LetterWords(s[1..], k)
    else
      var n := WordRunLen(s);
      (if n >= k && AllLetters(s[..n]) then [s[..n]] else []) + LetterWords(s[n..], k)
  }

  /** Position i is not strictly inside a run of word characters. */
  predicate AtSeam(s: string, i: nat)
  {
    i == 0 || i >= |s| || !IsWordChar(s[i - 1]) || !IsWordChar(s[i])
  }

  /** Inside a run of word characters `\b` never holds, so the scan skips to the run's end. */
  lemma {:induction false} SkipRun(s: string, m: nat, e: nat, k: nat)
    requires 0 < m <= e <= |s| && k >= 1
    requires forall p :: m - 1 <= p < e ==> IsWordChar(s[p])
    ensures ScanFrom(s, m, k) == ScanFrom(s, e, k)
    decreases e - m
  {
    if m < e {
      assert !BoundaryAt(s, m);
      SkipRun(s, m + 1, e, k);
    }
  }

  /** At the start of a maximal run s[i..i + n] of word characters the pattern matches
      exactly the whole run, and only when the run is all letters and at least k long. */
  lemma MatchAtRun(s: string, i: nat, n: nat, k: nat)
    requires i + n <= |s| && n >= 1 && k >= 1
    requires i == 0 || !IsWordChar(s[i - 1])
    requires forall m :: i <= m < i + n ==> IsWordChar(s[m])
    requires i + n == |s| || !IsWordChar(s[i + n])
    ensures MatchAt(s, i, k) == if n >= k && AllLetters(s[i..i + n]) then Some(i + n) else None
  {
    assert BoundaryAt(s, i);
    var e := LetterRunEnd(s, i);
    if AllLetters(s[i..i + n]) {
      forall m | i <= m < i + n
        ensures IsAsciiLetter(s[m])
      {
        assert s[m] == s[i..i + n][m - i];
      }
      assert e == i + n;
      assert BoundaryAt(s, i + n);
    } else {
      var m0 :| 0 <= m0 < n && !IsAsciiLetter(s[i..i + n][m0]);
      assert !IsAsciiLetter(s[i + m0]);
      assert e <= i + m0;
      assert IsWordChar(s[e]);
      forall p | i + 1 <= p <= e
        ensures !BoundaryAt(s, p)
      {
        assert WordAt(s, p - 1) && WordAt(s, p);
      }
    }
  }

  /** The regex and the reference agree from every seam on. */
  lemma {:induction false} ScanFromIsLetterWords(s: string, i: nat, k: nat)
    requires i <= |s| && k >= 1 && AtSeam(s, i)
    ensures ScanFrom(s, i, k) == LetterWords(s[i..], k)
    decreases |s| - i, 1
  {
    if i == |s| {
      assert s[i..] == [];
    } else if !IsWordChar(s[i]) {
      ScanPastNonWord(s, i, k);
    } else {
      ScanPastRun(s, i, k);
    }
  }

  lemma {:induction false} ScanPastNonWord(s: string, i: nat, k: nat)
    requires i < |s| && k >= 1 && !IsWordChar(s[i])
    ensures ScanFrom(s, i, k) == LetterWords(s[i..], k)
    decreases |s| - i, 0
  {
    NonWordStep(s, i, k);
    ScanFromIsLetterWords(s, i + 1, k);
  }

  lemma {:induction false} ScanPastRun(s: string, i: nat, k: nat)
    requires i < |s| && k >= 1 && AtSeam(s, i) && IsWordChar(s[i])
    ensures ScanFrom(s, i, k) == LetterWords(s[i..], k)
    decreases |s| - i, 0
  {
    var n := WordRunAt(s, i);
    ScanFromIsLetterWords(s, i + n, k);
    ScanRunStep(s, i, n, k);
    ReferenceRunStep(s, i, n, k);
  }

  /** A non-word character is skipped by both readings. */
  lemma NonWordStep(s: string, i: nat, k: nat)
    requires i < |s| && k >= 1 && !IsWordChar(s[i])
    ensures AtSeam(s, i + 1)
    ensures ScanFrom(s, i, k) == ScanFrom(s, i + 1, k)
    ensures LetterWords(s[i..], k) == LetterWords(s[i + 1..], k)
  {
    assert LetterRunEnd(s, i) == i;
    assert MatchAt(s, i, k) == None;
    ScanUnmatched(s, i, k);
    assert s[i..][1..] == s[i + 1..];
  }

  /** What one maximal run s[i..i + n] of word characters contributes: itself when it is
      all letters and at least k long, nothing otherwise. */
  function RunWords(s: string, i: nat, n: nat, k: nat): seq<string>
    requires i + n <= |s|
  {
    if n >= k && AllLetters(s[i..i + n]) then [s[i..i + n]] else []
  }

  /** Shape of the maximal run of word characters starting at i. */
  lemma WordRunAt(s: string, i: nat) returns (n: nat)
    requires i < |s| && IsWordChar(s[i])
    ensures n == WordRunLen(s[i..])
    ensures 1 <= n && i + n <= |s|
    ensures forall m :: i <= m < i + n ==> IsWordChar(s[m])
    ensures i + n == |s| || !IsWordChar(s[i + n])
    ensures AtSeam(s, i + n)
  {
    var t := s[i..];
    n := WordRunLen(t);
    forall m | i <= m < i + n
      ensures IsWordChar(s[m])
    {
      assert s[m] == t[m - i];
    }
    assert i + n < |s| ==> s[i + n] == t[n];
  }

  /** At the start of a maximal word run the regex emits the run when it qualifies and
      resumes after it. */
  lemma ScanRunStep(s: string, i: nat, n: nat, k: nat)
    requires i + n <= |s| && n >= 1 && k >= 1
    requires i == 0 || !IsWordChar(s[i - 1])
    requires forall m :: i <= m < i + n ==> IsWordChar(s[m])
    requires i + n == |s| || !IsWordChar(s[i + n])
    ensures ScanFrom(s, i, k) == RunWords(s, i, n, k) + ScanFrom(s, i + n, k)
  {
    MatchAtRun(s, i, n, k);
    if n >= k && AllLetters(s[i..i + n]) {
      ScanMatched(s, i, k);
    } else {
      ScanUnmatched(s, i, k);
      SkipRun(s, i + 1, i + n, k);
      assert RunWords(s, i, n, k) == [];
    }
  }

  lemma ScanMatched(s: string, i: nat, k: nat)
    requires i < |s| && k >= 1 && MatchAt(s, i, k).Some?
    ensures ScanFrom(s, i, k) == [s[i..MatchAt(s, i, k).value]] + ScanFrom(s, MatchAt(s, i, k).value, k)
  {
  }

  lemma ScanUnmatched(s: string, i: nat, k: nat)
    requires i < |s| && k >= 1 && MatchAt(s, i, k).None?
    ensures ScanFrom(s, i, k) == ScanFrom(s, i + 1, k)
  {
  }

  /** The reference reading of the same step. */
  lemma ReferenceRunStep(s: string, i: nat, n: nat, k: nat)
    requires i < |s| && n == WordRunLen(s[i..]) && i + n <= |s| && IsWordChar(s[i])
    ensures LetterWords(s[i..], k) == RunWords(s, i, n, k) + LetterWords(s[i + n..], k)
  {
    var t := s[i..];
    assert t[..n] == s[i..i + n] && t[n..] == s[i + n..];
  }

  /** `re.findall(r'\b[a-zA-Z]{k,}\b', s)` returns the maximal word-character runs that
      are all letters and at least k long, in text order. */
  lemma FindAllIsLetterWords(s: string, k: nat)
    requires k >= 1
    ensures FindAll(s, k) == LetterWords(s, k)
  {
    assert s[0..] == s;
    ScanFromIsLetterWords(s, 0, k);
  }

  /** Every reference word is all letters, at least k long, and built from characters of s. */
  lemma {:induction false} LetterWordsShape(s: string, k: nat)
    ensures forall w :: w in LetterWords(s, k) ==>
      |w| >= k && |w| >= 1 && AllLetters(w) && forall m :: 0 <= m < |w| ==> w[m] in s
    decreases |s|
  {
    if s != [] {
      if !IsWordChar(s[0]) {
        LetterWordsShape(s[1..], k);
        assert forall c :: c in s[1..] ==> c in s;
      } else {
        var n := WordRunLen(s);
        LetterWordsShape(s[n..], k);
        assert forall c :: c in s[n..] ==> c in s;
        assert forall m :: 0 <= m < n ==> s[..n][m] in s;
      }
    }
  }

  /** A non-word character separates: the words of a + [c] + b are those of a, then those of b. */
  lemma {:induction false} LetterWordsSplit(a: string, c: char, b: string, k: nat)
    requires !IsWordChar(c)
    ensures LetterWords(a + [c] + b, k) == LetterWords(a, k) + LetterWords(b, k)
    decreases |a|
  {
    var s := a + [c] + b;
    if a == [] {
      assert s == [c] + b && s[1..] == b;
    } else if !IsWordChar(a[0]) {
      assert s[1..] == a[1..] + [c] + b;
      LetterWordsSplit(a[1..], c, b, k);
    } else {
      var n := WordRunLen(a);
      WordRunSplit(a, c, b);
      assert s[0] == a[0];
      var head := if n >= k && AllLetters(a[..n]) then [a[..n]] else [];
      assert LetterWords(s, k) == head + LetterWords(a[n..] + [c] + b, k);
      assert LetterWords(a, k) == head + LetterWords(a[n..], k);
      LetterWordsSplit(a[n..], c, b, k);
    }
  }

  /** A non-word character ends the leading word run of a + [c] + b within a. */
  lemma WordRunSplit(a: string, c: char, b: string)
    requires !IsWordChar(c)
    ensures var s, n := a + [c] + b, WordRunLen(a);
      WordRunLen(s) == n && s[..n] == a[..n] && s[n..] == a[n..] + [c] + b
  {
    var s, n := a + [c] + b, WordRunLen(a);
    assert forall m :: 0 <= m < |a| ==> s[m] == a[m];
    assert s[|a|] == c;
    assert WordRunLen(s) <= |a|;
    assert WordRunLen(s) == n;
    assert s[..n] == a[..n];
    assert s[n..] == a[n..] + [c] + b;
  }

  /** Raising the minimum length from k to k + 1 is the same as dropping the k-letter words. */
  lemma {:induction false} LetterWordsLonger(s: string, k: nat, longer: string -> bool)
    requires forall w :: longer(w) == (|w| > k)
    ensures Seqs.Filter(LetterWords(s, k), longer) == LetterWords(s, k + 1)
    decreases |s|
  {
    if s != [] {
      if !IsWordChar(s[0]) {
        LetterWordsLonger(s[1..], k, longer);
      } else {
        var n := WordRunLen(s);
        var head := if n >= k && AllLetters(s[..n]) then [s[..n]] else [];
        Seqs.FilterAppend(head, LetterWords(s[n..], k), longer);
        LetterWordsLonger(s[n..], k, longer);
      }
    }
  }
}
