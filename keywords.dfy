/** Keyword extraction of main.py (`extract_keywords_from_text`): lower-case the text, take
    every `\b[a-zA-Z]{2,}\b` match, and keep the matches that are not stop-words and are
    longer than two letters. */
module Keywords {
  import opened WordRegex
  import Seqs

  /** The stop-word set of main.py: 50 words, written here in four groups in the source's
      order (articles, conjunctions and prepositions; forms of be, have and do; modals and
      demonstratives; personal pronouns). */
  const StopWords: set<string> := Connectives + Auxiliaries + Modals + Pronouns

  const Connectives: set<string> :=
    {"the", "a", "an", "and", "or", "but", "in", "on", "at", "to", "for", "of", "with", "by"}
  const Auxiliaries: set<string> :=
    {"is", "are", "was", "were", "be", "been", "have", "has", "had", "do", "does", "did"}
  const Modals: set<string> :=
    {"will", "would", "could", "should", "may", "might", "must", "can", "this", "that", "these", "those"}
  const Pronouns: set<string> :=
    {"i", "you", "he", "she", "it", "we", "they", "me", "him", "her", "us", "them"}

  /** `str.lower()` on ASCII; every other character is left as it is. */
  function LowerChar(c: char): char
  {
    if 'A' <= c <= 'Z' then (c as int + 32) as char else c
  }

  function Lower(t: string): string
  {
    seq(|t|, i requires 0 <= i < |t| => LowerChar(t[i]))
  }

  predicate NotStopWord(w: string)
  {
    w !in StopWords
  }

  /** The condition of the list comprehension: not a stop-word and `len(word) > 2`. */
  predicate LongerThanTwo(w: string)
  {
    |w| > 2
  }

  predicate IsKeyword(w: string)
  {
    NotStopWord(w) && LongerThanTwo(w)
  }

  function ExtractKeywords(text: string): seq<string>
  {
    Seqs.Filter(FindAll(Lower(text), 2), IsKeyword)
  }

  /** The tokens of a sequence of texts, one text after another (`list.extend` per text). */
  function KeywordsOfEach(texts: seq<string>): seq<string>
    decreases |texts|
  {
    if texts == [] then []
    else KeywordsOfEach(texts[..|texts| - 1]) + ExtractKeywords(texts[|texts| - 1])
  }

  lemma LowerIsLowercase(t: string)
    ensures forall c :: c in Lower(t) ==> !('A' <= c <= 'Z')
  {
    forall c | c in Lower(t)
      ensures !('A' <= c <= 'Z')
    {
      var i :| 0 <= i < |Lower(t)| && Lower(t)[i] == c;
    }
  }

  lemma LowerAppend(a: string, c: char, b: string)
    ensures Lower(a + [c] + b) == Lower(a) + [LowerChar(c)] + Lower(b)
  {
    var l, r := Lower(a + [c] + b), Lower(a) + [LowerChar(c)] + Lower(b);
    assert |l| == |r|;
    forall i | 0 <= i < |l|
      ensures l[i] == r[i]
    {
      if i < |a| {
        assert (a + [c] + b)[i] == a[i];
      } else if i == |a| {
        assert (a + [c] + b)[i] == c;
      } else {
        assert (a + [c] + b)[i] == b[i - |a| - 1];
      }
    }
  }

  /** The keywords are the letter-only word runs of the lower-cased text that are at least
      three letters long, in text order, minus the stop-words: `{2,}` followed by
      `len(word) > 2` selects the same runs as `{3,}`. */
  lemma KeywordsAreLetterWords(text: string)
    ensures ExtractKeywords(text) == Seqs.Filter(LetterWords(Lower(text), 3), NotStopWord)
  {
    var l := Lower(text);
    FindAllIsLetterWords(l, 2);
    var ws2 := LetterWords(l, 2);
    Seqs.FilterFilter(ws2, LongerThanTwo, NotStopWord, IsKeyword);
    LetterWordsLonger(l, 2, LongerThanTwo);
  }

  /** Every keyword has at least three characters, all of them `a`-`z`, and is not a
      stop-word. */
  lemma KeywordsWellFormed(text: string)
    ensures forall w :: w in ExtractKeywords(text) ==>
      |w| >= 3 && w !in StopWords && forall m :: 0 <= m < |w| ==> 'a' <= w[m] <= 'z'
  {
    var l := Lower(text);
    FindAllIsLetterWords(l, 2);
    Seqs.FilterMultiplicity(LetterWords(l, 2), IsKeyword);
    LetterWordsShape(l, 2);
    LowerIsLowercase(text);
    forall w | w in ExtractKeywords(text)
      ensures |w| >= 3 && w !in StopWords && forall m :: 0 <= m < |w| ==> 'a' <= w[m] <= 'z'
    {
      assert w in LetterWords(l, 2) && IsKeyword(w);
      forall m | 0 <= m < |w|
        ensures 'a' <= w[m] <= 'z'
      {
        assert w[m] in l && IsAsciiLetter(w[m]);
      }
    }
  }

  /** A non-word character separates two texts: their keywords are simply concatenated. */
  lemma KeywordsSplit(a: string, c: char, b: string)
    requires !IsWordChar(c)
    ensures ExtractKeywords(a + [c] + b) == ExtractKeywords(a) + ExtractKeywords(b)
  {
    LowerAppend(a, c, b);
    FindAllIsLetterWords(Lower(a + [c] + b), 2);
    FindAllIsLetterWords(Lower(a), 2);
    FindAllIsLetterWords(Lower(b), 2);
    LetterWordsSplit(Lower(a), LowerChar(c), Lower(b), 2);
    Seqs.FilterAppend(LetterWords(Lower(a), 2), LetterWords(Lower(b), 2), IsKeyword);
  }

  /** Tokenising `" ".join(texts)` gives the tokens of each text in turn. */
  lemma {:induction false} KeywordsOfJoin(texts: seq<string>)
    ensures ExtractKeywords(Seqs.Join(texts, " ")) == KeywordsOfEach(texts)
    decreases |texts|
  {
    if |texts| == 1 {
      assert KeywordsOfEach(texts) == KeywordsOfEach([]) + ExtractKeywords(texts[0]);
    } else if |texts| > 1 {
      var init := texts[..|texts| - 1];
      KeywordsOfJoin(init);
      assert Seqs.Join(texts, " ") == Seqs.Join(init, " ") + [' '] + texts[|texts| - 1];
      KeywordsSplit(Seqs.Join(init, " "), ' ', texts[|texts| - 1]);
    }
  }

  /** A digit or underscore glued to letters kills the whole run: "abc123" has no keyword. */
  lemma DigitsKillRun()
    ensures ExtractKeywords("abc123") == []
  {
    GluedKeywords("abc123", 3);
  }

  /** The underscore is a word character: "foo_bar" has no keyword. */
  lemma UnderscoreKillsRun()
    ensures ExtractKeywords("foo_bar") == []
  {
    GluedKeywords("foo_bar", 3);
  }

  /** A text that is one run of word characters with a digit or underscore in it has no
      keyword at all. */
  lemma GluedKeywords(t: string, m: nat)
    requires forall i :: 0 <= i < |t| ==> IsWordChar(t[i])
    requires m < |t| && !IsAsciiLetter(t[m])
    ensures ExtractKeywords(t) == []
  {
    var l := Lower(t);
    assert forall i :: 0 <= i < |l| ==> IsWordChar(l[i]);
    assert l[m] == t[m];
    GluedRun(l, m);
    KeywordsAreLetterWords(t);
  }

  /** A text that is one run of word characters with a non-letter at m has no letter word. */
  lemma GluedRun(t: string, m: nat)
    requires forall i :: 0 <= i < |t| ==> IsWordChar(t[i])
    requires m < |t| && !IsAsciiLetter(t[m])
    ensures LetterWords(t, 3) == []
  {
    assert WordRunLen(t) == |t|;
    assert t[..|t|][m] == t[m];
    assert t[|t|..] == [];
  }

  /** A text that is a single run of letters yields its lower-cased self, when that is long
      enough and not a stop-word, and nothing otherwise. */
  lemma SingleWord(t: string)
    requires t != [] && AllLetters(t)
    ensures ExtractKeywords(t) == if |t| > 2 && Lower(t) !in StopWords then [Lower(t)] else []
  {
    var l := Lower(t);
    KeywordsAreLetterWords(t);
    assert forall i :: 0 <= i < |l| ==> IsAsciiLetter(l[i]);
    OneLetterRun(l, 3);
  }

  /** A text that is one run of letters is its only letter word, when long enough. */
  lemma OneLetterRun(l: string, k: nat)
    requires l != [] && forall i :: 0 <= i < |l| ==> IsAsciiLetter(l[i])
    ensures LetterWords(l, k) == if |l| >= k then [l] else []
  {
    assert forall i :: 0 <= i < |l| ==> IsWordChar(l[i]);
    assert WordRunLen(l) == |l|;
    assert l[..|l|] == l && l[|l|..] == [];
  }

  /** A lower-case word longer than two letters that is not a stop-word is its own keyword. */
  lemma KeptAsIs(t: string)
    requires |t| > 2 && t !in StopWords
    requires forall i :: 0 <= i < |t| ==> 'a' <= t[i] <= 'z'
    ensures ExtractKeywords(t) == [t]
  {
    SingleWord(t);
    assert Lower(t) == t;
  }

  /** "today" and "about" are not stop-words: each is a keyword. */
  lemma TodayKept()
    ensures ExtractKeywords("today") == ["today"]
  {
    OutsideConnectives();
    OutsideAuxiliaries();
    OutsideModals();
    OutsidePronouns();
    KeptAsIs("today");
  }

  lemma AboutKept()
    ensures ExtractKeywords("about") == ["about"]
  {
    OutsideConnectives();
    OutsideAuxiliaries();
    OutsideModals();
    OutsidePronouns();
    KeptAsIs("about");
  }

  // Neither word is in any of the four groups of the stop-word set.
  lemma OutsideConnectives()
    ensures "today" !in Connectives && "about" !in Connectives
  {
  }

  lemma OutsideAuxiliaries()
    ensures "today" !in Auxiliaries && "about" !in Auxiliaries
  {
  }

  lemma OutsideModals()
    ensures "today" !in Modals && "about" !in Modals
  {
  }

  lemma OutsidePronouns()
    ensures "today" !in Pronouns && "about" !in Pronouns
  {
  }

  /** "AI" lower-cases to "ai", which is too short to be a keyword. */
  lemma AiDropped()
    ensures ExtractKeywords("AI") == []
  {
    assert AllLetters("AI");
    SingleWord("AI");
  }
}
