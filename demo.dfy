/** The keyword extractor of run_demo.py (`extract_keywords_demo`) and its top-five
    listing: lower-case the text, take every `\b[a-zA-Z]{3,}\b` match, and keep the matches
    that are not in a 14-word stop set. */
module Demo {
  import opened WordRegex
  import opened Keywords
  import Seqs
  import Ranking

  /** The demo's stop set: the same 14 articles, conjunctions and prepositions that open
      main.py's set. */
  const DemoStopWords: set<string> := Connectives

  predicate NotDemoStopWord(w: string)
  {
    w !in DemoStopWords
  }

  function ExtractKeywordsDemo(text: string): seq<string>
  {
    Seqs.Filter(FindAll(Lower(text), 3), NotDemoStopWord)
  }

  /** `" ".join(titles.head(3))`: the first three titles, joined by single spaces. */
  function SampleText(titles: seq<string>): string
  {
    Seqs.Join(titles[..Seqs.Min(3, |titles|)], " ")
  }

  /** `Counter(extract_keywords_demo(sample_text)).most_common(5)` */
  function DemoTopKeywords(titles: seq<string>): seq<(string, nat)>
  {
    Ranking.MostCommon(ExtractKeywordsDemo(SampleText(titles)), 5)
  }

  /** The demo's tokens are the letter-only word runs of the lower-cased text that are at
      least three letters long, in text order, minus the demo stop-words. */
  lemma DemoIsLetterWords(text: string)
    ensures ExtractKeywordsDemo(text) == Seqs.Filter(LetterWords(Lower(text), 3), NotDemoStopWord)
  {
    FindAllIsLetterWords(Lower(text), 3);
  }

  /** Every demo token has at least three characters, all of them `a`-`z`, and is not a
      demo stop-word. */
  lemma DemoWellFormed(text: string)
    ensures forall w :: w in ExtractKeywordsDemo(text) ==>
      |w| >= 3 && w !in DemoStopWords && forall m :: 0 <= m < |w| ==> 'a' <= w[m] <= 'z'
  {
    var l := Lower(text);
    FindAllIsLetterWords(l, 3);
    Seqs.FilterMultiplicity(LetterWords(l, 3), NotDemoStopWord);
    LetterWordsShape(l, 3);
    LowerIsLowercase(text);
    forall w | w in ExtractKeywordsDemo(text)
      ensures |w| >= 3 && w !in DemoStopWords && forall m :: 0 <= m < |w| ==> 'a' <= w[m] <= 'z'
    {
      assert w in LetterWords(l, 3) && NotDemoStopWord(w);
      forall m | 0 <= m < |w|
        ensures 'a' <= w[m] <= 'z'
      {
        assert w[m] in l && IsAsciiLetter(w[m]);
      }
    }
  }

  /** main.py's extractor is the demo's with main.py's larger stop set filtered out, so its
      tokens are a subsequence of the demo's. */
  lemma MainIsFilteredDemo(text: string)
    ensures ExtractKeywords(text) == Seqs.Filter(ExtractKeywordsDemo(text), NotStopWord)
    ensures Seqs.IsSubsequence(ExtractKeywords(text), ExtractKeywordsDemo(text))
  {
    var ws := LetterWords(Lower(text), 3);
    KeywordsAreLetterWords(text);
    DemoIsLetterWords(text);
    Seqs.FilterFilter(ws, NotDemoStopWord, NotStopWord, NotStopWord);
    Seqs.FilterIsSubsequence(ExtractKeywordsDemo(text), NotStopWord);
  }

  /** A non-word character separates two texts: their demo tokens are concatenated. */
  lemma DemoSplit(a: string, c: char, b: string)
    requires !IsWordChar(c)
    ensures ExtractKeywordsDemo(a + [c] + b) == ExtractKeywordsDemo(a) + ExtractKeywordsDemo(b)
  {
    LowerAppend(a, c, b);
    DemoIsLetterWords(a + [c] + b);
    DemoIsLetterWords(a);
    DemoIsLetterWords(b);
    LetterWordsSplit(Lower(a), LowerChar(c), Lower(b), 3);
    Seqs.FilterAppend(LetterWords(Lower(a), 3), LetterWords(Lower(b), 3), NotDemoStopWord);
  }

  /** The demo tokens of a sequence of texts, one text after another. */
  function DemoKeywordsOfEach(texts: seq<string>): seq<string>
    decreases |texts|
  {
    if texts == [] then []
    else DemoKeywordsOfEach(texts[..|texts| - 1]) + ExtractKeywordsDemo(texts[|texts| - 1])
  }

  /** Tokenising `" ".join(texts)` gives the demo tokens of each text in turn: the tokens
      are in text order, title by title. */
  lemma {:induction false} DemoOfJoin(texts: seq<string>)
    ensures ExtractKeywordsDemo(Seqs.Join(texts, " ")) == DemoKeywordsOfEach(texts)
    decreases |texts|
  {
    if |texts| == 1 {
      assert DemoKeywordsOfEach(texts) == DemoKeywordsOfEach([]) + ExtractKeywordsDemo(texts[0]);
    } else if |texts| > 1 {
      var init := texts[..|texts| - 1];
      DemoOfJoin(init);
      assert Seqs.Join(texts, " ") == Seqs.Join(init, " ") + [' '] + texts[|texts| - 1];
      DemoSplit(Seqs.Join(init, " "), ' ', texts[|texts| - 1]);
    }
  }

  /** A lower-case word of three letters or more that main.py's set lists and the demo's
      does not ("this", "will", "have", ...) is kept by the demo and dropped by main.py. */
  lemma DemoKeepsWhatMainDrops(t: string)
    requires |t| > 2 && t in StopWords && t !in DemoStopWords
    requires forall i :: 0 <= i < |t| ==> 'a' <= t[i] <= 'z'
    ensures ExtractKeywordsDemo(t) == [t]
    ensures ExtractKeywords(t) == []
  {
    assert forall i :: 0 <= i < |t| ==> IsAsciiLetter(t[i]);
    SingleWord(t);
    assert Lower(t) == t;
    DemoIsLetterWords(t);
    OneLetterRun(t, 3);
  }

  /** "this" and "will" are demo tokens but not main.py keywords. */
  lemma ThisKept()
    ensures ExtractKeywordsDemo("this") == ["this"] && ExtractKeywords("this") == []
  {
    assert "this" in Modals && "this" !in Connectives;
    DemoKeepsWhatMainDrops("this");
  }

  lemma WillKept()
    ensures ExtractKeywordsDemo("will") == ["will"] && ExtractKeywords("will") == []
  {
    assert "will" in Modals && "will" !in Connectives;
    DemoKeepsWhatMainDrops("will");
  }

  /** The demo's top-five listing: at most five pairs, min(5, distinct tokens) of them; each
      a token of the first three titles with its exact count, at least one; counts
      non-increasing, ties in first-seen order; no token repeated. */
  lemma DemoTopSpec(titles: seq<string>)
    ensures var kws := DemoKeywordsOfEach(titles[..Seqs.Min(3, |titles|)]);
      var r := DemoTopKeywords(titles);
      |r| <= 5 && |r| == Seqs.Min(5, |Ranking.Distinct(kws)|) &&
      Ranking.RankedBy(kws, r) &&
      (forall i :: 0 <= i < |r| ==>
        r[i].0 in kws && r[i].1 == Ranking.Count(kws, r[i].0) && r[i].1 >= 1) &&
      (forall i, j :: 0 <= i < j < |r| ==> r[i].1 >= r[j].1 && r[i].0 != r[j].0)
  {
    DemoOfJoin(titles[..Seqs.Min(3, |titles|)]);
    Ranking.MostCommonSpec(ExtractKeywordsDemo(SampleText(titles)), 5);
  }
}
