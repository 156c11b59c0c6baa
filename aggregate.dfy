/** `clean_and_aggregate_data` of main.py: one table of rows (keyword, source, rank, type)
    built from the Google Trends, Reddit and Hacker News inputs, followed by the twenty most
    common title keywords and the ten most common story domains. */
module Aggregate {
  import opened Wrappers
  import Seqs
  import Keywords
  import Ranking
  import D = Domains

  /** The `source` column. */
  datatype Source = GoogleTrends | Reddit | HackerNews | Extracted | Domains
  {
    function Label(): string
    {
      match this
      case GoogleTrends => "Google Trends"
      case Reddit => "Reddit"
      case HackerNews => "Hacker News"
      case Extracted => "Extracted"
      case Domains => "Domains"
    }
  }

  /** The `type` column. */
  datatype Kind = Keyword | PostTitle | ExtractedKeyword | Domain
  {
    function Label(): string
    {
      match this
      case Keyword => "keyword"
      case PostTitle => "post_title"
      case ExtractedKeyword => "extracted_keyword"
      case Domain => "domain"
    }
  }

  /** One input row of the Google Trends or Reddit table: its `keyword` (a search term or a
      post title) and its `rank`. */
  datatype Entry = Entry(keyword: string, rank: int)

  /** One input row of the Hacker News table; `url` is None where the column is missing or
      the value is NaN. */
  datatype Story = Story(keyword: string, rank: int, url: Option<string>)

  /** One output row. */
  datatype Row = Row(keyword: string, source: Source, rank: int, kind: Kind)

  const TitleLimit: nat := 100
  const TopKeywords: nat := 20
  const TopDomains: nat := 10

  /** `title[:100]`: the first hundred characters, or the whole title when it is shorter. */
  function Truncate(s: string): (t: string)
    ensures Seqs.IsPrefix(t, s) && |t| == Seqs.Min(|s|, TitleLimit)
    ensures |s| <= TitleLimit ==> t == s
  {
    s[..Seqs.Min(TitleLimit, |s|)]
  }

  function TrendRow(e: Entry): Row
  {
    Row(e.keyword, GoogleTrends, e.rank, Keyword)
  }

  function TitleRow(e: Entry, src: Source): Row
  {
    Row(Truncate(e.keyword), src, e.rank, PostTitle)
  }

  function CountRow(p: (string, nat), src: Source, kind: Kind): Row
  {
    Row(p.0, src, p.1, kind)
  }

  function TrendRows(gt: seq<Entry>): seq<Row>
  {
    seq(|gt|, i requires 0 <= i < |gt| => TrendRow(gt[i]))
  }

  function TitleRows(es: seq<Entry>, src: Source): seq<Row>
  {
    seq(|es|, i requires 0 <= i < |es| => TitleRow(es[i], src))
  }

  function CountRows(ps: seq<(string, nat)>, src: Source, kind: Kind): seq<Row>
  {
    seq(|ps|, i requires 0 <= i < |ps| => CountRow(ps[i], src, kind))
  }

  /** A story with its URL column dropped. */
  function Entries(hn: seq<Story>): seq<Entry>
  {
    seq(|hn|, i requires 0 <= i < |hn| => Entry(hn[i].keyword, hn[i].rank))
  }

  function Titles(es: seq<Entry>): seq<string>
  {
    seq(|es|, i requires 0 <= i < |es| => es[i].keyword)
  }

  /** The keywords of every (untruncated) title, title after title. */
  function TitleKeywords(es: seq<Entry>): seq<string>
  {
    Keywords.KeywordsOfEach(Titles(es))
  }

  /** The domains of the stories that have a URL, story after story. */
  function StoryDomains(hn: seq<Story>): seq<string>
    decreases |hn|
  {
    if hn == [] then []
    else
      var last := hn[|hn| - 1];
      StoryDomains(hn[..|hn| - 1]) + (if last.url.Some? then D.DomainsOf([last.url.value]) else [])
  }

  /** The keyword pool: Reddit tokens, then Hacker News tokens. */
  function Pool(reddit: seq<Entry>, hn: seq<Story>): seq<string>
  {
    TitleKeywords(reddit) + TitleKeywords(Entries(hn))
  }

  /** The rows copied from the three inputs. */
  function InputRows(gt: seq<Entry>, reddit: seq<Entry>, hn: seq<Story>): seq<Row>
  {
    TrendRows(gt) + TitleRows(reddit, Reddit) + TitleRows(Entries(hn), HackerNews)
  }

  function KeywordRows(reddit: seq<Entry>, hn: seq<Story>): seq<Row>
  {
    CountRows(Ranking.MostCommon(Pool(reddit, hn), TopKeywords), Extracted, ExtractedKeyword)
  }

  function DomainRows(hn: seq<Story>): seq<Row>
  {
    CountRows(Ranking.MostCommon(StoryDomains(hn), TopDomains), Domains, Domain)
  }

  /** The table `clean_and_aggregate_data` returns. */
  function Aggregated(gt: seq<Entry>, reddit: seq<Entry>, hn: seq<Story>): seq<Row>
  {
    InputRows(gt, reddit, hn) + KeywordRows(reddit, hn) + DomainRows(hn)
  }

  lemma TitleKeywordsStep(es: seq<Entry>, i: nat)
    requires i < |es|
    ensures TitleKeywords(es[..i + 1]) == TitleKeywords(es[..i]) + Keywords.ExtractKeywords(es[i].keyword)
  {
    var ts := Titles(es[..i + 1]);
    assert ts[..i] == Titles(es[..i]);
    assert ts[i] == es[i].keyword;
  }

  lemma TitleRowsStep(es: seq<Entry>, i: nat, src: Source)
    requires i < |es|
    ensures TitleRows(es[..i + 1], src) == TitleRows(es[..i], src) + [TitleRow(es[i], src)]
  {
  }

  /** The loop over the Google Trends rows. */
  method TrendSection(gt: seq<Entry>) returns (rows: seq<Row>)
    ensures rows == TrendRows(gt)
  {
    rows := [];
    for i := 0 to |gt|
      invariant rows == TrendRows(gt[..i])
    {
      assert TrendRows(gt[..i + 1]) == TrendRows(gt[..i]) + [TrendRow(gt[i])];
      rows := rows + [Row(gt[i].keyword, GoogleTrends, gt[i].rank, Keyword)];
    }
    assert gt[..|gt|] == gt;
  }

  /** The loop over the Reddit rows: a truncated title row per post, and the post's title
      keywords added to the pool. */
  method TitleSection(es: seq<Entry>, src: Source) returns (rows: seq<Row>, keywords: seq<string>)
    ensures rows == TitleRows(es, src)
    ensures keywords == TitleKeywords(es)
  {
    rows, keywords := [], [];
    for i := 0 to |es|
      invariant rows == TitleRows(es[..i], src)
      invariant keywords == TitleKeywords(es[..i])
    {
      TitleKeywordsStep(es, i);
      TitleRowsStep(es, i, src);
      var ks := Keywords.ExtractKeywords(es[i].keyword);
      keywords := keywords + ks;
      rows := rows + [Row(Truncate(es[i].keyword), src, es[i].rank, PostTitle)];
    }
    assert es[..|es|] == es;
  }

  /** The loop over the Hacker News rows: as for Reddit, and the domain of each story that
      has a URL added to the domain pool. */
  method StorySection(hn: seq<Story>) returns (rows: seq<Row>, keywords: seq<string>, domains: seq<string>)
    ensures rows == TitleRows(Entries(hn), HackerNews)
    ensures keywords == TitleKeywords(Entries(hn))
    ensures domains == StoryDomains(hn)
  {
    rows, keywords, domains := [], [], [];
    ghost var es := Entries(hn);
    for i := 0 to |hn|
      invariant rows == TitleRows(es[..i], HackerNews)
      invariant keywords == TitleKeywords(es[..i])
      invariant domains == StoryDomains(hn[..i])
    {
      TitleKeywordsStep(es, i);
      assert hn[..i + 1][..i] == hn[..i];
      TitleRowsStep(es, i, HackerNews);
      var ks := Keywords.ExtractKeywords(hn[i].keyword);
      keywords := keywords + ks;
      rows := rows + [Row(Truncate(hn[i].keyword), HackerNews, hn[i].rank, PostTitle)];
      if hn[i].url.Some? {
        var ds := D.ExtractDomainsFromUrls([hn[i].url.value]);
        domains := domains + ds;
      }
    }
    assert es[..|hn|] == es;
    assert hn[..|hn|] == hn;
  }

  /** The loop over `most_common(n)`: one row per (value, count) pair, the count as rank. */
  method CountSection(ps: seq<(string, nat)>, src: Source, kind: Kind) returns (rows: seq<Row>)
    ensures rows == CountRows(ps, src, kind)
  {
    rows := [];
    for i := 0 to |ps|
      invariant rows == CountRows(ps[..i], src, kind)
    {
      assert CountRows(ps[..i + 1], src, kind) == CountRows(ps[..i], src, kind) + [CountRow(ps[i], src, kind)];
      var (value, count) := ps[i];
      rows := rows + [Row(value, src, count, kind)];
    }
    assert ps[..|ps|] == ps;
  }

  /** `clean_and_aggregate_data(gt_data, reddit_data, hn_data)` */
  method CleanAndAggregate(gt: seq<Entry>, reddit: seq<Entry>, hn: seq<Story>)
    returns (allData: seq<Row>)
    ensures allData == Aggregated(gt, reddit, hn)
  {
    var trendRows := TrendSection(gt);
    var redditRows, redditKeywords := TitleSection(reddit, Reddit);
    var hnRows, hnKeywords, hnDomains := StorySection(hn);
    var keywordRows := CountSection(Ranking.MostCommon(redditKeywords + hnKeywords, TopKeywords), Extracted, ExtractedKeyword);
    var domainRows := CountSection(Ranking.MostCommon(hnDomains, TopDomains), Domains, Domain);
    allData := trendRows + redditRows + hnRows + keywordRows + domainRows;
  }

  /** The rows of a `most_common(n)` listing: min(n, distinct values) rows with the given
      source and type, each a value of xs ranked by its exact count (at least one), ranks
      non-increasing, no value twice. */
  lemma CountRowsSpec(xs: seq<string>, n: nat, src: Source, kind: Kind)
    ensures var rows := CountRows(Ranking.MostCommon(xs, n), src, kind);
      |rows| == Seqs.Min(n, |Ranking.Distinct(xs)|) &&
      (forall i :: 0 <= i < |rows| ==>
        rows[i].source == src && rows[i].kind == kind && rows[i].keyword in xs &&
        rows[i].rank == Ranking.Count(xs, rows[i].keyword) && rows[i].rank >= 1) &&
      (forall i, j :: 0 <= i < j < |rows| ==>
        rows[i].rank >= rows[j].rank && rows[i].keyword != rows[j].keyword)
  {
    Ranking.MostCommonSpec(xs, n);
  }

  /** Row count: one row per input row, then min(20, distinct pooled keywords) and
      min(10, distinct story domains). */
  lemma AggregatedLength(gt: seq<Entry>, reddit: seq<Entry>, hn: seq<Story>)
    ensures |Aggregated(gt, reddit, hn)| ==
      |gt| + |reddit| + |hn| +
      Seqs.Min(TopKeywords, |Ranking.Distinct(Pool(reddit, hn))|) +
      Seqs.Min(TopDomains, |Ranking.Distinct(StoryDomains(hn))|)
  {
    CountRowsSpec(Pool(reddit, hn), TopKeywords, Extracted, ExtractedKeyword);
    CountRowsSpec(StoryDomains(hn), TopDomains, Domains, Domain);
    assert |InputRows(gt, reddit, hn)| == |gt| + |reddit| + |hn|;
  }

  /** The table is empty exactly when all three inputs are: with no input rows there is
      nothing to tokenise and no URL to read. */
  lemma AggregatedEmpty(gt: seq<Entry>, reddit: seq<Entry>, hn: seq<Story>)
    ensures Aggregated(gt, reddit, hn) == [] <==> gt == [] && reddit == [] && hn == []
  {
    AggregatedLength(gt, reddit, hn);
    if gt == [] && reddit == [] && hn == [] {
      assert Titles(reddit) == [] && Titles(Entries(hn)) == [];
      assert Pool(reddit, hn) == [];
      assert StoryDomains(hn) == [];
    }
  }

  /** The input rows come first, in input order: Google Trends keywords untruncated with
      type `keyword`, then Reddit and Hacker News titles cut to 100 characters with type
      `post_title`; every rank is copied from its input row. */
  lemma InputRowsFirst(gt: seq<Entry>, reddit: seq<Entry>, hn: seq<Story>)
    ensures var rows := Aggregated(gt, reddit, hn);
      |rows| >= |gt| + |reddit| + |hn| &&
      (forall i :: 0 <= i < |gt| ==>
        rows[i] == Row(gt[i].keyword, GoogleTrends, gt[i].rank, Keyword)) &&
      (forall i :: 0 <= i < |reddit| ==>
        rows[|gt| + i] == Row(Truncate(reddit[i].keyword), Reddit, reddit[i].rank, PostTitle)) &&
      (forall i :: 0 <= i < |hn| ==>
        rows[|gt| + |reddit| + i] == Row(Truncate(hn[i].keyword), HackerNews, hn[i].rank, PostTitle))
  {
    InputRowsLayout(gt, reddit, hn);
    AggregatedStartsWithInputRows(gt, reddit, hn);
  }

  lemma InputRowsLayout(gt: seq<Entry>, reddit: seq<Entry>, hn: seq<Story>)
    ensures var front := InputRows(gt, reddit, hn);
      |front| == |gt| + |reddit| + |hn| &&
      (forall i :: 0 <= i < |gt| ==>
        front[i] == Row(gt[i].keyword, GoogleTrends, gt[i].rank, Keyword)) &&
      (forall i :: 0 <= i < |reddit| ==>
        front[|gt| + i] == Row(Truncate(reddit[i].keyword), Reddit, reddit[i].rank, PostTitle)) &&
      (forall i :: 0 <= i < |hn| ==>
        front[|gt| + |reddit| + i] == Row(Truncate(hn[i].keyword), HackerNews, hn[i].rank, PostTitle))
  {
  }

  lemma AggregatedStartsWithInputRows(gt: seq<Entry>, reddit: seq<Entry>, hn: seq<Story>)
    ensures var front := InputRows(gt, reddit, hn);
      var rows := Aggregated(gt, reddit, hn);
      |rows| >= |front| && forall i :: 0 <= i < |front| ==> rows[i] == front[i]
  {
  }

  /** Then the extracted keywords and then the domains, each section ranked by count. */
  lemma CountedRowsLast(gt: seq<Entry>, reddit: seq<Entry>, hn: seq<Story>)
    ensures var rows := Aggregated(gt, reddit, hn);
      var o := |gt| + |reddit| + |hn|;
      var nk := Seqs.Min(TopKeywords, |Ranking.Distinct(Pool(reddit, hn))|);
      var pool, domains := Pool(reddit, hn), StoryDomains(hn);
      |rows| == o + nk + Seqs.Min(TopDomains, |Ranking.Distinct(domains)|) &&
      (forall i :: o <= i < o + nk ==>
        rows[i].source == Extracted && rows[i].kind == ExtractedKeyword &&
        rows[i].keyword in pool && rows[i].rank == Ranking.Count(pool, rows[i].keyword) &&
        rows[i].rank >= 1) &&
      (forall i :: o + nk <= i < |rows| ==>
        rows[i].source == Domains && rows[i].kind == Domain &&
        rows[i].keyword in domains && rows[i].rank == Ranking.Count(domains, rows[i].keyword) &&
        rows[i].rank >= 1)
  {
    var pool, domains := Pool(reddit, hn), StoryDomains(hn);
    CountRowsSpec(pool, TopKeywords, Extracted, ExtractedKeyword);
    CountRowsSpec(domains, TopDomains, Domains, Domain);
    InputRowsLayout(gt, reddit, hn);
    AggregatedEndsWithCountedRows(gt, reddit, hn);
  }

  lemma AggregatedEndsWithCountedRows(gt: seq<Entry>, reddit: seq<Entry>, hn: seq<Story>)
    ensures var o := |InputRows(gt, reddit, hn)|;
      var kr, dr := KeywordRows(reddit, hn), DomainRows(hn);
      var rows := Aggregated(gt, reddit, hn);
      |rows| == o + |kr| + |dr| &&
      (forall i :: o <= i < o + |kr| ==> rows[i] == kr[i - o]) &&
      (forall i :: o + |kr| <= i < |rows| ==> rows[i] == dr[i - o - |kr|])
  {
    ThreeSections(InputRows(gt, reddit, hn), KeywordRows(reddit, hn), DomainRows(hn));
  }

  lemma ThreeSections(a: seq<Row>, b: seq<Row>, c: seq<Row>)
    ensures |a + b + c| == |a| + |b| + |c|
    ensures forall i :: |a| <= i < |a| + |b| ==> (a + b + c)[i] == b[i - |a|]
    ensures forall i :: |a| + |b| <= i < |a| + |b| + |c| ==> (a + b + c)[i] == c[i - |a| - |b|]
  {
  }

  /** `hn_data['url'].fillna('')` */
  function FillNa(hn: seq<Story>): seq<string>
  {
    seq(|hn|, i requires 0 <= i < |hn| => if hn[i].url.Some? then hn[i].url.value else "")
  }

  /** The domain pool is what the Hacker News tab extracts from the URL column with missing
      values filled by "": a missing URL contributes nothing. */
  lemma {:induction false} StoryDomainsOfUrls(hn: seq<Story>)
    ensures StoryDomains(hn) == D.DomainsOf(FillNa(hn))
    decreases |hn|
  {
    if hn != [] {
      var init := hn[..|hn| - 1];
      var u := FillNa(hn);
      StoryDomainsOfUrls(init);
      assert u[..|u| - 1] == FillNa(init);
      assert u == FillNa(init) + [u[|u| - 1]];
      D.DomainsOfAppend(FillNa(init), [u[|u| - 1]]);
      if hn[|hn| - 1].url.None? {
        assert !D.StartsWith("", "http");
        assert D.DomainsOf([""]) == [];
      }
    }
  }

  /** Only stories with a URL feed the domain pool: every pooled domain is non-empty and
      part of the URL of such a story, a URL starting with "http". */
  lemma DomainsFromStoryUrls(hn: seq<Story>)
    ensures |StoryDomains(hn)| <= |hn|
    ensures forall d :: d in StoryDomains(hn) ==>
      d != [] &&
      exists i :: 0 <= i < |hn| && hn[i].url.Some? &&
        D.StartsWith(hn[i].url.value, "http") && D.IsSubstring(d, hn[i].url.value)
  {
    var urls := FillNa(hn);
    StoryDomainsOfUrls(hn);
    D.DomainsFromHttpUrls(urls);
    forall d | d in StoryDomains(hn)
      ensures d != [] &&
        exists i :: 0 <= i < |hn| && hn[i].url.Some? &&
          D.StartsWith(hn[i].url.value, "http") && D.IsSubstring(d, hn[i].url.value)
    {
      var u :| u in urls && D.StartsWith(u, "http") && D.IsSubstring(d, u);
      var i :| 0 <= i < |urls| && urls[i] == u;
      assert hn[i].url.Some?;
    }
  }

  /** The Hacker News tab's domain ranking is the one behind the `Domains` rows. */
  lemma HackerNewsTabDomains(hn: seq<Story>)
    ensures Ranking.MostCommon(D.DomainsOf(FillNa(hn)), TopDomains) ==
            Ranking.MostCommon(StoryDomains(hn), TopDomains)
  {
    StoryDomainsOfUrls(hn);
  }

  /** The Reddit tab tokenises all titles joined by spaces; that gives exactly the Reddit
      part of the keyword pool. */
  lemma RedditTabKeywords(reddit: seq<Entry>)
    ensures Keywords.ExtractKeywords(Seqs.Join(Titles(reddit), " ")) == TitleKeywords(reddit)
  {
    Keywords.KeywordsOfJoin(Titles(reddit));
  }

  /** The pool holds Reddit tokens before Hacker News tokens, so on equal counts a Reddit
      word beats a word seen only on Hacker News: if the latter gets an `Extracted` row, so
      does the former, ahead of it. */
  lemma RedditWinsTies(reddit: seq<Entry>, hn: seq<Story>, u: string, v: string)
    requires u in TitleKeywords(reddit)
    requires v in TitleKeywords(Entries(hn)) && v !in TitleKeywords(reddit)
    requires Ranking.Count(Pool(reddit, hn), u) == Ranking.Count(Pool(reddit, hn), v)
    requires v in Ranking.Keys(Ranking.MostCommon(Pool(reddit, hn), TopKeywords))
    ensures var top := Ranking.MostCommon(Pool(reddit, hn), TopKeywords);
      u in Ranking.Keys(top) && Ranking.KeyIndex(top, u) < Ranking.KeyIndex(top, v)
  {
    Ranking.EarlierPartListedFirst(TitleKeywords(reddit), TitleKeywords(Entries(hn)), u, v, TopKeywords);
  }
}
