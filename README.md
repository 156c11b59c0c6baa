# NetTrends text pipeline, modelled in Dafny

NetTrends is a Streamlit dashboard. It collects trending search terms from Google
Trends, popular post titles from Reddit and front-page stories from Hacker News. It then
builds one table from them. This project models the part that turns those inputs into
the table, and proves what that part guarantees:

- `keywords.dfy`: the keyword extractor `extract_keywords_from_text`, modelled by
  `Keywords.ExtractKeywords`. It lower-cases the
  text, runs `re.findall(r'\b[a-zA-Z]{2,}\b', ...)` and drops the stop-words and every
  token of two letters or fewer.
- `word_regex.dfy`: the regex. `WordRegex.FindAll` models `re.findall` as Python's
  backtracking matcher, with Python's `\b`.
  - A word character is an ASCII letter, a digit or `_`. Every other character, non-ASCII
    included, is a non-word character.
  - `FindAllIsLetterWords` proves the matcher equal to a simple reference: the maximal
    runs of word characters that are letters only and long enough.
- `domains.dfy`: the domain extractor `extract_domains_from_urls`, the method
  `Domains.ExtractDomainsFromUrls`, specified by `Domains.DomainsOf` and, per URL,
  `Domains.DomainOf` with `Domains.Netloc`. It is a loop that keeps
  `urlparse(url).netloc` for URLs starting with `http`. The netloc is the authority of
  section 3.2 of RFC 3986 (userinfo@host:port). It is found the way `urlsplit` finds it:
  - the scheme is the text before the first `:`, when it is a valid scheme;
  - then, when the rest starts with `//`, the netloc runs up to the first `/`, `?` or `#`.
- `ranking.dfy`: `Counter(xs).most_common(n)`, modelled by `Ranking.MostCommon`:
  - keys in first-seen order;
  - a stable sort by count, largest first;
  - the first n pairs.
- `aggregate.dfy`: `clean_and_aggregate_data`, the method `Aggregate.CleanAndAggregate`
  with one method per loop of the original, specified by `Aggregate.Aggregated`. Its rows
  come in this order:
  - Google Trends rows;
  - Reddit and Hacker News title rows, cut to 100 characters;
  - the 20 most common title keywords of the pooled Reddit and Hacker News tokens;
  - the 10 most common Hacker News domains.
- `overview.dfy`: the Overview tab. `Overview.Selected` filters rows by the selected
  sources and types and `Overview.TopTable` shows the first 20 of them.
- `demo.dfy`: `extract_keywords_demo` of `run_demo.py` (`Demo.ExtractKeywordsDemo`), with
  its 14-word stop set and `{3,}`, and the demo's top-five listing of the first three
  Reddit titles (`Demo.DemoTopKeywords`).
- `seqs.dfy`, `wrappers.dfy`: list comprehensions with a condition, `str.join`,
  subsequences and prefixes, and `Option`.

Inputs are sequences of records: `Entry` for Google Trends and Reddit rows, and `Story`
for Hacker News rows, whose `url` is `None` where the column is missing or NaN. The
output is a sequence of `Row(keyword, source, rank, kind)`. `Source.Label()` and
`Kind.Label()` give the strings the table holds: 'Google Trends', 'Reddit',
'Hacker News', 'Extracted', 'Domains', and 'keyword', 'post_title',
'extracted_keyword', 'domain'.

Points where the code decides and the model follows it:

- The stop set of `main.py` lists 50 words (main.py:219).
  - `Keywords.StopWords` writes them in four groups, in the source's order.
  - The demo's 14 words are exactly the first group, `Keywords.Connectives`.
- Digits and `_` are word characters for `\b`, so `"abc123"` and `"foo_bar"` give no
  token (`Keywords.DigitsKillRun`, `Keywords.UnderscoreKillsRun`).
- "today" and "about" are not in main.py's stop set and are kept (`Keywords.TodayKept`,
  `Keywords.AboutKept`). "ai" has two letters and is dropped (`Keywords.AiDropped`).
- Titles are tokenised before truncation (main.py:256, 269). Only the stored row text is
  cut to 100 characters.

## Model

| member | source | states |
|---|---|---|
| `WordRegex.Backtrack` | main.py:222 | the greedy `[a-zA-Z]{k,}` match followed by `\b`, backtracking: a found end lies at least k letters on and is a word boundary; None means no boundary in the reachable range |
| `WordRegex.LetterRunEnd` | main.py:222 | how far the greedy `[a-zA-Z]{k,}` reaches: the end of the letter run, the next character not a letter |
| `WordRegex.MatchAt` | main.py:222 | a match starting at i ends at least k characters on, within the text |
| `WordRegex.WordRunLen` | main.py:222 | the longest prefix of word characters, followed by a non-word character or the end |
| `WordRegex.SkipRun` | main.py:222 | inside a run of word characters `\b` fails, so the scan resumes at the run's end |
| `WordRegex.MatchAtRun` | main.py:222 | at the start of a maximal word run of length n the pattern matches exactly when the run is all letters and n is at least k, and then ends at the run's end |
| `WordRegex.ScanFromIsLetterWords` | main.py:222 | the scan from any position between word runs yields the reference letter words of the rest of the text |
| `WordRegex.ScanPastNonWord` | main.py:222 | at a non-word character both the scan and the reference move on by one and still agree |
| `WordRegex.ScanPastRun` | main.py:222 | at the start of a word run both the scan and the reference move past the whole run and still agree |
| `WordRegex.NonWordStep` | main.py:222 | a non-word character is skipped by the scan and contributes nothing to the reference |
| `WordRegex.WordRunAt` | main.py:222 | the word run starting at a word character is at least one long, stays in the text and ends at a seam |
| `WordRegex.ScanRunStep` | main.py:222 | scanning a whole word run yields the run itself if it is all letters and long enough, else nothing, then resumes after it |
| `WordRegex.ReferenceRunStep` | main.py:222 | the reference letter words of a text starting with a word run are that run (if it qualifies) followed by those of the rest |
| `WordRegex.FindAllIsLetterWords` | main.py:222 | `re.findall(r'\b[a-zA-Z]{k,}\b', s)` yields exactly the maximal runs of word characters that are all letters and at least k long, in text order |
| `WordRegex.LetterWordsShape` | main.py:222 | every match is at least k long, all ASCII letters, and its characters occur in the text |
| `WordRegex.LetterWordsSplit` | main.py:222 | a non-word character splits the text: the matches of a+c+b are those of a followed by those of b |
| `WordRegex.LetterWordsLonger` | main.py:222-223 | keeping the `{k,}` matches longer than k gives the `{k+1,}` matches |
| `Keywords.LowerIsLowercase` | main.py:222 | `text.lower()` leaves no ASCII capital |
| `Keywords.KeywordsAreLetterWords` | main.py:222-223 | the keywords are the letter runs of at least three letters of the lower-cased text, minus stop-words, in text order |
| `Keywords.KeywordsWellFormed` | main.py:219-223 | every keyword is at least 3 long, only `a`-`z`, and not a stop-word |
| `Keywords.KeywordsSplit` | main.py:222-223 | a non-word character separates: keywords of a+c+b are those of a then those of b |
| `Keywords.KeywordsOfJoin` | main.py:426-427 | tokenising `' '.join(texts)` gives each text's keywords in turn |
| `Keywords.DigitsKillRun` | main.py:222 | "abc123" yields no keyword: a digit glued to letters removes the word boundary |
| `Keywords.UnderscoreKillsRun` | main.py:222 | "foo_bar" yields no keyword: `_` is a word character |
| `Keywords.GluedKeywords` | main.py:222 | a text that is one run of word characters with a digit or `_` in it has no keyword |
| `Keywords.SingleWord` | main.py:222-223 | a text that is one letter run yields its lower-cased self if longer than two and not a stop-word, else nothing |
| `Keywords.OneLetterRun` | main.py:222 | a text that is one letter run is its only match when at least k long, and has none otherwise |
| `Keywords.KeptAsIs` | main.py:222-223 | a lower-case word longer than two letters outside the stop set is its own only keyword |
| `Keywords.TodayKept` | main.py:219-223 | "today" is kept |
| `Keywords.AboutKept` | main.py:219-223 | "about" is kept |
| `Keywords.AiDropped` | main.py:222-223 | "AI" yields nothing: "ai" is too short |
| `Ranking.Distinct` | main.py:284 | the Counter's keys: exactly the values of the input, each once |
| `Ranking.FirstIndex` | main.py:284 | the position at which the Counter first meets a value |
| `Ranking.Insert` | main.py:285 | stable insertion by count adds exactly the one pair |
| `Ranking.SortByCount` | main.py:285 | the stable sort by count is a permutation of its input |
| `Ranking.CountPositive` | main.py:284 | every value of the input is counted at least once |
| `Ranking.DistinctFirstSeen` | main.py:284 | the Counter's keys are in increasing first-seen position |
| `Ranking.InsertRanked` | main.py:285 | insertion keeps a list ranked (count descending, ties by first-seen order) |
| `Ranking.RankedCons` | main.py:285 | a ranked list stays ranked under a head that ranks before each of its pairs |
| `Ranking.SortRanked` | main.py:285 | sorting pairs given in first-seen order ranks them by count descending, ties in first-seen order |
| `Ranking.SortedTally` | main.py:284-285 | the sorted Counter lists every distinct value exactly once with its exact count, ranked |
| `Ranking.TopOfRanked` | main.py:285 | the first n pairs of a complete ranking: exact counts at least one, ranked, and every left-out value ranks after every kept one |
| `Ranking.MostCommonSpec` | main.py:284-285 | `most_common(n)` returns min(n, distinct values) pairs, each a value with its exact count at least one; counts non-increasing, ties in first-seen order, no key twice; a value left out means n pairs were returned, all ranking ahead of it |
| `Ranking.EarlierPartWinsTies` | main.py:284 | in `Counter(a + b)` a value of a ranks ahead of an equally frequent value found only in b |
| `Ranking.KeyIndex` | main.py:285 | the position of a value among the listed pairs |
| `Ranking.EarlierPartListedFirst` | main.py:284-285 | if an equally frequent value found only in b is listed by `most_common(n)`, the value of a is listed too, ahead of it |
| `Ranking.SortOfOrdered` | main.py:285 | a list already ordered by count comes back unchanged from the stable sort |
| `Ranking.MostCommonIdempotent` | main.py:285 | re-sorting a `most_common` result changes nothing |
| `Domains.FindColon` | main.py:233 | the first `:` from a position on, or the end |
| `Domains.AuthorityEnd` | main.py:233 | the first `/`, `?` or `#` from a position on, or the end |
| `Domains.Netloc` | main.py:233 | `urlparse(url).netloc`: after the scheme and `//`, the longest run without `/`, `?`, `#`; empty without `//` |
| `Domains.ExtractDomainsFromUrls` | main.py:227-238 | the loop returns the domain of every URL that starts with "http" and has a non-empty netloc, in input order |
| `Domains.DomainOfSpec` | main.py:232-235 | a URL not starting with "http" gives nothing; a domain is non-empty, a substring of its URL, free of `/`, `?`, `#` |
| `Domains.DomainsOfAppend` | main.py:230-235 | the domains of a+b are those of a followed by those of b |
| `Domains.DomainsAreAcceptedNetlocs` | main.py:230-235 | the output is the netlocs of the accepted URLs, in input order |
| `Domains.DomainsOfSnoc` | main.py:230-235 | the last URL adds its netloc exactly when it is accepted |
| `Domains.NetlocsAppend` | main.py:233 | netlocs of a+b are those of a then those of b |
| `Domains.DomainsFromHttpUrls` | main.py:229-238 | no more domains than URLs; each domain non-empty and a substring of an input URL starting with "http" |
| `Domains.AcceptedDomain` | main.py:232-235 | an accepted URL starts with "http" and its netloc is a non-empty substring of it |
| `Domains.NonHttpIgnored` | main.py:232 | inserting a URL not starting with "http" anywhere changes nothing |
| `Domains.NetlocOfAuthority` | main.py:233 | for `scheme://host` followed by a path, query, fragment or nothing, the netloc is host, userinfo and port included |
| `Domains.NoAuthorityWithoutSlashes` | main.py:233 | `scheme:` not followed by `//` has an empty netloc |
| `Aggregate.Truncate` | main.py:259 | `title[:100]` is a prefix of the title of length min(len, 100), the title itself when it is not longer |
| `Aggregate.TrendSection` | main.py:245-251 | the Google Trends loop appends one `keyword` row per input row, keyword and rank copied |
| `Aggregate.TitleSection` | main.py:254-263 | the Reddit loop appends one truncated `post_title` row per post and pools the post's keywords, post after post |
| `Aggregate.StorySection` | main.py:266-281 | the Hacker News loop does the same and pools the domain of each story that has a URL |
| `Aggregate.CountSection` | main.py:285-291 | the loop over a `most_common` result appends one row per pair, with the count as rank |
| `Aggregate.CleanAndAggregate` | main.py:240-303 | the method returns the table: input rows, then top-20 keyword rows, then top-10 domain rows |
| `Aggregate.CountRowsSpec` | main.py:284-301 | counted rows: min(n, distinct) rows with fixed source and type, each a pooled value ranked by its exact count at least one, ranks non-increasing, no value twice |
| `Aggregate.AggregatedLength` | main.py:240-303 | row count is \|gt\| + \|reddit\| + \|hn\| + min(20, distinct pooled keywords) + min(10, distinct domains) |
| `Aggregate.AggregatedEmpty` | main.py:240-303 | the table is empty exactly when all three inputs are empty |
| `Aggregate.InputRowsFirst` | main.py:245-276 | Google Trends rows come first, untruncated, type `keyword`; then Reddit, then Hacker News `post_title` rows cut to 100 characters; ranks copied |
| `Aggregate.InputRowsLayout` | main.py:245-276 | the same layout, of the input rows alone |
| `Aggregate.AggregatedStartsWithInputRows` | main.py:242-276 | the table starts with the input rows |
| `Aggregate.AggregatedEndsWithCountedRows` | main.py:283-301 | the keyword rows follow the input rows and the domain rows follow them |
| `Aggregate.CountedRowsLast` | main.py:283-301 | then the `Extracted`/`extracted_keyword` rows and the `Domains`/`domain` rows, each a pooled value ranked by its exact count of at least one |
| `Aggregate.StoryDomainsOfUrls` | main.py:279-281 | the domain pool equals the domains of the URL column with missing values filled by "" |
| `Aggregate.DomainsFromStoryUrls` | main.py:279-281 | only stories with a URL feed the domain pool; every pooled domain is non-empty and a substring of such a story's URL starting with "http" |
| `Aggregate.HackerNewsTabDomains` | main.py:447-453 | the Hacker News tab's domain ranking equals the one behind the `Domains` rows |
| `Aggregate.RedditTabKeywords` | main.py:426-427 | tokenising all Reddit titles joined by spaces gives exactly the Reddit part of the pool |
| `Aggregate.RedditWinsTies` | main.py:284-285 | on equal counts a Reddit word is listed whenever a Hacker-News-only word is, and ahead of it |
| `Overview.SelectedSpec` | main.py:355-358 | the filter keeps exactly the rows whose source and type are selected, with their multiplicities, in table order |
| `Overview.TopTableSpec` | main.py:389 | `head(20)`: the first min(20, selected) selected rows |
| `Overview.DefaultSelectionKeepsAll` | main.py:342-352 | with the default selection (all sources and types present) nothing is filtered out |
| `Demo.DemoIsLetterWords` | run_demo.py:178-179 | the demo tokens are the letter runs of at least three letters of the lower-cased text, minus the 14 stop-words, in text order |
| `Demo.DemoWellFormed` | run_demo.py:177-179 | every demo token is at least 3 long, only `a`-`z`, and not a demo stop-word |
| `Demo.MainIsFilteredDemo` | run_demo.py:177-179 | main.py's keywords are the demo's tokens with main.py's stop-words removed, hence a subsequence of them |
| `Demo.DemoSplit` | run_demo.py:178 | a non-word character separates: demo tokens of a+c+b are those of a then those of b |
| `Demo.DemoOfJoin` | run_demo.py:205-206 | tokenising the joined titles gives each title's demo tokens in turn |
| `Demo.DemoKeepsWhatMainDrops` | run_demo.py:177 | a stop-word of main.py outside the demo set, three letters or more, is a demo token and not a main.py keyword |
| `Demo.ThisKept` | run_demo.py:177 | "this" is a demo token but not a main.py keyword |
| `Demo.WillKept` | run_demo.py:177 | "will" is a demo token but not a main.py keyword |
| `Demo.DemoTopSpec` | run_demo.py:205-210 | the top-five listing has min(5, distinct tokens) pairs, each a token of the first three titles with its exact count; counts non-increasing, ties in first-seen order |

## Left out

- Fetching: the Google Trends, Reddit and Hacker News requests, their HTML parsing and
  their title filters and caps. Their results are the inputs of the model.
- The dashboard: the Streamlit layout, metrics, charts, word cloud, CSV download, cache
  and rerun, and the demo's printing.
- Floating point: interest means and the sorting by interest.
- `Overview.DefaultSelectionKeepsAll`: when all three inputs are empty the table is `[]`
  (`Aggregate.AggregatedEmpty`). `pd.DataFrame([])` (main.py:303) then has no columns, so
  reading `aggregated_data['source']` at main.py:344 raises `KeyError` and the dashboard
  stops before the filter. The model has no such failure: it selects from the empty table
  and gets the empty table.
- pandas: DataFrames are sequences of records; `iterrows`, `notna` and `fillna` are
  modelled by the `Option` URL and `Aggregate.FillNa`.
- The Reddit tab's `most_common(15)` and the Hacker News tab's chart. Only their links to
  the aggregated pools are stated (`Aggregate.RedditTabKeywords`,
  `Aggregate.HackerNewsTabDomains`).
- `str.lower()` beyond ASCII. Other characters are left as they are and count as non-word
  characters for `\b`. In Python, non-ASCII letters are word characters, and a few
  non-ASCII capitals (such as the Kelvin sign) lower-case to ASCII letters.
- `Domains.Netloc`: `urlsplit`'s removal of tab, CR and LF is not modelled, and neither is
  any `ValueError` that `urlsplit` raises (unbalanced or invalid bracketed hosts, a
  non-ASCII netloc whose NFKC form holds one of `/?#@:`). The bare `except` at
  main.py:236-237 skips such URLs; the model emits their netloc.
