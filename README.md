# Rednote scraper — a Dafny model of the extraction routine

This project models the scraping routine of the Rednote (Xiaohongshu) content
pipeline: the `_scrape_rednote` method of `RednoteScraperTool`. Given a topic
and the session cookies, the routine renders the search-results page, collects
up to five candidate post URLs, renders each post, extracts its title, image
URL and top comments through ordered fallback cascades, writes one CSV row per
post, and returns a text summary.

The browser and the HTML parser are replaced by abstract inputs:

- a rendered search page is its sequence of `<a>` elements, each with an
  optional `href` (`Page.Anchor`);
- a rendered post page (`Page.PostPage`) is given by the parser's answers to
  the scraper's queries: `select_one` for each title selector (raises, no match,
  or the stripped text of the match), `select` for each comment selector
  (raises, or the stripped texts of all matches), the first `og:title` and
  `og:image` meta tags with their optional `content`, the first `<img>` with
  its optional `src`, and the stripped texts of all `div`/`span`/`p` elements;
- the crawler is a function from a URL and the cookie jar to a render outcome:
  failure (with the crawler's error message for the search page), the page, or
  an exception with its message.

Modules, one per stage of the routine:

- `Text` — the Python string operations used (`startswith`, `in`, `lower`,
  `replace`, `join`, `str(int)`, slicing) and facts about them.
- `Page` — the abstract rendered pages.
- `Cookies` — folding the cookie list into the jar.
- `Candidates` — the strict `/explore/` pass and the loose `explore` pass.
- `Extract` — the title, image and comment cascades.
- `Report` — per-post records, the CSV file name, the summary text.
- `Scraper` — the routine end to end.

Each loop of the source is a `method` with a `while` loop, proved equal to a
specification function (`CollectCandidateUrls` to `CandidateUrls`,
`ExtractTitle` to `TitleOf`, and so on); the properties the source promises are
proved as lemmas about those functions.

Behaviours of the code that the model keeps:

- The title cascade keeps the text of a matching element even when it is empty,
  so a page whose only title element is empty and has no `og:title` gets the
  title `""`, not the "Content unavailable" sentinel.
- The image fallback looks only at the first `<img>` element and uses its `src`
  when that is non-empty; a later `<img>` with a `src` is never consulted.
- The selector phase of the comment cascade adds the long texts among each
  selector's first three elements and checks the count only after a whole
  selector, so it can hold up to five comments; only the first three are
  joined.
- Saving the CSV file happens outside the routine's own exception handler: when
  it fails, the tool's entry point returns "Error during scraping: " with the
  message, and no summary.

## Model

| member | source | states |
|---|---|---|
| Cookies.BuildCookieMap | src/tools.py:64-66 | the loop builds exactly the folded cookie map |
| Cookies.CookieMapLastWins | src/tools.py:64-66 | every cookie name is a key, no other key exists, and a repeated name maps to the value of its last occurrence |
| Candidates.Absolutize | src/tools.py:108 | an href starting with "http" is kept, any other is prefixed with the site origin; the result always starts with "http" |
| Candidates.CollectCandidateUrls | src/tools.py:102-124 | the two loops with their breaks compute the candidate list specified by the strict pass topped up by the loose pass |
| Candidates.GatherBound | src/tools.py:105-112 | a pass started below five URLs ends with at most five |
| Candidates.GatherDistinct | src/tools.py:109-110 | a pass never appends a URL already in the list |
| Candidates.GatherSources | src/tools.py:105-110 | every URL a pass appends is the absolutized href of an anchor that pass keeps |
| Candidates.GatherComplete | src/tools.py:105-112 | a pass that ends below five URLs has appended the URL of every anchor it keeps |
| Candidates.CandidatesBoundedDistinct | src/tools.py:102-124 | the candidate list has at most five URLs and no URL twice |
| Candidates.CandidatesOrigin | src/tools.py:104-124 | the strict pass's URLs come first and unchanged, the loose pass adds only when the strict pass found fewer than five, each URL comes from an anchor its pass keeps, and every URL starts with "http" |
| Candidates.CandidatesComplete | src/tools.py:104-124 | with fewer than five candidates, every anchor either pass keeps contributed its URL |
| Text.Lower | src/tools.py:119 | lower-casing keeps the length and maps each character on its own (ASCII letters only) |
| Extract.ExtractTitle | src/tools.py:147-164 | the selector loop with its break and skipped exceptions, then the og:title fallback, gives the specified title |
| Extract.FirstNonEmptyNone | src/tools.py:150-156 | the loop finds no title text exactly when no selector's element has non-empty text |
| Extract.FirstNonEmptyConcat | src/tools.py:150-156 | first-match-wins: over a concatenation of selector lists the earlier list's first non-empty match wins |
| Extract.TitleFirstSelectorWins | src/tools.py:149-156 | the first selector in order whose element has non-empty text gives the title (unless that text is the sentinel literal) |
| Extract.TitleFromOgOnly | src/tools.py:150-164 | with no selector matching non-empty text, the title is the og:title content, or the sentinel when the tag has no content |
| Extract.TitleEmptyWhenMatchesAreEmpty | src/tools.py:150-164 | a matching element with empty text, no non-empty match and no og:title leave the title empty |
| Extract.TitleUnavailableWithoutSources | src/tools.py:147-164 | with no matching selector and no og:title the title is "Content unavailable" |
| Extract.ImageOf | src/tools.py:166-177 | og:image wins when present (its content or the sentinel); otherwise a non-empty first img src, kept when it starts with "http" and prefixed with the site origin otherwise; otherwise the sentinel; without og:image the result is the sentinel or starts with "http" |
| Extract.AppendLongTexts | src/tools.py:190-194 | the inner loop appends exactly the texts longer than five characters, in order |
| Extract.CollectSelectorComments | src/tools.py:181-198 | the selector loop with its break and skipped exceptions computes the specified selector-phase list |
| Extract.CollectGenericComments | src/tools.py:203-210 | the fallback loop over the first twenty texts computes the specified fallback list |
| Extract.ExtractComments | src/tools.py:179-212 | selector phase, fallback only when it found nothing, then the join of the first three or "No comments found" |
| Extract.LongTextsKeeps | src/tools.py:193 | a text is kept by the selector phase's filter exactly when it is longer than five characters |
| Extract.SelectorCommentsBound | src/tools.py:188-198 | the selector phase, started below three, ends with at most five comments and only appends |
| Extract.SelectorCommentsLong | src/tools.py:191-194 | every comment of the selector phase is longer than five characters |
| Extract.SelectorCommentsNone | src/tools.py:188-201 | the selector phase finds nothing exactly when every selector raised or had no long text among its first three elements |
| Extract.GenericCommentsFacts | src/tools.py:203-210 | the fallback ends with at most three distinct texts, each of length strictly between 10 and 200 and among the scanned texts, and when it ends below three it missed none |
| Extract.CommentsOfFacts | src/tools.py:200-212 | the fallback is used only when the selector phase is empty; the field is "No comments found" when no comment was found and otherwise the " \| " join of at most the first three |
| Text.JoinLength | src/tools.py:212 | the length of the join is the parts' total length plus one separator between each two neighbours |
| Text.JoinLayout | src/tools.py:212 | the join holds every part in order, each at the offset after the parts before it and their separators, with a separator right after every part but the last |
| Report.RecordOf | src/tools.py:135-143 | a failed render gives the sentinel in title, image and comments; an exception gives "Error: " + message as title and the sentinel elsewhere; a rendered page gives the extracted fields |
| Report.ScrapePosts | src/tools.py:127-229 | the per-post loop appends exactly one record per visited URL, whatever the render outcome |
| Report.PostRecordsNumbered | src/tools.py:127 | one record per URL among the first five, in order, numbered 1..n without gaps |
| Report.CsvFileName | src/tools.py:237 | the name is "scraped_data_", then the topic with every space turned into "_" and every other character kept, then ".csv"; it holds no space |
| Report.Truncate | src/tools.py:247 | a text within the limit is shown unchanged; a longer one is its first n characters followed by "..." |
| Report.StartSummary | src/tools.py:242-244 | the first three summary lines are the count, the CSV path and the heading |
| Report.AppendPostLines | src/tools.py:246-249 | the four appends of one record add exactly that record's summary block |
| Report.BuildSummary | src/tools.py:241-249 | the summary loop produces the header followed by every record's block in order |
| Report.TitleLineForm | src/tools.py:247 | the conditional f-string of the title line is the title truncated to 100 characters |
| Report.CommentsLineForm | src/tools.py:249 | the conditional f-string of the comments line is the comments truncated to 150 characters |
| Report.SummaryShowsEveryPost | src/tools.py:245-249 | each record's block occurs in the summary, and within it its full URL line, its title line with the title cut to 100 characters and its comments line with the comments cut to 150 |
| Scraper.Scrape | src/tools.py:34-253 | the routine produces the specified outcome: the search failure or exception message, the no-data message, the entry point's error message when saving the CSV raises, or the written rows with the CSV path and the summary |
| Scraper.OutcomeShape | src/tools.py:102-253 | at most five rows, numbered 1..n, no URL twice; a CSV path is reported exactly when rows are, it is named from the topic, and rows are reported only when their file was written; after a rendered search page, records that were saved successfully are the reported rows |
| Scraper.SavedOutcomeShape | src/tools.py:235-253 | after scraping, either no row or every record is reported; a path exactly with rows, named from the topic, only when the save succeeded; the no-data message exactly when there was no record; records with a successful save give exactly those rows, the path and the summary text |
| Scraper.NoDataIffNoLinks | src/tools.py:102-253 | once the search page rendered, no post is scraped exactly when no anchor passes the strict or the loose test, and exactly then the caller gets the no-data message |

## Left out

- Loading the cookie file (existence check, `json.load`, their error messages) and cookie entries without `name` or `value`: file input; the model starts from the parsed cookie list.
- The crawler (`AsyncWebCrawler`, the scroll script, `wait_for`, the async context manager) and `asyncio.run`: a foreign library and async plumbing; a render is an abstract outcome supplied by the caller. Of the entry point's exception handler only the path from a failed CSV save is modelled.
- The HTML parser: selector matching and text extraction are given as inputs. An exception raised by `get_text` part-way through a selector's elements (after some comments were appended) is not modelled; a selector's query either raises as a whole or answers.
- `os.makedirs`, `DataFrame.to_csv` and the `utf-8-sig` encoding: file output. The save is a parameter that either succeeds or raises with a message (a topic holding "/" or one too long for a file name makes it raise); a failure of `os.makedirs`, which would also reach the entry point, is not modelled.
- `os.path.join`: modelled as joining with "/", which is what it does on POSIX for a directory that does not end in a separator and a relative file name.
- Text.Lower: only ASCII letters are lower-cased; Python's `lower()` maps more code points, but none of them to a letter of "explore", so the loose test is unaffected.
- Exceptions other than the crawler's during a post (the extraction in this model cannot raise): the per-post exception branch is reached through the render outcome `Raised`.
- src/main.py, src/tasks.py and src/agents.py (environment configuration, language-model clients, the agent crew, prompt text): orchestration over libraries that are not part of this model.
