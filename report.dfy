/** The per-post records, the CSV file they are written to, and the text
    returned to the caller. */
module Report {
  import opened Text
  import opened Page
  import opened Extract
  import Candidates

  /** One CSV row, columns in file order. */
  datatype PostRecord = PostRecord(postNumber: nat, url: string, title: string, imageUrl: string, comments: string)

  /** The record for the `n`-th candidate URL: every field the sentinel when the
      render failed; the error text as title when an exception escaped; the
      extracted fields otherwise. */
  function RecordOf(n: nat, url: string, fetch: PostFetch): (r: PostRecord)
    ensures r.postNumber == n && r.url == url
    ensures fetch.RenderFailed? ==> r.title == Unavailable && r.imageUrl == Unavailable && r.comments == Unavailable
    ensures fetch.Raised? ==>
      r.title == "Error: " + fetch.message && r.imageUrl == Unavailable && r.comments == Unavailable
    ensures fetch.Rendered? ==>
      r.title == TitleOf(fetch.page) && r.imageUrl == ImageOf(fetch.page) && r.comments == CommentsOf(fetch.page)
  {
    match fetch
    case RenderFailed => PostRecord(n, url, Unavailable, Unavailable, Unavailable)
    case Raised(message) => PostRecord(n, url, "Error: " + message, Unavailable, Unavailable)
    case Rendered(page) => PostRecord(n, url, TitleOf(page), ImageOf(page), CommentsOf(page))
  }

  /** At most the first five of `urls`. */
  function FirstFive(urls: seq<string>): (r: seq<string>)
    ensures |r| <= Candidates.MaxPosts && |r| <= |urls| && r == urls[..|r|]
    ensures |urls| <= Candidates.MaxPosts ==> r == urls
  {
    if |urls| <= Candidates.MaxPosts then urls else urls[..Candidates.MaxPosts]
  }

  /** The records of the first five URLs, numbered from 1 in order; `render`
      stands for the crawler, called with each URL and the cookie jar. */
  function PostRecords(urls: seq<string>, jar: map<string, string>,
                       render: (string, map<string, string>) -> PostFetch): seq<PostRecord>
  {
    var visited := FirstFive(urls);
    seq(|visited|, k requires 0 <= k < |visited| => RecordOf(k + 1, visited[k], render(visited[k], jar)))
  }

  /** The source's per-post loop: one render per URL, one record appended per
      URL whatever the render gives, a post's failure never ending the loop. */
  method ScrapePosts(urls: seq<string>, jar: map<string, string>,
                     render: (string, map<string, string>) -> PostFetch) returns (scraped: seq<PostRecord>)
    ensures scraped == PostRecords(urls, jar, render)
  {
    var visited := FirstFive(urls);
    scraped := [];
    var i := 0;
    while i < |visited|
      invariant 0 <= i <= |visited|
      invariant |scraped| == i
      invariant forall k | 0 <= k < i :: scraped[k] == RecordOf(k + 1, visited[k], render(visited[k], jar))
    {
      var postUrl := visited[i];
      var record: PostRecord;
      match render(postUrl, jar) {
        case RenderFailed =>
          record := PostRecord(i + 1, postUrl, Unavailable, Unavailable, Unavailable);
        case Raised(message) =>
          record := PostRecord(i + 1, postUrl, "Error: " + message, Unavailable, Unavailable);
        case Rendered(page) =>
          var title := ExtractTitle(page);
          var imageUrl := ImageOf(page);
          var comments := ExtractComments(page);
          record := PostRecord(i + 1, postUrl, title, imageUrl, comments);
      }
      scraped := scraped + [record];
      i := i + 1;
    }
  }

  /** One record per URL visited, in discovery order, numbered 1..n without gaps,
      however each render turned out. */
  lemma PostRecordsNumbered(urls: seq<string>, jar: map<string, string>,
                            render: (string, map<string, string>) -> PostFetch)
    ensures var records := PostRecords(urls, jar, render);
      && |records| == (if |urls| <= Candidates.MaxPosts then |urls| else Candidates.MaxPosts)
      && forall k | 0 <= k < |records| :: records[k].postNumber == k + 1 && records[k].url == urls[k]
  {
    var visited := FirstFive(urls);
    var records := PostRecords(urls, jar, render);
    forall k | 0 <= k < |records| ensures records[k].postNumber == k + 1 && records[k].url == urls[k] {
      assert visited[k] == urls[..|visited|][k];
      var r := RecordOf(k + 1, visited[k], render(visited[k], jar));
      assert records[k] == r;
    }
  }

  /* ------------------------------------------------------------ CSV file */

  /** `f"scraped_data_{topic.replace(' ', '_')}.csv"` */
  function CsvFileName(topic: string): (name: string)
    ensures |name| == |"scraped_data_"| + |topic| + |".csv"|
    ensures StartsWith(name, "scraped_data_") && name[|name| - 4..] == ".csv"
    ensures forall i | 0 <= i < |name| :: name[i] != ' '
    ensures forall i | 0 <= i < |topic| :: name[|"scraped_data_"| + i] == if topic[i] == ' ' then '_' else topic[i]
  {
    "scraped_data_" + ReplaceChar(topic, ' ', '_') + ".csv"
  }

  /** `os.path.join(dir, name)` for a directory that does not end in a separator
      and a relative file name. */
  function PathJoin(dir: string, name: string): string {
    dir + "/" + name
  }

  /* ------------------------------------------------------------- summary */

  /** `s[:n] + "..."` when `s` is longer than `n`, `s` otherwise. */
  function Truncate(s: string, n: nat): (r: string)
    ensures |s| <= n ==> r == s
    ensures |s| > n ==> |r| == n + 3 && r[..n] == s[..n] && r[n..] == "..."
  {
    if |s| > n then s[..n] + "..." else s
  }

  const TitleShown: nat := 100
  const CommentsShown: nat := 150

  /** The four summary lines of one record. */
  function NumberLine(r: PostRecord): string {
    "\nPost " + NatToString(r.postNumber) + ":\n"
  }

  function TitleLine(r: PostRecord): string {
    "  Title: " + Truncate(r.title, TitleShown) + "\n"
  }

  function UrlLine(r: PostRecord): string {
    "  URL: " + r.url + "\n"
  }

  function CommentsLine(r: PostRecord): string {
    "  Comments: " + Truncate(r.comments, CommentsShown) + "\n"
  }

  function PostBlock(r: PostRecord): string {
    NumberLine(r) + TitleLine(r) + UrlLine(r) + CommentsLine(r)
  }

  function SummaryHeader(topic: string, csvPath: string, count: nat): string {
    "Successfully scraped " + NatToString(count) + " posts for topic '" + topic + "'.\n"
    + "CSV file saved to: " + csvPath + "\n\n"
    + "Summary of scraped posts:\n"
  }

  function SummaryText(topic: string, csvPath: string, records: seq<PostRecord>): string {
    SummaryHeader(topic, csvPath, |records|) + ConcatMap(PostBlock, records, |records|)
  }

  /** The first three lines of the summary: the count, the CSV path, the heading. */
  method StartSummary(topic: string, csvPath: string, count: nat) returns (summary: string)
    ensures summary == SummaryHeader(topic, csvPath, count)
  {
    summary := "Successfully scraped " + NatToString(count) + " posts for topic '" + topic + "'.\n";
    summary := summary + ("CSV file saved to: " + csvPath + "\n\n");
    summary := summary + "Summary of scraped posts:\n";
  }

  /** The body of the source's summary loop: four `+=`, one per line of the record. */
  method AppendPostLines(summary: string, item: PostRecord) returns (extended: string)
    ensures extended == summary + PostBlock(item)
  {
    extended := summary + ("\nPost " + NatToString(item.postNumber) + ":\n");
    extended := extended + (if |item.title| > 100 then "  Title: " + item.title[..100] + "...\n"
                            else "  Title: " + item.title + "\n");
    extended := extended + ("  URL: " + item.url + "\n");
    extended := extended + (if |item.comments| > 150 then "  Comments: " + item.comments[..150] + "...\n"
                            else "  Comments: " + item.comments + "\n");
    TitleLineForm(item);
    CommentsLineForm(item);
    AppendFour(summary, NumberLine(item), TitleLine(item), UrlLine(item), CommentsLine(item));
  }

  /** The source's summary loop. */
  method BuildSummary(topic: string, csvPath: string, records: seq<PostRecord>) returns (summary: string)
    ensures summary == SummaryText(topic, csvPath, records)
  {
    summary := StartSummary(topic, csvPath, |records|);
    ghost var header := summary;
    var i := 0;
    while i < |records|
      invariant 0 <= i <= |records|
      invariant summary == header + ConcatMap(PostBlock, records, i)
    {
      var item := records[i];
      summary := AppendPostLines(summary, item);
      AppendAssoc(header, ConcatMap(PostBlock, records, i), PostBlock(item));
      i := i + 1;
    }
  }

  /** The title line as the source writes it: a conditional between two f-strings. */
  lemma TitleLineForm(r: PostRecord)
    ensures TitleLine(r) == if |r.title| > 100 then "  Title: " + r.title[..100] + "...\n"
                            else "  Title: " + r.title + "\n"
  {
  }

  /** The comments line as the source writes it: a conditional between two f-strings. */
  lemma CommentsLineForm(r: PostRecord)
    ensures CommentsLine(r) == if |r.comments| > 150 then "  Comments: " + r.comments[..150] + "...\n"
                               else "  Comments: " + r.comments + "\n"
  {
  }

  /** A record's block holds its title, URL and comments lines. */
  lemma BlockShowsLines(r: PostRecord)
    ensures Contains(PostBlock(r), TitleLine(r))
    ensures Contains(PostBlock(r), UrlLine(r))
    ensures Contains(PostBlock(r), CommentsLine(r))
  {
    var number, title, url, comments := NumberLine(r), TitleLine(r), UrlLine(r), CommentsLine(r);
    ContainsSelf(title);
    ContainsSelf(url);
    ContainsSelf(comments);
    ContainsWithin(number, title, url + comments, title);
    AppendAssoc(number + title, url, comments);
    ContainsWithin(number + title, url, comments, url);
    ContainsWithin(number + title + url, comments, "", comments);
    assert number + title + url + comments + "" == PostBlock(r);
  }

  /** Every record shows up in the summary: its whole block, hence its full URL
      line, its title cut to 100 characters and its comments cut to 150 (each
      followed by "..." when longer). */
  lemma SummaryShowsEveryPost(topic: string, csvPath: string, records: seq<PostRecord>, k: nat)
    requires k < |records|
    ensures Contains(SummaryText(topic, csvPath, records), PostBlock(records[k]))
    ensures Contains(SummaryText(topic, csvPath, records), "  URL: " + records[k].url + "\n")
    ensures Contains(SummaryText(topic, csvPath, records), "  Title: " + Truncate(records[k].title, TitleShown) + "\n")
    ensures Contains(SummaryText(topic, csvPath, records), "  Comments: " + Truncate(records[k].comments, CommentsShown) + "\n")
  {
    var summary := SummaryText(topic, csvPath, records);
    var header := SummaryHeader(topic, csvPath, |records|);
    var blocks := ConcatMap(PostBlock, records, |records|);
    var r := records[k];
    var block := PostBlock(r);
    ConcatMapShowsEach(PostBlock, records, |records|, k);
    assert header + blocks + "" == summary;
    ContainsWithin(header, blocks, "", block);
    BlockShowsLines(r);
    ContainsTransitive(summary, block, TitleLine(r));
    ContainsTransitive(summary, block, UrlLine(r));
    ContainsTransitive(summary, block, CommentsLine(r));
  }

  /* ------------------------------------------------------------- result */

  function NoDataMessage(topic: string): string {
    "No data scraped for topic '" + topic + "'. Please check your cookies and network connection."
  }

  /** What the caller gets once the search page rendered: with no record, no
      file and the no-data message; otherwise the CSV path and the summary. */
  function ResultText(topic: string, csvPath: string, records: seq<PostRecord>): string {
    if records == [] then NoDataMessage(topic)
    else SummaryText(topic, csvPath, records) + "\n\nCSV file path: " + csvPath
  }
}
