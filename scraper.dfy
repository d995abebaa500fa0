/** The scraping routine end to end: build the cookie jar, render the search
    page, collect candidate URLs, build one record per post, and shape the
    result. The crawler is a parameter: a function from a URL and the cookie
    jar to what rendering that URL gives. */
module Scraper {
  import opened Text
  import opened Page
  import opened Cookies
  import opened Candidates
  import opened Extract
  import opened Report

  const SearchBase: string := "https://www.xiaohongshu.com/search_result?keyword="

  /** The search page URL: the topic is inserted as it is, without escaping. */
  function SearchUrl(topic: string): string {
    SearchBase + topic
  }

  /** What one run produces: the rows written to the CSV file (when one is
      written), the file's path, and the text returned to the caller. */
  datatype Outcome = Outcome(rows: seq<PostRecord>, csvPath: Option<string>, text: string)

  /** The outcome the routine must produce for these inputs. `write` stands for
      saving the rows as a CSV file at a path: the message of the exception it
      raises, or `None` when the file is written. That exception is not caught
      by the routine; it reaches the tool's entry point, which returns it as
      "Error during scraping: " + message. */
  function ScrapeOutcome(topic: string, cookies: seq<Cookie>, outputDir: string,
                         search: (string, map<string, string>) -> SearchFetch,
                         render: (string, map<string, string>) -> PostFetch,
                         write: (string, seq<PostRecord>) -> Option<string>): Outcome
  {
    var jar := CookieMap(cookies);
    match search(SearchUrl(topic), jar)
    case SearchFailed(message) => Outcome([], None, "Failed to crawl search page: " + message)
    case SearchRaised(message) => Outcome([], None, "Error during scraping process: " + message)
    case SearchRendered(anchors) =>
      SavedOutcome(topic, outputDir, PostRecords(CandidateUrls(anchors), jar, render), write)
  }

  /** The outcome once the posts are scraped: the no-data message when there
      is no record; otherwise the records are saved and summarised, unless
      saving them raises. */
  function SavedOutcome(topic: string, outputDir: string, records: seq<PostRecord>,
                        write: (string, seq<PostRecord>) -> Option<string>): Outcome
  {
    var path := PathJoin(outputDir, CsvFileName(topic));
    if records == [] then Outcome([], None, NoDataMessage(topic))
    else
      match write(path, records)
      case Some(message) => Outcome([], None, "Error during scraping: " + message)
      case None => Outcome(records, Some(path), ResultText(topic, path, records))
  }

  /** Saving reports either nothing or all the records, a path exactly with
      records, and the no-data message exactly when there was no record; when
      there are records and the save succeeds, the records, the path and the
      summary are reported. */
  lemma SavedOutcomeShape(topic: string, outputDir: string, records: seq<PostRecord>,
                          write: (string, seq<PostRecord>) -> Option<string>)
    ensures var o := SavedOutcome(topic, outputDir, records, write);
      && (o.rows == [] || o.rows == records)
      && (o.csvPath.Some? <==> o.rows != [])
      && (o.csvPath.Some? ==> o.csvPath.value == PathJoin(outputDir, CsvFileName(topic)))
      && (o.csvPath.Some? ==> write(o.csvPath.value, o.rows).None?)
      && (o.text == NoDataMessage(topic) <==> records == [])
      && (records != [] && write(PathJoin(outputDir, CsvFileName(topic)), records).None? ==>
            && o.rows == records
            && o.csvPath == Some(PathJoin(outputDir, CsvFileName(topic)))
            && o.text == ResultText(topic, PathJoin(outputDir, CsvFileName(topic)), records))
  {
    var path := PathJoin(outputDir, CsvFileName(topic));
    var o := SavedOutcome(topic, outputDir, records, write);
    if records != [] {
      assert NoDataMessage(topic)[0] == 'N';
      if write(path, records).Some? {
        assert o.text[0] == 'E';
      } else {
        assert o.text == SummaryHeader(topic, path, |records|) + ConcatMap(PostBlock, records, |records|)
          + "\n\nCSV file path: " + path;
        assert o.text[0] == 'S';
      }
    }
  }

  /** The routine as the source runs it, with the tool's entry point catching
      what escapes it. */
  method Scrape(topic: string, cookies: seq<Cookie>, outputDir: string,
                search: (string, map<string, string>) -> SearchFetch,
                render: (string, map<string, string>) -> PostFetch,
                write: (string, seq<PostRecord>) -> Option<string>) returns (outcome: Outcome)
    ensures outcome == ScrapeOutcome(topic, cookies, outputDir, search, render, write)
  {
    var jar := BuildCookieMap(cookies);
    var searchUrl := "https://www.xiaohongshu.com/search_result?keyword=" + topic;
    var result := search(searchUrl, jar);
    match result {
      case SearchFailed(message) =>
        return Outcome([], None, "Failed to crawl search page: " + message);
      case SearchRaised(message) =>
        return Outcome([], None, "Error during scraping process: " + message);
      case SearchRendered(anchors) =>
        var postUrls := CollectCandidateUrls(anchors);
        var scrapedData := ScrapePosts(postUrls, jar, render);
        if scrapedData != [] {
          var csvPath := PathJoin(outputDir, CsvFileName(topic));
          var raised := write(csvPath, scrapedData);
          if raised.Some? {
            return Outcome([], None, "Error during scraping: " + raised.value);
          }
          var summary := BuildSummary(topic, csvPath, scrapedData);
          outcome := Outcome(scrapedData, Some(csvPath), summary + "\n\nCSV file path: " + csvPath);
        } else {
          outcome := Outcome([], None, "No data scraped for topic '" + topic + "'. Please check your cookies and network connection.");
        }
    }
  }

  /** At most five rows, numbered 1..n in the order their URLs were discovered,
      with no URL twice; a CSV path is reported exactly when there are rows, its
      name comes from the topic, rows are reported only once written, and once
      the search page rendered, scraped records that were saved are reported. */
  lemma OutcomeShape(topic: string, cookies: seq<Cookie>, outputDir: string,
                     search: (string, map<string, string>) -> SearchFetch,
                     render: (string, map<string, string>) -> PostFetch,
                     write: (string, seq<PostRecord>) -> Option<string>)
    ensures var o := ScrapeOutcome(topic, cookies, outputDir, search, render, write);
      && |o.rows| <= MaxPosts
      && (forall k | 0 <= k < |o.rows| :: o.rows[k].postNumber == k + 1)
      && (forall i, j | 0 <= i < j < |o.rows| :: o.rows[i].url != o.rows[j].url)
      && (o.csvPath.Some? <==> o.rows != [])
      && (o.csvPath.Some? ==> o.csvPath.value == PathJoin(outputDir, CsvFileName(topic)))
      && (o.csvPath.Some? ==> write(o.csvPath.value, o.rows).None?)
      && (search(SearchUrl(topic), CookieMap(cookies)).SearchRendered? ==>
            var records := PostRecords(CandidateUrls(search(SearchUrl(topic), CookieMap(cookies)).anchors),
                                       CookieMap(cookies), render);
            records != [] && write(PathJoin(outputDir, CsvFileName(topic)), records).None? ==>
              o.rows == records)
  {
    var jar := CookieMap(cookies);
    match search(SearchUrl(topic), jar) {
      case SearchFailed(_) =>
      case SearchRaised(_) =>
      case SearchRendered(anchors) =>
        var urls := CandidateUrls(anchors);
        CandidatesBoundedDistinct(anchors);
        PostRecordsNumbered(urls, jar, render);
        SavedOutcomeShape(topic, outputDir, PostRecords(urls, jar, render), write);
    }
  }

  /** Once the search page rendered, no post is scraped exactly when no anchor
      on it passes either the strict or the loose test, and exactly then the
      caller gets the no-data message. */
  lemma NoDataIffNoLinks(topic: string, cookies: seq<Cookie>, outputDir: string,
                         search: (string, map<string, string>) -> SearchFetch,
                         render: (string, map<string, string>) -> PostFetch,
                         write: (string, seq<PostRecord>) -> Option<string>)
    requires search(SearchUrl(topic), CookieMap(cookies)).SearchRendered?
    ensures var anchors := search(SearchUrl(topic), CookieMap(cookies)).anchors;
      PostRecords(CandidateUrls(anchors), CookieMap(cookies), render) == [] <==>
      forall k | 0 <= k < |anchors| :: !Keeps(Strict, anchors[k]) && !Keeps(Loose, anchors[k])
    ensures var anchors := search(SearchUrl(topic), CookieMap(cookies)).anchors;
      ScrapeOutcome(topic, cookies, outputDir, search, render, write).text == NoDataMessage(topic) <==>
      forall k | 0 <= k < |anchors| :: !Keeps(Strict, anchors[k]) && !Keeps(Loose, anchors[k])
  {
    var jar := CookieMap(cookies);
    var anchors := search(SearchUrl(topic), jar).anchors;
    var urls := CandidateUrls(anchors);
    PostRecordsNumbered(urls, jar, render);
    if urls == [] {
      forall k | 0 <= k < |anchors| ensures !Keeps(Strict, anchors[k]) && !Keeps(Loose, anchors[k]) {
        if Keeps(Strict, anchors[k]) || Keeps(Loose, anchors[k]) {
          CandidatesComplete(anchors, k);
        }
      }
    } else {
      CandidatesOrigin(anchors);
      var strict := StrictUrls(anchors);
      if 0 < |strict| {
        assert FromPass(Strict, anchors, strict[0]);
      } else {
        assert FromPass(Loose, anchors, urls[0]);
      }
    }
    SavedOutcomeShape(topic, outputDir, PostRecords(urls, jar, render), write);
  }
}
