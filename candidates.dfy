/** Collecting candidate post URLs from the anchors of the rendered search page:
    a strict pass over links containing "/explore/", then, when that found
    fewer than five, a looser case-insensitive pass for "explore". */
module Candidates {
  import opened Text
  import opened Page

  const Origin: string := "https://www.xiaohongshu.com"
  const MaxPosts: nat := 5

  /** The two passes over the search page's anchors. */
  datatype Pass = Strict | Loose

  /** The href as the pass reads it: `link.get('href', '')`. */
  function Href(a: Anchor): string {
    a.href.GetOr("")
  }

  /** Whether the pass keeps the anchor. The strict pass only visits anchors that
      have an `href` attribute and tests it case-sensitively; the loose pass
      visits every anchor and tests the lower-cased href. */
  predicate Keeps(pass: Pass, a: Anchor) {
    match pass
    case Strict => a.href.Some? && Contains(a.href.value, "/explore/")
    case Loose => Contains(Lower(Href(a)), "explore")
  }

  /** A relative href is prefixed with the site's origin; one starting with
      "http" is kept as it is. */
  function Absolutize(href: string): (url: string)
    ensures StartsWith(url, "http")
    ensures StartsWith(href, "http") ==> url == href
    ensures !StartsWith(href, "http") ==> url == Origin + href
  {
    if StartsWith(href, "http") then href
    else
      assert (Origin + href)[..4] == Origin[..4];
      Origin + href
  }

  /** What one pass leaves in the URL list when it starts from `found` and
      visits `anchors` in order: each kept anchor's URL is appended unless
      already present, and the pass stops as soon as the list holds five. */
  function Gather(pass: Pass, anchors: seq<Anchor>, found: seq<string>): seq<string>
    decreases |anchors|
  {
    if anchors == [] then found
    else
      var url := Absolutize(Href(anchors[0]));
      if Keeps(pass, anchors[0]) && url !in found then
        if |found + [url]| >= MaxPosts then found + [url]
        else Gather(pass, anchors[1..], found + [url])
      else Gather(pass, anchors[1..], found)
  }

  /** The strict pass's list. */
  function StrictUrls(anchors: seq<Anchor>): seq<string> {
    Gather(Strict, anchors, [])
  }

  /** The candidate list: the strict pass, topped up by the loose pass when the
      strict pass found fewer than five. */
  function CandidateUrls(anchors: seq<Anchor>): seq<string> {
    var strict := StrictUrls(anchors);
    if |strict| < MaxPosts then Gather(Loose, anchors, strict) else strict
  }

  /** No URL twice. */
  predicate Distinct(urls: seq<string>) {
    forall i, j | 0 <= i < j < |urls| :: urls[i] != urls[j]
  }

  /** The URL comes from an anchor the pass keeps. */
  predicate FromPass(pass: Pass, anchors: seq<Anchor>, url: string) {
    exists k | 0 <= k < |anchors| :: Keeps(pass, anchors[k]) && url == Absolutize(Href(anchors[k]))
  }

  /** The two passes of the source, as loops that break once five URLs are held. */
  method CollectCandidateUrls(anchors: seq<Anchor>) returns (urls: seq<string>)
    ensures urls == CandidateUrls(anchors)
  {
    urls := [];
    var i := 0;
    while i < |anchors|
      invariant 0 <= i <= |anchors|
      invariant Gather(Strict, anchors[i..], urls) == StrictUrls(anchors)
    {
      var a := anchors[i];
      if a.href.Some? {
        var href := a.href.value;
        if Contains(href, "/explore/") {
          var url := if StartsWith(href, "http") then href else Origin + href;
          if url !in urls {
            urls := urls + [url];
            if |urls| >= 5 {
              break;
            }
          }
        }
      }
      i := i + 1;
    }
    if |urls| < 5 {
      var strict := urls;
      i := 0;
      while i < |anchors|
        invariant 0 <= i <= |anchors|
        invariant Gather(Loose, anchors[i..], urls) == Gather(Loose, anchors, strict)
      {
        var href := anchors[i].href.GetOr("");
        if Contains(Lower(href), "explore") {
          var url := if StartsWith(href, "http") then href else Origin + href;
          if url !in urls {
            urls := urls + [url];
            if |urls| >= 5 {
              break;
            }
          }
        }
        i := i + 1;
      }
    }
  }

  /** A pass only appends: what it started from is a prefix of what it leaves. */
  lemma {:induction false} GatherExtends(pass: Pass, anchors: seq<Anchor>, found: seq<string>)
    ensures |found| <= |Gather(pass, anchors, found)|
    ensures Gather(pass, anchors, found)[..|found|] == found
    decreases |anchors|
  {
    if anchors != [] {
      var url := Absolutize(Href(anchors[0]));
      if Keeps(pass, anchors[0]) && url !in found {
        if |found + [url]| < MaxPosts {
          GatherExtends(pass, anchors[1..], found + [url]);
        }
      } else {
        GatherExtends(pass, anchors[1..], found);
      }
    }
  }

  /** A pass that starts below five ends with at most five. */
  lemma {:induction false} GatherBound(pass: Pass, anchors: seq<Anchor>, found: seq<string>)
    requires |found| < MaxPosts
    ensures |Gather(pass, anchors, found)| <= MaxPosts
    decreases |anchors|
  {
    if anchors != [] {
      var url := Absolutize(Href(anchors[0]));
      if Keeps(pass, anchors[0]) && url !in found {
        if |found + [url]| < MaxPosts {
          GatherBound(pass, anchors[1..], found + [url]);
        }
      } else {
        GatherBound(pass, anchors[1..], found);
      }
    }
  }

  /** A pass never introduces a duplicate. */
  lemma {:induction false} GatherDistinct(pass: Pass, anchors: seq<Anchor>, found: seq<string>)
    requires Distinct(found)
    ensures Distinct(Gather(pass, anchors, found))
    decreases |anchors|
  {
    if anchors != [] {
      var url := Absolutize(Href(anchors[0]));
      if Keeps(pass, anchors[0]) && url !in found {
        assert Distinct(found + [url]);
        if |found + [url]| < MaxPosts {
          GatherDistinct(pass, anchors[1..], found + [url]);
        }
      } else {
        GatherDistinct(pass, anchors[1..], found);
      }
    }
  }

  /** Every URL a pass appends is the absolutized href of an anchor it keeps. */
  lemma {:induction false} GatherSources(pass: Pass, anchors: seq<Anchor>, found: seq<string>)
    ensures forall i | |found| <= i < |Gather(pass, anchors, found)| ::
      FromPass(pass, anchors, Gather(pass, anchors, found)[i])
    decreases |anchors|
  {
    if anchors != [] {
      var url := Absolutize(Href(anchors[0]));
      var rest := anchors[1..];
      var next := if Keeps(pass, anchors[0]) && url !in found then found + [url] else found;
      if Keeps(pass, anchors[0]) && url !in found && |next| >= MaxPosts {
        assert FromPass(pass, anchors, url) by {
          assert Keeps(pass, anchors[0]) && url == Absolutize(Href(anchors[0]));
        }
      } else {
        GatherSources(pass, rest, next);
        var r := Gather(pass, anchors, found);
        assert r == Gather(pass, rest, next);
        forall i | |found| <= i < |r| ensures FromPass(pass, anchors, r[i]) {
          if i < |next| {
            assert r[i] == url by {
              GatherExtends(pass, rest, next);
              assert r[..|next|] == next;
            }
            assert Keeps(pass, anchors[0]) && url == Absolutize(Href(anchors[0]));
          } else {
            assert FromPass(pass, rest, r[i]);
            var k :| 0 <= k < |rest| && Keeps(pass, rest[k]) && r[i] == Absolutize(Href(rest[k]));
            assert rest[k] == anchors[k + 1];
          }
        }
      }
    }
  }

  /** A pass that ends with fewer than five URLs missed nothing: the URL of every
      anchor it keeps is in its list. */
  lemma {:induction false} GatherComplete(pass: Pass, anchors: seq<Anchor>, found: seq<string>, k: nat)
    requires k < |anchors| && Keeps(pass, anchors[k])
    requires |Gather(pass, anchors, found)| < MaxPosts
    ensures Absolutize(Href(anchors[k])) in Gather(pass, anchors, found)
    decreases |anchors|
  {
    var url := Absolutize(Href(anchors[0]));
    var rest := anchors[1..];
    var next := if Keeps(pass, anchors[0]) && url !in found then found + [url] else found;
    assert Gather(pass, anchors, found) == Gather(pass, rest, next);
    GatherExtends(pass, rest, next);
    var r := Gather(pass, anchors, found);
    if k == 0 {
      assert url in next;
      assert r[..|next|] == next;
      assert url in r[..|next|];
    } else {
      assert rest[k - 1] == anchors[k];
      GatherComplete(pass, rest, next, k - 1);
    }
  }

  /** The candidate list holds at most five URLs and no URL twice. */
  lemma CandidatesBoundedDistinct(anchors: seq<Anchor>)
    ensures |CandidateUrls(anchors)| <= MaxPosts
    ensures Distinct(CandidateUrls(anchors))
  {
    var strict := StrictUrls(anchors);
    GatherBound(Strict, anchors, []);
    GatherDistinct(Strict, anchors, []);
    if |strict| < MaxPosts {
      GatherBound(Loose, anchors, strict);
      GatherDistinct(Loose, anchors, strict);
    }
  }

  /** The strict pass's URLs come first, unchanged; the loose pass adds URLs
      only when the strict pass found fewer than five. Every URL starts with
      "http", and every URL is the absolutized href of an anchor one of the
      passes keeps: strict-pass URLs from the strict test, the rest from the
      loose test. */
  lemma CandidatesOrigin(anchors: seq<Anchor>)
    ensures var strict := StrictUrls(anchors);
      && |strict| <= |CandidateUrls(anchors)|
      && CandidateUrls(anchors)[..|strict|] == strict
      && (|strict| >= MaxPosts ==> CandidateUrls(anchors) == strict)
      && (forall i | 0 <= i < |strict| :: FromPass(Strict, anchors, strict[i]))
      && (forall i | |strict| <= i < |CandidateUrls(anchors)| ::
            FromPass(Loose, anchors, CandidateUrls(anchors)[i]))
    ensures forall url | url in CandidateUrls(anchors) :: StartsWith(url, "http")
  {
    var strict := StrictUrls(anchors);
    GatherSources(Strict, anchors, []);
    if |strict| < MaxPosts {
      GatherExtends(Loose, anchors, strict);
      GatherSources(Loose, anchors, strict);
    }
    forall url | url in CandidateUrls(anchors) ensures StartsWith(url, "http") {
      var i :| 0 <= i < |CandidateUrls(anchors)| && CandidateUrls(anchors)[i] == url;
      if i < |strict| {
        assert CandidateUrls(anchors)[i] == strict[i];
        var k :| 0 <= k < |anchors| && Keeps(Strict, anchors[k]) && strict[i] == Absolutize(Href(anchors[k]));
      } else {
        var k :| 0 <= k < |anchors| && Keeps(Loose, anchors[k]) && url == Absolutize(Href(anchors[k]));
      }
    }
  }

  /** When fewer than five candidates come out, every anchor either pass keeps
      contributed its URL. */
  lemma CandidatesComplete(anchors: seq<Anchor>, k: nat)
    requires k < |anchors| && (Keeps(Strict, anchors[k]) || Keeps(Loose, anchors[k]))
    requires |CandidateUrls(anchors)| < MaxPosts
    ensures Absolutize(Href(anchors[k])) in CandidateUrls(anchors)
  {
    var strict := StrictUrls(anchors);
    GatherExtends(Loose, anchors, strict);
    if Keeps(Loose, anchors[k]) {
      GatherComplete(Loose, anchors, strict, k);
    } else {
      GatherComplete(Strict, anchors, [], k);
      var r := CandidateUrls(anchors);
      assert r[..|strict|] == strict;
      assert Absolutize(Href(anchors[k])) in r[..|strict|];
    }
  }
}
