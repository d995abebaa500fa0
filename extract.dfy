/** Field extraction from one rendered post page: the title, image and comment
    cascades, each an ordered list of strategies where the first that yields a
    value wins. */
module Extract {
  import opened Text
  import opened Page
  import Candidates

  const Unavailable: string := "Content unavailable"
  const NoComments: string := "No comments found"
  const CommentSeparator: string := " | "

  const TitleSelectors: seq<string> := [".title", "#detail-title", "h1", "[class*=\"title\"]", "title"]
  const CommentSelectors: seq<string> :=
    ["[class*=\"comment\"]", "[class*=\"Comment\"]", ".comment-item", "[data-testid*=\"comment\"]"]

  /* ---------------------------------------------------------------- title */

  /** The page's answers to the title selectors, in order. */
  function TitleProbes(page: PostPage): (probes: seq<Probe>)
    ensures |probes| == |TitleSelectors|
    ensures forall i | 0 <= i < |TitleSelectors| :: probes[i] == page.selectOne(TitleSelectors[i])
  {
    seq(|TitleSelectors|, i requires 0 <= i < |TitleSelectors| => page.selectOne(TitleSelectors[i]))
  }

  predicate IsNonEmptyMatch(p: Probe) {
    p.Match? && p.text != ""
  }

  /** The text of the first probe that matched with non-empty text. */
  function FirstNonEmpty(probes: seq<Probe>): Option<string> {
    if probes == [] then None
    else if IsNonEmptyMatch(probes[0]) then Some(probes[0].text)
    else FirstNonEmpty(probes[1..])
  }

  /** FirstNonEmpty is None exactly when no probe matched with non-empty text. */
  lemma {:induction false} FirstNonEmptyNone(probes: seq<Probe>)
    ensures FirstNonEmpty(probes).None? <==> forall i | 0 <= i < |probes| :: !IsNonEmptyMatch(probes[i])
    decreases |probes|
  {
    if probes != [] {
      FirstNonEmptyNone(probes[1..]);
      assert forall i | 1 <= i < |probes| :: probes[i] == probes[1..][i - 1];
    }
  }

  /** Over a concatenation, the first part's first non-empty match wins. */
  lemma {:induction false} FirstNonEmptyConcat(a: seq<Probe>, b: seq<Probe>)
    ensures FirstNonEmpty(a + b) == if FirstNonEmpty(a).Some? then FirstNonEmpty(a) else FirstNonEmpty(b)
    decreases |a|
  {
    if a == [] {
      assert a + b == b;
    } else {
      assert (a + b)[0] == a[0] && (a + b)[1..] == a[1..] + b;
      FirstNonEmptyConcat(a[1..], b);
    }
  }

  /** Some selector matched, whatever its text. */
  predicate AnyMatch(probes: seq<Probe>) {
    exists i | 0 <= i < |probes| :: probes[i].Match?
  }

  /** The title the selector phase leaves: the first non-empty match's text;
      failing that "" when some selector matched with empty text (its empty
      text overwrote the default); otherwise the default "Content unavailable". */
  function SelectorTitle(page: PostPage): string {
    var probes := TitleProbes(page);
    match FirstNonEmpty(probes)
    case Some(t) => t
    case None => if AnyMatch(probes) then "" else Unavailable
  }

  /** The extracted title: the selector phase, then the og:title fallback when
      that left "" or the default. A meta tag without `content` gives the default. */
  function TitleOf(page: PostPage): string {
    var t := SelectorTitle(page);
    if (t == "" || t == Unavailable) && page.ogTitle.Some? then page.ogTitle.value.content.GetOr(Unavailable)
    else t
  }

  /** The title cascade of the source: each selector's match overwrites the
      title, the first non-empty one ends the loop, a selector that raises is
      skipped; then the og:title fallback. */
  method ExtractTitle(page: PostPage) returns (title: string)
    ensures title == TitleOf(page)
  {
    ghost var probes := TitleProbes(page);
    title := Unavailable;
    var i := 0;
    while i < |TitleSelectors|
      invariant 0 <= i <= |TitleSelectors|
      invariant FirstNonEmpty(probes[..i]).None?
      invariant title == if AnyMatch(probes[..i]) then "" else Unavailable
    {
      var probe := page.selectOne(TitleSelectors[i]);
      assert probes[..i + 1] == probes[..i] + [probe];
      FirstNonEmptyConcat(probes[..i], [probe]);
      match probe {
        case Raises =>
        case NoMatch =>
        case Match(text) =>
          title := text;
          if title != "" {
            assert probes == probes[..i] + probes[i..] && probes[i..][0] == probe;
            FirstNonEmptyConcat(probes[..i], probes[i..]);
            assert title == SelectorTitle(page);
            break;
          }
      }
      assert AnyMatch(probes[..i + 1]) <==> AnyMatch(probes[..i]) || probe.Match? by {
        if AnyMatch(probes[..i]) {
          var j :| 0 <= j < i && probes[..i][j].Match?;
          assert probes[..i + 1][j] == probes[..i][j];
        }
        if probe.Match? { assert probes[..i + 1][i] == probe; }
        if AnyMatch(probes[..i + 1]) {
          var j :| 0 <= j < i + 1 && probes[..i + 1][j].Match?;
          if j < i { assert probes[..i][j] == probes[..i + 1][j]; }
        }
      }
      i := i + 1;
    }
    if i == |TitleSelectors| {
      assert probes[..i] == probes;
    }
    assert title == SelectorTitle(page);
    if title == "" || title == Unavailable {
      match page.ogTitle {
        case Some(meta) => title := meta.content.GetOr(Unavailable);
        case None =>
      }
    }
  }

  /** The first selector whose element has non-empty text gives the title,
      unless that text is itself the "Content unavailable" literal. */
  lemma TitleFirstSelectorWins(page: PostPage, k: nat)
    requires k < |TitleSelectors|
    requires IsNonEmptyMatch(page.selectOne(TitleSelectors[k]))
    requires forall j | 0 <= j < k :: !IsNonEmptyMatch(page.selectOne(TitleSelectors[j]))
    requires page.selectOne(TitleSelectors[k]).text != Unavailable
    ensures TitleOf(page) == page.selectOne(TitleSelectors[k]).text
  {
    var probes := TitleProbes(page);
    assert probes == probes[..k] + probes[k..] && probes[k..][0] == probes[k];
    FirstNonEmptyNone(probes[..k]);
    FirstNonEmptyConcat(probes[..k], probes[k..]);
  }

  /** With no selector matching non-empty text, the og:title content is the
      title, and the default when the meta tag has no content. */
  lemma TitleFromOgOnly(page: PostPage)
    requires forall j | 0 <= j < |TitleSelectors| :: !IsNonEmptyMatch(page.selectOne(TitleSelectors[j]))
    requires page.ogTitle.Some?
    ensures TitleOf(page) == page.ogTitle.value.content.GetOr(Unavailable)
  {
    var probes := TitleProbes(page);
    FirstNonEmptyNone(probes);
  }

  /** A selector that matched with empty text, no non-empty match and no
      og:title leave the title empty. */
  lemma TitleEmptyWhenMatchesAreEmpty(page: PostPage, k: nat)
    requires k < |TitleSelectors| && page.selectOne(TitleSelectors[k]) == Match("")
    requires forall j | 0 <= j < |TitleSelectors| :: !IsNonEmptyMatch(page.selectOne(TitleSelectors[j]))
    requires page.ogTitle.None?
    ensures TitleOf(page) == ""
  {
    var probes := TitleProbes(page);
    FirstNonEmptyNone(probes);
    assert probes[k].Match?;
  }

  /** With no selector matching and no og:title the title is the default. */
  lemma TitleUnavailableWithoutSources(page: PostPage)
    requires forall j | 0 <= j < |TitleSelectors| :: !page.selectOne(TitleSelectors[j]).Match?
    requires page.ogTitle.None?
    ensures TitleOf(page) == Unavailable
  {
    var probes := TitleProbes(page);
    FirstNonEmptyNone(probes);
    assert !AnyMatch(probes);
  }

  /* ---------------------------------------------------------------- image */

  /** The extracted image URL: og:image when the page has one (its content, or
      the default when the tag has none), otherwise the first `<img>`'s
      non-empty `src`, absolutized, otherwise the default. */
  function ImageOf(page: PostPage): (url: string)
    ensures page.ogImage.Some? ==> url == page.ogImage.value.content.GetOr(Unavailable)
    ensures page.ogImage.None? ==> url == Unavailable || StartsWith(url, "http")
    ensures (page.ogImage.None? && page.firstImg.Some? && page.firstImg.value.src.Some? &&
             page.firstImg.value.src.value != "") ==>
        var src := page.firstImg.value.src.value;
        url == Candidates.Absolutize(src)
    ensures page.ogImage.None? && (page.firstImg.None? || page.firstImg.value.src.GetOr("") == "") ==>
      url == Unavailable
  {
    match page.ogImage
    case Some(meta) => meta.content.GetOr(Unavailable)
    case None =>
      match page.firstImg
      case Some(Img(Some(src))) => if src != "" then Candidates.Absolutize(src) else Unavailable
      case _ => Unavailable
  }

  /* ------------------------------------------------------------- comments */

  /** The page's answers to the comment selectors, in order. */
  function CommentSelections(page: PostPage): (sels: seq<Selection>)
    ensures |sels| == |CommentSelectors|
    ensures forall i | 0 <= i < |CommentSelectors| :: sels[i] == page.select(CommentSelectors[i])
  {
    seq(|CommentSelectors|, i requires 0 <= i < |CommentSelectors| => page.select(CommentSelectors[i]))
  }

  /** The texts longer than five characters, in order. */
  function LongTexts(texts: seq<string>): (kept: seq<string>)
    ensures |kept| <= |texts|
  {
    if texts == [] then []
    else (if |texts[0]| > 5 then [texts[0]] else []) + LongTexts(texts[1..])
  }

  /** The comment list the selector phase leaves when it starts from `found`
      and visits `sels` in order: each selector contributes the long texts
      among its first three elements, a selector that raises contributes
      nothing, and the phase stops once three or more are held. */
  function SelectorComments(sels: seq<Selection>, found: seq<string>): seq<string>
    decreases |sels|
  {
    if sels == [] then found
    else
      var next := SelectorStep(sels[0], found);
      if |next| >= 3 then next else SelectorComments(sels[1..], next)
  }

  function Prefix3<T>(s: seq<T>): (r: seq<T>)
    ensures |r| <= 3 && |r| <= |s| && r == s[..|r|]
    ensures |s| <= 3 ==> r == s
  {
    if |s| <= 3 then s else s[..3]
  }

  /** The texts a generic text qualifies as a comment by its length. */
  predicate CommentLength(t: string) {
    10 < |t| < 200
  }

  /** The generic fallback's list when it starts from `found` and visits
      `texts` in order: texts of a plausible comment length are appended
      unless already present, stopping once three are held. */
  function GenericComments(texts: seq<string>, found: seq<string>): seq<string>
    decreases |texts|
  {
    if texts == [] then found
    else if texts[0] != "" && CommentLength(texts[0]) && texts[0] !in found then
      if |found + [texts[0]]| >= 3 then found + [texts[0]]
      else GenericComments(texts[1..], found + [texts[0]])
    else GenericComments(texts[1..], found)
  }

  /** The comments before joining: the selector phase, or the generic fallback
      over the first twenty div/span/p texts when the selector phase found none. */
  function CommentList(page: PostPage): seq<string> {
    var fromSelectors := SelectorComments(CommentSelections(page), []);
    if fromSelectors == [] then
      GenericComments(page.textElements[..if |page.textElements| <= 20 then |page.textElements| else 20], [])
    else fromSelectors
  }

  /** The comments field: at most the first three comments joined by " | ",
      or "No comments found" when there are none. */
  function CommentsOf(page: PostPage): string {
    var comments := CommentList(page);
    if comments == [] then NoComments else Join(Prefix3(comments), CommentSeparator)
  }

  /** The selector phase of the comment cascade: for each selector, the long
      texts among its first three elements are appended; a selector that raises
      is skipped; the loop ends once three or more are held. */
  method CollectSelectorComments(page: PostPage) returns (comments: seq<string>)
    ensures comments == SelectorComments(CommentSelections(page), [])
  {
    ghost var sels := CommentSelections(page);
    comments := [];
    var i := 0;
    while i < |CommentSelectors|
      invariant 0 <= i <= |CommentSelectors|
      invariant |comments| < 3
      invariant SelectorComments(sels[i..], comments) == SelectorComments(sels, [])
    {
      var selection := page.select(CommentSelectors[i]);
      match selection {
        case SelectRaises =>
        case Selected(texts) =>
          comments := AppendLongTexts(comments, Prefix3(texts));
      }
      assert sels[i..][0] == selection && sels[i..][1..] == sels[i + 1..];
      if |comments| >= 3 {
        break;
      }
      i := i + 1;
    }
  }

  /** One selector's elements: each text longer than five characters is appended. */
  method AppendLongTexts(found: seq<string>, elems: seq<string>) returns (comments: seq<string>)
    ensures comments == found + LongTexts(elems)
  {
    comments := found;
    var j := 0;
    while j < |elems|
      invariant 0 <= j <= |elems|
      invariant comments == found + LongTexts(elems[..j])
    {
      var commentText := elems[j];
      LongTextsAppend(elems[..j], commentText);
      assert elems[..j + 1] == elems[..j] + [commentText];
      if commentText != "" && |commentText| > 5 {
        comments := comments + [commentText];
      }
      j := j + 1;
    }
    assert elems[..j] == elems;
  }

  /** The generic fallback of the comment cascade over the first twenty texts:
      a text of plausible length not yet held is appended, and the loop ends
      once three are held. */
  method CollectGenericComments(allTexts: seq<string>) returns (comments: seq<string>)
    ensures comments == GenericComments(allTexts[..if |allTexts| <= 20 then |allTexts| else 20], [])
  {
    comments := [];
    var limited := allTexts[..if |allTexts| <= 20 then |allTexts| else 20];
    var k := 0;
    while k < |limited|
      invariant 0 <= k <= |limited|
      invariant GenericComments(limited[k..], comments) == GenericComments(limited, [])
    {
      var text := limited[k];
      assert limited[k..][0] == text && limited[k..][1..] == limited[k + 1..];
      if text != "" && 10 < |text| < 200 {
        if text !in comments {
          comments := comments + [text];
          if |comments| >= 3 {
            break;
          }
        }
      }
      k := k + 1;
    }
  }

  /** The comment cascade of the source: the selector phase, the generic
      fallback when it found nothing, then the join or the sentinel. */
  method ExtractComments(page: PostPage) returns (commentsStr: string)
    ensures commentsStr == CommentsOf(page)
  {
    var comments := CollectSelectorComments(page);
    if comments == [] {
      comments := CollectGenericComments(page.textElements);
    }
    commentsStr := if comments != [] then Join(Prefix3(comments), " | ") else "No comments found";
  }

  lemma {:induction false} LongTextsAppend(texts: seq<string>, t: string)
    ensures LongTexts(texts + [t]) == LongTexts(texts) + (if |t| > 5 then [t] else [])
    decreases |texts|
  {
    if texts == [] {
      assert texts + [t] == [t];
    } else {
      assert (texts + [t])[1..] == texts[1..] + [t];
      LongTextsAppend(texts[1..], t);
    }
  }

  /** LongTexts keeps exactly the texts longer than five characters. */
  lemma {:induction false} LongTextsKeeps(texts: seq<string>, t: string)
    ensures t in LongTexts(texts) <==> t in texts && |t| > 5
    decreases |texts|
  {
    if texts != [] {
      LongTextsKeeps(texts[1..], t);
      assert texts == [texts[0]] + texts[1..];
    }
  }

  /** A selection contributes nothing when it raised or none of its first three
      texts is longer than five characters. */
  predicate Contributes(sel: Selection) {
    sel.Selected? && LongTexts(Prefix3(sel.texts)) != []
  }

  /** One selector's contribution to the selector phase. */
  function SelectorStep(sel: Selection, found: seq<string>): seq<string> {
    match sel
    case SelectRaises => found
    case Selected(texts) => found + LongTexts(Prefix3(texts))
  }

  /** The selector phase, started below three, ends with at most five comments
      (so it can hold more than three) and keeps what it started from as a prefix. */
  lemma {:induction false} SelectorCommentsBound(sels: seq<Selection>, found: seq<string>)
    requires |found| < 3
    ensures var r := SelectorComments(sels, found);
      |found| <= |r| <= 5 && r[..|found|] == found
    decreases |sels|
  {
    if sels != [] {
      var next := SelectorStep(sels[0], found);
      assert SelectorComments(sels, found) == if |next| >= 3 then next else SelectorComments(sels[1..], next);
      if |next| < 3 {
        SelectorCommentsBound(sels[1..], next);
        var r := SelectorComments(sels[1..], next);
        assert r[..|found|] == r[..|next|][..|found|];
      }
    }
  }

  /** Every comment the selector phase appends is longer than five characters. */
  lemma {:induction false} SelectorCommentsLong(sels: seq<Selection>, found: seq<string>)
    requires |found| < 3
    ensures var r := SelectorComments(sels, found);
      forall i | |found| <= i < |r| :: |r[i]| > 5
    decreases |sels|
  {
    if sels != [] {
      var next := SelectorStep(sels[0], found);
      assert SelectorComments(sels, found) == if |next| >= 3 then next else SelectorComments(sels[1..], next);
      forall i | |found| <= i < |next| ensures |next[i]| > 5 {
        var added := LongTexts(Prefix3(sels[0].texts));
        assert next == found + added;
        LongTextsKeeps(Prefix3(sels[0].texts), added[i - |found|]);
      }
      if |next| < 3 {
        SelectorCommentsBound(sels[1..], next);
        SelectorCommentsLong(sels[1..], next);
        var r := SelectorComments(sels[1..], next);
        assert forall i | |found| <= i < |next| :: r[i] == next[i];
      }
    }
  }

  /** The selector phase adds nothing exactly when no selector contributes. */
  lemma {:induction false} SelectorCommentsNone(sels: seq<Selection>, found: seq<string>)
    requires |found| < 3
    ensures SelectorComments(sels, found) == found <==> forall i | 0 <= i < |sels| :: !Contributes(sels[i])
    decreases |sels|
  {
    if sels != [] {
      var next := SelectorStep(sels[0], found);
      assert SelectorComments(sels, found) == if |next| >= 3 then next else SelectorComments(sels[1..], next);
      assert next == found <==> !Contributes(sels[0]);
      if |next| < 3 {
        SelectorCommentsNone(sels[1..], next);
        SelectorCommentsBound(sels[1..], next);
        assert forall i | 1 <= i < |sels| :: sels[i] == sels[1..][i - 1];
      }
    }
  }

  /** No text twice. */
  predicate DistinctTexts(texts: seq<string>) {
    forall i, j | 0 <= i < j < |texts| :: texts[i] != texts[j]
  }

  /** The generic fallback, started below three from distinct texts, ends with
      at most three distinct texts; what it appends has a plausible comment
      length and comes from the scanned texts; and when it ends below three it
      missed no text of plausible length. */
  lemma {:induction false} GenericCommentsFacts(texts: seq<string>, found: seq<string>)
    requires |found| < 3 && DistinctTexts(found)
    ensures var r := GenericComments(texts, found);
      && |found| <= |r| <= 3
      && r[..|found|] == found
      && DistinctTexts(r)
      && (forall i | |found| <= i < |r| :: CommentLength(r[i]) && r[i] in texts)
      && (|r| < 3 ==> forall t | t in texts && CommentLength(t) :: t in r)
    decreases |texts|
  {
    if texts != [] {
      var t := texts[0];
      var take := t != "" && CommentLength(t) && t !in found;
      var next := if take then found + [t] else found;
      assert DistinctTexts(next);
      if take && |next| >= 3 {
      } else {
        GenericCommentsFacts(texts[1..], next);
        var r := GenericComments(texts, found);
        assert r == GenericComments(texts[1..], next);
        assert r[..|next|] == next;
        assert r[..|found|] == next[..|found|];
        forall i | |found| <= i < |r| ensures CommentLength(r[i]) && r[i] in texts {
          if i < |next| { assert r[i] == t; } else { assert r[i] in texts[1..]; }
        }
        if |r| < 3 {
          forall u | u in texts && CommentLength(u) ensures u in r {
            if u == t {
              assert u in next;
              assert u in r[..|next|];
            } else {
              assert u in texts[1..];
            }
          }
        }
      }
    }
  }

  /** The comments field: the generic fallback is used only when the selector
      phase found nothing; the field is "No comments found" exactly when both
      found nothing; otherwise it is the join of the first (at most three)
      comments, each of which is longer than five characters. */
  lemma CommentsOfFacts(page: PostPage)
    ensures var fromSelectors := SelectorComments(CommentSelections(page), []);
      var comments := CommentList(page);
      && (fromSelectors != [] ==> comments == fromSelectors)
      && (forall i | 0 <= i < |CommentSelections(page)| :: !Contributes(CommentSelections(page)[i])) ==
           (fromSelectors == [])
      && |comments| <= 5
      && (forall i | 0 <= i < |comments| :: |comments[i]| > 5)
      && (comments == [] ==> CommentsOf(page) == NoComments)
      && (comments != [] ==> CommentsOf(page) == Join(comments[..if |comments| <= 3 then |comments| else 3], CommentSeparator))
  {
    var sels := CommentSelections(page);
    SelectorCommentsBound(sels, []);
    SelectorCommentsLong(sels, []);
    SelectorCommentsNone(sels, []);
    var fromSelectors := SelectorComments(sels, []);
    if fromSelectors == [] {
      var texts := page.textElements;
      GenericCommentsFacts(texts[..if |texts| <= 20 then |texts| else 20], []);
    }
  }
}
