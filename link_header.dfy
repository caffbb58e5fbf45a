/**
 * The recogniser of a `next` link in an HTTP `Link` header (the Web Linking syntax of
 * section 3 of RFC 8288, restricted to the one form the client understands):
 * the header is split at every comma, and the first segment in which the pattern
 * `<([^>]+)>;\s*rel="next"` matches gives the URL between the angle brackets.
 */
module LinkHeader {
  import opened Wrappers
  import opened Text

  /** The literal that must follow the semicolon and the optional white space. */
  const RelNext: string := "rel=\"next\""

  /** A character of the regular-expression class `\s` (white space and line terminators). */
  predicate IsSpace(c: char) {
    c == ' ' || c == '\t' || c == '\n' || c == '\U{000B}' || c == '\U{000C}' || c == '\r'
    || c == '\U{00A0}' || c == '\U{1680}' || ('\U{2000}' <= c <= '\U{200A}')
    || c == '\U{2028}' || c == '\U{2029}' || c == '\U{202F}' || c == '\U{205F}' || c == '\U{3000}' || c == '\U{FEFF}'
  }

  /** The end of the run of white space that starts at `k` (what a greedy `\s*` consumes). */
  function SkipSpaces(s: string, k: nat): (e: nat)
    requires k <= |s|
    ensures k <= e <= |s|
    ensures forall j :: k <= j < e ==> IsSpace(s[j])
    ensures e < |s| ==> !IsSpace(s[e])
    decreases |s| - k
  {
    if k < |s| && IsSpace(s[k]) then SkipSpaces(s, k + 1) else k
  }

  /**
   * The pattern anchored at position `i`: a `<` at `i`, the text up to the first `>` after it
   * (at least one character), then `;`, white space and `rel="next"`. The capture when it matches.
   */
  function MatchAt(s: string, i: nat): (r: Option<string>)
    requires i <= |s|
    ensures r.Some? ==> |r.value| >= 1 && '>' !in r.value
  {
    if i < |s| && s[i] == '<' then
      var j := i + 1 + FirstIndexOf(s[i + 1..], '>');
      if i + 2 <= j && j + 1 < |s| && s[j + 1] == ';' && OccursAt(s, RelNext, SkipSpaces(s, j + 2)) then
        Some(s[i + 1..j])
      else None
    else None
  }

  /** The leftmost match at a position `i` or later. */
  function MatchFrom(s: string, i: nat): (r: Option<string>)
    requires i <= |s|
    ensures r.Some? ==> |r.value| >= 1 && '>' !in r.value
    decreases |s| - i
  {
    if MatchAt(s, i).Some? then MatchAt(s, i)
    else if i == |s| then None
    else MatchFrom(s, i + 1)
  }

  /** `segment.match(pattern)`: the capture of the leftmost match, if any. */
  function MatchSegment(s: string): (r: Option<string>)
    ensures r.Some? ==> |r.value| >= 1 && '>' !in r.value
  {
    MatchFrom(s, 0)
  }

  /** The capture of the first segment that matches. */
  function FirstMatch(segments: seq<string>): (r: Option<string>)
    ensures r.Some? ==> |r.value| >= 1 && '>' !in r.value
  {
    if segments == [] then None
    else if MatchSegment(segments[0]).Some? then MatchSegment(segments[0])
    else FirstMatch(segments[1..])
  }

  /**
   * The next-page URL a header announces: none for an absent or empty header, otherwise the
   * capture of the first comma-separated segment that matches.
   */
  function NextLink(header: Option<string>): (r: Option<string>)
    ensures r.Some? ==> header.Some? && |r.value| >= 1 && '>' !in r.value
  {
    match header
    case None => None
    case Some(h) => if h == "" then None else FirstMatch(Split(h, ','))
  }

  /** The pattern matches somewhere at or after `i` exactly when the leftmost search finds a capture there. */
  lemma {:induction false} MatchFromFinds(s: string, i: nat)
    requires i <= |s|
    ensures MatchFrom(s, i).Some? ==> exists k :: i <= k <= |s| && MatchAt(s, k) == MatchFrom(s, i)
    ensures MatchFrom(s, i).None? ==> forall k :: i <= k <= |s| ==> MatchAt(s, k).None?
    decreases |s| - i
  {
    if MatchAt(s, i).None? && i < |s| {
      MatchFromFinds(s, i + 1);
    }
  }

  /** A capture is a piece of the segment it was taken from: a character absent from the segment is absent from it. */
  lemma {:induction false} MatchFromInside(s: string, i: nat, c: char)
    requires i <= |s| && c !in s
    ensures MatchFrom(s, i).Some? ==> c !in MatchFrom(s, i).value
    decreases |s| - i
  {
    if MatchAt(s, i).Some? {
      var j := i + 1 + FirstIndexOf(s[i + 1..], '>');
      assert MatchAt(s, i).value == s[i + 1..j];
      assert forall x :: x in s[i + 1..j] ==> x in s;
    } else if i < |s| {
      MatchFromInside(s, i + 1, c);
    }
  }

  /**
   * What `NextLink` returns is the capture of one comma-free segment of the header, and every
   * segment before that one does not match; a URL never contains a comma.
   */
  lemma {:induction false} FirstMatchSpec(segments: seq<string>)
    ensures FirstMatch(segments).Some? ==>
              exists k :: 0 <= k < |segments| && MatchSegment(segments[k]) == FirstMatch(segments)
                          && forall j :: 0 <= j < k ==> MatchSegment(segments[j]).None?
    ensures FirstMatch(segments).None? ==> forall k :: 0 <= k < |segments| ==> MatchSegment(segments[k]).None?
  {
    if segments != [] && MatchSegment(segments[0]).None? {
      var tail := segments[1..];
      FirstMatchSpec(tail);
      if FirstMatch(tail).Some? {
        var k :| 0 <= k < |tail| && MatchSegment(tail[k]) == FirstMatch(tail)
                 && forall j :: 0 <= j < k ==> MatchSegment(tail[j]).None?;
        assert segments[k + 1] == tail[k];
        forall j | 0 <= j < k + 1 ensures MatchSegment(segments[j]).None? {
          if j > 0 { assert segments[j] == tail[j - 1]; }
        }
      } else {
        forall k | 0 <= k < |segments| ensures MatchSegment(segments[k]).None? {
          if k > 0 { assert segments[k] == tail[k - 1]; }
        }
      }
    }
  }

  /** A next-page URL never contains a comma, since it comes from one segment of the split header. */
  lemma NextLinkHasNoComma(header: Option<string>)
    ensures NextLink(header).Some? ==> ',' !in NextLink(header).value
  {
    if NextLink(header).Some? {
      var segments := Split(header.value, ',');
      FirstMatchSpec(segments);
      var k :| 0 <= k < |segments| && MatchSegment(segments[k]) == NextLink(header);
      MatchFromInside(segments[k], 0, ',');
    }
  }

  /**
   * The search the client runs: split the header at commas, try the pattern on each segment in
   * turn and return the first capture; `None` when the header is absent or empty or when no
   * segment matches.
   */
  method GetNextPageUrl(header: Option<string>) returns (url: Option<string>)
    ensures url == NextLink(header)
  {
    if header.None? || header.value == "" {
      return None;
    }
    var links := Split(header.value, ',');
    var i := 0;
    while i < |links|
      invariant 0 <= i <= |links|
      invariant forall j :: 0 <= j < i ==> MatchSegment(links[j]).None?
      invariant FirstMatch(links) == FirstMatch(links[i..])
    {
      var m := MatchSegment(links[i]);
      if m.Some? {
        return m;
      }
      assert links[i..][1..] == links[i + 1..];
      i := i + 1;
    }
    return None;
  }

  /** The first matching segment decides. */
  lemma {:induction false} FirstMatchIsFirst(segments: seq<string>, k: nat)
    requires k < |segments| && MatchSegment(segments[k]).Some?
    requires forall j :: 0 <= j < k ==> MatchSegment(segments[j]).None?
    ensures FirstMatch(segments) == MatchSegment(segments[k])
  {
    if k > 0 {
      assert MatchSegment(segments[0]).None?;
      FirstMatchIsFirst(segments[1..], k - 1);
    }
  }

  // ---- Rendering: the partner of the parser ----

  /** A run of white space. */
  predicate AllSpaces(w: string) {
    forall j :: 0 <= j < |w| ==> IsSpace(w[j])
  }

  /** The link-value `<url>;` + white space + `rel="…"`, as a server writes it. */
  function LinkValue(url: string, ws: string, rel: string): string {
    "<" + url + ">;" + ws + "rel=\"" + rel + "\""
  }

  /** A segment made of a prefix, one rendered link-value and a suffix. */
  function Segment(pre: string, url: string, ws: string, rel: string, post: string): string {
    pre + LinkValue(url, ws, rel) + post
  }

  /** Where the delimiters of a rendered link-value sit inside its segment. */
  lemma SegmentDelimiters(pre: string, url: string, ws: string, rel: string, post: string)
    ensures var s := Segment(pre, url, ws, rel, post);
            var i := |pre|;
            var n := |url|;
            var e := i + n + 3 + |ws|;
            && |s| == e + 6 + |rel| + |post|
            && s[i] == '<' && s[i + n + 1] == '>' && s[i + n + 2] == ';'
            && s[e..e + 5] == "rel=\""
            && s[e + 5 + |rel|] == '"'
  {
    var s := Segment(pre, url, ws, rel, post);
    var e := |pre| + |url| + 3 + |ws|;
    assert s == pre + "<" + url + ">;" + ws + "rel=\"" + rel + "\"" + post;
    assert s[e..e + 5] == "rel=\"";
  }

  /** The part `b` of `a + b + c` sits at offset `|a|`. */
  lemma PlacedAt(a: string, b: string, c: string)
    ensures forall m :: 0 <= m < |b| ==> (a + b + c)[|a| + m] == b[m]
  {
  }

  /** Each variable part of the segment: the prefix, the URL, the white space, the relation type and the suffix. */
  lemma SegmentParts(pre: string, url: string, ws: string, rel: string, post: string)
    ensures var s := Segment(pre, url, ws, rel, post);
            var i := |pre|;
            var n := |url|;
            var e := i + n + 3 + |ws|;
            && (forall m :: 0 <= m < i ==> s[0 + m] == pre[m])
            && (forall m :: 0 <= m < n ==> s[i + 1 + m] == url[m])
            && (forall m :: 0 <= m < |ws| ==> s[i + n + 3 + m] == ws[m])
            && (forall m :: 0 <= m < |rel| ==> s[e + 5 + m] == rel[m])
            && (forall m :: 0 <= m < |post| ==> s[e + 6 + |rel| + m] == post[m])
  {
    var s := Segment(pre, url, ws, rel, post);
    var q := "rel=\"";
    var tail := ">;" + ws + q + rel + "\"" + post;
    assert s == "" + pre + ("<" + url + tail);
    PlacedAt("", pre, "<" + url + tail);
    assert s == (pre + "<") + url + tail;
    PlacedAt(pre + "<", url, tail);
    assert s == (pre + "<" + url + ">;") + ws + (q + rel + "\"" + post);
    PlacedAt(pre + "<" + url + ">;", ws, q + rel + "\"" + post);
    assert s == (pre + "<" + url + ">;" + ws + q) + rel + ("\"" + post);
    PlacedAt(pre + "<" + url + ">;" + ws + q, rel, "\"" + post);
    assert s == (pre + "<" + url + ">;" + ws + q + rel + "\"") + post + "";
    PlacedAt(pre + "<" + url + ">;" + ws + q + rel + "\"", post, "");
  }

  lemma FirstIndexOfAt(x: string, n: nat, c: char)
    requires n < |x| && x[n] == c
    requires forall m :: 0 <= m < n ==> x[m] != c
    ensures FirstIndexOf(x, c) == n
  {
  }

  lemma {:induction false} SkipSpacesTo(s: string, k: nat, e: nat)
    requires k <= e < |s|
    requires forall m :: k <= m < e ==> IsSpace(s[m])
    requires !IsSpace(s[e])
    ensures SkipSpaces(s, k) == e
    decreases e - k
  {
    if k < e {
      SkipSpacesTo(s, k + 1, e);
    }
  }

  /** How `MatchAt` decides once the position of the `>` and the end of the white space are known. */
  lemma MatchAtWhen(s: string, i: nat, n: nat, e: nat)
    requires i < |s| && s[i] == '<' && n >= 1
    requires FirstIndexOf(s[i + 1..], '>') == n
    requires i + n + 2 < |s| && s[i + n + 2] == ';'
    requires SkipSpaces(s, i + n + 3) == e
    ensures MatchAt(s, i) == if OccursAt(s, RelNext, e) then Some(s[i + 1..i + 1 + n]) else None
  {
  }

  /** The pattern anchored at `i` over a segment laid out as `<`, `n` characters, `>;`, `w` spaces, `rel="`, `rel`, `"`. */
  lemma MatchAtLayout(s: string, i: nat, n: nat, w: nat, rel: string)
    requires n >= 1 && '"' !in rel
    requires i + n + w + |rel| + 9 <= |s|
    requires s[i] == '<' && s[i + n + 1] == '>' && s[i + n + 2] == ';'
    requires forall m :: i < m <= i + n ==> s[m] != '>'
    requires forall m :: i + n + 3 <= m < i + n + 3 + w ==> IsSpace(s[m])
    requires s[i + n + 3 + w..i + n + 8 + w] == "rel=\""
    requires forall m :: 0 <= m < |rel| ==> s[i + n + 8 + w + m] == rel[m]
    requires s[i + n + 8 + w + |rel|] == '"'
    ensures MatchAt(s, i) == if rel == "next" then Some(s[i + 1..i + 1 + n]) else None
  {
    var e := i + n + 3 + w;
    MatchAtDelimiters(s, i, n, w);
    RelOccurs(s, e, rel);
  }

  lemma MatchAtDelimiters(s: string, i: nat, n: nat, w: nat)
    requires n >= 1
    requires i + n + w + 8 <= |s|
    requires s[i] == '<' && s[i + n + 1] == '>' && s[i + n + 2] == ';'
    requires forall m :: i < m <= i + n ==> s[m] != '>'
    requires forall m :: i + n + 3 <= m < i + n + 3 + w ==> IsSpace(s[m])
    requires s[i + n + 3 + w] == 'r'
    ensures MatchAt(s, i) == if OccursAt(s, RelNext, i + n + 3 + w) then Some(s[i + 1..i + 1 + n]) else None
  {
    var rest := s[i + 1..];
    assert FirstIndexOf(rest, '>') == n by {
      forall m | 0 <= m < n ensures rest[m] != '>' {
        assert rest[m] == s[i + 1 + m];
      }
      FirstIndexOfAt(rest, n, '>');
    }
    var e := i + n + 3 + w;
    SkipSpacesTo(s, i + n + 3, e);
    MatchAtWhen(s, i, n, e);
  }

  /** `rel="` followed by a quote-free relation type and a quote reads `rel="next"` exactly when the type is `next`. */
  lemma RelOccurs(s: string, e: nat, rel: string)
    requires '"' !in rel && e + |rel| + 6 <= |s|
    requires s[e..e + 5] == "rel=\""
    requires forall m :: 0 <= m < |rel| ==> s[e + 5 + m] == rel[m]
    requires s[e + 5 + |rel|] == '"'
    ensures OccursAt(s, RelNext, e) <==> rel == "next"
  {
    if rel == "next" {
      assert s[e..e + 10] == RelNext by {
        assert s[e..e + 10] == s[e..e + 5] + s[e + 5..e + 10];
        assert s[e + 5..e + 10] == "next\"" by {
          assert s[e + 5..e + 10][4] == s[e + 5 + 4];
          forall m | 0 <= m < 4 ensures s[e + 5..e + 10][m] == rel[m] {
            assert s[e + 5..e + 10][m] == s[e + 5 + m];
          }
        }
      }
    } else if e + 10 <= |s| {
      var d := RelDiffers(rel);
      assert s[e..e + 10][5 + d] == s[e + 5 + d];
      assert s[e..e + 10][5 + d] != RelNext[5 + d];
    }
  }

  /**
   * The pattern anchored at a rendered link-value: it matches, with the URL as capture, exactly
   * when the relation type is `next`.
   */
  lemma MatchAtLinkValue(pre: string, url: string, ws: string, rel: string, post: string)
    requires |url| >= 1 && '>' !in url && AllSpaces(ws) && '"' !in rel
    ensures MatchAt(Segment(pre, url, ws, rel, post), |pre|) == if rel == "next" then Some(url) else None
  {
    SegmentDelimiters(pre, url, ws, rel, post);
    SegmentParts(pre, url, ws, rel, post);
    MatchAtPlaced(Segment(pre, url, ws, rel, post), |pre|, url, ws, rel);
  }

  /** `MatchAtLinkValue` for any text laid out as a link-value at `i`. */
  lemma MatchAtPlaced(s: string, i: nat, url: string, ws: string, rel: string)
    requires |url| >= 1 && '>' !in url && AllSpaces(ws) && '"' !in rel
    requires var n := |url|;
             var e := i + n + 3 + |ws|;
             && e + 6 + |rel| <= |s|
             && s[i] == '<' && s[i + n + 1] == '>' && s[i + n + 2] == ';'
             && s[e..e + 5] == "rel=\""
             && s[e + 5 + |rel|] == '"'
             && (forall m :: 0 <= m < n ==> s[i + 1 + m] == url[m])
             && (forall m :: 0 <= m < |ws| ==> s[i + n + 3 + m] == ws[m])
             && (forall m :: 0 <= m < |rel| ==> s[e + 5 + m] == rel[m])
    ensures MatchAt(s, i) == if rel == "next" then Some(url) else None
  {
    var n, w := |url|, |ws|;
    PlacedAvoids(s, i + 1, url, '>');
    PlacedSpaces(s, i + n + 3, ws);
    MatchAtLayout(s, i, n, w, rel);
    PlacedSlice(s, i + 1, url);
  }

  /** A piece placed at `k` is the slice of the text at `k`. */
  lemma PlacedSlice(s: string, k: nat, piece: string)
    requires k + |piece| <= |s|
    requires forall m :: 0 <= m < |piece| ==> s[k + m] == piece[m]
    ensures s[k..k + |piece|] == piece
  {
    forall m | 0 <= m < |piece| ensures s[k..k + |piece|][m] == piece[m] {
      assert s[k..k + |piece|][m] == s[k + m];
    }
  }

  /** A piece placed at `k` that lacks `c` puts no `c` at those positions. */
  lemma PlacedAvoids(s: string, k: nat, piece: string, c: char)
    requires k + |piece| <= |s| && c !in piece
    requires forall m :: 0 <= m < |piece| ==> s[k + m] == piece[m]
    ensures forall m :: k <= m < k + |piece| ==> s[m] != c
  {
    forall m | k <= m < k + |piece| ensures s[m] != c {
      assert s[k + (m - k)] == piece[m - k];
    }
  }

  lemma PlacedSpaces(s: string, k: nat, ws: string)
    requires k + |ws| <= |s| && AllSpaces(ws)
    requires forall m :: 0 <= m < |ws| ==> s[k + m] == ws[m]
    ensures forall m :: k <= m < k + |ws| ==> IsSpace(s[m])
  {
    forall m | k <= m < k + |ws| ensures IsSpace(s[m]) {
      assert s[k + (m - k)] == ws[m - k];
    }
  }

  /** A position among the first five where `rel` followed by a quote differs from `next` followed by a quote. */
  lemma RelDiffers(rel: string) returns (d: nat)
    requires rel != "next" && '"' !in rel
    ensures d < 5 && d <= |rel|
    ensures (if d < |rel| then rel[d] else '"') != "next\""[d]
  {
    if |rel| >= 4 && rel[..4] == "next" {
      assert |rel| > 4;
      d := 4;
    } else if |rel| < 4 {
      d := |rel|;
    } else {
      d :| 0 <= d < 4 && rel[d] != "next"[d];
    }
  }

  /** The pattern matches at no position from `from` up to, not including, `i`. */
  predicate NoneBetween(s: string, from: nat, i: nat)
    requires from <= i <= |s|
    decreases i - from
  {
    from == i || (MatchAt(s, from).None? && NoneBetween(s, from + 1, i))
  }

  lemma {:induction false} NoneBetweenIntro(s: string, from: nat, i: nat)
    requires from <= i <= |s|
    requires forall k :: from <= k < i ==> MatchAt(s, k).None?
    ensures NoneBetween(s, from, i)
    decreases i - from
  {
    if from < i {
      NoneBetweenIntro(s, from + 1, i);
    }
  }

  /** The leftmost search returns the first position where the pattern matches. */
  lemma {:induction false} MatchFromLeftmost(s: string, from: nat, i: nat)
    requires from <= i <= |s|
    requires NoneBetween(s, from, i)
    ensures MatchFrom(s, from) == (if MatchAt(s, i).Some? then MatchAt(s, i) else MatchFrom(s, i))
    decreases i - from
  {
    if from < i {
      MatchFromSkip(s, from);
      MatchFromLeftmost(s, from + 1, i);
    } else if MatchAt(s, i).Some? {
      MatchFromHit(s, i);
    }
  }

  lemma MatchFromHit(s: string, k: nat)
    requires k <= |s| && MatchAt(s, k).Some?
    ensures MatchFrom(s, k) == MatchAt(s, k)
  {
  }

  /** A position where the pattern does not match passes the search on. */
  lemma MatchFromSkip(s: string, k: nat)
    requires k < |s| && MatchAt(s, k).None?
    ensures MatchFrom(s, k) == MatchFrom(s, k + 1)
  {
  }

  /**
   * Round trip: a segment made of a prefix without `<`, a rendered `next` link-value and any
   * suffix yields exactly the rendered URL.
   */
  lemma RenderNextParses(pre: string, url: string, ws: string, post: string)
    requires '<' !in pre
    requires |url| >= 1 && '>' !in url
    requires AllSpaces(ws)
    ensures MatchSegment(Segment(pre, url, ws, "next", post)) == Some(url)
  {
    var s := Segment(pre, url, ws, "next", post);
    MatchAtLinkValue(pre, url, ws, "next", post);
    SegmentParts(pre, url, ws, "next", post);
    forall k | 0 <= k < |pre| ensures MatchAt(s, k).None? {
      assert s[0 + k] == pre[k];
    }
    NoneBetweenIntro(s, 0, |pre|);
    MatchFromLeftmost(s, 0, |pre|);
  }

  /** In a segment built from `<`-free parts, the link-value's own `<` is the only one. */
  lemma OnlyOneAngle(pre: string, url: string, ws: string, rel: string, post: string)
    requires '<' !in pre && '<' !in url && '<' !in rel && '<' !in post && AllSpaces(ws)
    ensures var s := Segment(pre, url, ws, rel, post);
            forall k :: 0 <= k < |s| && k != |pre| ==> s[k] != '<'
  {
    SegmentDelimiters(pre, url, ws, rel, post);
    SegmentParts(pre, url, ws, rel, post);
    OnlyOneAnglePlaced(Segment(pre, url, ws, rel, post), pre, url, ws, rel, post);
  }

  /** `OnlyOneAngle` for any text laid out as a segment. */
  lemma OnlyOneAnglePlaced(s: string, pre: string, url: string, ws: string, rel: string, post: string)
    requires '<' !in pre && '<' !in url && '<' !in rel && '<' !in post && AllSpaces(ws)
    requires var i, n := |pre|, |url|;
             var e := i + n + 3 + |ws|;
             && |s| == e + 6 + |rel| + |post|
             && s[i + n + 1] == '>' && s[i + n + 2] == ';'
             && s[e..e + 5] == "rel=\""
             && s[e + 5 + |rel|] == '"'
             && (forall m :: 0 <= m < i ==> s[0 + m] == pre[m])
             && (forall m :: 0 <= m < n ==> s[i + 1 + m] == url[m])
             && (forall m :: 0 <= m < |ws| ==> s[i + n + 3 + m] == ws[m])
             && (forall m :: 0 <= m < |rel| ==> s[e + 5 + m] == rel[m])
             && (forall m :: 0 <= m < |post| ==> s[e + 6 + |rel| + m] == post[m])
    ensures forall k :: 0 <= k < |s| && k != |pre| ==> s[k] != '<'
  {
    var i, n := |pre|, |url|;
    var e := i + n + 3 + |ws|;
    PlacedAvoids(s, 0, pre, '<');
    PlacedAvoids(s, i + 1, url, '<');
    PlacedAvoids(s, e + 5, rel, '<');
    PlacedAvoids(s, e + 6 + |rel|, post, '<');
    PlacedSpaces(s, i + n + 3, ws);
    forall k | e <= k < e + 5 ensures s[k] != '<' {
      assert s[k] == s[e..e + 5][k - e];
    }
  }

  /**
   * A segment holding one link-value of another relation type (such as `previous`), with no
   * other `<`, does not match.
   */
  lemma OtherRelDoesNotMatch(pre: string, url: string, ws: string, rel: string, post: string)
    requires '<' !in pre && '<' !in url && '<' !in rel && '<' !in post
    requires |url| >= 1 && '>' !in url && AllSpaces(ws)
    requires rel != "next" && '"' !in rel
    ensures MatchSegment(Segment(pre, url, ws, rel, post)).None?
  {
    var s := Segment(pre, url, ws, rel, post);
    MatchAtLinkValue(pre, url, ws, rel, post);
    OnlyOneAngle(pre, url, ws, rel, post);
    forall k | 0 <= k <= |s| ensures MatchAt(s, k).None? {
      if k != |pre| && k < |s| {
        assert s[k] != '<';
      }
    }
    NoneBetweenIntro(s, 0, |s|);
    MatchFromLeftmost(s, 0, |s|);
  }

  /** `Split` of two comma-free parts joined by one comma. */
  lemma SplitTwo(a: string, b: string)
    requires ',' !in a && ',' !in b
    ensures Split(a + "," + b, ',') == [a, b]
  {
    var s := a + "," + b;
    FirstIndexOfAt(s, |a|, ',');
    assert s[..|a|] == a;
    assert s[|a| + 1..] == b;
    assert FirstIndexOf(b, ',') == |b|;
    assert Split(b, ',') == [b];
  }

  /** A link-value built from comma-free parts holds no comma. */
  lemma CommaFreeLinkValue(url: string, ws: string, rel: string)
    requires ',' !in url && ',' !in ws && ',' !in rel
    ensures ',' !in LinkValue(url, ws, rel)
  {
    assert ',' !in "<" && ',' !in ">;" && ',' !in "rel=\"" && ',' !in "\"";
  }

  /**
   * The header the commerce API sends on a middle page: a `previous` link-value, a comma, then
   * a `next` link-value. The `next` URL is the one returned.
   */
  lemma PreviousThenNext(prev: string, next: string)
    requires |prev| >= 1 && '>' !in prev && '<' !in prev && ',' !in prev
    requires |next| >= 1 && '>' !in next && ',' !in next
    ensures NextLink(Some(LinkValue(prev, " ", "previous") + ", " + LinkValue(next, " ", "next")))
            == Some(next)
  {
    var v1, v2 := LinkValue(prev, " ", "previous"), LinkValue(next, " ", "next");
    var first, second := Segment("", prev, " ", "previous", ""), Segment(" ", next, " ", "next", "");
    var h := v1 + ", " + v2;
    assert first == v1;
    assert second == " " + v2;
    assert h == first + "," + second;
    CommaFreeLinkValue(prev, " ", "previous");
    CommaFreeLinkValue(next, " ", "next");
    assert ',' !in second;
    SplitTwo(first, second);
    OtherRelDoesNotMatch("", prev, " ", "previous", "");
    RenderNextParses(" ", next, " ", "");
    assert FirstMatch([second]) == Some(next);
    assert [first, second][1..] == [second];
    assert FirstMatch([first, second]) == Some(next);
    assert h != "" && NextLink(Some(h)) == FirstMatch(Split(h, ','));
  }
}
