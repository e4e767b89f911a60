/**
 * A chat message bubble. Its one piece of logic is `formatContent`: the
 * message text is split with the regular expression `/(\*\*.*?\*\*)/`
 * (the captured matches are kept between the other pieces), and every piece
 * that starts and ends with `**` is rendered bold without its markers.
 *
 * The split follows the `split` algorithm of ECMAScript for a regular
 * expression: scan positions left to right, try a match anchored at each
 * one, and on a match emit the text before it and the match. The pattern's
 * `.*?` is lazy and its `.` refuses line terminators, so a match is an
 * opening `**` followed by the nearest `**` on the same line.
 */
module MessageBubble {
  import opened Wrappers
  import opened JsString

  datatype Role = User | Assistant

  /** `**` starts at index m of s. */
  predicate MarkerAt(s: string, m: int) {
    0 <= m && m + 2 <= |s| && s[m] == '*' && s[m + 1] == '*'
  }

  /** s[a..b] holds no line terminator: `.` can match all of it. */
  predicate SameLine(s: string, a: int, b: int)
    requires 0 <= a <= b <= |s|
  {
    forall m :: a <= m < b ==> !IsLineTerminator(s[m])
  }

  /** t, as a whole, is `**`, then characters of one line, then `**`. */
  predicate IsBoldSpan(t: string) {
    |t| >= 4 && MarkerAt(t, 0) && MarkerAt(t, |t| - 2) && SameLine(t, 2, |t| - 2)
  }

  /** A bold span whose closing `**` is the first one after the opening `**`. */
  predicate IsLazyBoldSpan(t: string) {
    IsBoldSpan(t) && forall m :: 2 <= m < |t| - 2 ==> !MarkerAt(t, m)
  }

  /** No substring of t is a bold span. */
  predicate NoBoldSpanIn(t: string) {
    forall i, j :: 0 <= i <= j <= |t| ==> !IsBoldSpan(t[i..j])
  }

  /**
   * The lazy `.*?\*\*` tail of the pattern, tried from index k: the index
   * of the nearest `**` at or after k, provided no line terminator comes
   * before it.
   */
  function FindClose(s: string, k: nat): (r: Option<nat>)
    requires k <= |s|
    ensures r.Some? ==> k <= r.value && MarkerAt(s, r.value) && SameLine(s, k, r.value)
    ensures r.Some? ==> forall m :: k <= m < r.value ==> !MarkerAt(s, m)
    ensures r.None? ==> forall c :: k <= c && MarkerAt(s, c) ==> !SameLine(s, k, c)
    decreases |s| - k
  {
    if MarkerAt(s, k) then Some(k)
    else if k < |s| && !IsLineTerminator(s[k]) then FindClose(s, k + 1)
    else None
  }

  /**
   * The pattern `\*\*.*?\*\*` anchored at index q: the end of the match,
   * if there is one. A match is a lazy bold span, and there is none exactly
   * when no bold span starts at q.
   */
  function MatchAt(s: string, q: nat): (r: Option<nat>)
    requires q <= |s|
    ensures r.Some? ==> q + 4 <= r.value <= |s| && IsLazyBoldSpan(s[q..r.value])
    ensures r.None? ==> forall e :: q <= e <= |s| ==> !IsBoldSpan(s[q..e])
  {
    if MarkerAt(s, q) then
      match FindClose(s, q + 2)
      case Some(c) =>
        SliceShift(s, q, c + 2);
        Some(c + 2)
      case None =>
        assert forall e :: q <= e <= |s| ==> !IsBoldSpan(s[q..e]) by {
          forall e | q <= e <= |s| ensures !IsBoldSpan(s[q..e]) {
            SliceShift(s, q, e);
          }
        }
        None
    else None
  }

  /** Markers and line terminators of s[a..b] are those of s, shifted by a. */
  lemma SliceShift(s: string, a: nat, b: nat)
    requires a <= b <= |s|
    ensures forall m :: 0 <= m <= b - a ==> (MarkerAt(s[a..b], m) <==> m + 2 <= b - a && MarkerAt(s, a + m))
    ensures forall x, y :: 0 <= x <= y <= b - a ==> (SameLine(s[a..b], x, y) <==> SameLine(s, a + x, a + y))
  {
    var t := s[a..b];
    forall x, y | 0 <= x <= y <= b - a
      ensures SameLine(t, x, y) <==> SameLine(s, a + x, a + y)
    {
      if SameLine(s, a + x, a + y) {
        forall m | x <= m < y ensures !IsLineTerminator(t[m]) {
          assert t[m] == s[a + m];
        }
      }
      if SameLine(t, x, y) {
        forall m | a + x <= m < a + y ensures !IsLineTerminator(s[m]) {
          assert t[m - a] == s[m];
        }
      }
    }
  }

  /** No match of the pattern starts anywhere in [p, q). */
  predicate NoMatchBetween(s: string, p: nat, q: nat)
    requires p <= q <= |s|
  {
    forall j :: p <= j < q ==> MatchAt(s, j).None?
  }

  /** The pieces in order, glued back together. */
  function Concat(parts: seq<string>): string {
    if parts == [] then [] else parts[0] + Concat(parts[1..])
  }

  /**
   * The split loop of ECMAScript from state (p, q): p is where the current
   * unmatched piece starts, q the next position a match is tried at.
   * Pieces alternate: unmatched text at even indices, matches at odd ones.
   */
  function SplitFrom(s: string, p: nat, q: nat): (parts: seq<string>)
    requires p <= q <= |s|
    ensures |parts| % 2 == 1
    ensures Concat(parts) == s[p..]
    ensures forall i :: 0 <= i < |parts| && i % 2 == 1 ==> IsLazyBoldSpan(parts[i])
    decreases |s| - q
  {
    if q == |s| then
      [s[p..]]
    else
      match MatchAt(s, q)
      case None => SplitFrom(s, p, q + 1)
      case Some(e) =>
        var rest := SplitFrom(s, e, e);
        assert s[p..] == s[p..q] + (s[q..e] + s[e..]);
        assert ([s[p..q], s[q..e]] + rest)[2..] == rest;
        [s[p..q], s[q..e]] + rest
  }

  /** `content.split(/(\*\*.*?\*\*)/)`. */
  function SplitBold(content: string): (parts: seq<string>)
    ensures |parts| % 2 == 1 && Concat(parts) == content
    ensures forall i :: 0 <= i < |parts| && i % 2 == 1 ==> IsLazyBoldSpan(parts[i])
  {
    SplitFrom(content, 0, 0)
  }

  /** The unmatched text s[p..q] holds no bold span when no match starts in it. */
  lemma NoMatchMeansNoSpan(s: string, p: nat, q: nat)
    requires p <= q <= |s|
    requires NoMatchBetween(s, p, q)
    ensures NoBoldSpanIn(s[p..q])
  {
    forall i, j | 0 <= i <= j <= q - p
      ensures !IsBoldSpan(s[p..q][i..j])
    {
      assert s[p..q][i..j] == s[p + i..p + j] by {
        assert forall k :: 0 <= k < j - i ==> s[p..q][i..j][k] == s[p + i + k];
      }
      if i + 4 <= j {
        assert MatchAt(s, p + i).None?;
      }
    }
  }

  /** The unmatched pieces of a split contain no bold span. */
  lemma {:induction false} SplitFromPlainPieces(s: string, p: nat, q: nat)
    requires p <= q <= |s|
    requires NoMatchBetween(s, p, q)
    ensures forall i :: 0 <= i < |SplitFrom(s, p, q)| && i % 2 == 0 ==> NoBoldSpanIn(SplitFrom(s, p, q)[i])
    decreases |s| - q
  {
    if q == |s| {
      NoMatchMeansNoSpan(s, p, q);
      assert s[p..] == s[p..q];
    } else {
      match MatchAt(s, q)
      case None =>
        SplitFromPlainPieces(s, p, q + 1);
      case Some(e) =>
        NoMatchMeansNoSpan(s, p, q);
        SplitFromPlainPieces(s, e, e);
        var rest := SplitFrom(s, e, e);
        assert SplitFrom(s, p, q) == [s[p..q], s[q..e]] + rest;
    }
  }

  /** Where piece i starts in the glued text: the length of the pieces before it. */
  function Offset(parts: seq<string>, i: nat): nat
    requires i <= |parts|
  {
    |Concat(parts[..i])|
  }

  /** Prepending two pieces moves every later piece by their lengths. */
  lemma OffsetAfterTwo(a: string, b: string, rest: seq<string>, i: nat)
    requires 2 <= i <= |rest| + 2
    ensures Offset([a, b] + rest, i) == |a| + |b| + Offset(rest, i - 2)
  {
    var t := rest[..i - 2];
    assert ([a, b] + rest)[..i] == [a, b] + t;
    assert ([a, b] + t)[1..] == [b] + t;
    assert ([b] + t)[1..] == t;
    assert Concat([a, b] + t) == a + Concat([b] + t);
    assert Concat([b] + t) == b + Concat(t);
  }

  /**
   * Matching is leftmost: no match of the pattern starts anywhere inside an
   * unmatched piece, p being where the split's text starts.
   */
  lemma {:induction false} SplitFromLeftmost(s: string, p: nat, q: nat)
    requires p <= q <= |s|
    requires NoMatchBetween(s, p, q)
    ensures forall i :: 0 <= i < |SplitFrom(s, p, q)| && i % 2 == 0 ==>
              p + Offset(SplitFrom(s, p, q), i) + |SplitFrom(s, p, q)[i]| <= |s|
              && NoMatchBetween(s, p + Offset(SplitFrom(s, p, q), i), p + Offset(SplitFrom(s, p, q), i) + |SplitFrom(s, p, q)[i]|)
    decreases |s| - q
  {
    if q == |s| {
      assert SplitFrom(s, p, q) == [s[p..]];
      assert Offset([s[p..]], 0) == 0 by {
        assert [s[p..]][..0] == [];
      }
    } else {
      match MatchAt(s, q)
      case None =>
        SplitFromLeftmost(s, p, q + 1);
      case Some(e) =>
        SplitFromLeftmost(s, e, e);
        var rest := SplitFrom(s, e, e);
        var parts := [s[p..q], s[q..e]] + rest;
        assert SplitFrom(s, p, q) == parts;
        forall i | 0 <= i < |parts| && i % 2 == 0
          ensures p + Offset(parts, i) + |parts[i]| <= |s|
          ensures NoMatchBetween(s, p + Offset(parts, i), p + Offset(parts, i) + |parts[i]|)
        {
          if i == 0 {
            assert parts[..0] == [];
          } else {
            OffsetAfterTwo(s[p..q], s[q..e], rest, i);
            assert parts[i] == rest[i - 2];
          }
        }
    }
  }

  /**
   * The unmatched pieces of `split` (at even indices, possibly empty):
   * no match of the pattern starts inside one, so none contains a bold
   * span. With the matches at odd indices being lazy bold spans, this
   * pins the split down.
   */
  lemma SplitBoldPartition(content: string)
    ensures forall i :: 0 <= i < |SplitBold(content)| && i % 2 == 0 ==>
              Offset(SplitBold(content), i) + |SplitBold(content)[i]| <= |content|
              && NoMatchBetween(content, Offset(SplitBold(content), i), Offset(SplitBold(content), i) + |SplitBold(content)[i]|)
    ensures forall i :: 0 <= i < |SplitBold(content)| && i % 2 == 0 ==> NoBoldSpanIn(SplitBold(content)[i])
  {
    SplitFromLeftmost(content, 0, 0);
    SplitFromPlainPieces(content, 0, 0);
  }

  /** When no match starts at q or later, the rest is one unmatched piece. */
  lemma {:induction false} SplitFromNoMatch(s: string, p: nat, q: nat)
    requires p <= q <= |s|
    requires NoMatchBetween(s, q, |s|)
    ensures SplitFrom(s, p, q) == [s[p..]]
    decreases |s| - q
  {
    if q < |s| {
      SplitFromNoMatch(s, p, q + 1);
    }
  }

  /** Content with no `**` at all is a single unmatched piece; "" gives [""]. */
  lemma SplitBoldWithoutMarker(content: string)
    requires forall m :: 0 <= m < |content| ==> !MarkerAt(content, m)
    ensures SplitBold(content) == [content]
  {
    SplitFromNoMatch(content, 0, 0);
  }

  /** What `formatContent` renders for one piece. */
  datatype Node = Text(text: string) | Strong(text: string)

  /** The piece starts with `**` and ends with `**` (the two may overlap). */
  function LooksBold(part: string): (bold: bool)
    ensures bold <==> MarkerAt(part, 0) && MarkerAt(part, |part| - 2)
    ensures IsBoldSpan(part) ==> bold
  {
    |part| >= 2 && part[..2] == "**" && part[|part| - 2..] == "**"
  }

  /**
   * `part.slice(2, -2)`: the piece without its first two and last two
   * characters; JavaScript gives "" when the end falls before the start.
   */
  function Unwrap(part: string): (inner: string)
    ensures |part| >= 4 ==> "**" + inner + "**" == part || !LooksBold(part)
    ensures |part| < 4 ==> inner == ""
  {
    if |part| >= 4 then part[2..|part| - 2] else ""
  }

  /** The callback `formatContent` maps over the pieces. */
  function RenderPiece(part: string): (node: Node)
    ensures node.Strong? <==> LooksBold(part)
    ensures node.Text? ==> node.text == part
    ensures node.Strong? && |part| >= 4 ==> "**" + node.text + "**" == part
    ensures node.Strong? && |part| < 4 ==> node.text == ""
  {
    if LooksBold(part) then Strong(Unwrap(part)) else Text(part)
  }

  /** `formatContent(content)`: one node per piece of the split, in order. */
  function FormatContent(content: string): (nodes: seq<Node>)
    ensures |nodes| == |SplitBold(content)|
    ensures forall i :: 0 <= i < |nodes| ==> nodes[i] == RenderPiece(SplitBold(content)[i])
  {
    var parts := SplitBold(content);
    seq(|parts|, i requires 0 <= i < |parts| => RenderPiece(parts[i]))
  }

  /** The markdown a node stands for. */
  function Source(node: Node): string {
    match node
    case Text(t) => t
    case Strong(t) => "**" + t + "**"
  }

  function SourceOf(nodes: seq<Node>): string {
    if nodes == [] then [] else Source(nodes[0]) + SourceOf(nodes[1..])
  }

  /**
   * Every match of the pattern is rendered bold, with text that stays on one
   * line and holds no `**`.
   */
  lemma MatchesRenderBold(content: string, i: nat)
    requires i < |SplitBold(content)| && i % 2 == 1
    ensures FormatContent(content)[i].Strong?
    ensures "**" + FormatContent(content)[i].text + "**" == SplitBold(content)[i]
    ensures forall m :: 0 <= m < |FormatContent(content)[i].text| ==> !IsLineTerminator(FormatContent(content)[i].text[m])
    ensures forall m :: 0 <= m < |FormatContent(content)[i].text| - 1 ==> !MarkerAt(FormatContent(content)[i].text, m)
  {
    var part := SplitBold(content)[i];
    assert IsLazyBoldSpan(part);
    assert LooksBold(part) by {
      assert part[..2] == "**" && part[|part| - 2..] == "**";
    }
    var text := FormatContent(content)[i].text;
    assert text == part[2..|part| - 2];
    forall m | 0 <= m < |text| - 1 ensures !MarkerAt(text, m) {
      assert MarkerAt(text, m) ==> MarkerAt(part, m + 2);
    }
  }

  lemma {:induction false} ConcatSource(parts: seq<string>, nodes: seq<Node>)
    requires |nodes| == |parts|
    requires forall i :: 0 <= i < |parts| ==> Source(nodes[i]) == parts[i]
    ensures SourceOf(nodes) == Concat(parts)
  {
    if parts != [] {
      ConcatSource(parts[1..], nodes[1..]);
    }
  }

  /**
   * Rendering loses nothing except where a piece of two or three characters
   * looks bold (`**`, `***`): with none of those, the nodes spell the content.
   */
  lemma FormatContentSource(content: string)
    requires forall i :: 0 <= i < |SplitBold(content)| && LooksBold(SplitBold(content)[i]) ==> |SplitBold(content)[i]| >= 4
    ensures SourceOf(FormatContent(content)) == content
  {
    var parts := SplitBold(content);
    var nodes := FormatContent(content);
    ConcatSource(parts, nodes);
  }

  /**
   * Classification is by shape, not by position: a bare `**` is one
   * unmatched piece, yet it is rendered as empty bold text, and a `**…**`
   * spanning two lines, which the pattern refuses, is still rendered bold.
   */
  lemma ShapeNotPosition()
    ensures SplitBold("**") == ["**"] && FormatContent("**") == [Strong("")]
    ensures SplitBold("**a\nb**") == ["**a\nb**"] && FormatContent("**a\nb**") == [Strong("a\nb")]
  {
    assert FindClose("**", 2).None?;
    SplitFromNoMatch("**", 0, 0);
    var s := "**a\nb**";
    assert FindClose(s, 2) == FindClose(s, 3) == None;
    assert FindClose(s, 7) == None;
    assert forall q :: 0 <= q < |s| && q != 0 && q != 5 ==> !MarkerAt(s, q);
    SplitFromNoMatch(s, 0, 0);
    assert LooksBold(s) && s[2..|s| - 2] == "a\nb";
    assert FormatContent(s)[0] == RenderPiece(s);
  }

  /** The parts of a bubble the component's logic decides. */
  datatype Body = TypingDots | Formatted(nodes: seq<Node>)
  datatype Bubble = Bubble(alignedRight: bool, userAvatar: bool, body: Body)

  /**
   * `MessageBubble`: a user's message sits on the right with the user
   * avatar, an assistant's on the left with the bot avatar; while loading
   * only the typing dots show, otherwise the formatted content.
   */
  function RenderBubble(content: string, role: Role, isLoading: bool): (b: Bubble)
    ensures b.alignedRight <==> role == User
    ensures b.userAvatar <==> role == User
    ensures b.body.TypingDots? <==> isLoading
    ensures b.body.Formatted? ==> b.body.nodes == FormatContent(content)
  {
    var isUser := role == User;
    Bubble(isUser, isUser, if isLoading then TypingDots else Formatted(FormatContent(content)))
  }
}
