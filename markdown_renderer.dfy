/** The line-based markdown subset of
    src/components/result/markdown-renderer.tsx: the content is split on
    '\n', each trimmed line is classified by its prefix as a heading, a
    bullet, a numbered item or a paragraph, blank lines vanish, and a
    paragraph's untrimmed line is cut into `**bold**` and plain segments. */
module MarkdownRenderer {
  import opened Wrappers
  import opened Strings
  import opened JsNumbers

  /** A piece of paragraph text: a `<strong>` element or a bare string. */
  datatype Inline = Bold(text: string) | Plain(text: string)

  /** One rendered element.  `level` is the HTML heading element: `### `
      gives h4, `## ` h3 and `# ` h2. */
  datatype Block =
    | Heading(level: nat, text: string)
    | BulletItem(text: string)
    | NumberedItem(text: string)
    | Paragraph(segments: seq<Inline>)

  /** Number of ASCII digits at the front of `s`. */
  function DigitRun(s: string): (k: nat)
    ensures k <= |s|
    ensures forall i :: 0 <= i < k ==> IsAsciiDigit(s[i])
    ensures k < |s| ==> !IsAsciiDigit(s[k])
    decreases |s|
  {
    if s != [] && IsAsciiDigit(s[0]) then 1 + DigitRun(s[1..]) else 0
  }

  /** `^\d+\.\s` matches the front of `s` with `k` digits. */
  predicate MarkerAt(s: string, k: int)
  {
    1 <= k && k + 1 < |s| && (forall i :: 0 <= i < k ==> IsAsciiDigit(s[i]))
    && s[k] == '.' && IsJsSpace(s[k + 1])
  }

  /** The length of the numbered-list marker `^\d+\.\s` at the front of `s`:
      present exactly when the regular expression matches, and then the
      digit count is the only one that fits. */
  function NumberedMarker(s: string): (r: Option<nat>)
    ensures r.Some? <==> exists k :: MarkerAt(s, k)
    ensures forall k :: MarkerAt(s, k) ==> r == Some(k + 2)
  {
    var k := DigitRun(s);
    if 1 <= k && k + 1 < |s| && s[k] == '.' && IsJsSpace(s[k + 1]) then
      assert MarkerAt(s, k);
      Some(k + 2)
    else None
  }

  /** The characters the regular-expression dot does not match. */
  predicate IsLineTerminator(c: char)
  {
    c == '\n' || c == '\r' || c == '\U{2028}' || c == '\U{2029}'
  }

  /** A line terminator occurs in `s[lo..hi]`. */
  predicate TerminatorIn(s: string, lo: int, hi: int)
    requires 0 <= lo <= hi <= |s|
  {
    exists k :: lo <= k < hi && IsLineTerminator(s[k])
  }

  /** The lazy `.*?\*\*` after an opening `**` that ends at `j`: the first
      index `q >= j` where `**` starts, unless a line terminator comes
      first. */
  function CloseFrom(s: string, j: nat): (r: Option<nat>)
    requires j <= |s|
    ensures r.Some? ==> j <= r.value && r.value + 2 <= |s| && s[r.value] == '*' && s[r.value + 1] == '*'
    ensures r.Some? ==> forall k :: j <= k < r.value ==> !IsLineTerminator(s[k]) && !(s[k] == '*' && s[k + 1] == '*')
    ensures r.None? ==> forall q :: j <= q && q + 1 < |s| && s[q] == '*' && s[q + 1] == '*' ==>
                          TerminatorIn(s, j, q)
    decreases |s| - j
  {
    if j + 2 > |s| then None
    else if s[j] == '*' && s[j + 1] == '*' then Some(j)
    else if IsLineTerminator(s[j]) then None
    else CloseFrom(s, j + 1)
  }

  /** `split(/(\*\*.*?\*\*)/g)` of `pending + rest`, where `pending` is plain
      text already passed over: the text before each match, then the match
      itself (the capture), then the pieces of what follows. */
  function Scan(pending: string, rest: string): (pieces: seq<string>)
    ensures |pieces| >= 1
    decreases |rest|
  {
    if |rest| < 4 then [pending + rest]
    else if rest[0] == '*' && rest[1] == '*' && CloseFrom(rest, 2).Some? then
      var q := CloseFrom(rest, 2).value;
      [pending, rest[..q + 2]] + Scan([], rest[q + 2..])
    else Scan(pending + [rest[0]], rest[1..])
  }

  function Concat(pieces: seq<string>): string
    decreases |pieces|
  {
    if pieces == [] then [] else pieces[0] + Concat(pieces[1..])
  }

  /** `filter(Boolean)` on strings: the non-empty ones, in order. */
  function NonEmpty(pieces: seq<string>): (r: seq<string>)
    ensures |r| <= |pieces|
    ensures forall i :: 0 <= i < |r| ==> r[i] != [] && r[i] in pieces
    decreases |pieces|
  {
    if pieces == [] then []
    else if pieces[0] == [] then NonEmpty(pieces[1..])
    else [pieces[0]] + NonEmpty(pieces[1..])
  }

  /** The segments of a paragraph line. */
  function Segments(line: string): seq<string>
  {
    NonEmpty(Scan([], line))
  }

  /** A segment that starts and ends with `**` renders bold without its
      first and last two characters (`slice(2, -2)`, empty when the segment
      is shorter than four); any other segment renders verbatim. */
  function RenderSegment(segment: string): (r: Inline)
    ensures r.Bold? <==> StartsWith(segment, "**") && EndsWith(segment, "**")
    ensures r.Plain? ==> r.text == segment
    ensures r.Bold? && |segment| >= 4 ==> segment == "**" + r.text + "**"
    ensures r.Bold? && |segment| < 4 ==> r.text == []
  {
    if StartsWith(segment, "**") && EndsWith(segment, "**") then
      Bold(if |segment| >= 4 then segment[2..|segment| - 2] else [])
    else Plain(segment)
  }

  function RenderSegments(segments: seq<string>): (r: seq<Inline>)
    ensures |r| == |segments|
    ensures forall i :: 0 <= i < |r| ==> r[i] == RenderSegment(segments[i])
    decreases |segments|
  {
    if segments == [] then [] else [RenderSegment(segments[0])] + RenderSegments(segments[1..])
  }

  /** The element of a non-blank line whose trimmed text is `t`.  Prefixes
      are tried in the order `### `, `## `, `# `, `- ` or `* `, numbered
      marker; a paragraph keeps the untrimmed line. */
  function ClassifyTrimmed(t: string, line: string): (b: Block)
    ensures b.Heading? ==> 2 <= b.level <= 4
  {
    if StartsWith(t, "### ") then Heading(4, t[4..])
    else if StartsWith(t, "## ") then Heading(3, t[3..])
    else if StartsWith(t, "# ") then Heading(2, t[2..])
    else if StartsWith(t, "- ") || StartsWith(t, "* ") then BulletItem(t[2..])
    else if NumberedMarker(t).Some? then NumberedItem(t[NumberedMarker(t).value..])
    else Paragraph(RenderSegments(Segments(line)))
  }

  /** The element of one line, or nothing exactly when the line is all
      whitespace. */
  function ClassifyLine(line: string): (r: Option<Block>)
    ensures r.None? <==> forall i :: 0 <= i < |line| ==> IsJsSpace(line[i])
  {
    var t := Trim(line);
    if t == [] then None else Some(ClassifyTrimmed(t, line))
  }

  /** The elements of the lines, blank lines contributing none. */
  function Blocks(lines: seq<string>): (r: seq<Block>)
    ensures |r| <= |lines|
    decreases |lines|
  {
    if lines == [] then []
    else
      var line := ClassifyLine(lines[0]);
      if line.None? then Blocks(lines[1..]) else [line.value] + Blocks(lines[1..])
  }

  /** `MarkdownRenderer({ content })`: nothing for empty content, otherwise a
      container of the elements of its '\n'-separated lines. */
  function Render(content: string): (r: Option<seq<Block>>)
    ensures r.None? <==> content == []
    ensures r.Some? ==> |r.value| <= |Split(content, '\n')|
  {
    if content == [] then None else Some(Blocks(Split(content, '\n')))
  }

  // ---------------------------------------------------------------------
  // Lines and elements

  /** The lines that are not all whitespace, in order. */
  function NonBlank(lines: seq<string>): seq<string>
    decreases |lines|
  {
    if lines == [] then []
    else if Trim(lines[0]) == [] then NonBlank(lines[1..])
    else [lines[0]] + NonBlank(lines[1..])
  }

  /** Blank lines yield nothing and every other line yields exactly one
      element, its own, in line order. */
  lemma {:induction false} BlocksOfNonBlank(lines: seq<string>)
    ensures |Blocks(lines)| == |NonBlank(lines)|
    ensures forall i :: 0 <= i < |Blocks(lines)| ==>
              ClassifyLine(NonBlank(lines)[i]) == Some(Blocks(lines)[i])
    decreases |lines|
  {
    if lines != [] {
      BlocksOfNonBlank(lines[1..]);
      var rest := Blocks(lines[1..]);
      var kept := NonBlank(lines[1..]);
      if Trim(lines[0]) != [] {
        var first := ClassifyLine(lines[0]).value;
        assert Blocks(lines) == [first] + rest;
        assert NonBlank(lines) == [lines[0]] + kept;
        forall i | 0 <= i < |Blocks(lines)|
          ensures ClassifyLine(NonBlank(lines)[i]) == Some(Blocks(lines)[i])
        {
          if i > 0 {
            assert Blocks(lines)[i] == rest[i - 1];
            assert NonBlank(lines)[i] == kept[i - 1];
          }
        }
      } else {
        assert Blocks(lines) == rest;
        assert NonBlank(lines) == kept;
      }
    }
  }

  /** The elements of a document are the elements of its lines: writing the
      lines out joined by '\n' and rendering them gives one element per
      non-blank line. */
  lemma RenderLines(lines: seq<string>)
    requires |lines| >= 1
    requires forall i :: 0 <= i < |lines| ==> '\n' !in lines[i]
    requires Join(lines, '\n') != []
    ensures Render(Join(lines, '\n')) == Some(Blocks(lines))
  {
    SplitJoin(lines, '\n');
  }

  /** Text with no whitespace at either end, as a line's content after its
      marker. */
  predicate TrimmedText(t: string)
  {
    t != [] && !IsJsSpace(t[0]) && !IsJsSpace(t[|t| - 1])
  }

  /** A line that is its own trimmed text is classified on itself. */
  lemma ClassifyTrimmedLine(line: string)
    requires TrimmedText(line)
    ensures ClassifyLine(line) == Some(ClassifyTrimmed(line, line))
  {
    TrimNoSpace(line);
  }

  lemma MarkedLine(marker: string, t: string)
    requires marker != [] && !IsJsSpace(marker[0]) && TrimmedText(t)
    ensures TrimmedText(marker + t)
    ensures StartsWith(marker + t, marker) && (marker + t)[|marker|..] == t
  {
    assert (marker + t)[..|marker|] == marker;
  }

  /** `### ` followed by trimmed text gives back a level-4 heading: the
      longest marker is tried first. */
  lemma HeadingFourLine(t: string)
    requires TrimmedText(t)
    ensures ClassifyLine("### " + t) == Some(Heading(4, t))
  {
    MarkedLine("### ", t);
    ClassifyTrimmedLine("### " + t);
  }

  /** `## ` followed by trimmed text gives back a level-3 heading: it never
      reads as the longer `### ` marker. */
  lemma HeadingThreeLine(t: string)
    requires TrimmedText(t)
    ensures ClassifyLine("## " + t) == Some(Heading(3, t))
  {
    var line := "## " + t;
    MarkedLine("## ", t);
    ClassifyTrimmedLine(line);
    assert line[2] == ' ';
    assert !StartsWith(line, "### ");
  }

  /** `# ` followed by trimmed text gives back a level-2 heading. */
  lemma HeadingTwoLine(t: string)
    requires TrimmedText(t)
    ensures ClassifyLine("# " + t) == Some(Heading(2, t))
  {
    var line := "# " + t;
    MarkedLine("# ", t);
    ClassifyTrimmedLine(line);
    assert line[1] == ' ';
    assert !StartsWith(line, "### ") && !StartsWith(line, "## ");
  }

  /** A line whose first character is none of '#', '-', '*' carries no
      heading or bullet marker. */
  lemma NoMarkerPrefix(line: string)
    requires line != [] && line[0] != '#' && line[0] != '-' && line[0] != '*'
    ensures !StartsWith(line, "### ") && !StartsWith(line, "## ") && !StartsWith(line, "# ")
    ensures !StartsWith(line, "- ") && !StartsWith(line, "* ")
  {
  }

  /** `- ` or `* ` followed by trimmed text gives back a bullet. */
  lemma BulletLine(bullet: char, t: string)
    requires bullet == '-' || bullet == '*'
    requires TrimmedText(t)
    ensures ClassifyLine([bullet, ' '] + t) == Some(BulletItem(t))
  {
    var marker := [bullet, ' '];
    var line := marker + t;
    MarkedLine(marker, t);
    ClassifyTrimmedLine(line);
    assert line[0] == bullet;
    assert !StartsWith(line, "### ") && !StartsWith(line, "## ") && !StartsWith(line, "# ");
    assert StartsWith(line, "- ") || StartsWith(line, "* ");
  }

  /** A decimal number, a dot and a space before trimmed text give back a
      numbered item with that marker removed once. */
  lemma NumberedLine(n: nat, t: string)
    requires TrimmedText(t)
    ensures ClassifyLine(NatToString(n) + ". " + t) == Some(NumberedItem(t))
  {
    var digits := NatToString(n);
    var marker := digits + ". ";
    var line := marker + t;
    assert marker[0] == digits[0];
    MarkedLine(marker, t);
    ClassifyTrimmedLine(line);
    assert line[0] == digits[0] && IsAsciiDigit(line[0]);
    NoMarkerPrefix(line);
    assert line[|digits|] == '.' && line[|digits| + 1] == ' ';
    assert forall i :: 0 <= i < |digits| ==> line[i] == digits[i];
    assert MarkerAt(line, |digits|);
    assert line[|digits| + 2..] == t;
  }

  /** Every non-blank line, however it is padded and whatever follows its
      marker, gets the element its trimmed text's prefix selects; a trimmed
      text that starts with none of '#', '-', '*' and carries no numbered
      marker makes the untrimmed line a paragraph. */
  lemma ClassifyByPrefix(line: string)
    requires !forall i :: 0 <= i < |line| ==> IsJsSpace(line[i])
    ensures Trim(line) != []
    ensures StartsWith(Trim(line), "### ") ==> ClassifyLine(line) == Some(Heading(4, Trim(line)[4..]))
    ensures StartsWith(Trim(line), "## ") ==> ClassifyLine(line) == Some(Heading(3, Trim(line)[3..]))
    ensures StartsWith(Trim(line), "# ") ==> ClassifyLine(line) == Some(Heading(2, Trim(line)[2..]))
    ensures StartsWith(Trim(line), "- ") || StartsWith(Trim(line), "* ") ==>
              ClassifyLine(line) == Some(BulletItem(Trim(line)[2..]))
    ensures NumberedMarker(Trim(line)).Some? ==>
              ClassifyLine(line) == Some(NumberedItem(Trim(line)[NumberedMarker(Trim(line)).value..]))
    ensures Trim(line)[0] !in "#-*" && NumberedMarker(Trim(line)).None? ==>
              ClassifyLine(line) == Some(Paragraph(RenderSegments(Segments(line))))
  {
    var t := Trim(line);
    if StartsWith(t, "## ") {
      assert t[2] == ' ';
    }
    if StartsWith(t, "# ") {
      assert t[1] == ' ';
    }
    if NumberedMarker(t).Some? {
      var k :| MarkerAt(t, k);
      assert IsAsciiDigit(t[0]);
      NoMarkerPrefix(t);
    }
  }

  /** A heading marker not followed by a space is an ordinary paragraph. */
  lemma HashWithoutSpace(t: string)
    requires TrimmedText(t) && t[0] != '#'
    ensures ClassifyLine("#" + t).Some? && ClassifyLine("#" + t).value.Paragraph?
  {
    var line := "#" + t;
    MarkedLine("#", t);
    ClassifyTrimmedLine(line);
    assert line[1] == t[0];
    assert !StartsWith(line, "### ") && !StartsWith(line, "## ") && !StartsWith(line, "# ");
    assert !IsAsciiDigit(line[0]);
    assert DigitRun(line) == 0;
  }

  // ---------------------------------------------------------------------
  // Bold segments

  /** The split loses nothing: its pieces put back together give the text. */
  lemma {:induction false} ScanConcat(pending: string, rest: string)
    ensures Concat(Scan(pending, rest)) == pending + rest
    decreases |rest|
  {
    if |rest| < 4 {
    } else if rest[0] == '*' && rest[1] == '*' && CloseFrom(rest, 2).Some? {
      var q := CloseFrom(rest, 2).value;
      ScanConcat([], rest[q + 2..]);
      assert Concat([pending, rest[..q + 2]] + Scan([], rest[q + 2..]))
             == pending + (rest[..q + 2] + Concat(Scan([], rest[q + 2..])));
      assert rest[..q + 2] + rest[q + 2..] == rest;
    } else {
      ScanConcat(pending + [rest[0]], rest[1..]);
      assert [rest[0]] + rest[1..] == rest;
    }
  }

  lemma {:induction false} NonEmptyConcat(pieces: seq<string>)
    ensures Concat(NonEmpty(pieces)) == Concat(pieces)
    decreases |pieces|
  {
    if pieces != [] {
      NonEmptyConcat(pieces[1..]);
    }
  }

  lemma {:induction false} NonEmptyAppend(a: seq<string>, b: seq<string>)
    ensures NonEmpty(a + b) == NonEmpty(a) + NonEmpty(b)
    decreases |a|
  {
    if a != [] {
      assert (a + b)[1..] == a[1..] + b;
      NonEmptyAppend(a[1..], b);
    } else {
      assert a + b == b;
    }
  }

  /** Concatenating the segments of a line gives back the line. */
  lemma SegmentsRebuildLine(line: string)
    ensures Concat(Segments(line)) == line
  {
    ScanConcat([], line);
    NonEmptyConcat(Scan([], line));
  }

  /** The source text of a rendered segment. */
  function InlineSource(x: Inline): string
  {
    if x.Bold? then "**" + x.text + "**" else x.text
  }

  function Sources(xs: seq<Inline>): (r: seq<string>)
    ensures |r| == |xs|
    ensures forall i :: 0 <= i < |xs| ==> r[i] == InlineSource(xs[i])
    decreases |xs|
  {
    if xs == [] then [] else [InlineSource(xs[0])] + Sources(xs[1..])
  }

  /** The paragraph line written for a list of segments. */
  function Unparse(xs: seq<Inline>): string
  {
    Concat(Sources(xs))
  }

  /** A segment whose text contains no '*': bold text also has no line
      terminator, plain text is non-empty. */
  predicate CanonicalInline(x: Inline)
  {
    '*' !in x.text
    && (x.Bold? ==> forall i :: 0 <= i < |x.text| ==> !IsLineTerminator(x.text[i]))
    && (x.Plain? ==> x.text != [])
  }

  /** Canonical segments, no two plain ones side by side (they would be read
      back as one). */
  predicate Canonical(xs: seq<Inline>)
  {
    (forall i :: 0 <= i < |xs| ==> CanonicalInline(xs[i]))
    && forall i :: 0 <= i < |xs| - 1 ==> !(xs[i].Plain? && xs[i + 1].Plain?)
  }

  /** Text without '*' is passed over as plain text. */
  lemma {:induction false} PlainScan(pending: string, p: string, r: string)
    requires '*' !in p
    ensures Scan(pending, p + r) == Scan(pending + p, r)
    decreases |p|
  {
    if p != [] {
      var rest := p + r;
      if |rest| >= 4 {
        assert rest[0] == p[0];
        assert rest[1..] == p[1..] + r;
        PlainScan(pending + [p[0]], p[1..], r);
        assert pending + [p[0]] + p[1..] == pending + p;
      } else {
        assert |r| < 4;
        assert pending + p + r == pending + (p + r);
      }
    } else {
      assert p + r == r;
      assert pending + p == pending;
    }
  }

  lemma {:induction false} CloseSkips(s: string, j: nat, q: nat)
    requires j <= q && q + 2 <= |s| && s[q] == '*' && s[q + 1] == '*'
    requires forall k :: j <= k < q ==> s[k] != '*' && !IsLineTerminator(s[k])
    ensures CloseFrom(s, j) == Some(q)
    decreases q - j
  {
    if j < q {
      CloseSkips(s, j + 1, q);
    }
  }

  /** `**w**` with no '*' or line terminator in `w` is one match. */
  lemma BoldScan(pending: string, w: string, r: string)
    requires '*' !in w
    requires forall i :: 0 <= i < |w| ==> !IsLineTerminator(w[i])
    ensures Scan(pending, "**" + w + "**" + r) == [pending, "**" + w + "**"] + Scan([], r)
  {
    var bold := "**" + w + "**";
    var rest := bold + r;
    forall k | 2 <= k < 2 + |w|
      ensures rest[k] != '*' && !IsLineTerminator(rest[k])
    {
      assert rest[k] == w[k - 2];
    }
    CloseSkips(rest, 2, 2 + |w|);
    assert rest[..|w| + 4] == bold;
    assert rest[|w| + 4..] == r;
  }

  lemma ConcatCons(s: string, xs: seq<Inline>)
    ensures Concat([s] + Sources(xs)) == s + Unparse(xs)
  {
    assert ([s] + Sources(xs))[1..] == Sources(xs);
  }

  lemma UnparseCons(xs: seq<Inline>)
    requires xs != []
    ensures Unparse(xs) == InlineSource(xs[0]) + Unparse(xs[1..])
    ensures Sources(xs) == [InlineSource(xs[0])] + Sources(xs[1..])
  {
    assert Sources(xs) == [InlineSource(xs[0])] + Sources(xs[1..]);
    ConcatCons(InlineSource(xs[0]), xs[1..]);
  }

  function Kept(pending: string): seq<string>
  {
    if pending == [] then [] else [pending]
  }

  /** A bold segment in front of the rest is matched whole. */
  lemma BoldSplit(pending: string, xs: seq<Inline>)
    requires xs != [] && xs[0].Bold? && CanonicalInline(xs[0])
    ensures Scan(pending, Unparse(xs))
      == [pending, InlineSource(xs[0])] + Scan([], Unparse(xs[1..]))
  {
    UnparseCons(xs);
    BoldScan(pending, xs[0].text, Unparse(xs[1..]));
  }

  /** Of `pending` and a non-empty piece, the filter keeps the piece and
      `pending` only when it is non-empty. */
  lemma KeptThen(pending: string, piece: string, tail: seq<string>)
    requires piece != []
    ensures NonEmpty([pending, piece] + tail) == Kept(pending) + ([piece] + NonEmpty(tail))
  {
    NonEmptyAppend([pending, piece], tail);
    assert [pending, piece][1..] == [piece];
    assert NonEmpty([piece]) == [piece] by {
      assert [piece][1..] == [];
    }
  }

  /** One bold segment after `pending`: `pending` and the segment's source
      come out, then whatever the rest splits into. */
  lemma BoldStep(pending: string, xs: seq<Inline>)
    requires xs != [] && xs[0].Bold? && CanonicalInline(xs[0])
    requires NonEmpty(Scan([], Unparse(xs[1..]))) == Sources(xs[1..])
    ensures NonEmpty(Scan(pending, Unparse(xs))) == Kept(pending) + Sources(xs)
  {
    BoldSplit(pending, xs);
    KeptThen(pending, InlineSource(xs[0]), Scan([], Unparse(xs[1..])));
    UnparseCons(xs);
  }

  /** One plain segment, with nothing pending: it becomes the pending text. */
  lemma PlainStep(xs: seq<Inline>)
    requires xs != [] && xs[0].Plain? && CanonicalInline(xs[0])
    ensures Scan([], Unparse(xs)) == Scan(xs[0].text, Unparse(xs[1..]))
  {
    UnparseCons(xs);
    PlainScan([], xs[0].text, Unparse(xs[1..]));
    assert [] + xs[0].text == xs[0].text;
  }

  /** Canonical segments written out after plain text `pending` (which a
      bold segment, or the end, must follow) split back into `pending` and
      their source texts. */
  lemma {:induction false} ScanUnparse(pending: string, xs: seq<Inline>)
    requires Canonical(xs)
    requires pending != [] ==> xs == [] || xs[0].Bold?
    ensures NonEmpty(Scan(pending, Unparse(xs))) == Kept(pending) + Sources(xs)
    decreases |xs|
  {
    if xs == [] {
      assert pending + [] == pending;
    } else {
      assert CanonicalInline(xs[0]);
      assert Canonical(xs[1..]);
      if xs[0].Bold? {
        ScanUnparse([], xs[1..]);
        BoldStep(pending, xs);
      } else {
        PlainStep(xs);
        assert |xs| > 1 ==> !(xs[0].Plain? && xs[1].Plain?);
        ScanUnparse(xs[0].text, xs[1..]);
        UnparseCons(xs);
      }
    }
  }

  /** A paragraph written from canonical segments renders back to exactly
      those segments: bold text loses its `**` markers and nothing else. */
  lemma ParagraphRoundTrip(xs: seq<Inline>)
    requires Canonical(xs)
    ensures RenderSegments(Segments(Unparse(xs))) == xs
  {
    ScanUnparse([], xs);
    forall i | 0 <= i < |xs|
      ensures RenderSegment(InlineSource(xs[i])) == xs[i]
    {
      RenderSource(xs[i]);
    }
  }

  /** One canonical segment renders back from its source text. */
  lemma RenderSource(x: Inline)
    requires CanonicalInline(x)
    ensures RenderSegment(InlineSource(x)) == x
  {
    var src := InlineSource(x);
    if x.Bold? {
      assert StartsWith(src, "**") && EndsWith(src, "**");
      assert src[2..|src| - 2] == x.text;
    } else {
      assert src[0] in x.text;
      assert !StartsWith(src, "**");
    }
  }
}
