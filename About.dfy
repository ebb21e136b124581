/**
 * The bio mini-markup of the About section (`formatBio`): paragraphs are
 * separated by a blank line, `**` toggles highlighting, and inside a plain
 * stretch a line starting with `-` is a list item.
 */
module About {
  import opened Strings

  /** One line of a list stretch: a bullet (its text, without the dash) or a line kept as written. */
  datatype Item = Bullet(text: string) | Line(text: string)

  /** One piece of a section that contains `**`. */
  datatype Span = Highlight(text: string) | Plain(text: string) | List(items: seq<Item>)

  /** One section of the bio: a plain paragraph, or a block of spans. */
  datatype Block = Paragraph(text: string) | Rich(spans: seq<Span>)

  const ParagraphBreak := "\n\n"
  const Bold := "**"
  const ListMarker := "\n-"

  /** `lines.filter(item => item.trim())`: the lines that are not blank, in order. */
  function NonBlank(lines: seq<string>): (r: seq<string>)
    ensures |r| <= |lines|
    ensures forall k :: 0 <= k < |r| ==> Trim(r[k]) != [] && r[k] in lines
    ensures forall k :: 0 <= k < |lines| && Trim(lines[k]) != [] ==> lines[k] in r
  {
    if lines == [] then []
    else
      var rest := NonBlank(lines[1..]);
      assert forall k :: 1 <= k < |lines| ==> lines[k] == lines[1..][k - 1];
      if Trim(lines[0]) != [] then [lines[0]] + rest else rest
  }

  /** Each non-blank line is kept exactly as often as it occurs, and every blank one is dropped. */
  lemma {:induction false} NonBlankCounts(lines: seq<string>)
    ensures forall x :: multiset(NonBlank(lines))[x] == if Trim(x) != [] then multiset(lines)[x] else 0
  {
    if lines != [] {
      NonBlankCounts(lines[1..]);
      assert lines == [lines[0]] + lines[1..];
      assert multiset(lines) == multiset([lines[0]]) + multiset(lines[1..]);
    }
  }

  /** Filtering two runs of lines is filtering each and concatenating: the filter keeps the order of the lines. */
  lemma {:induction false} NonBlankAppend(a: seq<string>, b: seq<string>)
    ensures NonBlank(a + b) == NonBlank(a) + NonBlank(b)
  {
    if a != [] {
      assert (a + b)[1..] == a[1..] + b;
      NonBlankAppend(a[1..], b);
    } else {
      assert a + b == b;
    }
  }

  /** A list line: a bullet when its trimmed form starts with `-`, else the line unchanged. */
  function FormatItem(line: string): Item
  {
    var t := Trim(line);
    if StartsWith(t, "-") then Bullet(Trim(t[1..])) else Line(line)
  }

  /** The `i`-th piece of a section split on `**`. */
  function FormatPart(i: nat, part: string): Span
  {
    if i % 2 == 1 then Highlight(part)
    else if Contains(part, ListMarker) then
      var lines := NonBlank(Split(part, "\n"));
      List(seq(|lines|, j requires 0 <= j < |lines| => FormatItem(lines[j])))
    else Plain(part)
  }

  /** One section: spans when it contains `**`, else a paragraph holding the section verbatim. */
  function FormatSection(section: string): Block
  {
    if Contains(section, Bold) then
      var parts := Split(section, Bold);
      Rich(seq(|parts|, i requires 0 <= i < |parts| => FormatPart(i, parts[i])))
    else Paragraph(section)
  }

  /** `formatBio(text)`: one block per blank-line-separated section. */
  function FormatBio(text: string): seq<Block>
  {
    var sections := Split(text, ParagraphBreak);
    seq(|sections|, i requires 0 <= i < |sections| => FormatSection(sections[i]))
  }

  /** The markup a span came from, when it is not a list. */
  function SpanSource(s: Span): string
  {
    match s
    case Highlight(t) => t
    case Plain(t) => t
    case List(_) => ""
  }

  /** The markup a block came from, when it holds no list. */
  function BlockSource(b: Block): string
  {
    match b
    case Paragraph(t) => t
    case Rich(spans) => Join(SpanSources(spans), Bold)
  }

  function SpanSources(spans: seq<Span>): seq<string>
  {
    seq(|spans|, i requires 0 <= i < |spans| => SpanSource(spans[i]))
  }

  function BlockSources(blocks: seq<Block>): seq<string>
  {
    seq(|blocks|, i requires 0 <= i < |blocks| => BlockSource(blocks[i]))
  }

  /** A section without a list stretch is given back by re-joining its spans with `**`. */
  lemma SectionRoundTrip(section: string)
    requires !Contains(section, ListMarker)
    ensures BlockSource(FormatSection(section)) == section
  {
    if Contains(section, Bold) {
      var parts := Split(section, Bold);
      SplitPartsAvoid(section, Bold, ListMarker);
      var b := FormatSection(section);
      assert SpanSources(b.spans) == parts;
      JoinSplit(section, Bold);
    }
  }

  /**
   * A bio without a list stretch is given back, section by section, by
   * re-joining the blocks with blank lines: the blocks are the sections, in order.
   */
  lemma BioRoundTrip(text: string)
    requires !Contains(text, ListMarker)
    ensures Join(BlockSources(FormatBio(text)), ParagraphBreak) == text
  {
    var sections := Split(text, ParagraphBreak);
    var blocks := FormatBio(text);
    SplitPartsAvoid(text, ParagraphBreak, ListMarker);
    forall i | 0 <= i < |sections| ensures BlockSource(blocks[i]) == sections[i] {
      SectionRoundTrip(sections[i]);
    }
    assert BlockSources(blocks) == sections;
    JoinSplit(text, ParagraphBreak);
  }

  /**
   * In a section with `**`, the spans alternate: exactly the odd-indexed ones
   * are highlighted, there are at least two, and no highlighted text holds `**`.
   */
  lemma HighlightParity(section: string)
    requires Contains(section, Bold)
    ensures FormatSection(section).Rich?
    ensures |FormatSection(section).spans| >= 2
    ensures forall k :: 0 <= k < |FormatSection(section).spans| ==>
              (FormatSection(section).spans[k].Highlight? <==> k % 2 == 1)
    ensures forall k :: 0 <= k < |FormatSection(section).spans| && FormatSection(section).spans[k].Highlight? ==>
              !Contains(FormatSection(section).spans[k].text, Bold)
  {
    var parts := Split(section, Bold);
    var i := IndexOf(section, Bold).value;
    assert parts == [section[..i]] + Split(section[i + |Bold|..], Bold);
    SplitPartsFree(section, Bold);
  }

  /** A line becomes a bullet exactly when its trimmed form starts with `-`; a bullet's text has no white space at either end. */
  lemma ItemShape(line: string)
    ensures FormatItem(line).Bullet? <==> StartsWith(Trim(line), "-")
    ensures FormatItem(line).Bullet? ==> (FormatItem(line).text == [] ||
              (!IsWhiteSpace(FormatItem(line).text[0]) && !IsWhiteSpace(FormatItem(line).text[|FormatItem(line).text| - 1])))
    ensures FormatItem(line).Line? ==> FormatItem(line).text == line
  {
  }

  /**
   * A list stretch renders its non-blank lines one item each, in order: item
   * `k` is the `k`-th non-blank line, formatted.
   */
  lemma ListLines(i: nat, part: string)
    requires i % 2 == 0 && Contains(part, ListMarker)
    ensures FormatPart(i, part).List?
    ensures |FormatPart(i, part).items| == |NonBlank(Split(part, "\n"))|
    ensures forall k :: 0 <= k < |FormatPart(i, part).items| ==>
              FormatPart(i, part).items[k] == FormatItem(NonBlank(Split(part, "\n"))[k])
    ensures forall k :: 0 <= k < |FormatPart(i, part).items| && FormatPart(i, part).items[k].Line? ==>
              Trim(FormatPart(i, part).items[k].text) != [] && FormatPart(i, part).items[k].text in Split(part, "\n")
  {
  }
}
