/**
 * Page layout of utils/pdfGenerator.ts: the single-note and multi-note PDF
 * exports.  Both draw a heading, then per note its wrapped title, its
 * description (moved to a new page when it would cross the bottom margin),
 * its content in page-sized chunks, and optionally a metadata page.
 *
 * jsPDF's line wrapping (`splitTextToSize`, already bound to the text width)
 * is the parameter `wrap`, the locale date formatting is `fmt`, the ISO date
 * of today is `today`, and the page height, a number jsPDF reports, is the
 * integer `pageHeight`.
 */
module PdfGenerator {
  import opened Wrappers
  import opened Text
  import opened PdfDocument
  import opened Notes

  const Margin: int := 20
  const LineHeight: int := 7
  /** yOffset at the start of a document. */
  const HeadingY: int := 20

  /** The `PDFOptions` argument; an absent field takes the function's default. */
  datatype PdfOptions = PdfOptions(title: Option<string>, includeMetadata: Option<bool>, fileName: Option<string>)

  /** Text drawn by a stretch of the export, with the page and yOffset it ends on. */
  datatype Layout = Layout(ops: seq<TextOp>, page: nat, y: int)

  /**
   * The page leaves room for at least one line between the top and bottom
   * margins; jsPDF's page is far taller, and on a shorter one the content
   * loop would stop making progress.
   */
  predicate PageFitsLine(pageHeight: int) {
    pageHeight - 2 * Margin >= LineHeight
  }

  function Min(a: int, b: int): int {
    if a <= b then a else b
  }

  /** `Math.floor((pageHeight - yOffset - margin) / lineHeight)`: the most lines that fit above the bottom margin. */
  function LinesPerPage(pageHeight: int, y: int): (n: int)
    requires y + LineHeight <= pageHeight - Margin
    ensures n >= 1
    ensures y + LineHeight * n <= pageHeight - Margin < y + LineHeight * (n + 1)
  {
    (pageHeight - y - Margin) / LineHeight
  }

  /** All lines drawn by ops, in drawing order. */
  function AllLines(ops: seq<TextOp>): seq<string> {
    if ops == [] then [] else ops[0].lines + AllLines(ops[1..])
  }

  /** A content chunk: non-empty, at the left margin, and ending above the bottom margin. */
  predicate ChunkFits(op: TextOp, pageHeight: int) {
    && |op.lines| >= 1
    && op.anchor == LeftAt(Margin)
    && op.y + LineHeight * |op.lines| <= pageHeight - Margin
  }

  /** What the content loop draws for `lines` when it starts on `page` at `y`. */
  function ContentFrom(lines: seq<string>, page: nat, y: int, pageHeight: int): (l: Layout)
    requires PageFitsLine(pageHeight)
    ensures l.page >= page
    ensures lines == [] ==> l == Layout([], page, y)
    decreases |lines|
  {
    if lines == [] then Layout([], page, y)
    else
      var pageBreak := y + LineHeight > pageHeight - Margin;
      var p := if pageBreak then page + 1 else page;
      var y0 := if pageBreak then Margin else y;
      var k := Min(LinesPerPage(pageHeight, y0), |lines|);
      var rest := ContentFrom(lines[k..], p, y0 + LineHeight * k, pageHeight);
      Layout([TextOp(p, LeftAt(Margin), y0, lines[..k])] + rest.ops, rest.page, rest.y)
  }

  /** The first chunk the content loop draws, and the call that draws the rest. */
  lemma ContentFromUnfold(lines: seq<string>, page: nat, y: int, pageHeight: int)
      returns (op: TextOp, k: nat, restLines: seq<string>, p: nat, yNext: int)
    requires PageFitsLine(pageHeight)
    requires lines != []
    ensures 1 <= k <= |lines| && restLines == lines[k..] && op.lines == lines[..k]
    ensures ChunkFits(op, pageHeight) && op.page == p && (p == page || p == page + 1)
    ensures p == page + 1 <==> y + LineHeight > pageHeight - Margin
    ensures op.y == (if p == page + 1 then Margin else y)
    ensures op.y + LineHeight <= pageHeight - Margin
    ensures k == Min(LinesPerPage(pageHeight, op.y), |lines|) && yNext == op.y + LineHeight * k
    ensures ContentFrom(lines, page, y, pageHeight).ops == [op] + ContentFrom(restLines, p, yNext, pageHeight).ops
    ensures ContentFrom(lines, page, y, pageHeight).page == ContentFrom(restLines, p, yNext, pageHeight).page
    ensures ContentFrom(lines, page, y, pageHeight).y == ContentFrom(restLines, p, yNext, pageHeight).y
  {
    var pageBreak := y + LineHeight > pageHeight - Margin;
    p := if pageBreak then page + 1 else page;
    var y0 := if pageBreak then Margin else y;
    k := Min(LinesPerPage(pageHeight, y0), |lines|);
    op := TextOp(p, LeftAt(Margin), y0, lines[..k]);
    restLines := lines[k..];
    yNext := y0 + LineHeight * k;
  }

  /** The content loop draws every line exactly once and in order, in at most as many chunks as there are lines. */
  lemma {:induction false} ContentCoversLines(lines: seq<string>, page: nat, y: int, pageHeight: int)
    requires PageFitsLine(pageHeight)
    ensures AllLines(ContentFrom(lines, page, y, pageHeight).ops) == lines
    ensures |ContentFrom(lines, page, y, pageHeight).ops| <= |lines|
    decreases |lines|
  {
    if lines != [] {
      var op, k, restLines, p, yNext := ContentFromUnfold(lines, page, y, pageHeight);
      var ops := ContentFrom(lines, page, y, pageHeight).ops;
      ContentCoversLines(restLines, p, yNext, pageHeight);
      assert ops[1..] == ContentFrom(restLines, p, yNext, pageHeight).ops;
      assert lines[..k] + lines[k..] == lines;
    }
  }

  /** Every chunk the content loop draws is non-empty and ends above the bottom margin. */
  lemma {:induction false} ContentChunksFit(lines: seq<string>, page: nat, y: int, pageHeight: int)
    requires PageFitsLine(pageHeight)
    ensures forall op <- ContentFrom(lines, page, y, pageHeight).ops :: ChunkFits(op, pageHeight)
    decreases |lines|
  {
    if lines != [] {
      var op, k, restLines, p, yNext := ContentFromUnfold(lines, page, y, pageHeight);
      ContentChunksFit(restLines, p, yNext, pageHeight);
    }
  }

  /** The content loop only moves forward through the pages, from the page it starts on. */
  lemma {:induction false} ContentPaged(lines: seq<string>, page: nat, y: int, pageHeight: int)
    requires PageFitsLine(pageHeight)
    ensures PagedWithin(ContentFrom(lines, page, y, pageHeight).ops, page, ContentFrom(lines, page, y, pageHeight).page)
    decreases |lines|
  {
    if lines != [] {
      var op, k, restLines, p, yNext := ContentFromUnfold(lines, page, y, pageHeight);
      var rest := ContentFrom(restLines, p, yNext, pageHeight);
      ContentPaged(restLines, p, yNext, pageHeight);
      PagedWithinAppend([op], rest.ops, page, p, rest.page);
    }
  }

  /**
   * One pass of the content loop's body at `lines[from..]`: start a new page
   * when not even one line fits, then draw as many lines as fit above the
   * bottom margin.  What is drawn, followed by what the loop draws for the
   * lines left, is what the loop draws from `from` on.
   */
  method EmitChunk(doc: Document, lines: seq<string>, from: nat, y: int, pageHeight: int) returns (k: nat, yNext: int)
    requires PageFitsLine(pageHeight)
    requires from < |lines|
    modifies doc
    ensures 1 <= k <= |lines| - from
    ensures
      var rest := ContentFrom(lines[from + k..], doc.pageCount, yNext, pageHeight);
      var whole := ContentFrom(lines[from..], old(doc.pageCount), y, pageHeight);
      doc.ops + rest.ops == old(doc.ops) + whole.ops && rest.page == whole.page && rest.y == whole.y
    ensures doc.savedAs == old(doc.savedAs)
  {
    ghost var before := doc.ops;
    ghost var page := doc.pageCount;
    yNext := y;
    if yNext + LineHeight > pageHeight - Margin {
      doc.AddPage();
      yNext := Margin;
    }
    ghost var y0 := yNext;
    k := Min(LinesPerPage(pageHeight, yNext), |lines| - from);
    doc.Text(LeftAt(Margin), yNext, lines[from..from + k]);
    yNext := yNext + LineHeight * k;
    ChunkResumes(lines, from, page, y, pageHeight, before, doc.ops[|before|], k, doc.pageCount, yNext);
  }

  /**
   * The chunk the content loop draws first from `from` on, followed by what
   * it draws for the lines left, is what it draws from `from` on.
   */
  lemma ChunkResumes(lines: seq<string>, from: nat, page: nat, y: int, pageHeight: int, before: seq<TextOp>,
                     op: TextOp, k: nat, p: nat, yNext: int)
    requires PageFitsLine(pageHeight)
    requires from < |lines| && from + k <= |lines|
    requires p == (if y + LineHeight > pageHeight - Margin then page + 1 else page)
    requires op.y == (if p == page + 1 then Margin else y)
    requires k == Min(LinesPerPage(pageHeight, op.y), |lines| - from) && yNext == op.y + LineHeight * k
    requires op == TextOp(p, LeftAt(Margin), op.y, lines[from..from + k])
    ensures
      var rest := ContentFrom(lines[from + k..], p, yNext, pageHeight);
      var whole := ContentFrom(lines[from..], page, y, pageHeight);
      (before + [op]) + rest.ops == before + whole.ops && rest.page == whole.page && rest.y == whole.y
  {
    var op', k', restLines, p', yNext' := ContentFromUnfold(lines[from..], page, y, pageHeight);
    assert p' == p;
    assert op'.y == op.y;
    assert k' == k;
    assert lines[from..from + k] == lines[from..][..k];
    assert op' == op;
    DropDrop(lines, from, k);
    assert restLines == lines[from + k..] && yNext' == yNext;
    var rest := ContentFrom(restLines, p, yNext, pageHeight);
    assert rest == ContentFrom(lines[from + k..], p, yNext, pageHeight);
    OpsAppendOne(before, op, rest.ops);
  }

  lemma OpsAppendOne(before: seq<TextOp>, op: TextOp, rest: seq<TextOp>)
    ensures (before + [op]) + rest == before + ([op] + rest)
  {
  }

  lemma DropDrop(lines: seq<string>, i: nat, j: nat)
    requires i + j <= |lines|
    ensures lines[i..][j..] == lines[i + j..]
  {
  }

  /** The content loop (`while (currentLine < contentLines.length)`). */
  method EmitContent(doc: Document, lines: seq<string>, y: int, pageHeight: int) returns (yEnd: int)
    requires PageFitsLine(pageHeight)
    modifies doc
    ensures
      var l := ContentFrom(lines, old(doc.pageCount), y, pageHeight);
      doc.ops == old(doc.ops) + l.ops && doc.pageCount == l.page && yEnd == l.y
    ensures doc.savedAs == old(doc.savedAs)
  {
    ghost var whole := ContentFrom(lines, doc.pageCount, y, pageHeight);
    var currentLine := 0;
    yEnd := y;
    while currentLine < |lines|
      invariant 0 <= currentLine <= |lines|
      invariant doc.savedAs == old(doc.savedAs)
      invariant doc.ops + ContentFrom(lines[currentLine..], doc.pageCount, yEnd, pageHeight).ops == old(doc.ops) + whole.ops
      invariant ContentFrom(lines[currentLine..], doc.pageCount, yEnd, pageHeight).page == whole.page
      invariant ContentFrom(lines[currentLine..], doc.pageCount, yEnd, pageHeight).y == whole.y
      decreases |lines| - currentLine
    {
      ghost var rest := ContentFrom(lines[currentLine..], doc.pageCount, yEnd, pageHeight);
      ghost var drawn := doc.ops;
      var linesToAdd;
      linesToAdd, yEnd := EmitChunk(doc, lines, currentLine, yEnd, pageHeight);
      ghost var rest' := ContentFrom(lines[currentLine + linesToAdd..], doc.pageCount, yEnd, pageHeight);
      assert doc.ops + rest'.ops == drawn + rest.ops && rest'.page == rest.page && rest'.y == rest.y;
      currentLine := currentLine + linesToAdd;
      assert rest' == ContentFrom(lines[currentLine..], doc.pageCount, yEnd, pageHeight);
    }
    assert lines[currentLine..] == [];
  }

  /** The wrapped title of a note, drawn at the left margin; yOffset then moves past it and one blank line. */
  function TitleBlock(titleLines: seq<string>, page: nat, y: int): Layout {
    Layout([TextOp(page, LeftAt(Margin), y, titleLines)], page, y + LineHeight * |titleLines| + LineHeight)
  }

  /**
   * The wrapped description.  It moves to the top margin of a new page
   * exactly when drawing it at `y` would cross the bottom margin; when it
   * stays, it fits.
   */
  function DescriptionBlock(lines: seq<string>, page: nat, y: int, pageHeight: int): (l: Layout)
    ensures |l.ops| == 1 && l.ops[0].lines == lines && l.ops[0].anchor == LeftAt(Margin)
    ensures l.ops[0].page == page + 1 && l.ops[0].y == Margin <==> y + LineHeight * |lines| > pageHeight - Margin
    ensures y + LineHeight * |lines| <= pageHeight - Margin ==>
      l.ops[0].page == page && l.ops[0].y == y && l.ops[0].y + LineHeight * |lines| <= pageHeight - Margin
    ensures l.page == l.ops[0].page && l.y == l.ops[0].y + LineHeight * |lines| + LineHeight
  {
    if y + LineHeight * |lines| > pageHeight - Margin then
      Layout([TextOp(page + 1, LeftAt(Margin), Margin, lines)], page + 1, Margin + LineHeight * |lines| + LineHeight)
    else
      Layout([TextOp(page, LeftAt(Margin), y, lines)], page, y + LineHeight * |lines| + LineHeight)
  }

  /** How many lines the metadata page holds: the creation date, and the update date when there is one. */
  function MetadataCount(note: Note): nat {
    if Truthy(note.updatedAt) then 2 else 1
  }

  /** The metadata, always on a page of its own starting at the top margin. */
  function MetadataBlock(note: Note, fmt: string -> string, page: nat): (l: Layout)
    ensures |l.ops| == MetadataCount(note) && l.page == page + 1
    ensures forall op <- l.ops :: op.page == page + 1 && op.anchor == LeftAt(Margin)
    ensures l.ops[0].y == Margin && l.ops[0].lines == ["Created: " + fmt(note.createdAt)]
    ensures Truthy(note.updatedAt) ==>
      l.ops[1].y == Margin + LineHeight && l.ops[1].lines == ["Last Updated: " + fmt(note.updatedAt.value)]
  {
    var created := TextOp(page + 1, LeftAt(Margin), Margin, ["Created: " + fmt(note.createdAt)]);
    var updated :=
      if Truthy(note.updatedAt)
      then [TextOp(page + 1, LeftAt(Margin), Margin + LineHeight, ["Last Updated: " + fmt(note.updatedAt.value)])]
      else [];
    Layout([created] + updated, page + 1, Margin + LineHeight)
  }

  function Then(a: Layout, b: Layout): Layout {
    Layout(a.ops + b.ops, b.page, b.y)
  }

  /** Nothing drawn; page and yOffset stay. */
  function Skip(page: nat, y: int): Layout {
    Layout([], page, y)
  }

  /** The description step of a note: drawn only when the description is non-empty. */
  function DescriptionPart(note: Note, wrap: string -> seq<string>, page: nat, y: int, pageHeight: int): Layout {
    if Truthy(note.description) then DescriptionBlock(wrap(note.description.value), page, y, pageHeight)
    else Skip(page, y)
  }

  /** The content step of a note: drawn only when the content is non-empty. */
  function ContentPart(note: Note, wrap: string -> seq<string>, page: nat, y: int, pageHeight: int): Layout
    requires PageFitsLine(pageHeight)
  {
    if Truthy(note.content) then ContentFrom(wrap(note.content.value), page, y, pageHeight)
    else Skip(page, y)
  }

  /** The metadata step of a note: drawn only when metadata is requested. */
  function MetadataPart(note: Note, includeMetadata: bool, fmt: string -> string, page: nat, y: int): Layout {
    if includeMetadata then MetadataBlock(note, fmt, page) else Skip(page, y)
  }

  /** Everything drawn for one note before its metadata, starting on `page` at `y`. */
  function NoteBody(titleLines: seq<string>, note: Note, wrap: string -> seq<string>,
                    page: nat, y: int, pageHeight: int): Layout
    requires PageFitsLine(pageHeight)
  {
    var t := TitleBlock(titleLines, page, y);
    var d := DescriptionPart(note, wrap, t.page, t.y, pageHeight);
    Then(Then(t, d), ContentPart(note, wrap, d.page, d.y, pageHeight))
  }

  /** Everything drawn for one note from its title on, starting on `page` at `y`. */
  function NoteBlock(titleLines: seq<string>, note: Note, includeMetadata: bool,
                     wrap: string -> seq<string>, fmt: string -> string,
                     page: nat, y: int, pageHeight: int): Layout
    requires PageFitsLine(pageHeight)
  {
    var b := NoteBody(titleLines, note, wrap, page, y, pageHeight);
    Then(b, MetadataPart(note, includeMetadata, fmt, b.page, b.y))
  }

  /** A note's body starts with its title where the note starts, and moves only forward through the pages. */
  lemma NoteBodyPaged(titleLines: seq<string>, note: Note, wrap: string -> seq<string>,
                      page: nat, y: int, pageHeight: int)
    requires PageFitsLine(pageHeight)
    ensures
      var l := NoteBody(titleLines, note, wrap, page, y, pageHeight);
      && |l.ops| >= 1 && l.ops[0] == TextOp(page, LeftAt(Margin), y, titleLines)
      && PagedWithin(l.ops, page, l.page)
  {
    var t := TitleBlock(titleLines, page, y);
    var d := DescriptionPart(note, wrap, t.page, t.y, pageHeight);
    var c := ContentPart(note, wrap, d.page, d.y, pageHeight);
    if Truthy(note.content) {
      ContentPaged(wrap(note.content.value), d.page, d.y, pageHeight);
    }
    assert PagedWithin(d.ops, t.page, d.page);
    PagedWithinAppend(t.ops, d.ops, page, t.page, d.page);
    PagedWithinAppend(t.ops + d.ops, c.ops, page, d.page, c.page);
  }

  /** A note's drawing starts with its title where the note starts, and moves only forward through the pages. */
  lemma NoteBlockPaged(titleLines: seq<string>, note: Note, includeMetadata: bool,
                       wrap: string -> seq<string>, fmt: string -> string,
                       page: nat, y: int, pageHeight: int)
    requires PageFitsLine(pageHeight)
    ensures
      var l := NoteBlock(titleLines, note, includeMetadata, wrap, fmt, page, y, pageHeight);
      && |l.ops| >= 1 && l.ops[0] == TextOp(page, LeftAt(Margin), y, titleLines)
      && page <= l.page && PagedWithin(l.ops, page, l.page)
  {
    var b := NoteBody(titleLines, note, wrap, page, y, pageHeight);
    var m := MetadataPart(note, includeMetadata, fmt, b.page, b.y);
    NoteBodyPaged(titleLines, note, wrap, page, y, pageHeight);
    assert page <= b.ops[0].page <= b.page;
    assert PagedWithin(m.ops, b.page, m.page);
    PagedWithinAppend(b.ops, m.ops, page, b.page, m.page);
    assert (b.ops + m.ops)[0] == b.ops[0];
  }

  /**
   * With metadata, a note's drawing ends with the metadata lines, from the
   * top margin of a page that no earlier line of the note uses.
   */
  lemma MetadataOnFreshPage(titleLines: seq<string>, note: Note,
                            wrap: string -> seq<string>, fmt: string -> string,
                            page: nat, y: int, pageHeight: int)
    requires PageFitsLine(pageHeight)
    ensures
      var l := NoteBlock(titleLines, note, true, wrap, fmt, page, y, pageHeight);
      var k := MetadataCount(note);
      && k < |l.ops|
      && l.ops[|l.ops| - k].y == Margin
      && l.ops[|l.ops| - k].lines == ["Created: " + fmt(note.createdAt)]
      && (forall i :: 0 <= i < |l.ops| - k ==> l.ops[i].page < l.page)
      && (forall i :: |l.ops| - k <= i < |l.ops| ==> l.ops[i].page == l.page)
  {
    var b := NoteBody(titleLines, note, wrap, page, y, pageHeight);
    var m := MetadataBlock(note, fmt, b.page);
    var l := NoteBlock(titleLines, note, true, wrap, fmt, page, y, pageHeight);
    NoteBodyPaged(titleLines, note, wrap, page, y, pageHeight);
    assert l.ops == b.ops + m.ops;
    assert l.ops[|b.ops|..] == m.ops;
    forall i | 0 <= i < |b.ops|
      ensures l.ops[i].page < l.page
    {
      assert l.ops[i] == b.ops[i];
    }
  }

  method EmitDescription(doc: Document, note: Note, wrap: string -> seq<string>, y: int, pageHeight: int)
      returns (yEnd: int)
    modifies doc
    ensures
      var l := DescriptionPart(note, wrap, old(doc.pageCount), y, pageHeight);
      doc.ops == old(doc.ops) + l.ops && doc.pageCount == l.page && yEnd == l.y
    ensures doc.savedAs == old(doc.savedAs)
  {
    yEnd := y;
    if Truthy(note.description) {
      var descriptionLines := wrap(note.description.value);
      if yEnd + LineHeight * |descriptionLines| > pageHeight - Margin {
        doc.AddPage();
        yEnd := Margin;
      }
      doc.Text(LeftAt(Margin), yEnd, descriptionLines);
      yEnd := yEnd + LineHeight * |descriptionLines| + LineHeight;
    }
  }

  method EmitMetadata(doc: Document, note: Note, includeMetadata: bool, fmt: string -> string, y: int)
      returns (yEnd: int)
    modifies doc
    ensures
      var l := MetadataPart(note, includeMetadata, fmt, old(doc.pageCount), y);
      doc.ops == old(doc.ops) + l.ops && doc.pageCount == l.page && yEnd == l.y
    ensures doc.savedAs == old(doc.savedAs)
  {
    yEnd := y;
    if includeMetadata {
      doc.AddPage();
      yEnd := Margin;
      doc.Text(LeftAt(Margin), yEnd, ["Created: " + fmt(note.createdAt)]);
      yEnd := yEnd + LineHeight;
      if Truthy(note.updatedAt) {
        doc.Text(LeftAt(Margin), yEnd, ["Last Updated: " + fmt(note.updatedAt.value)]);
      }
    }
  }

  /** Drawing a note's title, description and content, in the order of the source. */
  method EmitNoteBody(doc: Document, titleLines: seq<string>, note: Note,
                      wrap: string -> seq<string>, y: int, pageHeight: int)
      returns (yEnd: int)
    requires PageFitsLine(pageHeight)
    modifies doc
    ensures
      var l := NoteBody(titleLines, note, wrap, old(doc.pageCount), y, pageHeight);
      doc.ops == old(doc.ops) + l.ops && doc.pageCount == l.page && yEnd == l.y
    ensures doc.savedAs == old(doc.savedAs)
  {
    ghost var ops0 := doc.ops;
    ghost var t := TitleBlock(titleLines, doc.pageCount, y);
    yEnd := y;
    doc.Text(LeftAt(Margin), yEnd, titleLines);
    yEnd := yEnd + LineHeight * |titleLines| + LineHeight;
    assert doc.ops == ops0 + t.ops;
    ghost var d := DescriptionPart(note, wrap, doc.pageCount, yEnd, pageHeight);
    yEnd := EmitDescription(doc, note, wrap, yEnd, pageHeight);
    ghost var c := ContentPart(note, wrap, doc.pageCount, yEnd, pageHeight);
    if Truthy(note.content) {
      yEnd := EmitContent(doc, wrap(note.content.value), yEnd, pageHeight);
    }
    assert doc.ops == ops0 + (t.ops + d.ops + c.ops);
    assert NoteBody(titleLines, note, wrap, old(doc.pageCount), y, pageHeight) == Then(Then(t, d), c);
  }

  /** Drawing one note: title, description, content and metadata, in the order of the source. */
  method EmitNote(doc: Document, titleLines: seq<string>, note: Note, includeMetadata: bool,
                  wrap: string -> seq<string>, fmt: string -> string, y: int, pageHeight: int)
      returns (yEnd: int)
    requires PageFitsLine(pageHeight)
    modifies doc
    ensures
      var l := NoteBlock(titleLines, note, includeMetadata, wrap, fmt, old(doc.pageCount), y, pageHeight);
      doc.ops == old(doc.ops) + l.ops && doc.pageCount == l.page && yEnd == l.y
    ensures doc.savedAs == old(doc.savedAs)
  {
    ghost var body := NoteBody(titleLines, note, wrap, doc.pageCount, y, pageHeight);
    yEnd := EmitNoteBody(doc, titleLines, note, wrap, y, pageHeight);
    ghost var m := MetadataPart(note, includeMetadata, fmt, doc.pageCount, yEnd);
    yEnd := EmitMetadata(doc, note, includeMetadata, fmt, yEnd);
    assert doc.ops == old(doc.ops) + (body.ops + m.ops);
    assert NoteBlock(titleLines, note, includeMetadata, wrap, fmt, old(doc.pageCount), y, pageHeight) == Then(body, m);
  }

  /** The part of the default file name taken from the note's title: lower-cased, each whitespace run one '-'. */
  function TitleSlug(title: string): (slug: string)
    ensures NoJsSpace(slug)
    ensures forall i :: 0 <= i < |slug| ==> !IsUpper(slug[i])
    ensures Visible(slug) == Visible(ToLower(title))
  {
    CollapseSpaces(ToLower(title))
  }

  /** A title without whitespace only has its capitals lower-cased. */
  lemma TitleSlugWord(title: string)
    requires NoJsSpace(title)
    ensures TitleSlug(title) == ToLower(title)
  {
    LowerKeepsSpaces(title);
    CollapseSpacesIdentity(ToLower(title));
  }

  /**
   * Each maximal whitespace run of the title becomes exactly one '-' in the
   * slug, and the text on either side is slugged on its own; with
   * TitleSlugWord this fixes the slug of every title.
   */
  lemma TitleSlugRun(x: string, w: string, y: string)
    requires x == [] || !IsJsSpace(x[|x| - 1])
    requires w != [] && forall i :: 0 <= i < |w| ==> IsJsSpace(w[i])
    requires y == [] || !IsJsSpace(y[0])
    ensures TitleSlug(x + w + y) == TitleSlug(x) + "-" + TitleSlug(y)
  {
    ToLowerAppend(x + w, y);
    ToLowerAppend(x, w);
    LowerKeepsSpaces(x);
    LowerKeepsSpaces(w);
    LowerKeepsSpaces(y);
    CollapseSpacesRun(ToLower(x), ToLower(w), ToLower(y));
  }

  /** `note-${slug}-${today}.pdf`, where `today` is the date part of the ISO timestamp. */
  function DefaultSingleFileName(title: string, today: string): string {
    "note-" + TitleSlug(title) + "-" + today + ".pdf"
  }

  /** `selected-notes-${today}.pdf`. */
  function DefaultMultipleFileName(today: string): string {
    "selected-notes-" + today + ".pdf"
  }

  /** The heading centred at the top of page 1; the first note's title goes two lines below it. */
  function Heading(docTitle: string): Layout {
    Layout([TextOp(1, Centered, HeadingY, [docTitle])], 1, HeadingY + 2 * LineHeight)
  }

  /** Everything `generateSingleNotePDF` draws. */
  function SingleNoteLayout(note: Note, docTitle: string, includeMetadata: bool,
                            wrap: string -> seq<string>, fmt: string -> string, pageHeight: int): Layout
    requires PageFitsLine(pageHeight)
  {
    var h := Heading(docTitle);
    Then(h, NoteBlock(wrap(note.title), note, includeMetadata, wrap, fmt, h.page, h.y, pageHeight))
  }

  /**
   * `generateSingleNotePDF`: draws the note and saves the document under the
   * given file name or the default one, which it returns.
   */
  method GenerateSingleNotePdf(note: Note, options: PdfOptions, pageHeight: int,
                               wrap: string -> seq<string>, fmt: string -> string, today: string)
      returns (fileName: string, doc: Document)
    requires PageFitsLine(pageHeight)
    ensures fresh(doc)
    ensures fileName == options.fileName.GetOr(DefaultSingleFileName(note.title, today))
    ensures doc.savedAs == Some(fileName)
    ensures
      var l := SingleNoteLayout(note, options.title.GetOr("Note Details"), options.includeMetadata.GetOr(true),
                                wrap, fmt, pageHeight);
      doc.ops == l.ops && doc.pageCount == l.page
  {
    var title := options.title.GetOr("Note Details");
    var includeMetadata := options.includeMetadata.GetOr(true);
    fileName := options.fileName.GetOr(DefaultSingleFileName(note.title, today));

    doc := new Document();
    var yOffset := HeadingY;
    doc.Text(Centered, yOffset, [title]);
    yOffset := yOffset + LineHeight * 2;
    ghost var h := Heading(title);
    assert doc.ops == h.ops && doc.pageCount == h.page && yOffset == h.y;
    ghost var b := NoteBlock(wrap(note.title), note, includeMetadata, wrap, fmt, h.page, h.y, pageHeight);
    yOffset := EmitNote(doc, wrap(note.title), note, includeMetadata, wrap, fmt, yOffset, pageHeight);
    assert doc.ops == h.ops + b.ops && doc.pageCount == b.page;
    doc.Save(fileName);
  }

  /** The title a note gets in the collection: its 1-based position, a dot and a space, then the title. */
  function NumberedTitle(index: nat, title: string): (t: string)
    ensures |t| >= |title| + 3
    ensures t[|t| - |title| - 2..] == ". " + title
    ensures
      var number := t[..|t| - |title| - 2];
      && (forall i :: 0 <= i < |number| ==> IsDigit(number[i])) && DecimalValue(number) == index + 1
      && number[0] != '0'
  {
    var number := NatToDecimal(index + 1);
    DecimalRoundTrip(index + 1);
    var t := number + ". " + title;
    assert t[..|number|] == number;
    assert t[|number|..] == ". " + title;
    t
  }

  /** What the `forEach` over the notes draws from the note at `index` on. */
  function NotesFrom(notes: seq<Note>, index: nat, includeMetadata: bool,
                     wrap: string -> seq<string>, fmt: string -> string,
                     page: nat, y: int, pageHeight: int): Layout
    requires index <= |notes|
    requires PageFitsLine(pageHeight)
    decreases |notes| - index
  {
    if index == |notes| then Skip(page, y)
    else
      var p := if index > 0 then page + 1 else page;
      var y0 := if index > 0 then Margin else y;
      var b := NoteBlock(wrap(NumberedTitle(index, notes[index].title)), notes[index], includeMetadata, wrap, fmt, p, y0, pageHeight);
      Then(b, NotesFrom(notes, index + 1, includeMetadata, wrap, fmt, b.page, b.y, pageHeight))
  }

  /** The heading and the export line; the first note starts two lines below the latter. */
  function CollectionHeading(docTitle: string, exportedAt: string): Layout {
    Layout([TextOp(1, Centered, HeadingY, [docTitle]),
            TextOp(1, LeftAt(Margin), HeadingY + 2 * LineHeight, ["Exported on: " + exportedAt])],
           1, HeadingY + 4 * LineHeight)
  }

  /** Everything `generateMultipleNotesPDF` draws. */
  function MultipleNotesLayout(notes: seq<Note>, docTitle: string, exportedAt: string, includeMetadata: bool,
                               wrap: string -> seq<string>, fmt: string -> string, pageHeight: int): Layout
    requires PageFitsLine(pageHeight)
  {
    var h := CollectionHeading(docTitle, exportedAt);
    Then(h, NotesFrom(notes, 0, includeMetadata, wrap, fmt, h.page, h.y, pageHeight))
  }

  /** Drawing the note at `index` where the `forEach` draws it leaves the rest of the notes to draw. */
  lemma NotesFromStep(notes: seq<Note>, index: nat, includeMetadata: bool,
                      wrap: string -> seq<string>, fmt: string -> string,
                      page: nat, y: int, pageHeight: int, before: seq<TextOp>, b: Layout)
    requires index < |notes|
    requires PageFitsLine(pageHeight)
    requires b == NoteBlock(wrap(NumberedTitle(index, notes[index].title)), notes[index], includeMetadata, wrap, fmt,
                            if index > 0 then page + 1 else page, if index > 0 then Margin else y, pageHeight)
    ensures
      var rest := NotesFrom(notes, index + 1, includeMetadata, wrap, fmt, b.page, b.y, pageHeight);
      var whole := NotesFrom(notes, index, includeMetadata, wrap, fmt, page, y, pageHeight);
      (before + b.ops) + rest.ops == before + whole.ops && rest.page == whole.page
  {
    var rest := NotesFrom(notes, index + 1, includeMetadata, wrap, fmt, b.page, b.y, pageHeight);
    assert NotesFrom(notes, index, includeMetadata, wrap, fmt, page, y, pageHeight) == Then(b, rest);
    assert before + (b.ops + rest.ops) == before + b.ops + rest.ops;
  }

  /**
   * One pass of the `forEach` body: every note after the first starts a new
   * page at the top margin, then the note is drawn under its numbered title.
   */
  method EmitCollectionNote(doc: Document, notes: seq<Note>, index: nat, includeMetadata: bool,
                            wrap: string -> seq<string>, fmt: string -> string, y: int, pageHeight: int)
      returns (yEnd: int)
    requires index < |notes|
    requires PageFitsLine(pageHeight)
    modifies doc
    ensures
      var rest := NotesFrom(notes, index + 1, includeMetadata, wrap, fmt, doc.pageCount, yEnd, pageHeight);
      var whole := NotesFrom(notes, index, includeMetadata, wrap, fmt, old(doc.pageCount), y, pageHeight);
      doc.ops + rest.ops == old(doc.ops) + whole.ops && rest.page == whole.page
    ensures doc.savedAs == old(doc.savedAs)
  {
    yEnd := y;
    if index > 0 {
      doc.AddPage();
      yEnd := Margin;
    }
    var titleLines := wrap(NumberedTitle(index, notes[index].title));
    ghost var b := NoteBlock(titleLines, notes[index], includeMetadata, wrap, fmt, doc.pageCount, yEnd, pageHeight);
    yEnd := EmitNote(doc, titleLines, notes[index], includeMetadata, wrap, fmt, yEnd, pageHeight);
    NotesFromStep(notes, index, includeMetadata, wrap, fmt, old(doc.pageCount), y, pageHeight, old(doc.ops), b);
  }

  /**
   * The notes from `index` on move only forward through the pages, and each
   * note after the first opens a new page with its numbered title at the top
   * margin.
   */
  lemma {:induction false} NotesFromPaged(notes: seq<Note>, index: nat, includeMetadata: bool,
                                          wrap: string -> seq<string>, fmt: string -> string,
                                          page: nat, y: int, pageHeight: int)
    requires index <= |notes|
    requires PageFitsLine(pageHeight)
    decreases |notes| - index
    ensures
      var l := NotesFrom(notes, index, includeMetadata, wrap, fmt, page, y, pageHeight);
      && page <= l.page && PagedWithin(l.ops, page, l.page)
      && (0 < index < |notes| ==>
            |l.ops| >= 1 && l.ops[0] == TextOp(page + 1, LeftAt(Margin), Margin, wrap(NumberedTitle(index, notes[index].title))))
  {
    if index < |notes| {
      var p := if index > 0 then page + 1 else page;
      var y0 := if index > 0 then Margin else y;
      var b := NoteBlock(wrap(NumberedTitle(index, notes[index].title)), notes[index], includeMetadata, wrap, fmt, p, y0, pageHeight);
      var rest := NotesFrom(notes, index + 1, includeMetadata, wrap, fmt, b.page, b.y, pageHeight);
      NoteBlockPaged(wrap(NumberedTitle(index, notes[index].title)), notes[index], includeMetadata, wrap, fmt, p, y0, pageHeight);
      NotesFromPaged(notes, index + 1, includeMetadata, wrap, fmt, b.page, b.y, pageHeight);
      assert PagedWithin(b.ops, page, b.page);
      PagedWithinAppend(b.ops, rest.ops, page, b.page, rest.page);
      assert (b.ops + rest.ops)[0] == b.ops[0];
    }
  }

  /** The whole collection lies on pages 1 to the last, in order, and opens with its centred heading. */
  lemma MultipleNotesPaged(notes: seq<Note>, docTitle: string, exportedAt: string, includeMetadata: bool,
                           wrap: string -> seq<string>, fmt: string -> string, pageHeight: int)
    requires PageFitsLine(pageHeight)
    ensures
      var l := MultipleNotesLayout(notes, docTitle, exportedAt, includeMetadata, wrap, fmt, pageHeight);
      && |l.ops| >= 2 && l.ops[0] == TextOp(1, Centered, HeadingY, [docTitle])
      && PagedWithin(l.ops, 1, l.page)
  {
    var h := CollectionHeading(docTitle, exportedAt);
    NotesFromPaged(notes, 0, includeMetadata, wrap, fmt, h.page, h.y, pageHeight);
    PagedWithinAppend(h.ops, NotesFrom(notes, 0, includeMetadata, wrap, fmt, h.page, h.y, pageHeight).ops, 1, 1,
                      NotesFrom(notes, 0, includeMetadata, wrap, fmt, h.page, h.y, pageHeight).page);
  }

  /** The collection is its heading followed by what the `forEach` draws from the first note on. */
  lemma CollectionStart(notes: seq<Note>, docTitle: string, exportedAt: string, includeMetadata: bool,
                        wrap: string -> seq<string>, fmt: string -> string, pageHeight: int, ops: seq<TextOp>)
    requires PageFitsLine(pageHeight)
    requires ops == CollectionHeading(docTitle, exportedAt).ops
    ensures
      var rest := NotesFrom(notes, 0, includeMetadata, wrap, fmt, 1, HeadingY + 4 * LineHeight, pageHeight);
      var whole := MultipleNotesLayout(notes, docTitle, exportedAt, includeMetadata, wrap, fmt, pageHeight);
      ops + rest.ops == whole.ops && rest.page == whole.page
  {
  }

  /**
   * `generateMultipleNotesPDF`: draws every note in order and saves the
   * document under the given file name or the default one, which it returns.
   * `exportedAt` is the current time as the locale prints it.
   */
  method GenerateMultipleNotesPdf(notes: seq<Note>, options: PdfOptions, pageHeight: int,
                                  wrap: string -> seq<string>, fmt: string -> string,
                                  today: string, exportedAt: string)
      returns (fileName: string, doc: Document)
    requires PageFitsLine(pageHeight)
    ensures fresh(doc)
    ensures fileName == options.fileName.GetOr(DefaultMultipleFileName(today))
    ensures doc.savedAs == Some(fileName)
    ensures
      var l := MultipleNotesLayout(notes, options.title.GetOr("Selected Notes Collection"), exportedAt,
                                   options.includeMetadata.GetOr(true), wrap, fmt, pageHeight);
      doc.ops == l.ops && doc.pageCount == l.page
  {
    var title := options.title.GetOr("Selected Notes Collection");
    var includeMetadata := options.includeMetadata.GetOr(true);
    fileName := options.fileName.GetOr(DefaultMultipleFileName(today));

    doc := new Document();
    var yOffset := HeadingY;
    doc.Text(Centered, yOffset, [title]);
    yOffset := yOffset + LineHeight * 2;
    doc.Text(LeftAt(Margin), yOffset, ["Exported on: " + exportedAt]);
    yOffset := yOffset + LineHeight * 2;

    ghost var whole := MultipleNotesLayout(notes, title, exportedAt, includeMetadata, wrap, fmt, pageHeight);
    CollectionStart(notes, title, exportedAt, includeMetadata, wrap, fmt, pageHeight, doc.ops);
    var index := 0;
    while index < |notes|
      invariant 0 <= index <= |notes|
      invariant doc.savedAs == None
      invariant
        var rest := NotesFrom(notes, index, includeMetadata, wrap, fmt, doc.pageCount, yOffset, pageHeight);
        doc.ops + rest.ops == whole.ops && rest.page == whole.page
      decreases |notes| - index
    {
      yOffset := EmitCollectionNote(doc, notes, index, includeMetadata, wrap, fmt, yOffset, pageHeight);
      index := index + 1;
    }
    doc.Save(fileName);
  }
}
