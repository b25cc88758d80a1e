/**
 * The one-page export of utils/pdf.ts: the title, the description when
 * there is one, the wrapped content below it, and a footer with the last
 * update date, saved under a file name made from the title.
 *
 * jsPDF's `splitTextToSize(content, 170)` is the parameter `wrap`, and the
 * locale date printing of `new Date(s).toLocaleDateString()` is `fmtDate`.
 */
module PdfExport {
  import opened Wrappers
  import opened Text
  import opened PdfDocument
  import opened Notes

  const LeftX: int := 20
  const TitleY: int := 20
  const DescriptionY: int := 30
  const FooterY: int := 280

  /** The characters `[a-z0-9]` matches under the `i` flag: ASCII letters of either case and digits. */
  predicate IsAsciiAlnum(c: char) {
    IsUpper(c) || IsLower(c) || IsDigit(c)
  }

  /** `replace(/[^a-z0-9]/gi, '_')`: every other character becomes an underscore. */
  function ReplaceOthers(s: string): (r: string)
    ensures |r| == |s|
    ensures forall i :: 0 <= i < |s| ==> r[i] == (if IsAsciiAlnum(s[i]) then s[i] else '_')
  {
    if s == [] then [] else [if IsAsciiAlnum(s[0]) then s[0] else '_'] + ReplaceOthers(s[1..])
  }

  /** The file name stem: the title with its non-alphanumerics replaced, then lower-cased. */
  function FileStem(title: string): string {
    ToLower(ReplaceOthers(title))
  }

  /** The name the document is saved under. */
  function FileName(title: string): string {
    FileStem(title) + ".pdf"
  }

  /**
   * The stem keeps the title's length; each letter or digit stays in its
   * place, a capital letter lower-cased, and every other character becomes
   * '_', so the stem holds only `[a-z0-9_]`.  The file name is the stem
   * followed by ".pdf".
   */
  lemma FileNameShape(title: string)
    ensures var stem := FileStem(title);
      && |stem| == |title|
      && (forall i :: 0 <= i < |stem| ==> IsLower(stem[i]) || IsDigit(stem[i]) || stem[i] == '_')
      && (forall i :: 0 <= i < |title| && IsAsciiAlnum(title[i]) ==> stem[i] == LowerChar(title[i]))
      && (forall i :: 0 <= i < |title| && !IsAsciiAlnum(title[i]) ==> stem[i] == '_')
      && FileName(title) == stem + ".pdf"
      && |FileName(title)| == |title| + 4
  {
    var stem := FileStem(title);
    forall i | 0 <= i < |stem|
      ensures IsLower(stem[i]) || IsDigit(stem[i]) || stem[i] == '_'
    {
      assert stem[i] == LowerChar(ReplaceOthers(title)[i]);
    }
  }

  /** A stem is its own stem: sanitising a sanitised title changes nothing. */
  lemma FileStemIdempotent(title: string)
    ensures FileStem(FileStem(title)) == FileStem(title)
  {
    var stem := FileStem(title);
    FileNameShape(title);
    FileNameShape(stem);
    forall i | 0 <= i < |stem|
      ensures FileStem(stem)[i] == stem[i]
    {
      if IsAsciiAlnum(stem[i]) {
        assert !IsUpper(stem[i]);
      }
    }
  }

  /** `note.description ? 40 : 30`: the content sits one line lower when a description was drawn. */
  function ContentY(note: Note): int {
    if Truthy(note.description) then 40 else 30
  }

  /** `note.updated_at || note.created_at`. */
  function FooterSource(note: Note): string {
    if Truthy(note.updatedAt) then note.updatedAt.value else note.createdAt
  }

  /** The text `generatePDF` draws, all on the first page, in order. */
  function ExportOps(note: Note, wrap: string -> seq<string>, fmtDate: string -> string): seq<TextOp> {
    [TextOp(1, LeftAt(LeftX), TitleY, [note.title])]
    + (if Truthy(note.description) then [TextOp(1, LeftAt(LeftX), DescriptionY, [note.description.value])] else [])
    + (if Truthy(note.content) then [TextOp(1, LeftAt(LeftX), ContentY(note), wrap(note.content.value))] else [])
    + [TextOp(1, LeftAt(LeftX), FooterY, ["Last updated: " + fmtDate(FooterSource(note))])]
  }

  /** How many blocks `generatePDF` draws: title and footer always, description and content when non-empty. */
  function BlockCount(note: Note): nat {
    2 + (if Truthy(note.description) then 1 else 0) + (if Truthy(note.content) then 1 else 0)
  }

  /**
   * The export starts with the title at (20, 20) and ends with the footer
   * at y = 280, dated by `updated_at` when that is non-empty and by
   * `created_at` otherwise; between them come the description, at y = 30, and the
   * content, at y = 40 below a description and at y = 30 without one, each
   * only when it is non-empty (the count of blocks says so); everything
   * stays on page 1.
   */
  lemma ExportLayout(note: Note, wrap: string -> seq<string>, fmtDate: string -> string)
    ensures var ops := ExportOps(note, wrap, fmtDate);
      && |ops| == BlockCount(note)
      && ops[0] == TextOp(1, LeftAt(LeftX), TitleY, [note.title])
      && ops[|ops| - 1].y == FooterY
      && (Truthy(note.updatedAt) ==> ops[|ops| - 1].lines == ["Last updated: " + fmtDate(note.updatedAt.value)])
      && (!Truthy(note.updatedAt) ==> ops[|ops| - 1].lines == ["Last updated: " + fmtDate(note.createdAt)])
      && (Truthy(note.description) ==> ops[1] == TextOp(1, LeftAt(LeftX), DescriptionY, [note.description.value]))
      && (Truthy(note.content) ==>
            ops[|ops| - 2] == TextOp(1, LeftAt(LeftX), ContentY(note), wrap(note.content.value)))
      && (forall op <- ops :: op.page == 1 && op.anchor == LeftAt(LeftX))
  {
  }

  /**
   * `generatePDF`: one straight run of drawing calls on a new document,
   * then `save` under the sanitised title.
   */
  method GeneratePdf(note: Note, wrap: string -> seq<string>, fmtDate: string -> string)
      returns (doc: Document)
    ensures fresh(doc)
    ensures doc.ops == ExportOps(note, wrap, fmtDate)
    ensures doc.pageCount == 1 && doc.savedAs == Some(FileName(note.title))
  {
    doc := new Document();
    doc.Text(LeftAt(LeftX), TitleY, [note.title]);
    if Truthy(note.description) {
      doc.Text(LeftAt(LeftX), DescriptionY, [note.description.value]);
    }
    if Truthy(note.content) {
      var splitText := wrap(note.content.value);
      doc.Text(LeftAt(LeftX), ContentY(note), splitText);
    }
    var date := fmtDate(FooterSource(note));
    doc.Text(LeftAt(LeftX), FooterY, ["Last updated: " + date]);
    doc.Save(FileName(note.title));
  }
}
