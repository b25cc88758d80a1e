/**
 * The part of a jsPDF document the export code relies on: the current page,
 * the text drawn so far (each call remembered with the page it landed on),
 * and the file name it was saved under.  Fonts and the rendering of glyphs
 * are not part of this model.
 */
module PdfDocument {
  import opened Wrappers

  /** Where `text` places a block horizontally: centred on the page, or starting at x. */
  datatype Anchor = Centered | LeftAt(x: int)

  /** One `doc.text(lines, x, y)` call, on the page that was current at the time. */
  datatype TextOp = TextOp(page: nat, anchor: Anchor, y: int, lines: seq<string>)

  /** Every operation lies on a page in [lo, hi], and pages never go back. */
  predicate PagedWithin(ops: seq<TextOp>, lo: int, hi: int) {
    && (forall i :: 0 <= i < |ops| ==> lo <= ops[i].page <= hi)
    && (forall i, j :: 0 <= i < j < |ops| ==> ops[i].page <= ops[j].page)
  }

  lemma PagedWithinAppend(a: seq<TextOp>, b: seq<TextOp>, lo: int, mid: int, hi: int)
    requires lo <= mid <= hi
    requires PagedWithin(a, lo, mid) && PagedWithin(b, mid, hi)
    ensures PagedWithin(a + b, lo, hi)
  {
    forall i | 0 <= i < |a + b|
      ensures lo <= (a + b)[i].page <= hi
    {
      if i < |a| {
        assert (a + b)[i] == a[i];
      } else {
        assert (a + b)[i] == b[i - |a|];
      }
    }
    forall i, j | 0 <= i < j < |a + b|
      ensures (a + b)[i].page <= (a + b)[j].page
    {
      if j < |a| {
        assert (a + b)[i] == a[i] && (a + b)[j] == a[j];
      } else if i < |a| {
        assert (a + b)[i] == a[i] && (a + b)[j] == b[j - |a|];
      } else {
        assert (a + b)[i] == b[i - |a|] && (a + b)[j] == b[j - |a|];
      }
    }
  }

  class Document {
    /** Number of pages; the last one is the page `text` draws on. */
    var pageCount: nat
    var ops: seq<TextOp>
    var savedAs: Option<string>

    /** `new jsPDF()`: one empty page. */
    constructor ()
      ensures pageCount == 1 && ops == [] && savedAs == None
    {
      pageCount := 1;
      ops := [];
      savedAs := None;
    }

    /** `doc.addPage()`: a new page, which becomes current. */
    method AddPage()
      modifies this
      ensures pageCount == old(pageCount) + 1
      ensures ops == old(ops) && savedAs == old(savedAs)
    {
      pageCount := pageCount + 1;
    }

    /** `doc.text(lines, x, y)` on the current page. */
    method Text(anchor: Anchor, y: int, lines: seq<string>)
      modifies this
      ensures ops == old(ops) + [TextOp(old(pageCount), anchor, y, lines)]
      ensures pageCount == old(pageCount) && savedAs == old(savedAs)
    {
      ops := ops + [TextOp(pageCount, anchor, y, lines)];
    }

    /** `doc.save(name)`. */
    method Save(name: string)
      modifies this
      ensures savedAs == Some(name)
      ensures pageCount == old(pageCount) && ops == old(ops)
    {
      savedAs := Some(name);
    }
  }
}
