/**
 * The note record of types/note.ts, reduced to the fields the PDF exports
 * read.  A nullable column is an `Option`.
 */
module Notes {
  import opened Wrappers

  datatype Note = Note(
    title: string,
    description: Option<string>,
    content: Option<string>,
    createdAt: string,
    updatedAt: Option<string>)
}
