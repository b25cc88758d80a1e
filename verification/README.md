# Multi-tenant notes app: route guard, invitations and PDF export in Dafny

This project models the parts of the multi-tenant notes application that hold
real logic, and proves properties of the model:

- **The route guard** (`middleware.ts`). It matches `/{org}/dashboard[/admin|/user]`
  paths. Requests without a session go to `/login`. If the profile lookup fails,
  the user is signed out. A signed-in user whose role is not the path's role
  segment is redirected to `/{org}/dashboard/{role}`.
  Module `Middleware`. It is a pure function `Decide` with a full decision
  table, together with the parse of the path regex in both directions.
- **Accepting an invitation** (`app/invite/page.tsx`). The page checks the link,
  the invitation and the signed-in user, then adds a membership and deletes the
  invitation. Module `Invite`. It is a class `InvitePage`: the two tables are
  `map` fields, and the page's `error`/`loading` state and its last navigation
  are fields too. Its method `HandleInvite` is proved equal to the pure step
  function `Resolve`, and lemmas state each exit of the error chain.
- **The paginated PDF export** (`utils/pdfGenerator.ts`). Module `PdfGenerator`.
  The jsPDF document is a class `PdfDocument.Document`, which records every
  `text` call with the page it landed on. The page-break arithmetic, the content
  loop and the `forEach` over notes are methods. Each method is proved to draw
  what a layout function (`ContentFrom`, `NoteBlock`, `NotesFrom`, …) says, and
  lemmas prove the layout properties about those functions.
- **The one-page PDF export** (`utils/pdf.ts`). Module `PdfExport`. It covers the
  file-name sanitiser, the content offset and the footer date.
- **The reader's two-page spread** (`components/notes/NoteReader.tsx`). Module
  `NoteReader`. It splits on single spaces and puts `ceil(n/2)` words on the left.

The module `Notes` holds the note record (`types/note.ts`). `Wrappers` holds
`Option` and JavaScript truthiness of a nullable string. `Text` holds ASCII case
mapping, the `\s` character class and decimal printing.

Three behaviours of the code are worth knowing, and each is stated as a lemma:

- **Empty role.** If a profile's role is the empty string, the guard redirects
  to `/{org}/dashboard/`. That path matches again with no role segment, so the
  guard redirects to it again (`Middleware.EmptyRoleRedirectLoops`). For every
  other role, the redirect target string, requested again as it stands, is let
  through (`Middleware.DashboardRedirectConverges`). This holds only when the
  browser asks for that same path, which a `?`, `#` or leading `/` in the role or
  slug prevents (see "## Left out").
- **Organisation not checked.** The invitation page never compares the
  invitation's own organisation with the `org` in the link. The membership is
  created for whichever organisation the link names
  (`Invite.InvitationOrganisationUnchecked`).
- **Expiry boundary.** An invitation whose expiry equals the current time is
  still accepted, because the check is a strict `<` (`Invite.SignedOutGoesToSignup`,
  `Invite.Accepting`).

## Model

| member | source | states |
|---|---|---|
| Middleware.ParseDashboardPath | middleware.ts:19-23 | A match means the path is `/` + a non-empty slug without `/` + `/dashboard` + one of "", "/", "/admin", "/user". The role segment is "admin" or "user" exactly for the last two tails, and null otherwise. |
| Middleware.ParseDashboardComplete | middleware.ts:19-23 | Every path of those four shapes matches, with that slug and that role segment. |
| Middleware.SlashInSlugNeverMatches | middleware.ts:19 | A dashboard path whose organisation part contains `/` does not match. |
| Middleware.EffectiveOrgSlug | middleware.ts:48 | Takes the profile's organisation if it is truthy, else the path's, else "default-org". The result is never empty. |
| Middleware.Decide | middleware.ts:15-61 | Decision table:<br>• An unmatched path passes through.<br>• A matched path without a session redirects to login, carrying the path.<br>• A failed or empty profile lookup signs out to login.<br>• It redirects exactly when the role segment differs from the profile's role. The target is `/{profile org or path org}/dashboard/{role}`, where a null role prints as "null".<br>• It passes through exactly when the path is unmatched or the segment equals the role. |
| Middleware.ParseExpectedDashboardPath | middleware.ts:47-52 | The redirect target matches exactly when the organisation has no `/` and the role is "", "admin" or "user". It then matches with that organisation and role. |
| Middleware.ExpectedDashboardPasses | middleware.ts:46-53 | With a role other than "", a request for the target passes through. |
| Middleware.DashboardRedirectConverges | middleware.ts:33-58 | After a redirect, requesting the target string again with the same profile passes through, unless the role is "". |
| Middleware.EmptyRoleRedirectLoops | middleware.ts:19-53 | With the role "", `/{org}/dashboard/` redirects to itself. |
| NoteReader.SplitOnSpace | components/notes/NoteReader.tsx:59 | `split(' ')` yields at least one piece, and no piece contains a space. |
| NoteReader.JoinSplit | components/notes/NoteReader.tsx:59-62 | Joining the pieces of a split with single spaces gives back the text. |
| NoteReader.SplitJoin | components/notes/NoteReader.tsx:59-62 | Splitting a space-joined list of space-free words gives back the words. |
| NoteReader.Halfway | components/notes/NoteReader.tsx:60 | `ceil(n/2)`: the least h with 2h ≥ n. The left page gets as many words as the right, or one more. |
| NoteReader.ReaderPages | components/notes/NoteReader.tsx:58-62 | A null content reads as "". The left page holds exactly the first `ceil(n/2)` words and the right page the rest. With two or more words, left + " " + right is the content. With one word, the left page is the whole content and the right page is empty. |
| Text.CollapseSpaces | utils/pdfGenerator.ts:14 | `replace(/\s+/g, '-')`:<br>• the result has no `\s` character and is no longer than the input;<br>• every character other than `\s` and `-` survives, in order;<br>• each character is a `-` or comes from the input. |
| Text.CollapseSpacesRun | utils/pdfGenerator.ts:14 | A maximal whitespace run between text that does not end and text that does not start with whitespace becomes exactly one `-`, and each side is collapsed on its own. Together with `Text.CollapseSpacesIdentity`, this fixes the result on every string. |
| Text.CollapseSpacesIdentity | utils/pdfGenerator.ts:14 | Text without whitespace is left exactly as it is, existing `-` included. |
| Text.CollapseSpacesIdempotent | utils/pdfGenerator.ts:14 | Collapsing whitespace twice is the same as collapsing it once. |
| Text.NatToDecimal | utils/pdfGenerator.ts:124 | `${n}` for a natural number: at least one character, all of them decimal digits, and no leading zero when n ≥ 1. |
| Text.DecimalRoundTrip | utils/pdfGenerator.ts:124 | Reading back the printed number gives the number. |
| PdfGenerator.LinesPerPage | utils/pdfGenerator.ts:58-63 | When one line fits, at least one line fits: `linesPerPage ≥ 1`. It is the largest count that stays above the bottom margin. |
| PdfGenerator.ContentCoversLines | utils/pdfGenerator.ts:56-69 | The content loop draws every wrapped line exactly once, in order, in at most as many chunks as there are lines. |
| PdfGenerator.ContentChunksFit | utils/pdfGenerator.ts:58-67 | Every chunk is non-empty and ends at or above `pageHeight − margin`. |
| PdfGenerator.ContentPaged | utils/pdfGenerator.ts:56-69 | The content loop only moves forward through the pages, starting from its own page. |
| PdfGenerator.EmitChunk | utils/pdfGenerator.ts:58-68 | One pass of the loop, from line `currentLine`, draws at least one line. Together with what is left to draw, it draws what the loop draws from `currentLine` on. |
| PdfGenerator.EmitContent | utils/pdfGenerator.ts:56-69 | The `while` loop draws exactly `ContentFrom` of the lines and ends on its page and offset. |
| PdfGenerator.DescriptionBlock | utils/pdfGenerator.ts:42-48 | The description moves to a new page at y = margin exactly when drawing it at the current offset would cross `pageHeight − margin`. Otherwise it is drawn in place and fits. |
| PdfGenerator.EmitDescription | utils/pdfGenerator.ts:36-49 | Draws the description part of the layout, only for a non-empty description. |
| PdfGenerator.MetadataBlock | utils/pdfGenerator.ts:73-82 | The metadata goes on a new page. "Created: …" is at y = margin. "Last Updated: …" is one line lower, and only when `updated_at` is truthy. |
| PdfGenerator.EmitMetadata | utils/pdfGenerator.ts:72-82 | Draws the metadata part of the layout, only when it is requested. |
| PdfGenerator.MetadataOnFreshPage | utils/pdfGenerator.ts:72-82 | With metadata, a note's drawing ends with the metadata lines, from y = margin, on a page that no earlier line of the note uses. |
| PdfGenerator.NoteBodyPaged | utils/pdfGenerator.ts:29-70 | A note's drawing opens with its title lines at the left margin where it starts, and only moves forward through the pages. |
| PdfGenerator.NoteBlockPaged | utils/pdfGenerator.ts:29-82 | The same, with the metadata included. |
| PdfGenerator.EmitNoteBody | utils/pdfGenerator.ts:29-70 | Draws title, description and content as `NoteBody` lays them out, and ends on its page and offset. |
| PdfGenerator.EmitNote | utils/pdfGenerator.ts:29-82 | Draws title, description, content and metadata as `NoteBlock` lays them out, and ends on its page and offset. |
| PdfGenerator.TitleSlug | utils/pdfGenerator.ts:14 | The title part of the default name has no whitespace and no capital letters. It keeps every non-blank, non-dash character of the lower-cased title, in order. |
| PdfGenerator.TitleSlugWord | utils/pdfGenerator.ts:14 | A title without whitespace only has its capitals lower-cased. |
| PdfGenerator.TitleSlugRun | utils/pdfGenerator.ts:14 | Each maximal whitespace run of the title becomes exactly one `-`, and the text on either side is slugged on its own. Together with `TitleSlugWord`, this fixes the slug of every title, so "a b" gives "a-b" and "A - B" gives "a---b". |
| PdfGenerator.GenerateSingleNotePdf | utils/pdfGenerator.ts:10-87 | The returned name is the option's, or `note-{slug}-{date}.pdf`. The document is saved under that name, and its drawing is the heading followed by the note's layout. |
| PdfGenerator.NumberedTitle | utils/pdfGenerator.ts:124 | The title in the collection is a decimal numeral denoting `index + 1`, without a leading zero, followed by ". " and the title. |
| PdfGenerator.NotesFromPaged | utils/pdfGenerator.ts:114-175 | Each note after the first opens a new page with its numbered title at y = margin. The notes only move forward through the pages. |
| PdfGenerator.MultipleNotesPaged | utils/pdfGenerator.ts:103-175 | The collection opens with its centred heading on page 1 and lies on pages 1 to the last, in order. |
| PdfGenerator.EmitCollectionNote | utils/pdfGenerator.ts:114-175 | One pass of the `forEach` body. Together with what the later notes draw, it draws what the `forEach` draws from this note on. |
| PdfGenerator.GenerateMultipleNotesPdf | utils/pdfGenerator.ts:89-180 | The returned name is the option's, or `selected-notes-{date}.pdf`. The document is saved under it, and its drawing is the heading, the export line and every note as `NotesFrom` lays them out. |
| PdfExport.FileNameShape | utils/pdf.ts:39 | The stem has the title's length and contains only `[a-z0-9_]`. Each letter or digit of the title stays in place, lower-cased, and every other character becomes `_`. The name is the stem + ".pdf". |
| PdfExport.FileStemIdempotent | utils/pdf.ts:39 | Sanitising a sanitised stem changes nothing. |
| PdfExport.ExportLayout | utils/pdf.ts:13-36 | Title at (20, 20). Description at y = 30. Content at y = 40 below a description and y = 30 without one. Description and content are drawn only when non-empty, so the block count is 2 + their number. Footer at y = 280, reading "Last updated: " + the date of `updated_at` when that is truthy, and of `created_at` otherwise. All on page 1. |
| PdfExport.GeneratePdf | utils/pdf.ts:4-40 | The new document holds exactly the export's drawing on one page and is saved under the sanitised file name. |
| Invite.MissingParameters | app/invite/page.tsx:18-25 | A missing or empty token or org gives "Invalid invitation link", with no table touched and no navigation. |
| Invite.ExpiryCheck | app/invite/page.tsx:27-41 | An unknown token gives "Invalid or expired invitation". An expiry strictly before now gives "Invitation has expired". Neither touches a table. |
| Invite.SignedOutGoesToSignup | app/invite/page.tsx:43-53 | With a valid invitation, including one that expires at this moment, and nobody signed in, the page goes to `/auth/signup?invite={token}&org={org}`. Both tables stay unchanged. |
| Invite.SignedInExits | app/invite/page.tsx:56-90 | A lookup error other than PGRST116 is reported as is. An existing member goes to `/{org}/dashboard` with nothing inserted and the invitation kept. A failed insert, reached after a lookup that found no row or reported PGRST116, is reported with the invitation kept and no navigation. |
| Invite.Accepting | app/invite/page.tsx:74-103 | For a user not yet a member, whether the lookup finds nothing or reports PGRST116, exactly one membership is added (the table grows by one), with the invitation's role and inviter, status "active" and joined now. Other memberships are unchanged. The invitation is removed unless the delete fails. No error is set, and the page goes to `/{org}/dashboard`. |
| Invite.InvitationOrganisationUnchecked | app/invite/page.tsx:29-86 | The invitation's own organisation is never compared with the link's. On an accepted run, including one whose lookup reported PGRST116, the membership goes to the link's organisation. |
| Invite.TablesChangeOnlyOnAcceptance | app/invite/page.tsx:21-103 | Both tables change only on a run that reaches the insert, and such a run ends on the dashboard with no error. |
| Invite.MembershipsOnlyGrow | app/invite/page.tsx:56-90 | The membership table only grows, by at most one row, and existing rows keep their values. This includes the accept path through a PGRST116 lookup. |
| Invite.SecondVisitAddsNothing | app/invite/page.tsx:56-98 | Following the same link again after joining changes neither table. |
| Invite.InvitePage.HandleInvite | app/invite/page.tsx:16-110 | The tables end as `Resolve` says. The error is set only when `Resolve` reports one, and the page navigates only where `Resolve` says. `loading` is false on every path. |

## Left out

- jsPDF itself is not modelled: fonts, font sizes, glyph rendering and the float page size. The page height is an integer parameter.
- PdfGenerator: one function parameter, `wrap`, stands for every `splitTextToSize` call. The source wraps the note title at 16 pt bold, the numbered collection title at 14 pt bold, the description at 12 pt and the content at 11 pt. So the model wraps equal strings identically where jsPDF may not, for example a note whose description text equals its content text. No property proved here depends on how a string is wrapped.
- The page height must leave room for one line between the margins (`pageHeight − 2·20 ≥ 7`). Otherwise the source's content loop never ends. jsPDF's A4 page is far taller.
- The centred heading's x coordinate (`pageWidth / 2`) is recorded only as "centred".
- Date handling is parameters:
  - `toLocaleString` and `toLocaleDateString` are `fmt` and `fmtDate`;
  - the ISO date of today is `today`;
  - the time of the export line is `exportedAt`;
  - the current time of the invitation check is the integer `now`, also stored as `joined_at` in place of its ISO string.
- `new Date(expires_at)` of an unparseable value gives NaN, and NaN < now is false. The model takes the expiry to be an integer.
- Middleware.DashboardRedirectConverges: the next request's path is taken to be the redirect target string verbatim. The code builds `new URL(expectedFullPath, req.url)`, so a `?` or `#` in the role or organisation slug cuts the next request's path short, and a slug starting with `/` makes the target protocol-relative, that is, another host. For example, with role `admin#x` the browser next asks for `/o/dashboard/admin`, which the guard redirects again to `/o/dashboard/admin#x`, so the real guard loops where the lemma says the request passes through.
- Middleware.Decide: the redirect to login carries the raw path. The `encodeURIComponent` escaping and the URL object are not modelled.
- The Supabase session cookie handling, `signOut` and the `matcher` configuration are not modelled. Only the decision of the guard is.
- Text.ToLower and Text.LowerChar: the lower-casing covers only ASCII letters, so `toLowerCase` of other scripts is not modelled.
- PdfExport.FileNameShape: the model works on Unicode characters, while `/[^a-z0-9]/gi` has no `u` flag and so replaces each UTF-16 code unit. A character outside the Basic Multilingual Plane, such as an emoji, therefore becomes "__" in the source but "_" in the model, and the "same length" claim counts characters rather than code units.
- Invite.MembershipsOnlyGrow and Invite.Accepting: when the membership lookup reports an error, including PGRST116 (which is how `.single()` reports that no row matched), both assume the user has no row in that organisation yet. They do not cover a PGRST116 that hides an existing row. There the model's insert replaces that row, while what the real table's constraints do is unknown here.
- Invite: the `organizationSlug` of an invitation is an assumed column of `organization_invites`, which the page reads with `select('*')`. It exists only so that `Invite.InvitationOrganisationUnchecked` can say that the page never reads it: the membership's organisation always comes from the link.
- Invite: the toast, `console.error` and the rendered error screen are user interface and are not modelled. The database calls are reduced to their observable failures (`Faults`).
- The reader's null-note early return renders nothing and is not modelled.
