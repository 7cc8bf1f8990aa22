# Form-filling pipeline of the PDF sheet generator

The generator downloads a spreadsheet of student records and, for every
row, fills a PDF form template with that row's values. It draws each
value as text just inside the rectangle of the matching form field, on an
overlay document that has one page per template page. It then stacks
overlay page *i* onto template page *i* and names the result after the
row's first two cells. The list of `(file name, document)` pairs is stored
in the user's session only when the whole run succeeds.

This project models that pipeline in Dafny. The PDF and spreadsheet
libraries are replaced by abstract values:

- a template is a sequence of pages;
- a page holds an opaque content string and its annotations;
- an annotation has an optional name and a rectangle (an empty sequence
  when absent);
- a row is a sequence of cells, each `Null` or `Present(text)`;
- an overlay page is the sequence of `Draw(x, y, text)` commands issued on
  it;
- an output page is a `MergedPage(base, overlay)`.

Files:

- `pdf.dfy` (module `Pdf`): the values above, the `Result` type of the
  run's errors, `Collect` (a run of steps that stops at the first error,
  as an exception leaves a loop), and positional cell access with
  integer-index semantics.
- `field_map.dfy` (module `FieldMap`): the 21-entry field-to-letter table,
  written as its list of entries. `Mapping` is the dictionary that list
  builds, and `Lookup` is reading a name in it; the two are proved to
  agree. The module also holds the letter-to-index conversion and the
  proof that the table is a bijection onto columns 0..20.
- `overlay.dfy` (module `Overlay`): the per-annotation skip rules, the
  per-page and per-template specification functions, a `Canvas` class, and
  the loops that drive it: `DrawField` for one annotation,
  `DrawAnnotations` for one page, and `RenderOverlay` for the template.
- `merge.dfy` (module `Merge`): the page-by-page merge as a function, a
  `Writer` class, and the loop `MergePages`.
- `batch.dfy` (module `Batch`): output naming, one row through the
  pipeline as a function and as a method (`FillRow`), the batch over all
  rows as a function and as a loop (`GenerateAll`), and the `Session`
  whose results are replaced only by a fully successful run.

Errors are values. The fetch and parse outcomes and the outcome of reading
the template are parameters (`Result`s), since they come from I/O. A short
row and a rectangle that does not unpack into four numbers are the errors
the pipeline itself can raise. Each error stops the run at the first
failing row, in row, page and annotation order, as an exception does.

## Model

| member | source | states |
|---|---|---|
| `Pdf.Collect` | app.py:120-161 | a run of steps succeeds exactly when every step does, and then yields one value per step, in order |
| `Pdf.CollectStopsAtFirstFailure` | app.py:120-161 | when the steps before step *k* succeed and step *k* fails, the whole run fails with step *k*'s error: an exception ends the loop and the `try` block |
| `Pdf.CellAt` | app.py:133 | positional cell access succeeds exactly for indices in `[-len, len)`; non-negative indices count from the start and negative ones from the end; any other index fails with `IndexOutOfRange` (Python's `IndexError`) |
| `Pdf.Str` | app.py:149 | a present cell is formatted as its own text |
| `FieldMap.TableKeys` | app.py:91-113 | the keys of the dictionary built from the entries are exactly the entries' field names |
| `FieldMap.TableOf` | app.py:91-113 | an empty entry list builds the empty dictionary; `TableKeys` shows the keys are the entries' names, `TableOfDistinct` that distinct names give one key per entry |
| `FieldMap.Lookup` | app.py:132-133 | an empty entry list finds nothing; `LookupFound` shows a name is found exactly when some entry has it, and `LookupTable` that the result is `mapping[name]` when `name in mapping` and nothing otherwise |
| `FieldMap.LookupFound` | app.py:132-133 | reading a name finds nothing exactly when no entry has that name, and otherwise finds the letter of an entry with that name |
| `FieldMap.LookupTable` | app.py:132-133 | reading a name agrees with the dictionary: found exactly when the name is a key, and then with the letter the dictionary holds for it |
| `FieldMap.LookupFinds` | app.py:91-113 | in an entry list without repeated names, each entry's name reads back its own letter |
| `FieldMap.TableOfDistinct` | app.py:91-113 | a dictionary built from entries with distinct names has one key per entry |
| `FieldMap.Idx` | app.py:115-116 | a letter's index is its code point minus that of `A`: `A`..`Z` map into `[0, 26)` and code points below `A` give a negative index |
| `FieldMap.Column` | app.py:132-133 | every column the table yields for a field lies in `[0, 21)` |
| `FieldMap.ColumnOfMapping` | app.py:132-133 | a field has a column exactly when it is a key of the table, and the column is the index of the letter the table gives it |
| `FieldMap.NamesDistinct` | app.py:91-113 | no two entries of the table name the same field |
| `FieldMap.LettersDistinct` | app.py:91-113 | no two entries of the table name the same column letter |
| `FieldMap.EntryOfEachColumn` | app.py:91-113 | for each column 0..20, the inverse table gives an entry whose letter has that index |
| `FieldMap.ColumnHasField` | app.py:91-116 | every column 0..20 is fed by some field of the table |
| `FieldMap.ColumnInjective` | app.py:91-116 | two fields that have a column and share it are the same field |
| `FieldMap.MappingSize` | app.py:91-113 | the table has exactly 21 distinct fields |
| `FieldMap.LettersInAtoU` | app.py:91-113 | every field's letter is one of `A` to `U` |
| `FieldMap.LetterUsed` | app.py:91-113 | each letter from `A` to `U` is some field's letter |
| `FieldMap.LettersAtoU` | app.py:91-113 | the table's letters are exactly `A` to `U` |
| `Overlay.AnnotationDraws` | app.py:130-136 | an annotation adds at most one draw, and nothing when it lacks a name or a rectangle or its name has no column |
| `Overlay.AnnotationRule` | app.py:128-136 | a mapped field's column is in `[0, 21)`; an annotation is drawn exactly when it is named, has a rectangle, is in the table and its cell is present; the draw is the cell's text at `(x1 + 4, y1 + 6)`; a row too short for the column fails with `IndexOutOfRange` (the `IndexError` of `iloc`), and otherwise a drawn field whose rectangle is not four numbers fails with `RectNotFourNumbers` (the unpacking `ValueError`, raised only after the null test) |
| `Overlay.Then` | app.py:129-136 | two consecutive stretches of drawing succeed exactly when both do; on failure the result is the first stretch's failure if it failed, else the second's; otherwise their draws are concatenated in order |
| `Overlay.PageDraws` | app.py:128-136 | a page with no annotations draws nothing, and a successful page has at most one draw per annotation |
| `Overlay.PageDrawsCollects` | app.py:128-136 | a page's draws are its annotations' outcomes, collected in document order up to the first error, then concatenated |
| `Overlay.PageDrawsAppend` | app.py:129-136 | drawing a page in two stretches equals drawing it in one: contributions are independent of their neighbours and keep annotation order |
| `Overlay.PageDrawsOne` | app.py:129-136 | a page with a single annotation draws what that annotation draws |
| `Overlay.SkippedFieldLeavesOthers` | app.py:128-134 | an annotation that draws nothing (unmapped, null cell, no name or rectangle) leaves the rest of its page's draws unchanged |
| `Overlay.PageDrawsSucceeds` | app.py:128-136 | a page succeeds exactly when every annotation on it does |
| `Overlay.PageDrawsContents` | app.py:128-136 | on a successful page, a text is on the page exactly when some annotation of the page draws it |
| `Overlay.AnnotationStopsPage` | app.py:129-136 | an error at annotation *j*, after the earlier annotations drew without error, is the error of the whole page |
| `Overlay.PageFailureIsFinal` | app.py:129-136 | once a stretch of a page has failed, the whole page fails with the same error |
| `Overlay.OverlayOf` | app.py:127-137 | the overlay succeeds exactly when every page does, and then has exactly one page per template page, page *i* holding the draws of template page *i*, even when it has no annotation or no drawable field |
| `Overlay.PageStopsOverlay` | app.py:127-137 | an error on page *i*, after the earlier pages succeeded, is the error of the whole overlay; no later page is drawn |
| `Overlay.Canvas.constructor` | app.py:124 | a new canvas has no finished page and an empty current page |
| `Overlay.Canvas.DrawString` | app.py:136 | drawing appends the text to the current page only |
| `Overlay.Canvas.ShowPage` | app.py:137 | ending a page appends the current page, drawn or not, to the finished pages and starts an empty one |
| `Overlay.DrawField` | app.py:130-136 | handling one annotation leaves the finished pages alone, fails exactly when `AnnotationDraws` fails and with its error, and otherwise appends exactly `AnnotationDraws`'s draws to the current page |
| `Overlay.DrawAnnotations` | app.py:128-136 | the loop over one page's annotations leaves the finished pages alone, fails exactly when `PageDraws` fails and with its error, and otherwise appends exactly `PageDraws`'s draws to the current page |
| `Overlay.RenderOverlay` | app.py:124-139 | the nested page and annotation loops over the canvas return exactly the overlay `OverlayOf` specifies, or its first error |
| `Merge.MergeOf` | app.py:144-147 | the merged document has one page per template page; its precondition, an overlay page for each template page, is the bound of the positional overlay access |
| `Merge.MergeKeepsPages` | app.py:144-147 | beneath the overlays lie exactly the template's pages in order, and on top lie the overlay's pages in the same order |
| `Merge.Writer.constructor` | app.py:142 | a new writer holds no page |
| `Merge.Writer.AddPage` | app.py:147 | adding a page appends it |
| `Merge.MergePages` | app.py:141-147 | the loop that stacks overlay page *i* on template page *i* and adds it to a writer yields exactly `MergeOf` |
| `Batch.OutputName` | app.py:149 | a row has an output name exactly when it has at least two cells; the name is the text of cell 0, an underscore, the text of cell 1 and `.pdf`; a shorter row fails with an index error |
| `Batch.RenderRow` | app.py:120-153 | a row's output exists only when the template was read, its overlay succeeded and the row has two cells; its name is `"{col0}_{col1}.pdf"`, its pages are the template's pages with the row's overlay pages on top; it fails exactly when one of those steps fails, with the error of the first step that failed (template, then overlay, then naming) |
| `Batch.BatchOf` | app.py:118-156 | the batch succeeds exactly when every row does, and then holds exactly one output per row, in row order, output *k* depending only on row *k* |
| `Batch.RowStopsBatch` | app.py:120-161 | when the rows before row *k* succeed and row *k* fails, the batch fails with row *k*'s error; no later row is processed |
| `Batch.FillRow` | app.py:120-153 | one iteration of the row loop (read the template, draw the overlay on a canvas, merge through a writer, name the output) returns exactly `RenderRow` |
| `Batch.GenerateAll` | app.py:118-156 | the row loop that appends one named document per row returns exactly `BatchOf`, or its first error |
| `Batch.Published` | app.py:157-161 | the session ends up with the full list of outputs when the spreadsheet was obtained and every row succeeded, and with its previous value otherwise |
| `Batch.Session.constructor` | app.py:79-81 | a new session holds no results |
| `Batch.Session.Generate` | app.py:84-161 | a run assigns the session exactly as `Published` says and reports success only then; an error leaves the session unchanged and is reported as the fetch or parse error, or else as the batch's error, which is the first failing row's error |
| `Batch.ExampleOverlay` | app.py:127-137 | for a two-page template whose first page has the column-A field at `(100, 700, 200, 720)` and a row starting `"Dupont", "Marie"`, the overlay draws `"Dupont"` at `(104, 706)` on page 1 and nothing on page 2 |
| `Batch.ExampleBatch` | app.py:118-153 | on the same inputs, the batch yields the single file `"Dupont_Marie.pdf"` holding both template pages with that overlay |

## Left out

- The web page: page configuration, style sheet, logo, title, progress and
  result messages, per-file download buttons and the ZIP download
  (app.py:11-73, 163-193). `Session.Generate` returns a `Notice` in place
  of the success and error messages.
- The spreadsheet download and parsing (app.py:87-89). They are I/O and
  foreign library calls; their outcome is the `sheet` parameter.
- Reading the template file (app.py:121). Its outcome is the `template`
  parameter, the same for every row because the file does not change
  during a run. With no rows the template is never read, and the run
  succeeds with an empty list whatever that parameter is.
- Cell conversion. Which values count as null, and how a value turns into
  text, belong to the spreadsheet library. A cell is given already as
  `Null` or `Present(text)`.
- `Str`: a null cell prints as `nan`, the spelling of the floating-point
  not-a-number that the spreadsheet reader puts in empty cells; other kinds
  of null are not distinguished.
- Field-name decoding (app.py:131). The annotation's name is given already
  decoded.
- Font selection, glyph rendering, page size, saving the overlay to a
  temporary file and reading it back, and deleting that file
  (app.py:122-125, 139-141, 155). The overlay is kept as its draw commands
  in memory. Saving after the last `showPage` adds no page.
- Serialising the output document to bytes (app.py:150-152). The document
  is kept as its merged pages.
- In-place mutation of template pages by the merge (app.py:146). The model
  works on values: each row starts from the template value, which matches
  the program re-reading the template for every row.
- Floating-point coordinates. Rectangle numbers and the `+4` / `+6` insets
  are exact reals.
- Exceptions other than the modelled ones (for example a failed file write)
  are not represented.
