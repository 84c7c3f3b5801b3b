# PDF image reader and writer plugins, modelled in Dafny

This project models the two plugins of the image-dataset-converter PDF
package.

- **`from-pdf`** (`PdfImageReader`) keeps a first-in-first-out queue of input
  PDF files. Each `read` takes the next file and emits one image record per
  embedded image. Records come in page order, then in image order within a
  page. Each record's metadata is `{file, page}`.
- **`to-pdf`** (`PdfImageWriter`) fills in defaults for unset options. Its
  `write_batch` draws every record on a page of its own: an optional title
  (the image name), the image at its drawn size, and an optional block of
  `"key: value"` metadata lines. The document is then saved once.

The drawing library's canvas is modelled as a record of draw commands
(`PdfCanvas`): `drawString`, `drawImage`, `beginText`/`textLine`/`drawText`,
`showPage` and `save`. Each page is the list of commands issued on it. PDF
parsing is a function parameter `openPdf` from a path to a `Document`, which
is a sequence of pages, each with a page number and its embedded images.

Modules:

- `Wrappers` (`wrappers.dfy`): `Option`, `Outcome` and `Result`.
- `ImageRecords` (`image_records.dfy`): metadata values and Python's `str()` of them.
- `PdfCanvas` (`pdf_canvas.dfy`): the canvas and text object as recorders of draw commands.
- `PdfLayout` (`pdf_layout.dfy`): the writer's pure rules. These are truncating
  scale, `split(",")`, metadata line selection, and the commands of one page
  in closed form.
- `PdfWriter` (`pdf_writer.dfy`): the `PdfImageWriter` class.
  - When every image can be drawn, `WriteBatch` is proved to leave exactly one page per record.
  - Each finished page is proved equal to `PageCommands` of its record.
  - A refused resize stops the batch before `save`.
  - The proof follows the Python code's moving cursor `y`.
- `PdfReader` (`pdf_reader.dfy`): the `Session` and `PdfImageReader` classes.
  - `Read` is proved to return `Extract` of the parsed file, built with nested loops.
  - Lemmas give `Extract`'s count, order and metadata.

The model follows the code as written:

- The writer has no "best fit" (scale −1) mode and does not validate the scale.
  Every scale other than exactly 1.0 goes through `int(size * scale)` and a
  `resize` to that size.
- `int()` truncates toward zero; it does not floor.
- `resize` refuses a target size with a side below 1 unless the size is
  unchanged, so a zero or negative scale, or one that truncates a side to 0,
  makes `write_batch` raise before `save` at the first record whose truncated
  size has a side below 1 and differs from its native size, that is, the
  first record that is not drawable (a 0×0 image keeps its size and is drawn;
  an empty batch is still saved). The model returns `Fail` there,
  keeps the pages finished so far, and does not save.
- The check that the input list is not empty belongs to the framework's file
  location, not to the reader itself.

## Model

| member | source | states |
|---|---|---|
| ImageRecords.Decimal | src/idc/pdf/writer/_pdf.py:173 | `str()` of a non-negative int is a non-empty digit string without a leading zero; 0 is exactly `"0"` |
| ImageRecords.DecimalRoundTrip | src/idc/pdf/writer/_pdf.py:173 | reading back the digits `str()` writes for a number gives that number |
| ImageRecords.Show | src/idc/pdf/writer/_pdf.py:173 | `str(value)`: text unchanged; a number as its canonical decimal digits (non-empty, no leading zero; 0 is exactly `"0"`), after a `-` when negative |
| ImageRecords.HasMetadata | src/idc/pdf/writer/_pdf.py:167 | a record has metadata iff its metadata map has at least one key |
| PdfCanvas.TextObject.constructor | src/idc/pdf/writer/_pdf.py:169 | a text object begins empty at the given origin |
| PdfCanvas.TextObject.TextLine | src/idc/pdf/writer/_pdf.py:173 | `textLine` appends exactly one line after the existing ones |
| PdfCanvas.Canvas.constructor | src/idc/pdf/writer/_pdf.py:138 | a new canvas is bound to the output file, with no pages and no saves |
| PdfCanvas.Canvas.DrawString | src/idc/pdf/writer/_pdf.py:153 | appends one text command to the open page; finished pages and saves unchanged |
| PdfCanvas.Canvas.DrawImage | src/idc/pdf/writer/_pdf.py:164 | appends one image command with the given corner and size to the open page |
| PdfCanvas.Canvas.BeginText | src/idc/pdf/writer/_pdf.py:169 | returns a fresh, empty text object at (x, y) |
| PdfCanvas.Canvas.DrawText | src/idc/pdf/writer/_pdf.py:174 | appends the text object's origin and lines to the open page |
| PdfCanvas.Canvas.ShowPage | src/idc/pdf/writer/_pdf.py:177 | closes the open page as the next finished page and opens an empty one |
| PdfCanvas.Canvas.Save | src/idc/pdf/writer/_pdf.py:179 | with no open drawing, counts one more save; pages unchanged |
| PdfLayout.Trunc | src/idc/pdf/writer/_pdf.py:160-161 | `int(r)`: within one unit of `r`, on the side of zero, for both signs |
| PdfLayout.DrawnSize | src/idc/pdf/writer/_pdf.py:158-162 | scale exactly 1.0 keeps the native size; the size always equals each side times the scale, truncated, so the 1.0 shortcut agrees with the general rule |
| PdfLayout.DrawnSizeBounds | src/idc/pdf/writer/_pdf.py:159-161 | for a non-negative scale each drawn side is non-negative and within one point below `side * scale` |
| PdfLayout.Drawable | src/idc/pdf/writer/_pdf.py:159-162 | always drawable at scale exactly 1.0; otherwise drawable iff `resize` accepts the drawn size |
| PdfLayout.NonPositiveScaleUndrawable | src/idc/pdf/writer/_pdf.py:159-162 | a zero or negative scale makes any image with sides of at least one pixel undrawable |
| PdfLayout.ScaledToAtLeastOnePointDrawable | src/idc/pdf/writer/_pdf.py:159-162 | an image whose scaled sides are both at least 1 is drawable |
| PdfLayout.Split | src/idc/pdf/writer/_pdf.py:141-143 | `split(",")` gives one more piece than there are commas, and no piece contains a comma |
| PdfLayout.JoinSplit | src/idc/pdf/writer/_pdf.py:143 | joining the split pieces with commas restores the option string, so pieces are in order and untrimmed |
| PdfLayout.SplitWithoutComma | src/idc/pdf/writer/_pdf.py:143 | a key list without commas is one key |
| PdfLayout.SplitAfterPiece | src/idc/pdf/writer/_pdf.py:143 | a comma-free prefix followed by a comma becomes the first key |
| PdfLayout.SplitJoin | src/idc/pdf/writer/_pdf.py:143 | splitting a comma-join of comma-free keys gives back exactly those keys |
| PdfLayout.Line | src/idc/pdf/writer/_pdf.py:173 | a metadata line is the key, then `": "`, then the value's text |
| PdfLayout.PresentKeys | src/idc/pdf/writer/_pdf.py:170-172 | the configured keys found in the metadata, no more than configured; a key is kept iff configured and present; all present means all kept |
| PdfLayout.SelectLines | src/idc/pdf/writer/_pdf.py:170-173 | the metadata block has at most one line per configured key |
| PdfLayout.SelectLinesFollowKeys | src/idc/pdf/writer/_pdf.py:170-173 | line i of the block is the `"key: value"` line of the i-th configured key present in the metadata |
| PdfLayout.SelectLinesAppend | src/idc/pdf/writer/_pdf.py:170-173 | lines follow configured key order: the block for two key lists is their blocks concatenated |
| PdfLayout.AbsentKeySkipped | src/idc/pdf/writer/_pdf.py:172 | a key missing from the metadata contributes no line wherever it appears |
| PdfLayout.RepeatedKeyRepeated | src/idc/pdf/writer/_pdf.py:170-173 | a present key configured twice gives its line twice |
| PdfLayout.PageCommands | src/idc/pdf/writer/_pdf.py:148-174 | a page has 1 command, plus 1 with a title, plus 1 with a metadata block; all at x = offset_x; exactly one image, right after the title if any |
| PdfLayout.MetadataShown | src/idc/pdf/writer/_pdf.py:167 | a block is drawn iff keys are configured and the record's metadata is non-empty |
| PdfLayout.ImageY | src/idc/pdf/writer/_pdf.py:148-163 | the image's bottom plus its drawn height is the top margin, one gap lower with a title |
| PdfLayout.TitleAtTopMargin | src/idc/pdf/writer/_pdf.py:148-153 | with titles on, the first command is the image name at `page_height - offset_y` |
| PdfLayout.ImageBelowTitle | src/idc/pdf/writer/_pdf.py:154-164 | the image has the drawn size, and its top edge is at `page_height - offset_y`, one gap lower with a title; its bottom is that minus the drawn height |
| PdfLayout.MetadataBelowImage | src/idc/pdf/writer/_pdf.py:167-174 | with keys configured and metadata on the record, the last command is the text block one gap below the image's bottom holding the selected lines |
| PdfLayout.NoMetadataBlock | src/idc/pdf/writer/_pdf.py:167 | without configured keys, or for a record without metadata, no text block is drawn |
| PdfWriter.OrDefault | src/idc/pdf/writer/_pdf.py:119-128 | an option keeps its value when set and takes the default when unset |
| PdfWriter.A4Height | src/idc/pdf/writer/_pdf.py:139 | the page height is 297 mm in points, between 841.88976 and 841.88977 |
| PdfWriter.PdfImageWriter.constructor | src/idc/pdf/writer/_pdf.py:42-48 | the writer stores each option as given, unset ones as absent |
| PdfWriter.PdfImageWriter.LayoutSettings | src/idc/pdf/writer/_pdf.py:141-152 | titles are on only when the option is true; keys exist iff the option is set; then they are one more than its commas, comma-free, and rejoin to it, which by SplitJoin makes them exactly its comma-split pieces |
| PdfWriter.PdfImageWriter.Initialize | src/idc/pdf/writer/_pdf.py:119-128 | unset options become title off, scale 1.0, offsets 50, gap 50; set options, the output file and the keys are unchanged |
| PdfWriter.PdfImageWriter.WriteBatch | src/idc/pdf/writer/_pdf.py:130-179 | succeeds iff every image can be drawn; then one page per record in input order, each equal to `PageCommands` of its record, nothing left open, saved exactly once; otherwise the pages before the first undrawable record are finished, its page holds only its title part, and nothing is saved |
| PdfWriter.PdfImageWriter.DrawItem | src/idc/pdf/writer/_pdf.py:146-174 | draws iff the image can be drawn; then the moving cursor leaves on the open page exactly the commands `PageCommands` prescribes, otherwise only those before the image |
| PdfWriter.PdfImageWriter.ScaleImage | src/idc/pdf/writer/_pdf.py:157-162 | the resize is accepted iff the record is drawable, and then the size is `DrawnSize` at the configured scale |
| PdfWriter.PdfImageWriter.DrawMetadata | src/idc/pdf/writer/_pdf.py:169-174 | the text block filled key by key holds exactly the selected lines at its origin |
| PdfReader.DataTypeToClass | src/idc/pdf/reader/_pdf.py:90 | a data-type name maps to a class other than the generic image type |
| PdfReader.PageMeta | src/idc/pdf/reader/_pdf.py:117-120 | a record's metadata has exactly the keys `file` and `page`, with the current input and the page number |
| PdfReader.MakeRecord | src/idc/pdf/reader/_pdf.py:117-121 | a record carries the reader's class, the embedded image's name and bytes, and metadata with exactly `file` and `page` |
| PdfReader.PageRecords | src/idc/pdf/reader/_pdf.py:115-121 | one record per embedded image of a page, in image order, each with that image's name and bytes and the page's `{file, page}` metadata |
| PdfReader.Extract | src/idc/pdf/reader/_pdf.py:113-121 | every record of a file has the reader's class and names that file in its metadata |
| PdfReader.ExtractCount | src/idc/pdf/reader/_pdf.py:113-121 | a file yields exactly as many records as it has embedded images, summed over pages |
| PdfReader.ExtractAppend | src/idc/pdf/reader/_pdf.py:114-121 | pages are processed in order: the records of two runs of pages are concatenated |
| PdfReader.ExtractAround | src/idc/pdf/reader/_pdf.py:114-121 | the records of the pages before a page come first, then that page's, then the later pages' |
| PdfReader.ExtractAt | src/idc/pdf/reader/_pdf.py:113-121 | image j of page p is record number (images before page p) + j, with that image's name and bytes and metadata `{file, page}` of page p |
| PdfReader.ExtractMetadata | src/idc/pdf/reader/_pdf.py:117-121 | every record has the reader's class and the `{file, page}` metadata of some page of the file |
| PdfReader.Session.constructor | src/idc/pdf/reader/_pdf.py:110 | the session whose current input `read` sets starts with none |
| PdfReader.PdfImageReader.constructor | src/idc/pdf/reader/_pdf.py:29-35 | a new reader holds its data type and no queue, current input or class |
| PdfReader.PdfImageReader.Generates | src/idc/pdf/reader/_pdf.py:87-90 | exactly one class: the generic image type iff no data type is set, otherwise the class mapped from it |
| PdfReader.PdfImageReader.Initialize | src/idc/pdf/reader/_pdf.py:97-100 | fails iff no data type is set, leaving the queue and class untouched; otherwise queues the located files and fixes the class that `Generates` reports |
| PdfReader.PdfImageReader.HasFinished | src/idc/pdf/reader/_pdf.py:123-130 | finished iff the input queue is empty |
| PdfReader.PdfImageReader.Read | src/idc/pdf/reader/_pdf.py:109-121 | removes exactly the queue's head and keeps the rest in order; the head becomes the reader's and the session's current input; result is `Extract` of that file. An empty queue fails and changes nothing |

## Left out

- Argument parsing and plugin metadata (`_create_argparser`, `_apply_args`, `name`, `description`, `accepts`): framework boilerplate with no behaviour of its own.
- Creating the output directory in the writer's `initialize`: file-system I/O.
- Logging calls in both plugins.
- Resampling the image with `resize` and wrapping it in `ImageReader`: pixel work. The model records only the size the image is drawn at, not its pixels.
- The `preserveAspectRatio=True` flag of `drawImage`: the box drawn into is the image's own size.
- The unused page width of A4.
- IEEE floating point. Page height, scale and cursor are exact reals. `A4Height` is the exact 297 mm in points, not the rounded float.
- The PDF file's bytes, and what `save` does beyond being called once.
- Releasing the output file when an exception interrupts `write_batch`: exceptions from the drawing library are not modelled.
- PdfWriter.PdfImageWriter.WriteBatch: requires the scale, offsets and gap to be set, as `initialize` guarantees before the framework calls `write_batch`. An unset scale or offset makes the plugin fail with a type error at the first record. An unset gap is read only when a title or a metadata block is drawn, so the plugin also runs with no gap when neither is drawn. Neither case is modelled.
- PdfLayout.ResizeAccepts: the image library's rule for `resize` is not part of this model. It is stated as: an unchanged size is accepted, and otherwise both sides must be at least 1.
- PdfCanvas.Canvas.Save: modelled only with no open drawing. That is the only way `write_batch` calls it; the library would first close an open page.
- PDF parsing by `PdfReader`/`page.images`: a parameter `openPdf`. Parse errors on corrupt files are not modelled.
- `locate_files`: its result is the parameter `located` of `Initialize`. Glob and list-file resolution, and the error it raises for an empty result, are not modelled.
- PdfReader.PdfImageReader.Read and HasFinished: require `initialize` to have run. Before that the queue is `None` and the plugin fails: `read` raises `AttributeError` from popping `None` once it is iterated, and `has_finished` raises `TypeError` from `len(None)`.
- PdfReader.PdfImageReader.Read: returns all records of the file at once, not lazily as a generator.
- The counter `count` in `read`: it is never used.
- `data_type_to_class` and the list of data types: the model maps a name to a symbolic class, `ClassFor(name)`.
- `has_metadata()` of the framework's image record: modelled as "the metadata map is non-empty".
- Metadata values other than text and integers are not modelled.
- `class_lister.py`: a constant table of plugin names, with no logic.
