# gopop core, modelled in Dafny

gopop wraps two poppler command-line tools for Go programs. This project
models its two pieces of logic that do not depend on running those tools.

1. **The `pdfinfo` output parser** (`pdfinfo.go`). `PDFInfoParser.Parse`
   reads the tool's output line by line. Each line that matches
   `^(.*?):[\t ]*(.*)$` is split into a key and a value. A key starting
   with `"Page "` is split again by `^Page[\t ]*?(\d+)[\t ](.*)$` into a
   page number and an attribute, and the value is stored in that page's
   record. The page record is created on first use (`editPage`). Any other
   key becomes a property. A key with the `"Page "` prefix that is no page
   key ends the parse with an error and no document. On top of the two maps
   sit the accessors `Producer`, `Page(n)` (looked up under the decimal
   rendering of `n`), and `SizeRaw`, `RotRaw` and `Size`. `Size` splits the
   stored size with `^(.*) x (.*) (pts) ?(.*)$` and converts width and
   height to floats. None of the three patterns has the `s` flag, so `.`
   never matches a newline and `$` is the end of the text: a string that
   holds a newline matches none of them.
2. **The `pdftoppm` command builder** (`pdftoppm/convert.go`,
   `pdftoppm/opts.go`). `NewCommand` applies each option in order. Each
   option appends its flag, and its number in decimal if it has one. Then
   `NewCommand` appends the PDF path and the image path prefix.

Layout:

- `common.dfy` (module `Common`): `Option`, `Result`, the character classes
  `[\t ]` and `\d`, and substring searches.
- `decimal.dfy` (module `Decimal`): `strconv.Itoa` and a reader that
  inverts it.
- `grammar.dfy` (module `Grammar`): the three regular expressions as
  hand-written matchers with Go's RE2 leftmost-first semantics. Each one is
  paired with a predicate that describes the decompositions the pattern
  accepts, newline-free strings only, and is proved to pick exactly the
  decomposition RE2 picks.
- `pdfinfo.dfy` (module `PdfInfo`): the document as a value, and `Step`
  (one line) and `Run` (a whole input) as functions on it. Also the classes
  `PDFInfo` and `PDFInfoParser`, whose methods update their maps in place
  and are proved to follow `Step` and `Run`.
- `pdfinfo_props.dfy` (module `PdfInfoProperties`): what each kind of line
  does, last write wins, a malformed page key ends the parse, which keys a
  parsed document holds, and the accessors after a parse.
- `pdfinfo_sample.dfy` (module `PdfInfoSample`): the repository's parser
  test. Its nineteen lines parse to a fixed document, and the accessors
  report what the test expects.
- `pdftoppm.dfy` (module `PdfToPpm`): the options, the `Command` class with
  its `args` sequence, `NewCommand`, and the shape of the argument list.

## Model

| member | source | states |
|---|---|---|
| Decimal.Itoa | pdftoppm/opts.go:9 | For n >= 0 the rendering is a non-empty digit string with no leading zero: it starts with '0' exactly when n is 0, and 0 is rendered "0". For n < 0 it is a minus sign followed by digits with no leading zero. |
| Decimal.ItoaRoundTrip | pdftoppm/opts.go:9 | Reading the decimal rendering back gives the number, for every integer. |
| Decimal.ItoaInjective | pdfinfo.go:120 | Different page numbers are looked up under different keys. |
| Grammar.MatchLine | pdfinfo.go:154-157 | The line pattern fails to match exactly when the line has no colon or holds a newline. |
| Grammar.MatchLineSound | pdfinfo.go:132 | Every match splits the line as key, colon, blanks, value, with no colon in the key, no newline anywhere, and the blanks taken maximally. |
| Grammar.MatchLineComplete | pdfinfo.go:132 | Every split of that shape is the one the matcher returns. |
| Grammar.MatchLineIff | pdfinfo.go:132 | The pattern captures (key, value) if and only if the line is key, ":", a maximal run of spaces and tabs, then value, the key holds no colon and the line no newline. So the key ends at the first colon and trailing blanks stay in the value. |
| Grammar.MatchPageKey | pdfinfo.go:133 | A captured page number is a non-empty string of ASCII digits. A key holding a newline never matches. |
| Grammar.MatchPageKeySound | pdfinfo.go:133 | Every match splits the key as "Page", blanks, digits, one blank, attribute. |
| Grammar.MatchPageKeyComplete | pdfinfo.go:133 | Every split of that shape is the one the matcher returns. |
| Grammar.MatchPageKeyIff | pdfinfo.go:133 | The pattern captures (num, attr) if and only if the key is "Page", spaces or tabs, the digits num, one space or tab, then attr, with no newline in the key. |
| Grammar.MatchSize | pdfinfo.go:27 | The captured unit is always "pts". A value holding a newline never matches. |
| Grammar.MatchSizeSound | pdfinfo.go:27 | Every match splits the value as width, " x ", height, " pts", an optional space, then the note. |
| Grammar.MatchSizeLeftmostFirst | pdfinfo.go:27 | Whenever such a split exists the pattern matches. Its match is the one RE2 prefers: the longest width, then the longest height, then the optional space taken. A value holding a newline has no such split. |
| Grammar.MatchSizeExact | pdfinfo.go:27 | A value built from width, height, optional space and note is split into exactly those pieces, as long as the optional space followed by the note holds no " pts", the height with one space put before it holds no " x ", and a note starting with a space follows the optional space. |
| Grammar.MatchSizeNone | pdfinfo.go:27 | The size pattern fails exactly when no split of that shape exists, in particular whenever the value holds a newline. |
| PdfInfo.Size | pdfinfo.go:32-62 | Success needs a stored "size" and always has unit "pts". A page without "size" fails on the empty string. A size value the pattern rejects, such as one holding a newline, fails on that value. No default size is ever returned. |
| PdfInfo.Step | pdfinfo.go:153-174 | A line without a colon, or holding a newline, changes nothing and is no error. A successful line never removes a property or a page. A failing line is a key with the "Page " prefix that the page-key pattern rejects. |
| PdfInfo.SizeRaw | pdfinfo.go:64-66 | The stored "size" value, or "" when the page has none. |
| PdfInfo.RotRaw | pdfinfo.go:68-70 | The stored "rot" value, or "" when the page has none. |
| PdfInfo.RecordPageAttribute | pdfinfo.go:176-190 | Fails, with the invalid-page-key error naming the key, exactly when the page-key pattern rejects the key. Otherwise it adds the captured page number to the pages, sets the captured attribute to the value, adds no other attribute to that page, and keeps the properties, the other pages and the page's other attributes. |
| PdfInfo.Run | pdfinfo.go:143-148 | A run never removes a property or a page, and the error that stops it is always a "Page " key the page-key pattern rejects. What it stores is stated by `PropertyIsLastWrite`, `PageAttributeIsLastWrite` and `PagesAreThoseWritten`. |
| PdfInfo.ParseLines | pdfinfo.go:140-151 | A parse from an empty document fails only on a "Page " key the page-key pattern rejects. `ParsedDocumentIsWellFormed` and `ProducerIsLastProducerLine` state what a successful parse returns. |
| PdfInfo.RunStopsAtError | pdfinfo.go:143-147 | Once a line has failed, no later line is read and the outcome stays the same. |
| PdfInfo.RunFinished | pdfinfo.go:143-150 | A run that has read every line, or has failed, is the outcome of the whole input. |
| PdfInfo.PDFInfo.constructor | pdfinfo.go:96-101 | A new `PDFInfo` has no properties and no pages. |
| PdfInfo.PDFInfo.EditPage | pdfinfo.go:109-116 | The page's record becomes the edit of its old record, or of an empty one if the page was missing. Other pages and all properties are unchanged. |
| PdfInfo.PDFInfo.Producer | pdfinfo.go:103-105 | The "Producer" property, or "" when there is none. After a parse this is the last `Producer:` line, see `ProducerIsLastProducerLine`. |
| PdfInfo.PDFInfo.Page | pdfinfo.go:119-121 | Found exactly when a page is stored under the decimal rendering of n, and then it is that page's record. After a parse, see `PageIsLastWrites`. |
| PdfInfo.PDFInfoParser.constructor | pdfinfo.go:136-138 | The parser keeps its input and owns a fresh, empty `PDFInfo`. |
| PdfInfo.PDFInfoParser.Parse | pdfinfo.go:140-151 | The maps and the error end up as `Run` over the input gives them. The returned document is the parser's `PDFInfo` when there is no error and nil when there is one. |
| PdfInfo.PDFInfoParser.ParseLine | pdfinfo.go:153-174 | The line changes the maps as `Step` says. On an error it returns `Step`'s error and changes nothing. |
| PdfInfo.PDFInfoParser.ParsePageKey | pdfinfo.go:176-190 | A page key stores the value under its page and attribute. Any other key returns the invalid-page-key error naming the key and changes nothing. |
| PdfInfoProperties.StepOnPropertyLine | pdfinfo.go:162-170 | `key: value`, where the key has no "Page " prefix and neither part holds a newline, sets that property and keeps every other property and every page. |
| PdfInfoProperties.StepOnPageLine | pdfinfo.go:176-189 | A page line with no newline sets one attribute of one page and creates the page if it is new. The page's other attributes, the other pages and all properties are unchanged. |
| PdfInfoProperties.StepSkipsLineWithNewline | pdfinfo.go:154-157 | A line whose value holds a newline does not match the line pattern, so it is skipped without error. |
| PdfInfoProperties.StepRejectsMalformedPageKey | pdfinfo.go:177-179 | A key with the "Page " prefix that is no page key is the invalid-page-key error naming that key. |
| PdfInfoProperties.EmptyKeyIsAProperty | pdfinfo.go:132 | ":x" stores the property "" with the value "x". |
| PdfInfoProperties.TrailingBlanksKept | pdfinfo.go:132 | Blanks after the colon are dropped, but trailing blanks stay in the value. |
| PdfInfoProperties.TabAfterPageIsAProperty | pdfinfo.go:163 | "Page\t1 x" lacks the "Page " prefix, so it is stored as a plain property. |
| PdfInfoProperties.PageNumberKeptVerbatim | pdfinfo.go:182-187 | The page number "01" is stored as "01". |
| PdfInfoProperties.PageKeyWithoutNumberFails | pdfinfo.go:177-179 | "Page size: 1" is an invalid page key. |
| PdfInfoProperties.ParseStopsAtMalformedLine | pdfinfo.go:145-147 | A malformed page key after clean lines makes `Parse` fail with that error, whatever follows. |
| PdfInfoProperties.StepPreservesWellFormed | pdfinfo.go:162-170 | After every line, page keys are non-empty digit strings, every page has an attribute, and no property key has the "Page " prefix. |
| PdfInfoProperties.RunPreservesWellFormed | pdfinfo.go:143-148 | A run keeps that invariant. |
| PdfInfoProperties.ParsedDocumentIsWellFormed | pdfinfo.go:140-151 | Every document a successful `Parse` returns satisfies the invariant. |
| PdfInfoProperties.PropertyIsLastWrite | pdfinfo.go:169 | A property holds the value of the last line that wrote its key, or its earlier value if no line did. |
| PdfInfoProperties.PageAttributeIsLastWrite | pdfinfo.go:185-187 | A page attribute holds the value of the last page line that wrote it, or its earlier value if no line did. |
| PdfInfoProperties.PagesAreThoseWritten | pdfinfo.go:109-116 | After a run, the pages are the earlier ones plus those some page line wrote to. |
| PdfInfoProperties.ProducerIsLastProducerLine | pdfinfo.go:103-105 | After a parse, `Producer` is the value of the last `Producer:` line, or "" if there is none. |
| PdfInfoProperties.PageIsLastWrites | pdfinfo.go:119-121 | `Page(n)` is found if and only if some page line wrote to the decimal rendering of n, so never for negative n. Its `SizeRaw` and `RotRaw` are the last values written, or "". |
| PdfInfoProperties.SizeOfPrintedValue | pdfinfo.go:32-62 | A size value built from width, height, optional space and note, under the conditions of `MatchSizeExact` (the optional space followed by the note holds no " pts", the height with one space put before it holds no " x ", and a note starting with a space follows the optional space), yields width and height as the float reader reads them, the unit "pts" and that note. |
| PdfInfoProperties.SizeRejectsWidth | pdfinfo.go:46-49 | A printed size whose width the float reader rejects fails on that width text. |
| PdfInfoProperties.SizeRejectsHeight | pdfinfo.go:51-54 | A printed size whose width reads but whose height the float reader rejects fails on that height text. |
| PdfInfoProperties.SizeRejectsTrailingNewline | pdfinfo.go:34-36 | The stored size "1 x 2 pts\n" does not match the size pattern and fails on that value. |
| PdfInfoProperties.SizeNoteWithoutSpace | pdfinfo.go:27 | "1 x 2 ptsX" has the note "X". |
| PdfInfoSample.SampleLinesAreSampleOutput | pdfinfo_test.go:12-30 | The nineteen sample lines are the test's output of `pdfinfo`. |
| PdfInfoSample.SampleOutputParses | pdfinfo_test.go:32-35 | Any input that reads as the sample parses without error. The result has fifteen exact properties and two pages, each with size "595.32 x 841.92 pts (A4)" and rot "0". |
| PdfInfoSample.SampleParses | pdfinfo_test.go:32-40 | The sample lines parse to that document. |
| PdfInfoSample.SampleTestedProperties | pdfinfo_test.go:38-40 | Form is "AcroForm", Pages is "2" and File size is "230296 bytes". |
| PdfInfoSample.SampleProducer | pdfinfo_test.go:79 | The producer is "PDFKit.NET 23.1.101.39834 DMV9". |
| PdfInfoSample.SamplePageReads | pdfinfo_test.go:83-88 | There are two pages. Page 1 is found under "1", with raw size "595.32 x 841.92 pts (A4)" and raw rotation "0". |
| PdfInfoSample.SampleSize | pdfinfo_test.go:91-97 | Page 1's size is 595.32 by 841.92 with unit "pts" and note "(A4)", for any float reader that reads those two numbers. |
| PdfInfoSample.ParseSampleOutput | pdfinfo_test.go:32-88 | The parser object, run on the sample, returns a document and no error, and its accessors report the values the test checks. |
| PdfToPpm.Arguments | pdftoppm/opts.go:7-47 | Each option contributes its flag first ("-f", "-l", "-r", "-scale-to", "-jpeg", "-png", "-tiff"). The four numeric options then add the decimal rendering of their number. Nothing else is added. |
| PdfToPpm.Command.constructor | pdftoppm/convert.go:19-21 | A new command has no arguments. |
| PdfToPpm.Command.Apply | pdftoppm/opts.go:7-47 | Applying an option appends exactly that option's arguments and leaves earlier arguments as they were. No number is checked, and no flag is merged or rejected. |
| PdfToPpm.Command.NewCommand | pdftoppm/convert.go:18-31 | Always returns a new command and no error. Its arguments are the options' arguments in the order given, then the PDF path, then the image path prefix. |
| PdfToPpm.OptionArgumentsAppend | pdftoppm/convert.go:23-25 | Applying two option lists one after the other gives their arguments one after the other. |
| PdfToPpm.OptionArgumentsLength | pdftoppm/convert.go:23-25 | The options contribute exactly the sum of their arities (1 or 2 each). |
| PdfToPpm.CommandLineShape | pdftoppm/convert.go:23-28 | The argument count is the options' total arity plus 2. The last two arguments are the PDF path and then the image path prefix, and with no options they are all there is. |
| PdfToPpm.ReadOptionOfArguments | pdftoppm/opts.go:7-47 | One option's arguments, followed by anything, read back as that option. |
| PdfToPpm.ReadOptionsRoundTrip | pdftoppm/convert.go:23-25 | The options' arguments read back as exactly the option list, so no option is lost or reordered. |
| PdfToPpm.CommandLineInjective | pdftoppm/convert.go:18-31 | The argument list determines the options and both paths. |
| PdfToPpm.TestCommandLines | pdftoppm/convert_test.go:17-114 | The five commands the conversion test builds have the argument lists [pdf, prefix], ["-l", "1", …], ["-png", …], ["-scale-to", "100", …] and ["-r", "300", …]. |

## Left out

- `Command.Run` (pdftoppm/convert.go:36-47) is left out. It starts the external `pdftoppm` process and reads its exit status and stderr, which is I/O.
- The `bufio.Scanner` in `Parse` is left out. The input is a sequence of lines that hold no newline, as the scanner would produce them. Not modelled: the scanner dropping a trailing carriage return, and the scanner stopping silently on a line over its 64 KiB token limit. `Parse` does not check `scanner.Err()`, so in that case it returns the partial document with no error.
- PdfInfo.PDFInfoParser.Parse reads the whole input on every call, starting from the document as it stands. The model assumes `Parse` is called once: in the source a second call reads on from wherever the first call's scanner left the shared reader, which depends on the scanner's buffering and is not modelled.
- `strconv.ParseFloat` and `float64` are left out. Width and height are converted by a `parseFloat: string -> Option<Float>` parameter over an abstract `Float` type, and only the textual split is proved.
- The panics of `Size` are not modelled as panics. They become a `Failure` carrying `SizeMismatch(raw)` or `NotAFloat(text)`. Likewise the `fmt.Errorf` message of an invalid page key becomes the value `InvalidPageKey(key)`.
- PdfInfo.PDFInfo.EditPage takes the edit as a function from record to record. It does not model the closure writing through an alias of the inner page map, which has the same effect here.
- `Page(n)` returning a nil map is modelled as `None`.
- Go's 64-bit `int` is modelled as an unbounded integer. `Itoa` is proved for every integer, so this loses nothing.
- The JSON rendering checked in pdfinfo_test.go:42-76 is left out because it is a library serialiser. `SampleOutputParses` states the exact maps it renders.
- The assertions of pdftoppm/convert_test.go about files written to disk need the external tool. Only the argument lists that test builds are modelled.
