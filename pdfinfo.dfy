/// The pdfinfo output parser: a single pass over the lines of the tool's
/// output that fills a property map and a map of page records, stopping at
/// the first malformed page key, plus the typed accessors on top of the maps.
///
/// The pure functions `Step` and `Run` say what one line and a whole input do
/// to a `Document` (the two maps as a value); the classes `PDFInfo` and
/// `PDFInfoParser` update their maps in place and are proved to follow them.
module PdfInfo {
  import opened Common
  import opened Decimal
  import opened Grammar

  /** One page's raw attributes (`PDFInfoPage`), e.g. "size" and "rot". */
  type PageRecord = map<string, string>

  /** Go's read of a string map: the stored value, or "" for a missing key. */
  function Lookup(m: map<string, string>, k: string): string {
    if k in m then m[k] else ""
  }

  /** The entry stored under `k`, if any. */
  function Find<V>(m: map<string, V>, k: string): Option<V> {
    if k in m then Some(m[k]) else None
  }

  /** The record of page `num`, or an empty one if there is none yet. */
  function PageOrEmpty(pages: map<string, PageRecord>, num: string): PageRecord {
    if num in pages then pages[num] else map[]
  }

  // ---------------------------------------------------------------------
  // Accessors of a page record.
  // ---------------------------------------------------------------------

  /** The stored "size" value, or "" when the page has none. */
  function SizeRaw(page: PageRecord): (r: string)
    ensures "size" in page ==> r == page["size"]
    ensures "size" !in page ==> r == ""
  {
    Lookup(page, "size")
  }

  /** The stored "rot" value, or "" when the page has none. */
  function RotRaw(page: PageRecord): (r: string)
    ensures "rot" in page ==> r == page["rot"]
    ensures "rot" !in page ==> r == ""
  {
    Lookup(page, "rot")
  }

  /** A page's geometry; `Float` stands for Go's float64. */
  datatype PageSize<Float> = PageSize(width: Float, height: Float, unit: string, note: string)

  /** Why `Size` gives up; the source panics with these two messages. */
  datatype SizeError =
    | SizeMismatch(raw: string)   // "parsing page size %q failed"
    | NotAFloat(text: string)     // "parsing %q to float failed"

  /** The page's "size" value split by the size pattern, with width and height
      converted by `parseFloat` (standing for strconv.ParseFloat). */
  function Size<Float>(page: PageRecord, parseFloat: string -> Option<Float>): (r: Result<PageSize<Float>, SizeError>)
    ensures r.Success? ==> "size" in page && r.value.unit == "pts"
    ensures "size" !in page ==> r == Failure(SizeMismatch(""))
    ensures MatchSize(SizeRaw(page)).None? ==> r == Failure(SizeMismatch(SizeRaw(page)))
    ensures '\n' in SizeRaw(page) ==> r == Failure(SizeMismatch(SizeRaw(page)))
  {
    var raw := SizeRaw(page);
    match MatchSize(raw)
    case None => Failure(SizeMismatch(raw))
    case Some(t) =>
      match parseFloat(t.width)
      case None => Failure(NotAFloat(t.width))
      case Some(wf) =>
        match parseFloat(t.height)
        case None => Failure(NotAFloat(t.height))
        case Some(hf) => Success(PageSize(wf, hf, t.unit, t.note))
  }

  // ---------------------------------------------------------------------
  // What parsing does, as functions on a document value.
  // ---------------------------------------------------------------------

  /** The two maps of a `PDFInfo`, as a value. */
  datatype Document = Document(properties: map<string, string>, pages: map<string, PageRecord>)

  const Empty := Document(map[], map[])

  /** The structural error: a key that starts with "Page " but is not a page key. */
  datatype ParseError = InvalidPageKey(key: string)

  /** `parsePageKey`: split the key with the page-key pattern and record the
      value under that page and attribute, creating the page when needed. */
  function RecordPageAttribute(doc: Document, key: string, value: string): (r: Result<Document, ParseError>)
    ensures r.Failure? <==> MatchPageKey(key).None?
    ensures r.Failure? ==> r.error == InvalidPageKey(key)
    ensures r.Success? ==>
      var num, attr := MatchPageKey(key).value.0, MatchPageKey(key).value.1;
      && r.value.properties == doc.properties
      && r.value.pages.Keys == doc.pages.Keys + {num}
      && attr in r.value.pages[num] && r.value.pages[num][attr] == value
      && r.value.pages[num].Keys == PageOrEmpty(doc.pages, num).Keys + {attr}
      && (forall n | n in doc.pages && n != num :: r.value.pages[n] == doc.pages[n])
      && (forall a | a in PageOrEmpty(doc.pages, num) && a != attr :: a in r.value.pages[num] && r.value.pages[num][a] == doc.pages[num][a])
  {
    match MatchPageKey(key)
    case None => Failure(InvalidPageKey(key))
    case Some((num, attr)) =>
      Success(doc.(pages := doc.pages[num := PageOrEmpty(doc.pages, num)[attr := value]]))
  }

  /** `parseLine`: a line the line pattern rejects changes nothing; a key with
      the "Page " prefix goes to the page store; any other key is a property. */
  function Step(doc: Document, line: string): (r: Result<Document, ParseError>)
    ensures ':' !in line || '\n' in line ==> r == Success(doc)
    ensures r.Success? ==> doc.pages.Keys <= r.value.pages.Keys && doc.properties.Keys <= r.value.properties.Keys
    ensures r.Failure? ==> "Page " <= r.error.key && MatchPageKey(r.error.key).None?
  {
    match MatchLine(line)
    case None => Success(doc)
    case Some((key, value)) =>
      if "Page " <= key then RecordPageAttribute(doc, key, value)
      else Success(doc.(properties := doc.properties[key := value]))
  }

  /** Where a run over some lines ended: the document as it then stands, and
      the error that stopped it, if any. */
  datatype Outcome = Outcome(doc: Document, error: Option<ParseError>)

  /** `Parse`'s loop: apply `Step` to each line in turn, stopping at the first error. */
  function Run(doc: Document, lines: seq<string>): (r: Outcome)
    ensures doc.pages.Keys <= r.doc.pages.Keys && doc.properties.Keys <= r.doc.properties.Keys
    ensures r.error.Some? ==> "Page " <= r.error.value.key && MatchPageKey(r.error.value.key).None?
    decreases |lines|
  {
    if lines == [] then Outcome(doc, None)
    else
      var before := Run(doc, lines[..|lines| - 1]);
      if before.error.Some? then before
      else
        match Step(before.doc, lines[|lines| - 1])
        case Success(d) => Outcome(d, None)
        case Failure(e) => Outcome(before.doc, Some(e))
  }

  /** What `Parse` returns for a fresh parser: the document, or the error and no document. */
  function ParseLines(lines: seq<string>): (r: Result<Document, ParseError>)
    ensures r.Failure? ==> "Page " <= r.error.key && MatchPageKey(r.error.key).None?
  {
    var o := Run(Empty, lines);
    match o.error
    case None => Success(o.doc)
    case Some(e) => Failure(e)
  }

  /** Once a run has failed, further lines are not read. */
  lemma {:induction false} RunStopsAtError(doc: Document, lines: seq<string>, more: seq<string>)
    requires Run(doc, lines).error.Some?
    ensures Run(doc, lines + more) == Run(doc, lines)
    decreases |more|
  {
    if more == [] {
      assert lines + more == lines;
    } else {
      var init := more[..|more| - 1];
      RunStopsAtError(doc, lines, init);
      assert (lines + more)[..|lines + more| - 1] == lines + init;
    }
  }

  /** A run over one line more: the line is read only if the run so far has not failed. */
  lemma RunOneMore(doc: Document, lines: seq<string>, line: string)
    ensures Run(doc, lines + [line]) ==
      var before := Run(doc, lines);
      if before.error.Some? then before
      else match Step(before.doc, line)
        case Success(d) => Outcome(d, None)
        case Failure(e) => Outcome(before.doc, Some(e))
  {
    assert (lines + [line])[..|lines|] == lines;
  }

  /** The same, for a prefix of the input that has not failed: it ends where
      `Step` on the next line leaves it. */
  lemma RunOneLineMore(doc: Document, lines: seq<string>, i: nat, before: Document, after: Document, err: Option<ParseError>)
    requires i < |lines| && Run(doc, lines[..i]) == Outcome(before, None)
    requires Step(before, lines[i]) == if err.None? then Success(after) else Failure(err.value)
    requires err.Some? ==> after == before
    ensures Run(doc, lines[..i + 1]) == Outcome(after, err)
  {
    assert lines[..i + 1] == lines[..i] + [lines[i]];
    RunOneMore(doc, lines[..i], lines[i]);
  }

  /** A run that has read every line, or has failed, is the run over the whole input. */
  lemma RunFinished(doc: Document, lines: seq<string>, i: nat)
    requires i <= |lines| && (i == |lines| || Run(doc, lines[..i]).error.Some?)
    ensures Run(doc, lines) == Run(doc, lines[..i])
  {
    if i < |lines| {
      var done, rest := lines[..i], lines[i..];
      assert done + rest == lines;
      RunStopsAtError(doc, done, rest);
    } else {
      assert lines[..i] == lines;
    }
  }

  // ---------------------------------------------------------------------
  // The state the source mutates.
  // ---------------------------------------------------------------------

  /** `PDFInfo`: the property map and the page map, updated in place. */
  class PDFInfo {
    var properties: map<string, string>
    var pages: map<string, PageRecord>

    /** `NewPDFInfo`. */
    constructor ()
      ensures properties == map[] && pages == map[]
    {
      properties := map[];
      pages := map[];
    }

    ghost function Doc(): Document
      reads this
    {
      Document(properties, pages)
    }

    /** The "Producer" property, or "" when there is none. */
    function Producer(): (r: string)
      reads this
      ensures "Producer" in properties ==> r == properties["Producer"]
      ensures "Producer" !in properties ==> r == ""
    {
      Lookup(properties, "Producer")
    }

    /** The record stored under the decimal rendering of `page`; None stands for Go's nil map. */
    function Page(page: int): (r: Option<PageRecord>)
      reads this
      ensures r.Some? <==> Itoa(page) in pages
      ensures r.Some? ==> r.value == pages[Itoa(page)]
    {
      Find(pages, Itoa(page))
    }

    /** `editPage`: fetch the page's record, creating an empty one if it is
        missing, then store what `edit` makes of it. */
    method EditPage(page: string, edit: PageRecord -> PageRecord)
      modifies this
      ensures properties == old(properties)
      ensures pages == old(pages)[page := edit(PageOrEmpty(old(pages), page))]
    {
      var p: PageRecord := map[];
      if page in pages {
        p := pages[page];
      } else {
        pages := pages[page := p];
      }
      pages := pages[page := edit(p)];
    }
  }

  /** `PDFInfoParser`: the lines of the tool's output and the document it fills. */
  class PDFInfoParser {
    const input: seq<string>
    const info: PDFInfo

    /** `NewPDFInfoParser`. */
    constructor (input: seq<string>)
      ensures this.input == input && fresh(info) && info.Doc() == Empty
    {
      this.input := input;
      info := new PDFInfo();
    }

    /** `Parse`: feed every line to `ParseLine`; on the first error return it and no document. */
    method Parse() returns (result: PDFInfo?, err: Option<ParseError>)
      modifies info
      ensures Run(old(info.Doc()), input) == Outcome(info.Doc(), err)
      ensures result == if err.None? then info else null
    {
      ghost var start := info.Doc();
      var i := 0;
      err := None;
      while i < |input| && err.None?
        invariant 0 <= i <= |input|
        invariant Run(start, input[..i]) == Outcome(info.Doc(), err)
      {
        ghost var before := info.Doc();
        err := ParseLine(input[i]);
        RunOneLineMore(start, input, i, before, info.Doc(), err);
        i := i + 1;
      }
      RunFinished(start, input, i);
      if err.Some? {
        return null, err;
      }
      return info, None;
    }

    /** `parseLine`. */
    method ParseLine(line: string) returns (err: Option<ParseError>)
      modifies info
      ensures Step(old(info.Doc()), line) == if err.None? then Success(info.Doc()) else Failure(err.value)
      ensures err.Some? ==> info.Doc() == old(info.Doc())
    {
      var m := MatchLine(line);
      if m.None? {
        return None;
      }
      var key, value := m.value.0, m.value.1;
      if "Page " <= key {
        err := ParsePageKey(key, value);
        if err.Some? {
          return err;
        }
      } else {
        info.properties := info.properties[key := value];
      }
      return None;
    }

    /** `parsePageKey`. */
    method ParsePageKey(key: string, value: string) returns (err: Option<ParseError>)
      modifies info
      ensures RecordPageAttribute(old(info.Doc()), key, value).Success? ==>
                err.None? && info.Doc() == RecordPageAttribute(old(info.Doc()), key, value).value
      ensures RecordPageAttribute(old(info.Doc()), key, value).Failure? ==>
                err == Some(InvalidPageKey(key)) && info.Doc() == old(info.Doc())
    {
      var keyMatch := MatchPageKey(key);
      if keyMatch.None? {
        return Some(InvalidPageKey(key));
      }
      var pageNumber, pageKey := keyMatch.value.0, keyMatch.value.1;
      info.EditPage(pageNumber, page => page[pageKey := value]);
      return None;
    }
  }
}
