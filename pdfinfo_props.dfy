/// What the pdfinfo parser promises, proved about the functions of module
/// PdfInfo: how each kind of line changes the document, that the last write
/// to a key wins, that a malformed page key ends the parse, which keys the
/// two maps can hold, and the accessors' results after a parse.
module PdfInfoProperties {
  import opened Common
  import opened Decimal
  import opened Grammar
  import opened PdfInfo

  // ---------------------------------------------------------------------
  // One line.
  // ---------------------------------------------------------------------

  /** `key: value` with a key not starting with "Page " sets that property,
      keeping every other property and every page. */
  lemma StepOnPropertyLine(doc: Document, key: string, ws: string, value: string)
    requires ':' !in key && AllBlank(ws) && (value == [] || !IsBlank(value[0]))
    requires '\n' !in key && '\n' !in value
    requires !("Page " <= key)
    ensures Step(doc, key + ":" + ws + value) == Success(Document(doc.properties[key := value], doc.pages))
  {
    MatchLineComplete(key + ":" + ws + value, key, ws, value);
  }

  /** `Page <ws><num><sep><attr>: value` sets attribute `attr` of page `num`,
      creating the page if it is new, and keeps the page's other attributes,
      the other pages and every property. */
  lemma StepOnPageLine(doc: Document, ws: string, num: string, sep: char, attr: string, ws2: string, value: string)
    requires ws != [] && ws[0] == ' ' && AllBlank(ws)
    requires num != [] && AllDigits(num) && IsBlank(sep) && ':' !in attr
    requires AllBlank(ws2) && (value == [] || !IsBlank(value[0]))
    requires '\n' !in attr && '\n' !in value
    ensures var key := "Page" + ws + num + [sep] + attr;
      Step(doc, key + ":" + ws2 + value)
      == Success(Document(doc.properties, doc.pages[num := PageOrEmpty(doc.pages, num)[attr := value]]))
  {
    var key := "Page" + ws + num + [sep] + attr;
    assert key[..5] == "Page ";
    forall i | 0 <= i < |key|
      ensures key[i] != ':' && key[i] != '\n'
    {
      if i < 4 {
        assert key[i] == "Page"[i];
      } else if i < 4 + |ws| {
        assert key[i] == ws[i - 4];
      } else if i < 4 + |ws| + |num| {
        assert key[i] == num[i - 4 - |ws|];
      } else if i == 4 + |ws| + |num| {
        assert key[i] == sep;
      } else {
        assert key[i] == attr[i - 5 - |ws| - |num|];
      }
    }
    MatchLineComplete(key + ":" + ws2 + value, key, ws2, value);
    MatchPageKeyComplete(key, ws, num, sep, attr);
  }

  /** A line holding a newline never matches the line pattern, so it is
      skipped like a line without a colon. */
  lemma StepSkipsLineWithNewline(doc: Document, key: string, value: string)
    requires '\n' in value
    ensures Step(doc, key + ": " + value) == Success(doc)
  {
    var line := key + ": " + value;
    var j :| 0 <= j < |value| && value[j] == '\n';
    assert line[|key| + 2 + j] == '\n';
  }

  /** A line whose key has the "Page " prefix but is no page key is a
      structural error naming that key. */
  lemma StepRejectsMalformedPageKey(doc: Document, line: string, key: string, ws: string, value: string)
    requires LineShape(line, key, ws, value) && "Page " <= key
    requires forall pws, num, sep, attr :: !PageKeyShape(key, pws, num, sep, attr)
    ensures Step(doc, line) == Failure(InvalidPageKey(key))
  {
    MatchLineComplete(line, key, ws, value);
    if MatchPageKey(key).Some? {
      MatchPageKeySound(key);
    }
  }

  /** The key may be empty: ":x" stores the property "" with value "x". */
  lemma EmptyKeyIsAProperty(doc: Document)
    ensures Step(doc, "" + ":" + "" + "x") == Success(Document(doc.properties["" := "x"], doc.pages))
  {
    StepOnPropertyLine(doc, "", "", "x");
  }

  /** Only leading blanks are dropped from the value; trailing ones stay. */
  lemma TrailingBlanksKept(doc: Document)
    ensures Step(doc, "Tagged" + ":" + " \t" + "no \t") == Success(Document(doc.properties["Tagged" := "no \t"], doc.pages))
  {
    assert "Tagged"[0] != "Page "[0];
    StepOnPropertyLine(doc, "Tagged", " \t", "no \t");
  }

  /** "Page" followed by a tab lacks the "Page " prefix, so the key is a plain property. */
  lemma TabAfterPageIsAProperty(doc: Document)
    ensures Step(doc, "Page\t1 x" + ":" + " " + "v") == Success(Document(doc.properties["Page\t1 x" := "v"], doc.pages))
  {
    assert "Page\t1 x"[4] != "Page "[4];
    StepOnPropertyLine(doc, "Page\t1 x", " ", "v");
  }

  /** The page number is stored as written, leading zeros included. */
  lemma PageNumberKeptVerbatim(doc: Document)
    ensures Step(doc, "Page" + " " + "01" + " " + "rot" + ":" + " " + "90")
            == Success(Document(doc.properties, doc.pages["01" := PageOrEmpty(doc.pages, "01")["rot" := "90"]]))
  {
    StepOnPageLine(doc, " ", "01", ' ', "rot", " ", "90");
  }

  /** A page key with no number is a structural error. */
  lemma PageKeyWithoutNumberFails(doc: Document)
    ensures Step(doc, "Page size" + ":" + " " + "1") == Failure(InvalidPageKey("Page size"))
  {
    var line := "Page size" + ":" + " " + "1";
    assert MatchLine(line) == Some(("Page size", "1")) by {
      assert forall i | 0 <= i < |line| :: line[i] != '\n';
      MatchLineComplete(line, "Page size", " ", "1");
    }
    assert MatchPageKey("Page size") == None by {
      var rest := "Page size"[4..];
      assert rest[0] == ' ' && rest[1] == 's';
      assert BlankRun(rest) == 1;
      assert DigitRun(rest[1..]) == 0;
    }
    assert "Page size"[..5] == "Page ";
  }

  // ---------------------------------------------------------------------
  // A whole input.
  // ---------------------------------------------------------------------

  /** A malformed page key after lines that parsed cleanly makes the parse
      fail with that error, whatever follows: no document is returned and
      later lines are not read. */
  lemma ParseStopsAtMalformedLine(before: seq<string>, bad: string, after: seq<string>)
    requires Run(Empty, before).error.None?
    requires Step(Run(Empty, before).doc, bad).Failure?
    ensures ParseLines(before + [bad] + after) == Failure(Step(Run(Empty, before).doc, bad).error)
  {
    RunOneMore(Empty, before, bad);
    RunStopsAtError(Empty, before + [bad], after);
  }

  /** What every document the parser builds satisfies: page keys are
      non-empty digit strings, every page has an attribute, and no property
      key carries the "Page " prefix. */
  ghost predicate WellFormed(doc: Document) {
    && (forall num | num in doc.pages :: num != [] && AllDigits(num) && doc.pages[num] != map[])
    && (forall key | key in doc.properties :: !("Page " <= key))
  }

  lemma StepPreservesWellFormed(doc: Document, line: string)
    requires WellFormed(doc) && Step(doc, line).Success?
    ensures WellFormed(Step(doc, line).value)
  {
    match MatchLine(line)
    case None =>
    case Some((key, value)) =>
      var next := Step(doc, line).value;
      if "Page " <= key {
        var num := MatchPageKey(key).value.0;
        assert next == RecordPageAttribute(doc, key, value).value;
        forall n | n in next.pages
          ensures n != [] && AllDigits(n) && next.pages[n] != map[]
        {
          if n != num {
            assert n in doc.pages;
          }
        }
      } else {
        assert next.properties == doc.properties[key := value];
      }
  }

  lemma {:induction false} RunPreservesWellFormed(doc: Document, lines: seq<string>)
    requires WellFormed(doc)
    ensures WellFormed(Run(doc, lines).doc)
    decreases |lines|
  {
    if lines != [] {
      var init := lines[..|lines| - 1];
      RunPreservesWellFormed(doc, init);
      var before := Run(doc, init);
      if before.error.None? && Step(before.doc, lines[|lines| - 1]).Success? {
        StepPreservesWellFormed(before.doc, lines[|lines| - 1]);
      }
    }
  }

  /** A successful parse yields a well-formed document. */
  lemma ParsedDocumentIsWellFormed(lines: seq<string>)
    requires ParseLines(lines).Success?
    ensures WellFormed(ParseLines(lines).value)
  {
    RunPreservesWellFormed(Empty, lines);
  }

  // ---------------------------------------------------------------------
  // Last write wins.
  // ---------------------------------------------------------------------

  /** The value of the last line in `lines` whose key is `key`. */
  function LastPropertyValue(lines: seq<string>, key: string): Option<string>
    decreases |lines|
  {
    if lines == [] then None
    else
      match MatchLine(lines[|lines| - 1])
      case Some((k, v)) =>
        if k == key then Some(v) else LastPropertyValue(lines[..|lines| - 1], key)
      case None => LastPropertyValue(lines[..|lines| - 1], key)
  }

  /** The page number, attribute and value a page line writes, if it is one. */
  function PageWrite(line: string): Option<(string, string, string)> {
    match MatchLine(line)
    case Some((k, v)) =>
      if "Page " <= k then
        match MatchPageKey(k)
        case Some((num, attr)) => Some((num, attr, v))
        case None => None
      else None
    case None => None
  }

  /** The value of the last page line in `lines` that writes attribute `attr` of page `num`. */
  function LastPageValue(lines: seq<string>, num: string, attr: string): Option<string>
    decreases |lines|
  {
    if lines == [] then None
    else
      match PageWrite(lines[|lines| - 1])
      case Some((n, a, v)) =>
        if n == num && a == attr then Some(v) else LastPageValue(lines[..|lines| - 1], num, attr)
      case None => LastPageValue(lines[..|lines| - 1], num, attr)
  }

  /** The page numbers the page lines of `lines` write to. */
  function PagesWritten(lines: seq<string>): set<string>
    decreases |lines|
  {
    if lines == [] then {}
    else
      PagesWritten(lines[..|lines| - 1]) +
      match PageWrite(lines[|lines| - 1])
      case Some((n, _, _)) => {n}
      case None => {}
  }

  /** After a run without error, a property (any key without the "Page "
      prefix) holds the value of the last line that wrote it, or what it held
      before if no line did. */
  lemma {:induction false} PropertyIsLastWrite(doc: Document, lines: seq<string>, key: string)
    requires Run(doc, lines).error.None?
    requires !("Page " <= key)
    ensures Find(Run(doc, lines).doc.properties, key) == LastPropertyValue(lines, key).Or(Find(doc.properties, key))
    decreases |lines|
  {
    if lines != [] {
      var init := lines[..|lines| - 1];
      PropertyIsLastWrite(doc, init, key);
    }
  }

  /** After a run without error, a page attribute holds the value of the
      last page line that wrote it, or what it held before if no line did. */
  lemma {:induction false} PageAttributeIsLastWrite(doc: Document, lines: seq<string>, num: string, attr: string)
    requires Run(doc, lines).error.None?
    ensures Find(PageOrEmpty(Run(doc, lines).doc.pages, num), attr)
            == LastPageValue(lines, num, attr).Or(Find(PageOrEmpty(doc.pages, num), attr))
    decreases |lines|
  {
    if lines != [] {
      var init := lines[..|lines| - 1];
      PageAttributeIsLastWrite(doc, init, num, attr);
    }
  }

  /** After a run without error, the pages are those there were before plus
      those some page line wrote to. */
  lemma {:induction false} PagesAreThoseWritten(doc: Document, lines: seq<string>)
    requires Run(doc, lines).error.None?
    ensures Run(doc, lines).doc.pages.Keys == doc.pages.Keys + PagesWritten(lines)
    decreases |lines|
  {
    if lines != [] {
      var init := lines[..|lines| - 1];
      PagesAreThoseWritten(doc, init);
    }
  }

  // ---------------------------------------------------------------------
  // The accessors after a parse.
  // ---------------------------------------------------------------------

  /** `Producer` gives the value of the last `Producer:` line, or "" if none. */
  lemma ProducerIsLastProducerLine(info: PDFInfo, lines: seq<string>)
    requires ParseLines(lines) == Success(info.Doc())
    ensures info.Producer() == LastPropertyValue(lines, "Producer").GetOr("")
  {
    assert "Producer"[1] != "Page "[1];
    PropertyIsLastWrite(Empty, lines, "Producer");
  }

  /** `Page(n)` finds a page exactly when some page line wrote to the decimal
      rendering of n (so never for negative n), and its raw size and rotation
      are the values of the last lines that wrote them. */
  lemma PageIsLastWrites(info: PDFInfo, lines: seq<string>, n: int)
    requires ParseLines(lines) == Success(info.Doc())
    ensures info.Page(n).Some? <==> Itoa(n) in PagesWritten(lines)
    ensures n < 0 ==> info.Page(n).None?
    ensures info.Page(n).Some? ==>
      && SizeRaw(info.Page(n).value) == LastPageValue(lines, Itoa(n), "size").GetOr("")
      && RotRaw(info.Page(n).value) == LastPageValue(lines, Itoa(n), "rot").GetOr("")
  {
    PagesAreThoseWritten(Empty, lines);
    ParsedDocumentIsWellFormed(lines);
    PageAttributeIsLastWrite(Empty, lines, Itoa(n), "size");
    PageAttributeIsLastWrite(Empty, lines, Itoa(n), "rot");
  }

  /** A size value printed as width, ` x `, height, ` pts`, then optionally a
      space and a note, yields those pieces, the unit "pts", and the width and
      height as `parseFloat` reads them, provided the note holds no ` pts` and
      the height no ` x `. */
  lemma SizeOfPrintedValue<Float>(page: PageRecord, parseFloat: string -> Option<Float>,
                                  w: string, h: string, sp: string, note: string, wf: Float, hf: Float)
    requires "size" in page && SizeShape(page["size"], w, h, sp, note)
    requires forall k :: !OccursAt(sp + note, " pts", k)
    requires forall k :: !OccursAt(" " + h, " x ", k)
    requires sp == " " || note == [] || note[0] != ' '
    requires parseFloat(w) == Some(wf) && parseFloat(h) == Some(hf)
    ensures Size(page, parseFloat) == Success(PageSize(wf, hf, "pts", note))
  {
    MatchSizeExact(page["size"], w, h, sp, note);
  }

  /** A printed size whose width the float reader rejects fails on the width. */
  lemma SizeRejectsWidth<Float>(page: PageRecord, parseFloat: string -> Option<Float>,
                                w: string, h: string, sp: string, note: string)
    requires "size" in page && SizeShape(page["size"], w, h, sp, note)
    requires forall k :: !OccursAt(sp + note, " pts", k)
    requires forall k :: !OccursAt(" " + h, " x ", k)
    requires sp == " " || note == [] || note[0] != ' '
    requires parseFloat(w) == None
    ensures Size(page, parseFloat) == Failure(NotAFloat(w))
  {
    MatchSizeExact(page["size"], w, h, sp, note);
  }

  /** A printed size whose width reads as a float but whose height does not
      fails on the height. */
  lemma SizeRejectsHeight<Float>(page: PageRecord, parseFloat: string -> Option<Float>,
                                 w: string, h: string, sp: string, note: string)
    requires "size" in page && SizeShape(page["size"], w, h, sp, note)
    requires forall k :: !OccursAt(sp + note, " pts", k)
    requires forall k :: !OccursAt(" " + h, " x ", k)
    requires sp == " " || note == [] || note[0] != ' '
    requires parseFloat(w).Some? && parseFloat(h) == None
    ensures Size(page, parseFloat) == Failure(NotAFloat(h))
  {
    MatchSizeExact(page["size"], w, h, sp, note);
  }

  /** A size value ending in a newline is rejected: "1 x 2 pts\n" does not match. */
  lemma SizeRejectsTrailingNewline<Float>(page: PageRecord, parseFloat: string -> Option<Float>)
    requires "size" in page && page["size"] == "1 x 2 pts\n"
    ensures Size(page, parseFloat) == Failure(SizeMismatch("1 x 2 pts\n"))
  {
    assert SizeRaw(page) == "1 x 2 pts\n";
    assert "1 x 2 pts\n"[9] == '\n';
  }

  /** Without a space after "pts" the note starts right away: "1 x 2 ptsX" has the note "X". */
  lemma SizeNoteWithoutSpace()
    ensures MatchSize("1" + " x " + "2" + " pts" + "" + "X") == Some(SizeText("1", "2", "pts", "X"))
  {
    MatchSizeExact("1" + " x " + "2" + " pts" + "" + "X", "1", "2", "", "X");
  }
}
