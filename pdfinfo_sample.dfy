/// The sample run of the repository's parser test: the nineteen lines of
/// `pdfinfo` output it parses, the document they produce, and what the
/// accessors then report.
module PdfInfoSample {
  import opened Common
  import opened Decimal
  import opened Grammar
  import opened PdfInfo
  import opened PdfInfoProperties

  /** A line of `pdfinfo` output: the key, its colon, the padding that lines
      the values up in one column, and the value. */
  function Line(key: string, padding: string, value: string): string {
    key + ":" + padding + value
  }

  /** The key of a page attribute as `pdfinfo` prints it: "Page", four
      spaces, the page number, a space, the attribute name. */
  function PageKey(num: string, attr: string): string {
    "Page" + "    " + num + [' '] + attr
  }

  /** The output of `pdfinfo` the parser test feeds in, one string per line;
      the padding puts every value in the seventeenth column. */
  const SampleLines: seq<string> := [
    Line("Producer", "        ", "PDFKit.NET 23.1.101.39834 DMV9"),
    Line("CreationDate", "    ", "Wed Apr 19 12:58:37 2023 CEST"),
    Line("ModDate", "         ", "Wed Apr 19 12:58:37 2023 CEST"),
    Line("Custom Metadata", " ", "no"),
    Line("Metadata Stream", " ", "yes"),
    Line("Tagged", "          ", "no"),
    Line("UserProperties", "  ", "no"),
    Line("Suspects", "        ", "no"),
    Line("Form", "            ", "AcroForm"),
    Line("JavaScript", "      ", "no"),
    Line("Pages", "           ", "2"),
    Line("Encrypted", "       ", "no"),
    Line(PageKey("1", "size"), "  ", "595.32 x 841.92 pts (A4)"),
    Line(PageKey("1", "rot"), "   ", "0"),
    Line(PageKey("2", "size"), "  ", "595.32 x 841.92 pts (A4)"),
    Line(PageKey("2", "rot"), "   ", "0"),
    Line("File size", "       ", "230296 bytes"),
    Line("Optimized", "       ", "no"),
    Line("PDF version", "     ", "1.7")
  ]

  /** `lines` reads line for line as the sample output. */
  ghost predicate IsSampleOutput(lines: seq<string>) {
    && |lines| == 19
    && lines[0] == Line("Producer", "        ", "PDFKit.NET 23.1.101.39834 DMV9")
    && lines[1] == Line("CreationDate", "    ", "Wed Apr 19 12:58:37 2023 CEST")
    && lines[2] == Line("ModDate", "         ", "Wed Apr 19 12:58:37 2023 CEST")
    && lines[3] == Line("Custom Metadata", " ", "no")
    && lines[4] == Line("Metadata Stream", " ", "yes")
    && lines[5] == Line("Tagged", "          ", "no")
    && lines[6] == Line("UserProperties", "  ", "no")
    && lines[7] == Line("Suspects", "        ", "no")
    && lines[8] == Line("Form", "            ", "AcroForm")
    && lines[9] == Line("JavaScript", "      ", "no")
    && lines[10] == Line("Pages", "           ", "2")
    && lines[11] == Line("Encrypted", "       ", "no")
    && lines[12] == Line(PageKey("1", "size"), "  ", "595.32 x 841.92 pts (A4)")
    && lines[13] == Line(PageKey("1", "rot"), "   ", "0")
    && lines[14] == Line(PageKey("2", "size"), "  ", "595.32 x 841.92 pts (A4)")
    && lines[15] == Line(PageKey("2", "rot"), "   ", "0")
    && lines[16] == Line("File size", "       ", "230296 bytes")
    && lines[17] == Line("Optimized", "       ", "no")
    && lines[18] == Line("PDF version", "     ", "1.7")
  }

  /** The sample lines meet the predicate, so what is proved about any
      input that reads as the sample holds for them. */
  lemma SampleLinesAreSampleOutput()
    ensures IsSampleOutput(SampleLines)
  {
  }

  // SampleLine0 to SampleLine18: what each line of the sample does to the
  // document read so far, one lemma per line so that each proof looks at a
  // single step of the run. Unfolding several steps of `Run` over literal
  // lines in one proof costs the solver more than the resource limit allows,
  // so the chunk lemmas below chain these one-step facts instead.

  lemma SampleLine0(lines: seq<string>, before: Document) returns (after: Document)
    requires 0 < |lines| && lines[0] == Line("Producer", "        ", "PDFKit.NET 23.1.101.39834 DMV9")
    requires Run(Empty, lines[..0]) == Outcome(before, None)
    ensures after == Document(before.properties["Producer" := "PDFKit.NET 23.1.101.39834 DMV9"], before.pages)
    ensures Run(Empty, lines[..1]) == Outcome(after, None)
  {
    after := Document(before.properties["Producer" := "PDFKit.NET 23.1.101.39834 DMV9"], before.pages);
    assert "Producer"[1] != "Page "[1];
    StepOnPropertyLine(before, "Producer", "        ", "PDFKit.NET 23.1.101.39834 DMV9");
    RunOneLineMore(Empty, lines, 0, before, after, None);
  }

  lemma SampleLine1(lines: seq<string>, before: Document) returns (after: Document)
    requires 1 < |lines| && lines[1] == Line("CreationDate", "    ", "Wed Apr 19 12:58:37 2023 CEST")
    requires Run(Empty, lines[..1]) == Outcome(before, None)
    ensures after == Document(before.properties["CreationDate" := "Wed Apr 19 12:58:37 2023 CEST"], before.pages)
    ensures Run(Empty, lines[..2]) == Outcome(after, None)
  {
    after := Document(before.properties["CreationDate" := "Wed Apr 19 12:58:37 2023 CEST"], before.pages);
    assert "CreationDate"[0] != "Page "[0];
    StepOnPropertyLine(before, "CreationDate", "    ", "Wed Apr 19 12:58:37 2023 CEST");
    RunOneLineMore(Empty, lines, 1, before, after, None);
  }

  lemma SampleLine2(lines: seq<string>, before: Document) returns (after: Document)
    requires 2 < |lines| && lines[2] == Line("ModDate", "         ", "Wed Apr 19 12:58:37 2023 CEST")
    requires Run(Empty, lines[..2]) == Outcome(before, None)
    ensures after == Document(before.properties["ModDate" := "Wed Apr 19 12:58:37 2023 CEST"], before.pages)
    ensures Run(Empty, lines[..3]) == Outcome(after, None)
  {
    after := Document(before.properties["ModDate" := "Wed Apr 19 12:58:37 2023 CEST"], before.pages);
    assert "ModDate"[0] != "Page "[0];
    StepOnPropertyLine(before, "ModDate", "         ", "Wed Apr 19 12:58:37 2023 CEST");
    RunOneLineMore(Empty, lines, 2, before, after, None);
  }

  lemma SampleLine3(lines: seq<string>, before: Document) returns (after: Document)
    requires 3 < |lines| && lines[3] == Line("Custom Metadata", " ", "no")
    requires Run(Empty, lines[..3]) == Outcome(before, None)
    ensures after == Document(before.properties["Custom Metadata" := "no"], before.pages)
    ensures Run(Empty, lines[..4]) == Outcome(after, None)
  {
    after := Document(before.properties["Custom Metadata" := "no"], before.pages);
    assert "Custom Metadata"[0] != "Page "[0];
    StepOnPropertyLine(before, "Custom Metadata", " ", "no");
    RunOneLineMore(Empty, lines, 3, before, after, None);
  }

  lemma SampleLine4(lines: seq<string>, before: Document) returns (after: Document)
    requires 4 < |lines| && lines[4] == Line("Metadata Stream", " ", "yes")
    requires Run(Empty, lines[..4]) == Outcome(before, None)
    ensures after == Document(before.properties["Metadata Stream" := "yes"], before.pages)
    ensures Run(Empty, lines[..5]) == Outcome(after, None)
  {
    after := Document(before.properties["Metadata Stream" := "yes"], before.pages);
    assert "Metadata Stream"[0] != "Page "[0];
    StepOnPropertyLine(before, "Metadata Stream", " ", "yes");
    RunOneLineMore(Empty, lines, 4, before, after, None);
  }

  lemma SampleLine5(lines: seq<string>, before: Document) returns (after: Document)
    requires 5 < |lines| && lines[5] == Line("Tagged", "          ", "no")
    requires Run(Empty, lines[..5]) == Outcome(before, None)
    ensures after == Document(before.properties["Tagged" := "no"], before.pages)
    ensures Run(Empty, lines[..6]) == Outcome(after, None)
  {
    after := Document(before.properties["Tagged" := "no"], before.pages);
    assert "Tagged"[0] != "Page "[0];
    StepOnPropertyLine(before, "Tagged", "          ", "no");
    RunOneLineMore(Empty, lines, 5, before, after, None);
  }

  lemma SampleLine6(lines: seq<string>, before: Document) returns (after: Document)
    requires 6 < |lines| && lines[6] == Line("UserProperties", "  ", "no")
    requires Run(Empty, lines[..6]) == Outcome(before, None)
    ensures after == Document(before.properties["UserProperties" := "no"], before.pages)
    ensures Run(Empty, lines[..7]) == Outcome(after, None)
  {
    after := Document(before.properties["UserProperties" := "no"], before.pages);
    assert "UserProperties"[0] != "Page "[0];
    StepOnPropertyLine(before, "UserProperties", "  ", "no");
    RunOneLineMore(Empty, lines, 6, before, after, None);
  }

  lemma SampleLine7(lines: seq<string>, before: Document) returns (after: Document)
    requires 7 < |lines| && lines[7] == Line("Suspects", "        ", "no")
    requires Run(Empty, lines[..7]) == Outcome(before, None)
    ensures after == Document(before.properties["Suspects" := "no"], before.pages)
    ensures Run(Empty, lines[..8]) == Outcome(after, None)
  {
    after := Document(before.properties["Suspects" := "no"], before.pages);
    assert "Suspects"[0] != "Page "[0];
    StepOnPropertyLine(before, "Suspects", "        ", "no");
    RunOneLineMore(Empty, lines, 7, before, after, None);
  }

  lemma SampleLine8(lines: seq<string>, before: Document) returns (after: Document)
    requires 8 < |lines| && lines[8] == Line("Form", "            ", "AcroForm")
    requires Run(Empty, lines[..8]) == Outcome(before, None)
    ensures after == Document(before.properties["Form" := "AcroForm"], before.pages)
    ensures Run(Empty, lines[..9]) == Outcome(after, None)
  {
    after := Document(before.properties["Form" := "AcroForm"], before.pages);
    assert "Form"[0] != "Page "[0];
    StepOnPropertyLine(before, "Form", "            ", "AcroForm");
    RunOneLineMore(Empty, lines, 8, before, after, None);
  }

  lemma SampleLine9(lines: seq<string>, before: Document) returns (after: Document)
    requires 9 < |lines| && lines[9] == Line("JavaScript", "      ", "no")
    requires Run(Empty, lines[..9]) == Outcome(before, None)
    ensures after == Document(before.properties["JavaScript" := "no"], before.pages)
    ensures Run(Empty, lines[..10]) == Outcome(after, None)
  {
    after := Document(before.properties["JavaScript" := "no"], before.pages);
    assert "JavaScript"[0] != "Page "[0];
    StepOnPropertyLine(before, "JavaScript", "      ", "no");
    RunOneLineMore(Empty, lines, 9, before, after, None);
  }

  lemma SampleLine10(lines: seq<string>, before: Document) returns (after: Document)
    requires 10 < |lines| && lines[10] == Line("Pages", "           ", "2")
    requires Run(Empty, lines[..10]) == Outcome(before, None)
    ensures after == Document(before.properties["Pages" := "2"], before.pages)
    ensures Run(Empty, lines[..11]) == Outcome(after, None)
  {
    after := Document(before.properties["Pages" := "2"], before.pages);
    assert "Pages"[4] != "Page "[4];
    StepOnPropertyLine(before, "Pages", "           ", "2");
    RunOneLineMore(Empty, lines, 10, before, after, None);
  }

  lemma SampleLine11(lines: seq<string>, before: Document) returns (after: Document)
    requires 11 < |lines| && lines[11] == Line("Encrypted", "       ", "no")
    requires Run(Empty, lines[..11]) == Outcome(before, None)
    ensures after == Document(before.properties["Encrypted" := "no"], before.pages)
    ensures Run(Empty, lines[..12]) == Outcome(after, None)
  {
    after := Document(before.properties["Encrypted" := "no"], before.pages);
    assert "Encrypted"[0] != "Page "[0];
    StepOnPropertyLine(before, "Encrypted", "       ", "no");
    RunOneLineMore(Empty, lines, 11, before, after, None);
  }

  lemma SampleLine12(lines: seq<string>, before: Document) returns (after: Document)
    requires 12 < |lines| && lines[12] == Line(PageKey("1", "size"), "  ", "595.32 x 841.92 pts (A4)")
    requires Run(Empty, lines[..12]) == Outcome(before, None)
    ensures after == Document(before.properties, before.pages["1" := PageOrEmpty(before.pages, "1")["size" := "595.32 x 841.92 pts (A4)"]])
    ensures Run(Empty, lines[..13]) == Outcome(after, None)
  {
    after := Document(before.properties, before.pages["1" := PageOrEmpty(before.pages, "1")["size" := "595.32 x 841.92 pts (A4)"]]);
    StepOnPageLine(before, "    ", "1", ' ', "size", "  ", "595.32 x 841.92 pts (A4)");
    RunOneLineMore(Empty, lines, 12, before, after, None);
  }

  lemma SampleLine13(lines: seq<string>, before: Document) returns (after: Document)
    requires 13 < |lines| && lines[13] == Line(PageKey("1", "rot"), "   ", "0")
    requires Run(Empty, lines[..13]) == Outcome(before, None)
    ensures after == Document(before.properties, before.pages["1" := PageOrEmpty(before.pages, "1")["rot" := "0"]])
    ensures Run(Empty, lines[..14]) == Outcome(after, None)
  {
    after := Document(before.properties, before.pages["1" := PageOrEmpty(before.pages, "1")["rot" := "0"]]);
    StepOnPageLine(before, "    ", "1", ' ', "rot", "   ", "0");
    RunOneLineMore(Empty, lines, 13, before, after, None);
  }

  lemma SampleLine14(lines: seq<string>, before: Document) returns (after: Document)
    requires 14 < |lines| && lines[14] == Line(PageKey("2", "size"), "  ", "595.32 x 841.92 pts (A4)")
    requires Run(Empty, lines[..14]) == Outcome(before, None)
    ensures after == Document(before.properties, before.pages["2" := PageOrEmpty(before.pages, "2")["size" := "595.32 x 841.92 pts (A4)"]])
    ensures Run(Empty, lines[..15]) == Outcome(after, None)
  {
    after := Document(before.properties, before.pages["2" := PageOrEmpty(before.pages, "2")["size" := "595.32 x 841.92 pts (A4)"]]);
    StepOnPageLine(before, "    ", "2", ' ', "size", "  ", "595.32 x 841.92 pts (A4)");
    RunOneLineMore(Empty, lines, 14, before, after, None);
  }

  lemma SampleLine15(lines: seq<string>, before: Document) returns (after: Document)
    requires 15 < |lines| && lines[15] == Line(PageKey("2", "rot"), "   ", "0")
    requires Run(Empty, lines[..15]) == Outcome(before, None)
    ensures after == Document(before.properties, before.pages["2" := PageOrEmpty(before.pages, "2")["rot" := "0"]])
    ensures Run(Empty, lines[..16]) == Outcome(after, None)
  {
    after := Document(before.properties, before.pages["2" := PageOrEmpty(before.pages, "2")["rot" := "0"]]);
    StepOnPageLine(before, "    ", "2", ' ', "rot", "   ", "0");
    RunOneLineMore(Empty, lines, 15, before, after, None);
  }

  lemma SampleLine16(lines: seq<string>, before: Document) returns (after: Document)
    requires 16 < |lines| && lines[16] == Line("File size", "       ", "230296 bytes")
    requires Run(Empty, lines[..16]) == Outcome(before, None)
    ensures after == Document(before.properties["File size" := "230296 bytes"], before.pages)
    ensures Run(Empty, lines[..17]) == Outcome(after, None)
  {
    after := Document(before.properties["File size" := "230296 bytes"], before.pages);
    assert "File size"[0] != "Page "[0];
    StepOnPropertyLine(before, "File size", "       ", "230296 bytes");
    RunOneLineMore(Empty, lines, 16, before, after, None);
  }

  lemma SampleLine17(lines: seq<string>, before: Document) returns (after: Document)
    requires 17 < |lines| && lines[17] == Line("Optimized", "       ", "no")
    requires Run(Empty, lines[..17]) == Outcome(before, None)
    ensures after == Document(before.properties["Optimized" := "no"], before.pages)
    ensures Run(Empty, lines[..18]) == Outcome(after, None)
  {
    after := Document(before.properties["Optimized" := "no"], before.pages);
    assert "Optimized"[0] != "Page "[0];
    StepOnPropertyLine(before, "Optimized", "       ", "no");
    RunOneLineMore(Empty, lines, 17, before, after, None);
  }

  lemma SampleLine18(lines: seq<string>, before: Document) returns (after: Document)
    requires 18 < |lines| && lines[18] == Line("PDF version", "     ", "1.7")
    requires Run(Empty, lines[..18]) == Outcome(before, None)
    ensures after == Document(before.properties["PDF version" := "1.7"], before.pages)
    ensures Run(Empty, lines[..19]) == Outcome(after, None)
  {
    after := Document(before.properties["PDF version" := "1.7"], before.pages);
    assert "PDF version"[1] != "Page "[1];
    StepOnPropertyLine(before, "PDF version", "     ", "1.7");
    RunOneLineMore(Empty, lines, 18, before, after, None);
  }

  /** The properties the header lines of the sample set, in order. */
  const HeaderProperties: map<string, string> := map[
    "Producer" := "PDFKit.NET 23.1.101.39834 DMV9",
    "CreationDate" := "Wed Apr 19 12:58:37 2023 CEST",
    "ModDate" := "Wed Apr 19 12:58:37 2023 CEST",
    "Custom Metadata" := "no",
    "Metadata Stream" := "yes",
    "Tagged" := "no",
    "UserProperties" := "no",
    "Suspects" := "no",
    "Form" := "AcroForm",
    "JavaScript" := "no",
    "Pages" := "2",
    "Encrypted" := "no"
  ]

  /** The properties the sample output yields: the header ones, then those after the page lines. */
  const SampleProperties: map<string, string> :=
    HeaderProperties["File size" := "230296 bytes"]["Optimized" := "no"]["PDF version" := "1.7"]

  /** The page record both sample pages have. */
  const SamplePage: PageRecord := map["size" := "595.32 x 841.92 pts (A4)", "rot" := "0"]

  /** The pages the sample output yields. */
  const SamplePages: map<string, PageRecord> := map["1" := SamplePage, "2" := SamplePage]

  /** The twelve header lines fill the properties and create no page. */
  lemma SampleHeader(lines: seq<string>)
    requires |lines| == 19
    requires lines[0] == Line("Producer", "        ", "PDFKit.NET 23.1.101.39834 DMV9")
    requires lines[1] == Line("CreationDate", "    ", "Wed Apr 19 12:58:37 2023 CEST")
    requires lines[2] == Line("ModDate", "         ", "Wed Apr 19 12:58:37 2023 CEST")
    requires lines[3] == Line("Custom Metadata", " ", "no")
    requires lines[4] == Line("Metadata Stream", " ", "yes")
    requires lines[5] == Line("Tagged", "          ", "no")
    requires lines[6] == Line("UserProperties", "  ", "no")
    requires lines[7] == Line("Suspects", "        ", "no")
    requires lines[8] == Line("Form", "            ", "AcroForm")
    requires lines[9] == Line("JavaScript", "      ", "no")
    requires lines[10] == Line("Pages", "           ", "2")
    requires lines[11] == Line("Encrypted", "       ", "no")
    ensures Run(Empty, lines[..12]) == Outcome(Document(HeaderProperties, map[]), None)
  {
    var d := Empty;
    d := SampleLine0(lines, d);
    d := SampleLine1(lines, d);
    d := SampleLine2(lines, d);
    d := SampleLine3(lines, d);
    d := SampleLine4(lines, d);
    d := SampleLine5(lines, d);
    d := SampleLine6(lines, d);
    d := SampleLine7(lines, d);
    d := SampleLine8(lines, d);
    d := SampleLine9(lines, d);
    d := SampleLine10(lines, d);
    d := SampleLine11(lines, d);
  }

  /** The two lines of page 1 create its record with both attributes. */
  lemma SampleFirstPage(lines: seq<string>)
    requires |lines| == 19
    requires lines[12] == Line(PageKey("1", "size"), "  ", "595.32 x 841.92 pts (A4)")
    requires lines[13] == Line(PageKey("1", "rot"), "   ", "0")
    requires Run(Empty, lines[..12]) == Outcome(Document(HeaderProperties, map[]), None)
    ensures Run(Empty, lines[..14]) == Outcome(Document(HeaderProperties, map["1" := SamplePage]), None)
  {
    var d := SampleLine12(lines, Document(HeaderProperties, map[]));
    var sized: PageRecord := map["size" := "595.32 x 841.92 pts (A4)"];
    assert d.pages == map["1" := sized];
    d := SampleLine13(lines, d);
    assert d.pages == map["1" := sized]["1" := SamplePage];
  }

  /** The size line of page 2 creates its record beside page 1's. */
  lemma SampleSecondPageSize(lines: seq<string>)
    requires |lines| == 19
    requires lines[14] == Line(PageKey("2", "size"), "  ", "595.32 x 841.92 pts (A4)")
    requires Run(Empty, lines[..14]) == Outcome(Document(HeaderProperties, map["1" := SamplePage]), None)
    ensures Run(Empty, lines[..15]) ==
      Outcome(Document(HeaderProperties, map["1" := SamplePage, "2" := map["size" := "595.32 x 841.92 pts (A4)"]]), None)
  {
    var d := SampleLine14(lines, Document(HeaderProperties, map["1" := SamplePage]));
  }

  /** The rotation line of page 2 completes its record. */
  lemma SampleSecondPageRot(lines: seq<string>)
    requires |lines| == 19
    requires lines[15] == Line(PageKey("2", "rot"), "   ", "0")
    requires Run(Empty, lines[..15]) ==
      Outcome(Document(HeaderProperties, map["1" := SamplePage, "2" := map["size" := "595.32 x 841.92 pts (A4)"]]), None)
    ensures Run(Empty, lines[..16]) == Outcome(Document(HeaderProperties, SamplePages), None)
  {
    var sized: PageRecord := map["size" := "595.32 x 841.92 pts (A4)"];
    var d := SampleLine15(lines, Document(HeaderProperties, map["1" := SamplePage, "2" := sized]));
    assert d.pages == map["1" := SamplePage, "2" := sized]["2" := SamplePage];
  }

  /** Parsing any input that reads as the sample output succeeds and yields
      exactly the properties and pages of the test's JSON rendering. */
  lemma SampleOutputParses(lines: seq<string>)
    requires IsSampleOutput(lines)
    ensures ParseLines(lines) == Success(Document(SampleProperties, SamplePages))
  {
    SampleHeader(lines);
    SampleFirstPage(lines);
    SampleSecondPageSize(lines);
    SampleSecondPageRot(lines);
    var d := Document(HeaderProperties, SamplePages);
    d := SampleLine16(lines, d);
    d := SampleLine17(lines, d);
    d := SampleLine18(lines, d);
    assert lines[..19] == lines;
  }

  /** Parsing the sample output succeeds and yields exactly the properties
      and pages of the test's JSON rendering. */
  lemma SampleParses()
    ensures ParseLines(SampleLines) == Success(Document(SampleProperties, SamplePages))
  {
    SampleLinesAreSampleOutput();
    SampleOutputParses(SampleLines);
  }

  /** The size of a sample page, read with any float reader that reads its
      two numbers, is 595.32 by 841.92 points with the note "(A4)". */
  lemma SampleSize<Float>(parseFloat: string -> Option<Float>, width: Float, height: Float)
    requires parseFloat("595.32") == Some(width) && parseFloat("841.92") == Some(height)
    ensures Size(SamplePage, parseFloat) == Success(PageSize(width, height, "pts", "(A4)"))
  {
    AbsentPattern(" (A4)", " pts", 'p');
    AbsentPattern(" 841.92", " x ", 'x');
    SizeOfPrintedValue(SamplePage, parseFloat, "595.32", "841.92", " ", "(A4)", width, height);
  }

  /** The sample document's producer. */
  lemma SampleProducer()
    ensures Lookup(SampleProperties, "Producer") == "PDFKit.NET 23.1.101.39834 DMV9"
  {
    assert "Producer"[0] != "Suspects"[0];
  }

  /** The three properties the parser test checks. */
  lemma SampleTestedProperties()
    ensures Lookup(SampleProperties, "Form") == "AcroForm"
    ensures Lookup(SampleProperties, "Pages") == "2"
    ensures Lookup(SampleProperties, "File size") == "230296 bytes"
  {
  }

  /** The sample document has two pages, and page 1 is found under "1". */
  lemma SamplePageReads()
    ensures |SamplePages| == 2 && Itoa(1) == "1" && Find(SamplePages, "1") == Some(SamplePage)
    ensures SizeRaw(SamplePage) == "595.32 x 841.92 pts (A4)" && RotRaw(SamplePage) == "0"
  {
  }

  /** The parser test: parse output that reads as the sample with the parser
      object and read it back through the accessors. */
  method ParseSampleOutput(lines: seq<string>) returns (info: PDFInfo?, err: Option<ParseError>)
    requires IsSampleOutput(lines)
    ensures err.None? && info != null
    ensures |info.pages| == 2
    ensures Lookup(info.properties, "Form") == "AcroForm"
    ensures Lookup(info.properties, "Pages") == "2"
    ensures Lookup(info.properties, "File size") == "230296 bytes"
    ensures info.Doc() == Document(SampleProperties, SamplePages)
    ensures info.Producer() == "PDFKit.NET 23.1.101.39834 DMV9"
    ensures info.Page(1) == Some(SamplePage)
    ensures SizeRaw(SamplePage) == "595.32 x 841.92 pts (A4)" && RotRaw(SamplePage) == "0"
  {
    var parser := new PDFInfoParser(lines);
    info, err := parser.Parse();
    SampleOutputParses(lines);
    SampleProducer();
    SampleTestedProperties();
    SamplePageReads();
  }
}
