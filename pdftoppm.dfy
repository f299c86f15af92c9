/// The pdftoppm command builder: options that each append their flags to
/// the command's argument list, and `NewCommand`, which applies the options
/// in order and then appends the PDF path and the image path prefix.
module PdfToPpm {
  import opened Common
  import opened Decimal

  /** A conversion option. In the source each option is a closure that
      appends to the command's arguments; here it is the value it was built
      from, and `Command.Apply` does the appending. */
  datatype ConvertOption =
    | First(page: int)       // -f <page>
    | Last(page: int)        // -l <page>
    | Resolution(dpi: int)   // -r <dpi>
    | ScaleTo(scale: int)    // -scale-to <scale>
    | JPG                    // -jpeg
    | PNG                    // -png
    | TIFF                   // -tiff

  /** The flag an option contributes. */
  function Flag(opt: ConvertOption): string {
    match opt
    case First(_) => "-f"
    case Last(_) => "-l"
    case Resolution(_) => "-r"
    case ScaleTo(_) => "-scale-to"
    case JPG => "-jpeg"
    case PNG => "-png"
    case TIFF => "-tiff"
  }

  /** Whether the option's flag is followed by a number. */
  predicate TakesNumber(opt: ConvertOption) {
    opt.First? || opt.Last? || opt.Resolution? || opt.ScaleTo?
  }

  /** The number a numeric option carries. */
  function Number(opt: ConvertOption): int
    requires TakesNumber(opt)
  {
    match opt
    case First(n) => n
    case Last(n) => n
    case Resolution(n) => n
    case ScaleTo(n) => n
  }

  /** How many arguments an option contributes. */
  function Arity(opt: ConvertOption): nat {
    if TakesNumber(opt) then 2 else 1
  }

  /** The arguments one option appends: its flag, then the decimal rendering
      of its number for the numeric ones. */
  function Arguments(opt: ConvertOption): (r: seq<string>)
    ensures |r| == Arity(opt) && r[0] == Flag(opt)
    ensures TakesNumber(opt) ==> r[1] == Itoa(Number(opt))
  {
    if TakesNumber(opt) then [Flag(opt), Itoa(Number(opt))] else [Flag(opt)]
  }

  /** The arguments a list of options appends, option after option. */
  function OptionArguments(opts: seq<ConvertOption>): seq<string>
    decreases |opts|
  {
    if opts == [] then [] else Arguments(opts[0]) + OptionArguments(opts[1..])
  }

  /** The total number of arguments a list of options contributes. */
  function TotalArity(opts: seq<ConvertOption>): nat
    decreases |opts|
  {
    if opts == [] then 0 else Arity(opts[0]) + TotalArity(opts[1..])
  }

  /** The argument list `NewCommand` builds: the options' arguments, then
      the PDF path and the image path prefix. */
  function CommandLine(pdfPath: string, imagePathPrefix: string, opts: seq<ConvertOption>): seq<string> {
    OptionArguments(opts) + [pdfPath, imagePathPrefix]
  }

  // ---------------------------------------------------------------------
  // The command object.
  // ---------------------------------------------------------------------

  /** `Command`: the argument list handed to the pdftoppm executable. */
  class Command {
    var args: seq<string>

    constructor ()
      ensures args == []
    {
      args := [];
    }

    /** Applying an option: the closure returned by `First`, `Last`,
        `Resolution`, `ScaleTo`, `JPG`, `PNG` or `TIFF`. */
    method Apply(opt: ConvertOption)
      modifies this
      ensures args == old(args) + Arguments(opt)
    {
      match opt
      case First(page) => args := args + ["-f", Itoa(page)];
      case Last(page) => args := args + ["-l", Itoa(page)];
      case Resolution(dpi) => args := args + ["-r", Itoa(dpi)];
      case ScaleTo(scale) => args := args + ["-scale-to", Itoa(scale)];
      case JPG => args := args + ["-jpeg"];
      case PNG => args := args + ["-png"];
      case TIFF => args := args + ["-tiff"];
    }

    /** `NewCommand`: a fresh command, every option applied in order, then
        the two paths. It never fails; `err` is always None. */
    static method NewCommand(pdfPath: string, imagePathPrefix: string, opts: seq<ConvertOption>)
      returns (cmd: Command, err: Option<string>)
      ensures fresh(cmd) && err.None?
      ensures cmd.args == CommandLine(pdfPath, imagePathPrefix, opts)
    {
      cmd := new Command();
      for i := 0 to |opts|
        invariant cmd.args == OptionArguments(opts[..i])
      {
        cmd.Apply(opts[i]);
        OptionArgumentsAppend(opts[..i], [opts[i]]);
        assert opts[..i + 1] == opts[..i] + [opts[i]];
      }
      assert opts[..|opts|] == opts;
      cmd.args := cmd.args + [pdfPath];
      cmd.args := cmd.args + [imagePathPrefix];
      return cmd, None;
    }
  }

  // ---------------------------------------------------------------------
  // Properties of the argument list.
  // ---------------------------------------------------------------------

  /** Options only append: the arguments of two option lists one after the
      other are the first list's arguments followed by the second's, so
      order is kept and nothing is merged or dropped. */
  lemma {:induction false} OptionArgumentsAppend(a: seq<ConvertOption>, b: seq<ConvertOption>)
    ensures OptionArguments(a + b) == OptionArguments(a) + OptionArguments(b)
    decreases |a|
  {
    if a == [] {
      assert a + b == b;
    } else {
      assert (a + b)[1..] == a[1..] + b;
      OptionArgumentsAppend(a[1..], b);
    }
  }

  /** Each option contributes its own arity, so the argument list has the
      options' total arity plus the two paths. */
  lemma {:induction false} OptionArgumentsLength(opts: seq<ConvertOption>)
    ensures |OptionArguments(opts)| == TotalArity(opts)
    decreases |opts|
  {
    if opts != [] {
      OptionArgumentsLength(opts[1..]);
    }
  }

  /** The shape of the command line: options' arguments first, the PDF path
      and the image path prefix last, with nothing else. */
  lemma CommandLineShape(pdfPath: string, imagePathPrefix: string, opts: seq<ConvertOption>)
    ensures var line := CommandLine(pdfPath, imagePathPrefix, opts);
      && |line| == TotalArity(opts) + 2
      && line[|line| - 2] == pdfPath && line[|line| - 1] == imagePathPrefix
      && line[..|line| - 2] == OptionArguments(opts)
      && (opts == [] ==> line == [pdfPath, imagePathPrefix])
  {
    OptionArgumentsLength(opts);
  }

  /** Reading one option back from the front of an argument list: the
      option and the number of arguments it used. */
  function ReadOption(args: seq<string>): Option<(ConvertOption, nat)> {
    if args == [] then None
    else if args[0] == "-jpeg" then Some((JPG, 1))
    else if args[0] == "-png" then Some((PNG, 1))
    else if args[0] == "-tiff" then Some((TIFF, 1))
    else if |args| < 2 then None
    else
      match DecimalValue(args[1])
      case None => None
      case Some(n) =>
        if args[0] == "-f" then Some((First(n), 2))
        else if args[0] == "-l" then Some((Last(n), 2))
        else if args[0] == "-r" then Some((Resolution(n), 2))
        else if args[0] == "-scale-to" then Some((ScaleTo(n), 2))
        else None
  }

  /** Reading a whole argument list back as options. */
  function ReadOptions(args: seq<string>): Option<seq<ConvertOption>>
    decreases |args|
  {
    if args == [] then Some([])
    else
      match ReadOption(args)
      case None => None
      case Some((opt, used)) =>
        if used == 0 || used > |args| then None
        else
          match ReadOptions(args[used..])
          case None => None
          case Some(rest) => Some([opt] + rest)
  }

  /** One option's arguments, followed by anything, read back as that option. */
  lemma ReadOptionOfArguments(opt: ConvertOption, rest: seq<string>)
    ensures ReadOption(Arguments(opt) + rest) == Some((opt, Arity(opt)))
  {
    var args := Arguments(opt) + rest;
    assert args[0] == Flag(opt);
    if TakesNumber(opt) {
      assert args[1] == Itoa(Number(opt));
      ItoaRoundTrip(Number(opt));
    }
  }

  /** The arguments of any option list read back as exactly that list: no
      two option lists give the same arguments, so nothing is lost. */
  lemma {:induction false} ReadOptionsRoundTrip(opts: seq<ConvertOption>)
    ensures ReadOptions(OptionArguments(opts)) == Some(opts)
    decreases |opts|
  {
    if opts != [] {
      var args := OptionArguments(opts);
      ReadOptionOfArguments(opts[0], OptionArguments(opts[1..]));
      assert args[Arity(opts[0])..] == OptionArguments(opts[1..]);
      ReadOptionsRoundTrip(opts[1..]);
      assert [opts[0]] + opts[1..] == opts;
    }
  }

  /** The command line determines the options and both paths. */
  lemma CommandLineInjective(p1: string, i1: string, o1: seq<ConvertOption>,
                             p2: string, i2: string, o2: seq<ConvertOption>)
    requires CommandLine(p1, i1, o1) == CommandLine(p2, i2, o2)
    ensures p1 == p2 && i1 == i2 && o1 == o2
  {
    CommandLineShape(p1, i1, o1);
    CommandLineShape(p2, i2, o2);
    ReadOptionsRoundTrip(o1);
    ReadOptionsRoundTrip(o2);
  }

  /** The command lines the repository's conversion test builds. */
  lemma TestCommandLines(dir: string)
    ensures CommandLine("test.pdf", dir + "/img", []) == ["test.pdf", dir + "/img"]
    ensures CommandLine("test.pdf", dir + "/img", [Last(1)]) == ["-l", "1", "test.pdf", dir + "/img"]
    ensures CommandLine("test.pdf", dir + "/img", [PNG]) == ["-png", "test.pdf", dir + "/img"]
    ensures CommandLine("test.pdf", dir + "/img", [ScaleTo(100)]) == ["-scale-to", "100", "test.pdf", dir + "/img"]
    ensures CommandLine("test.pdf", dir + "/img", [Resolution(300)]) == ["-r", "300", "test.pdf", dir + "/img"]
  {
    assert NatToDecimal(10) == NatToDecimal(1) + "0";
    assert Itoa(100) == NatToDecimal(10) + "0";
    assert NatToDecimal(30) == NatToDecimal(3) + "0";
    assert Itoa(300) == NatToDecimal(30) + "0";
    assert Itoa(100) == "100" && Itoa(300) == "300";
  }
}
