/**
  The command-line front end of the rename tool: the banner it draws, the
  parser that turns the argument vector into a request, and the dispatcher
  that picks exactly one action for that request.

  Everything here is a pure function of the argument vector. Printing, the
  rename itself (an `Asset` of the library crate handing the job to the
  operating system) and reading the process arguments are outside the model:
  the argument vector is a parameter and every action is a value.
 */
module Frontend {
  import opened Ascii

  datatype Option<T> = None | Some(value: T)

  datatype Result<T, E> = Success(value: T) | Failure(error: E)

  /** What the front end as written does: it returns a value or it panics. */
  datatype Outcome<T> = Returned(value: T) | Panicked

  // ---------------------------------------------------------------------
  // Banner
  // ---------------------------------------------------------------------

  /** The name framed by the banner. */
  const TOOL_NAME: string := "RENAME TOOL (Renamix)"

  /** Every banner line is indented by this many spaces. */
  const PADDING_WIDTH: nat := 4

  /**
    The five lines of the banner around `toolName`: a border of `#`, a blank
    framed line, the framed name with two spaces on each side, another blank
    framed line and the border again. After the indentation every line is
    `|toolName| + 8` characters wide.
   */
  function Banner(toolName: string): (lines: seq<string>)
    ensures |lines| == 5
    ensures forall k :: 0 <= k < 5 ==> |lines[k]| == PADDING_WIDTH + |toolName| + 8
    ensures forall k, j :: 0 <= k < 5 && 0 <= j < PADDING_WIDTH ==> lines[k][j] == ' '
    ensures forall k, j :: 0 <= k < 5 && j in {4, 5, 10 + |toolName|, 11 + |toolName|} ==> lines[k][j] == '#'
    ensures forall j :: PADDING_WIDTH <= j < |lines[0]| ==> lines[0][j] == '#' && lines[4][j] == '#'
    ensures forall j :: 6 <= j < 10 + |toolName| ==> lines[1][j] == ' ' && lines[3][j] == ' '
    ensures lines[2][6..8] == "  " && lines[2][8..8 + |toolName|] == toolName
    ensures lines[2][8 + |toolName|..10 + |toolName|] == "  "
  {
    var padding := Repeat(' ', PADDING_WIDTH);
    var border := padding + Repeat('#', |toolName| + 8);
    var blank := padding + Repeat('#', 2) + Repeat(' ', |toolName| + 4) + Repeat('#', 2);
    var title := padding + Repeat('#', 2) + "  " + toolName + "  " + Repeat('#', 2);
    [border, blank, title, blank, border]
  }

  /** The banner the tool shows is 33 characters wide, indentation included. */
  lemma ToolBannerWidth()
    ensures forall k :: 0 <= k < 5 ==> |Banner(TOOL_NAME)[k]| == 33
  {
  }

  // ---------------------------------------------------------------------
  // Request parser
  // ---------------------------------------------------------------------

  /**
    A parsed request: the flag and, for a rename, the current and the new
    path. The flag is always present once parsing succeeds.
   */
  datatype Request = Request(flag: string, currentPath: Option<string>, newPath: Option<string>)

  /** Malformed invocations. */
  datatype UsageError =
    | MissingFlag   // no argument after the program name
    | MissingPaths  // a rename flag without exactly a current and a new path

  /**
    Parses the argument vector (element 0 is the program name). Exactly four
    elements give a flag and both paths; otherwise only the flag is read. An
    argument vector without a flag is a usage error.
   */
  function ParseRequest(args: seq<string>): (r: Result<Request, UsageError>)
    ensures r.Failure? <==> |args| < 2
    ensures r.Failure? ==> r.error == MissingFlag
    ensures r.Success? ==> r.value.flag == args[1]
    ensures r.Success? ==> (r.value.currentPath.Some? <==> |args| == 4)
    ensures r.Success? ==> (r.value.newPath.Some? <==> |args| == 4)
    ensures r.Success? && |args| == 4 ==>
      r.value.currentPath.value == args[2] && r.value.newPath.value == args[3]
  {
    if |args| == 4 then
      Success(Request(args[1], Some(args[2]), Some(args[3])))
    else if |args| < 2 then
      Failure(MissingFlag)
    else
      Success(Request(args[1], None, None))
  }

  /**
    The argument vector that spells out a request, following the two forms of
    the usage menu: `rnmx -flag current renamed` and `rnmx -flag`.
   */
  function Invocation(program: string, req: Request): (args: seq<string>)
    requires req.currentPath.Some? <==> req.newPath.Some?
  {
    if req.currentPath.Some? then
      [program, req.flag, req.currentPath.value, req.newPath.value]
    else
      [program, req.flag]
  }

  /** Parsing recovers every request from its invocation. */
  lemma ParseInvocation(program: string, req: Request)
    requires req.currentPath.Some? <==> req.newPath.Some?
    ensures ParseRequest(Invocation(program, req)) == Success(req)
  {
  }

  /** Every argument vector of two or four elements is the invocation of what it parses to. */
  lemma InvocationOfParse(args: seq<string>)
    requires |args| == 2 || |args| == 4
    ensures ParseRequest(args).Success?
    ensures Invocation(args[0], ParseRequest(args).value) == args
  {
  }

  // ---------------------------------------------------------------------
  // Dispatcher
  // ---------------------------------------------------------------------

  /** The flags the tool knows, as spellings in any mix of ASCII case. */
  predicate IsHelpFlag(flag: string) {
    EqualIgnoringCase(flag, "-h") || EqualIgnoringCase(flag, "--help")
  }

  predicate IsInfoFlag(flag: string) {
    EqualIgnoringCase(flag, "-i") || EqualIgnoringCase(flag, "--info")
  }

  predicate IsPathFlag(flag: string) {
    EqualIgnoringCase(flag, "-p") || EqualIgnoringCase(flag, "--path")
  }

  predicate IsKnownFlag(flag: string) {
    IsHelpFlag(flag) || IsInfoFlag(flag) || IsPathFlag(flag)
  }

  /** The one action an invocation ends in. */
  datatype Action =
    | ShowHelp
    | ShowInfo
    | Rename(current: string, renamed: string)
    | UnknownFlag
    | UsageFailure(error: UsageError)

  /**
    Picks the action for a request by its lower-cased flag. A rename flag
    without both paths is a usage error instead of a crash.
   */
  function Dispatch(req: Request): (a: Action)
    ensures a == ShowHelp <==> IsHelpFlag(req.flag)
    ensures a == ShowInfo <==> IsInfoFlag(req.flag)
    ensures a.Rename? <==> IsPathFlag(req.flag) && req.currentPath.Some? && req.newPath.Some?
    ensures a.Rename? ==> a.current == req.currentPath.value && a.renamed == req.newPath.value
    ensures a.UsageFailure? <==> IsPathFlag(req.flag) && (req.currentPath.None? || req.newPath.None?)
    ensures a.UsageFailure? ==> a.error == MissingPaths
    ensures a == UnknownFlag <==> !IsKnownFlag(req.flag)
  {
    var flag := ToLower(req.flag);
    ToLowerMatchesIff(req.flag, "-h");
    ToLowerMatchesIff(req.flag, "--help");
    ToLowerMatchesIff(req.flag, "-i");
    ToLowerMatchesIff(req.flag, "--info");
    ToLowerMatchesIff(req.flag, "-p");
    ToLowerMatchesIff(req.flag, "--path");
    if flag == "-h" || flag == "--help" then
      ShowHelp
    else if flag == "-i" || flag == "--info" then
      ShowInfo
    else if flag == "-p" || flag == "--path" then
      if req.currentPath.Some? && req.newPath.Some? then
        Rename(req.currentPath.value, req.newPath.value)
      else
        UsageFailure(MissingPaths)
    else
      UnknownFlag
  }

  /**
    One invocation of the tool, from the argument vector to its action:
    parse, then dispatch.
   */
  function Setup(args: seq<string>): (a: Action)
    ensures a == UsageFailure(MissingFlag) <==> |args| < 2
    ensures a == UsageFailure(MissingPaths) <==> |args| >= 2 && |args| != 4 && IsPathFlag(args[1])
    ensures a == ShowHelp <==> |args| >= 2 && IsHelpFlag(args[1])
    ensures a == ShowInfo <==> |args| >= 2 && IsInfoFlag(args[1])
    ensures a == UnknownFlag <==> |args| >= 2 && !IsKnownFlag(args[1])
    ensures a.Rename? <==> |args| == 4 && IsPathFlag(args[1])
    ensures a.Rename? ==> a.current == args[2] && a.renamed == args[3]
  {
    match ParseRequest(args)
    case Failure(e) => UsageFailure(e)
    case Success(req) => Dispatch(req)
  }

  /**
    The flag is matched without regard to ASCII case: replacing it with any
    other spelling of the same letters leaves the action unchanged.
   */
  lemma SetupIgnoresFlagCase(args: seq<string>, flag: string)
    requires |args| >= 2 && EqualIgnoringCase(args[1], flag)
    ensures Setup(args[1 := flag]) == Setup(args)
  {
    ToLowerEqualIff(args[1], flag);
  }

  /** The program name in element 0 plays no part in the choice of action. */
  lemma SetupIgnoresProgramName(args: seq<string>, program: string)
    requires |args| >= 1
    ensures Setup(args[0 := program]) == Setup(args)
  {
  }

  /** `-P`, `--PATH` and `--Path` all select the rename. */
  lemma PathFlagSpellings(current: string, renamed: string)
    ensures Setup(["rnmx", "-P", current, renamed]) == Rename(current, renamed)
    ensures Setup(["rnmx", "--PATH", current, renamed]) == Rename(current, renamed)
    ensures Setup(["rnmx", "--Path", current, renamed]) == Rename(current, renamed)
  {
    var upper := ["rnmx", "-P", current, renamed];
    assert IsPathFlag(upper[1]);
    var longUpper := ["rnmx", "--PATH", current, renamed];
    assert IsPathFlag(longUpper[1]);
    var capitalised := ["rnmx", "--Path", current, renamed];
    assert IsPathFlag(capitalised[1]);
  }

  // ---------------------------------------------------------------------
  // Effects of an action
  // ---------------------------------------------------------------------

  /** What an action does, in order: console output or the one rename. */
  datatype Effect =
    | PrintMenu                          // the lines of Banner(TOOL_NAME), then the usage text
    | PrintAppInfo                       // author, licence, version and donation text
    | ReportUnknownFlag                  // "Error: Unknown flag." on the error channel
    | ReportUsageError(error: UsageError)
    | RenameAsset(current: string, renamed: string)

  /** Some effect renames an entry on disk. */
  predicate TouchesDisk(es: seq<Effect>) {
    exists k :: 0 <= k < |es| && es[k].RenameAsset?
  }

  /** Some effect reports a usage error. */
  predicate ReportsUsageError(es: seq<Effect>) {
    exists k :: 0 <= k < |es| && es[k].ReportUsageError?
  }

  /**
    The effects of an action. Only a rename touches the disk; help, an unknown
    flag and a usage error show the menu, the last two after an error report;
    nothing else reports an error, and no effect happens twice.
   */
  function Effects(a: Action): (es: seq<Effect>)
    ensures |es| > 0
    ensures TouchesDisk(es) <==> a.Rename?
    ensures forall k :: 0 <= k < |es| && es[k].RenameAsset? ==>
      a == Rename(es[k].current, es[k].renamed)
    ensures forall k :: 0 <= k < |es| && es[k].ReportUsageError? ==>
      a == UsageFailure(es[k].error)
    ensures PrintMenu in es <==> a == ShowHelp || a == UnknownFlag || a.UsageFailure?
    ensures PrintAppInfo in es <==> a == ShowInfo
    ensures ReportUnknownFlag in es <==> a == UnknownFlag
    ensures ReportsUsageError(es) <==> a.UsageFailure?
    ensures forall k, m :: 0 <= k < m < |es| ==> es[k] != es[m]
    ensures a == UnknownFlag || a.UsageFailure? ==>
      es[|es| - 1] == PrintMenu && (es[0] == ReportUnknownFlag <==> a == UnknownFlag)
    ensures a.UsageFailure? ==> es[0] == ReportUsageError(a.error)
  {
    match a
    case ShowHelp => [PrintMenu]
    case ShowInfo => [PrintAppInfo]
    case Rename(current, renamed) =>
      var es := [RenameAsset(current, renamed)];
      assert es[0].RenameAsset?;
      es
    case UnknownFlag => [ReportUnknownFlag, PrintMenu]
    case UsageFailure(e) =>
      var es := [ReportUsageError(e), PrintMenu];
      assert es[0].ReportUsageError?;
      es
  }

  /**
    Help and info requests never touch the disk, whatever follows the flag;
    only a rename flag with exactly two paths does, and it renames the first
    path to the second, verbatim.
   */
  lemma OnlyPathRequestsTouchDisk(args: seq<string>)
    ensures TouchesDisk(Effects(Setup(args))) <==> |args| == 4 && IsPathFlag(args[1])
    ensures |args| >= 2 && (IsHelpFlag(args[1]) || IsInfoFlag(args[1])) ==>
      !TouchesDisk(Effects(Setup(args)))
    ensures |args| == 4 && IsPathFlag(args[1]) ==>
      Effects(Setup(args)) == [RenameAsset(args[2], args[3])]
  {
  }

  /** The invocations the tool documents, and the one it rejects. */
  lemma Scenarios()
    ensures Setup(["rnmx", "-h"]) == ShowHelp
    ensures Setup(["rnmx", "--help"]) == ShowHelp
    ensures Setup(["rnmx", "-i"]) == ShowInfo
    ensures Setup(["rnmx", "--info"]) == ShowInfo
    ensures Setup(["rnmx", "-p", "hello.txt", "bye.txt"]) == Rename("hello.txt", "bye.txt")
    ensures Setup(["rnmx", "--path", "hello", "bye"]) == Rename("hello", "bye")
    ensures Effects(Setup(["rnmx", "-x"])) == [ReportUnknownFlag, PrintMenu]
  {
    var help, longHelp := ["rnmx", "-h"], ["rnmx", "--help"];
    assert IsHelpFlag(help[1]) && IsHelpFlag(longHelp[1]);
    var info, longInfo := ["rnmx", "-i"], ["rnmx", "--info"];
    assert IsInfoFlag(info[1]) && IsInfoFlag(longInfo[1]);
    var file := ["rnmx", "-p", "hello.txt", "bye.txt"];
    assert IsPathFlag(file[1]);
    var folder := ["rnmx", "--path", "hello", "bye"];
    assert IsPathFlag(folder[1]);
    var unknown := ["rnmx", "-x"];
    assert !IsKnownFlag(unknown[1]) by {
      assert !SameIgnoringCase('x', 'h') && !SameIgnoringCase('x', 'i') && !SameIgnoringCase('x', 'p');
      assert unknown[1][1] == 'x';
    }
  }

  // ---------------------------------------------------------------------
  // The front end as written, with its panics
  // ---------------------------------------------------------------------

  /**
    The dispatch as the source writes it: the rename branch unwraps both
    paths and panics when either is absent.
   */
  function DispatchAsWritten(req: Request): (o: Outcome<Action>)
    ensures o.Panicked? <==> Dispatch(req).UsageFailure?
    ensures o.Returned? ==> o.value == Dispatch(req)
  {
    var flag := ToLower(req.flag);
    if flag == "-h" || flag == "--help" then
      Returned(ShowHelp)
    else if flag == "-i" || flag == "--info" then
      Returned(ShowInfo)
    else if flag == "-p" || flag == "--path" then
      if req.currentPath.None? then
        Panicked
      else if req.newPath.None? then
        Panicked
      else
        Returned(Rename(req.currentPath.value, req.newPath.value))
    else
      Returned(UnknownFlag)
  }

  /**
    The whole front end as the source writes it: reading the flag of an
    argument vector that has none panics, and so does a rename request
    without exactly two paths. Wherever it does not panic it agrees with
    `Setup`, and it panics exactly where `Setup` reports a usage error.
   */
  function SetupAsWritten(args: seq<string>): (o: Outcome<Action>)
    ensures o.Panicked? <==> Setup(args).UsageFailure?
    ensures o.Returned? ==> o.value == Setup(args)
  {
    if |args| == 4 then
      DispatchAsWritten(Request(args[1], Some(args[2]), Some(args[3])))
    else if |args| < 2 then
      Panicked
    else
      DispatchAsWritten(Request(args[1], None, None))
  }

  /** An invocation with no flag at all panics as written and is a usage error here. */
  lemma MissingFlagPanics()
    ensures SetupAsWritten(["rnmx"]) == Panicked
    ensures Setup(["rnmx"]) == UsageFailure(MissingFlag)
  {
  }

  /** A rename with one path, or with one path too many, panics as written. */
  lemma PathWithoutBothPathsPanics()
    ensures SetupAsWritten(["rnmx", "-p", "hello.txt"]) == Panicked
    ensures SetupAsWritten(["rnmx", "-p", "a", "b", "c"]) == Panicked
    ensures Setup(["rnmx", "-p", "hello.txt"]) == UsageFailure(MissingPaths)
  {
  }
}
