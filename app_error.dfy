/** The app's own error type, where it was raised, and how it describes itself. */
module AppErrors {
  import opened Wrappers
  import Numerics
  import Text

  /** What `"\(self)"` renders for the type `AppError`. */
  const AppErrorTypeName: string := "AppError"

  /**
   * `typeIdentifier` for a type rendered as `typeName`: the last
   * dot-separated component, or the whole name when it has none.
   */
  function TypeIdentifier(typeName: string): (r: string)
    ensures var last := Text.LastRun(typeName, '.');
            r == if last == [] then typeName else last
  {
    var parts := Text.Split(typeName, '.');
    Text.SplitLast(typeName, '.');
    if parts == [] then typeName else parts[|parts| - 1]
  }

  /** A qualified rendering and the plain one give the same identifier. */
  lemma TypeIdentifierDropsQualifier(qualifier: string, name: string)
    requires name != [] && '.' !in name
    ensures TypeIdentifier(qualifier + "." + name) == name
    ensures TypeIdentifier(name) == name
  {
    Text.NoSeparatorRun(name, '.');
    Text.LastRunAfterSeparator(qualifier + ".", name, '.');
    assert qualifier + "." + name == (qualifier + ".") + name;
  }

  /** The type identifier of `AppError`, with or without its module. */
  lemma AppErrorTypeIdentifier()
    ensures TypeIdentifier(AppErrorTypeName) == "AppError"
    ensures TypeIdentifier("Models." + AppErrorTypeName) == "AppError"
  {
    assert '.' !in AppErrorTypeName;
    TypeIdentifierDropsQualifier("Models", AppErrorTypeName);
    assert "Models." + AppErrorTypeName == "Models" + "." + AppErrorTypeName;
  }

  /** Where an error was raised. `functionName` is Swift's `function`. */
  datatype ErrorSource = ErrorSource(
    file: string,
    functionName: string,
    line: nat,
    column: nat,
    range: Option<(nat, nat)>
  )

  const FilePrefix: string := "File: "
  const FunctionPrefix: string := "Function: "
  const LinePrefix: string := "Line: "

  /** `ErrorSource.description`: file, function and line, joined by ", "; the column and range are left out. */
  function SourceText(source: ErrorSource): (r: string)
    ensures r == FilePrefix + source.file + ", " + FunctionPrefix + source.functionName + ", "
                 + LinePrefix + Numerics.Description(source.line)
  {
    var parts := [FilePrefix + source.file, FunctionPrefix + source.functionName, LinePrefix + Numerics.Description(source.line)];
    Text.JoinThree(parts[0], parts[1], parts[2], ", ");
    Text.Join(parts, ", ")
  }

  /** `ErrorSource.description` as the source computes it, by appending to a list of parts. */
  method SourceDescription(source: ErrorSource) returns (r: string)
    ensures r == SourceText(source)
  {
    var infos: seq<string> := [];
    infos := infos + [FilePrefix + source.file];
    infos := infos + [FunctionPrefix + source.functionName];
    infos := infos + [LinePrefix + Numerics.Description(source.line)];
    r := Text.Join(infos, ", ");
    assert infos == [FilePrefix + source.file, FunctionPrefix + source.functionName, LinePrefix + Numerics.Description(source.line)];
  }

  /** Sources in the same file and function that differ in their line are described differently. */
  lemma SourceTextShowsLine(a: ErrorSource, b: ErrorSource)
    requires a.file == b.file && a.functionName == b.functionName && a.line != b.line
    ensures SourceText(a) != SourceText(b)
  {
    var prefix := FilePrefix + a.file + ", " + FunctionPrefix + a.functionName + ", " + LinePrefix;
    assert SourceText(a) == prefix + Numerics.Description(a.line);
    assert SourceText(b) == prefix + Numerics.Description(b.line);
    if SourceText(a) == SourceText(b) {
      assert Numerics.Description(a.line) == SourceText(a)[|prefix|..];
      Numerics.DescriptionInjective(a.line, b.line);
    }
  }

  /** The kinds of app error; there is one. */
  datatype Value = Unknown

  datatype AppError = AppError(value: Value, source: Option<ErrorSource>)

  /** `AppError.init`: the call site is always recorded, without a range. */
  function NewAppError(value: Value, file: string, functionName: string, line: nat, column: nat): (e: AppError)
    ensures e.value == value
    ensures e.source == Some(ErrorSource(file, functionName, line, column, None))
  {
    AppError(value, Some(ErrorSource(file, functionName, line, column, None)))
  }

  function Identifier(e: AppError): (r: string)
    ensures e.value.Unknown? ==> r == "unknown"
  {
    match e.value
    case Unknown => "unknown"
  }

  function Reason(e: AppError): (r: string)
    ensures e.value.Unknown? ==> r == "Unknown Error Occured."
  {
    match e.value
    case Unknown => "Unknown Error Occured."
  }

  /** `fullIdentifier`: the type identifier, a dot, and the case identifier. */
  function FullIdentifier(e: AppError): (r: string)
    ensures r == AppErrorTypeName + "." + Identifier(e)
  {
    AppErrorTypeIdentifier();
    TypeIdentifier(AppErrorTypeName) + "." + Identifier(e)
  }

  /** The first part of every description: the full identifier, a colon, and the reason. */
  function Headline(e: AppError): string {
    FullIdentifier(e) + ": " + Reason(e)
  }

  /**
   * `errorDescription`. The headline, followed by " | " and the source's
   * description when the build is a debug build (`debug`) and a source is
   * recorded.
   */
  function DescriptionText(e: AppError, debug: bool): (r: string)
    ensures !debug || e.source.None? ==> r == Headline(e)
    ensures debug && e.source.Some? ==> r == Headline(e) + " | " + SourceText(e.source.value)
  {
    if debug && e.source.Some? then
      Text.JoinTwo(Headline(e), SourceText(e.source.value), " | ");
      Text.Join([Headline(e), SourceText(e.source.value)], " | ")
    else
      Text.JoinOne(Headline(e), " | ");
      Text.Join([Headline(e)], " | ")
  }

  /** `errorDescription` as the source computes it, by appending to a list of parts. */
  method ErrorDescription(e: AppError, debug: bool) returns (r: string)
    ensures r == DescriptionText(e, debug)
  {
    var infos := [FullIdentifier(e) + ": " + Reason(e)];
    if debug && e.source.Some? {
      var sourceDescription := SourceDescription(e.source.value);
      infos := infos + [sourceDescription];
    }
    r := Text.Join(infos, " | ");
    if |infos| == 2 {
      Text.JoinTwo(infos[0], infos[1], " | ");
    }
  }

  /** Outside debug builds every app error reads the same, whatever its source. */
  lemma ReleaseDescriptionIsFixed(a: AppError, b: AppError)
    ensures DescriptionText(a, false) == DescriptionText(b, false) == Headline(a)
  {
  }

  /** In debug builds two errors raised on different lines of one function read differently. */
  lemma DebugDescriptionShowsLine(a: AppError, b: AppError)
    requires a.source.Some? && b.source.Some?
    requires a.source.value.file == b.source.value.file
    requires a.source.value.functionName == b.source.value.functionName
    requires a.source.value.line != b.source.value.line
    ensures DescriptionText(a, true) != DescriptionText(b, true)
  {
    SourceTextShowsLine(a.source.value, b.source.value);
    var h := Headline(a) + " | ";
    assert DescriptionText(a, true)[|h|..] == SourceText(a.source.value);
    assert DescriptionText(b, true)[|h|..] == SourceText(b.source.value);
  }
}
