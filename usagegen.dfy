/**
  The `run` pipeline of usagegen (main.go:63-97): validate the output name, consult the
  parsed directory, collect the main package's documentation, render it through one of
  the two templates and write the result.

  The directory parse (`parser.ParseDir`) is an input: either the map from package name
  to that package's files, or the parser's error. The file write is an effect `run`
  requests; `Run` reports the effects it performs, in order, instead of performing them.
 */
module UsageGen {
  import opened Wrappers
  import opened Templates
  import opened DocCollection

  /** The errors `run` returns, one per early return. */
  datatype Error =
    | NameNotSet           // "file name is not set"
    | BadSuffix            // "file name must end with .go"
    | ParseError(msg: string)  // the parser's own error, passed on unchanged
    | NoMainPackage        // "cannot find main package"
    | NoDocs               // "could not extract any docs"

  /**
    The `err.Error()` text of each error, which `main` prints to standard error
    followed by a newline: the parser's own message unchanged, or the fixed text of
    one of `run`'s own errors.
   */
  function Message(e: Error): (r: string)
    ensures e.ParseError? ==> r == e.msg
    ensures !e.ParseError? ==> r != ""
  {
    match e
    case NameNotSet => "file name is not set"
    case BadSuffix => "file name must end with .go"
    case ParseError(msg) => msg
    case NoMainPackage => "cannot find main package"
    case NoDocs => "could not extract any docs"
  }

  /** What `parser.ParseDir` hands back: package name to files, or its error. */
  datatype ParseResult =
    | Parsed(packages: map<string, seq<Option<string>>>)
    | ParseFailed(msg: string)

  /** The outside actions `run` takes: reading the directory, writing the output file. */
  datatype Effect = ParseDir | WriteFile(path: string, contents: string)

  /** `defaultOutFile`, the value of the `-f` flag when it is not given. */
  const DefaultOutFile: string := "usage_generated.go"

  /** The package whose documentation is collected. */
  const MainPackage: string := "main"

  /** `strings.HasSuffix`. */
  predicate HasSuffix(s: string, suffix: string)
  {
    |suffix| <= |s| && s[|s| - |suffix|..] == suffix
  }

  /** The name a file with stem `stem` gets in Go: the stem followed by ".go". */
  function GoFileName(stem: string): string
  {
    stem + ".go"
  }

  lemma HasSuffixIff(s: string, suffix: string)
    ensures HasSuffix(s, suffix) <==> exists stem :: stem + suffix == s
  {
    if HasSuffix(s, suffix) {
      var stem := s[..|s| - |suffix|];
      assert stem + suffix == s;
    }
    if exists stem :: stem + suffix == s {
      var stem :| stem + suffix == s;
      assert s[|s| - |suffix|..] == suffix;
    }
  }

  /**
    The output-name checks of `run`, in order: the name must be set, then end in ".go".
    None means the name is accepted.
   */
  function CheckName(outFile: string): (r: Option<Error>)
    ensures r == None <==> exists stem :: GoFileName(stem) == outFile
    ensures r == Some(NameNotSet) <==> outFile == ""
    ensures r == Some(BadSuffix) <==> outFile != "" && !exists stem :: GoFileName(stem) == outFile
  {
    HasSuffixIff(outFile, ".go");
    assert forall stem :: GoFileName(stem) == outFile <==> stem + ".go" == outFile;
    if outFile == "" then Some(NameNotSet)
    else if !HasSuffix(outFile, ".go") then Some(BadSuffix)
    else None
  }

  /** The default name passes both checks; a name with another suffix fails the second. */
  lemma NameExamples()
    ensures CheckName(DefaultOutFile) == None
    ensures CheckName("foo.txt") == Some(BadSuffix)
    ensures CheckName(".go") == None
  {
  }

  /**
    What `run` produces, as a value: the bytes to be written to `outFile`, or the error
    it returns, with the checks in the order the source makes them.
   */
  function Generate(outFile: string, autoHelp: bool, dir: ParseResult,
                    reflow: string -> string, quote: string -> string): (r: Result<string, Error>)
    ensures r.Success? ==> Header <= r.value
  {
    if CheckName(outFile).Some? then Failure(CheckName(outFile).value)
    else match dir
      case ParseFailed(msg) => Failure(ParseError(msg))
      case Parsed(packages) =>
        if MainPackage !in packages then Failure(NoMainPackage)
        else
          var text := CollectedText(packages[MainPackage], reflow);
          if text == "" then Failure(NoDocs) else Success(Render(autoHelp, text, quote))
  }

  /**
    `run` itself. It returns the error `run` returns (None for success) and the effects
    it performed: nothing at all when the name is rejected, the directory parse on
    every other path, and the write of the rendered bytes to `outFile` last and only
    when no error occurs.
   */
  method Run(outFile: string, autoHelp: bool, dir: ParseResult,
             reflow: string -> string, quote: string -> string)
    returns (err: Option<Error>, effects: seq<Effect>)
    ensures var g := Generate(outFile, autoHelp, dir, reflow, quote);
            err == (if g.Success? then None else Some(g.error))
    ensures CheckName(outFile).Some? ==> effects == []
    ensures CheckName(outFile).None? ==>
              var g := Generate(outFile, autoHelp, dir, reflow, quote);
              effects == [ParseDir] + (if g.Success? then [WriteFile(outFile, g.value)] else [])
    ensures err.Some? ==> forall i :: 0 <= i < |effects| ==> !effects[i].WriteFile?
  {
    effects := [];
    err := CheckName(outFile);
    if err.Some? {
      return;
    }
    effects := effects + [ParseDir];
    if dir.ParseFailed? {
      err := Some(ParseError(dir.msg));
      return;
    }
    var packages := dir.packages;
    if MainPackage !in packages {
      err := Some(NoMainPackage);
      return;
    }
    var docBuf := CollectDocs(packages[MainPackage], reflow);
    if |docBuf| == 0 {
      err := Some(NoDocs);
      return;
    }
    var buf := Render(autoHelp, docBuf, quote);
    effects := effects + [WriteFile(outFile, buf)];
  }

  /**
    Which error each input produces. Each check applies only once every earlier one
    has passed, and the run succeeds exactly when all of them pass.
   */
  lemma {:induction false} GenerateOutcomes(outFile: string, autoHelp: bool, dir: ParseResult,
                                            reflow: string -> string, quote: string -> string)
    ensures var g := Generate(outFile, autoHelp, dir, reflow, quote);
            && (g == Failure(NameNotSet) <==> outFile == "")
            && (g == Failure(BadSuffix) <==> CheckName(outFile) == Some(BadSuffix))
            && (g.Failure? && g.error.ParseError? <==> CheckName(outFile) == None && dir.ParseFailed?)
            && (CheckName(outFile) == None && dir.ParseFailed? ==> g == Failure(ParseError(dir.msg)))
            && (g == Failure(NoMainPackage) <==>
                  CheckName(outFile) == None && dir.Parsed? && MainPackage !in dir.packages)
            && (g == Failure(NoDocs) <==>
                  && CheckName(outFile) == None && dir.Parsed? && MainPackage in dir.packages
                  && forall d :: Some(d) in dir.packages[MainPackage] ==> reflow(d) == "")
            && (g.Success? <==>
                  && CheckName(outFile) == None && dir.Parsed? && MainPackage in dir.packages
                  && exists d :: Some(d) in dir.packages[MainPackage] && reflow(d) != "")
  {
    if dir.Parsed? && MainPackage in dir.packages {
      CollectedTextEmptyIff(dir.packages[MainPackage], reflow);
    }
  }

  /**
    On success the file is the template the flag selects, holding the quoted collected
    text of the main package, and it begins with the generated-file marker line.
   */
  lemma GeneratedFile(outFile: string, autoHelp: bool, dir: ParseResult,
                      reflow: string -> string, quote: string -> string)
    requires Generate(outFile, autoHelp, dir, reflow, quote).Success?
    ensures dir.Parsed? && MainPackage in dir.packages
    ensures var out := Generate(outFile, autoHelp, dir, reflow, quote).value;
            var text := CollectedText(dir.packages[MainPackage], reflow);
            && text != ""
            && out == TemplateFor(autoHelp).prefix + quote(text) + TemplateFor(autoHelp).suffix
            && FirstLine(out) == Marker
  {
    var text := CollectedText(dir.packages[MainPackage], reflow);
    var out := Render(autoHelp, text, quote);
    ExtractLiteralIff(TemplateFor(autoHelp), out, quote(text));
    RenderStartsWithMarker(autoHelp, text, quote);
  }

  /** Only the main package matters: the other packages of the directory never change the outcome. */
  lemma OtherPackagesIrrelevant(outFile: string, autoHelp: bool,
                                p: map<string, seq<Option<string>>>, q: map<string, seq<Option<string>>>,
                                reflow: string -> string, quote: string -> string)
    requires MainPackage in p <==> MainPackage in q
    requires MainPackage in p ==> p[MainPackage] == q[MainPackage]
    ensures Generate(outFile, autoHelp, Parsed(p), reflow, quote)
         == Generate(outFile, autoHelp, Parsed(q), reflow, quote)
  {
  }

  /** Adding a main-package file without a doc comment, anywhere, never changes the outcome. */
  lemma UndocumentedFileIrrelevant(outFile: string, autoHelp: bool,
                                   packages: map<string, seq<Option<string>>>, k: nat,
                                   reflow: string -> string, quote: string -> string)
    requires MainPackage in packages
    requires k <= |packages[MainPackage]|
    ensures var files := packages[MainPackage];
            (Generate(outFile, autoHelp, Parsed(packages[MainPackage := files[..k] + [None] + files[k..]]), reflow, quote)
             == Generate(outFile, autoHelp, Parsed(packages), reflow, quote))
  {
    var files := packages[MainPackage];
    UndocumentedFileContributesNothing(files[..k], files[k..], reflow);
    assert files[..k] + files[k..] == files;
  }
}
