# usagegen, modelled in Dafny

usagegen is a Go command that reads the package documentation of the `main` package in
the current directory and writes a Go source file (by default `usage_generated.go`)
that embeds that text as a string constant `usage`. With `-autohelp` the generated file
instead defines an `init` function that installs a `flag.Usage` printing the text, a
`Usage of <program>:` line and the flag defaults.

This project models the tool's only logic of its own, the `run` function of `main.go`,
with the foreign pieces turned into inputs:

- `wrappers.dfy` (`Wrappers`): `Option` and `Result`.
- `templates.dfy` (`Templates`): the generated-file marker, the two fixed templates,
  rendering the quoted text into the selected template, reading the literal back out,
  and the first line of a file.
- `doc_collection.dfy` (`DocCollection`): the loop over the main package's files that
  skips files without a doc comment and appends the reflowed text of every other one,
  as a method (`CollectDocs`) proved against a specification function
  (`CollectedText`: the reflowed doc texts of the documented files, joined in file order).
- `usagegen.dfy` (`UsageGen`): the error kinds and their messages, the output-name
  checks, the whole pipeline as a value (`Generate`) and as the imperative `Run`, which
  also reports the outside effects it performs (the directory parse, the file
  write) in order.

Foreign code becomes parameters of the members that use it. `reflow` stands for
`doc.ToText(_, text, "", "\t", 80)` applied to a file's `f.Doc.Text()`. `quote` stands
for the `%#v` quoting of a string. The directory parse is an input of type `ParseResult`:
either the map from package name to that package's files, each given by its doc comment
or `None`, or the parser's error. The files of a package come in whatever order the
caller supplies, because Go's map iteration over `p.Files` has no fixed order. Nothing
here claims the output is the same for every file order.

Remarks on the source:

- The empty check is on the collected buffer, not on the presence of doc comments. A
  main package whose doc comments all reflow to nothing also fails with "could not
  extract any docs" (`GenerateOutcomes`).
- The suffix check is `strings.HasSuffix(outFile, ".go")` only, so the bare name `.go`
  is accepted (`NameExamples`).
- Each template is held as the text `fmt.Fprintf` emits on either side of the one `%#v`
  verb. The `%%s` of the auto template (main.go:123) therefore stands as `%s`, as it
  does in the generated usage_generated.go:16.

## Model

| member | source | states |
|---|---|---|
| Templates.TemplateFor | main.go:90-127 | the `switch` picks `templateFormatAuto` when the flag is set and `templateFormat` otherwise (the constants `Marker`, `TemplateFormat`, `TemplateFormatAuto` hold their text); both start with the shared header (marker, blank line, `package main`), and the character right after it tells the two apart, so the choice is by the flag alone |
| Templates.ExtractLiteralIff | main.go:101-127 | reading the text between a template's fixed prefix and suffix yields `lit` exactly when the file is prefix, `lit`, suffix |
| Templates.Render | main.go:89-95 | the rendered file is the selected template with `quote(text)` in its one slot, recoverable by reading it back, and starts with the shared header |
| Templates.ModesNeverCollide | main.go:101-120 | a plain-mode file and an auto-mode file are never equal, whatever texts they hold |
| Templates.RenderInjective | main.go:92-94 | when quoting is injective, equal rendered files come from equal texts |
| Templates.LiteralRoundTrip | main.go:105-120 | the literal read back from a rendered file unquotes to the collected text, for any unquoting that inverts the quoting on it |
| Templates.MarkerFollowsConvention | main.go:101 | the marker line starts with "// Code generated ", ends with " DO NOT EDIT." and holds no newline |
| Templates.RenderStartsWithMarker | main.go:101-110 | the first line of every rendered file, in both modes, is the marker, which follows the generated-file convention |
| DocCollection.DocsAppend | main.go:80-83 | the documented files of two runs of files are those of the first run followed by those of the second |
| DocCollection.JoinedAppend | main.go:84 | appending reflowed texts of two lists of comments gives the two results one after the other |
| DocCollection.CollectedTextAppend | main.go:80-85 | the text collected from two runs of files is the first run's text followed by the second's |
| DocCollection.DocsMembership | main.go:80-83 | a text is among the reflowed comments exactly when some file has it as its doc comment |
| DocCollection.UndocumentedFileContributesNothing | main.go:81-83 | inserting a file without a doc comment anywhere leaves the collected text unchanged |
| DocCollection.CollectedTextEmptyIff | main.go:84-88 | the collected text is empty exactly when every doc comment present reflows to nothing |
| DocCollection.CollectDocs | main.go:79-85 | the loop leaves in the buffer the reflowed doc comments of exactly the documented files, joined in iteration order |
| UsageGen.Message | main.go:58-87 | the `err.Error()` text of each error: the parser's message passed on unchanged, or the non-empty fixed text of one of `run`'s own errors |
| UsageGen.HasSuffixIff | main.go:67 | `HasSuffix(s, t)` holds exactly when `s` is some stem followed by `t` |
| UsageGen.CheckName | main.go:64-69 | a name is accepted exactly when it is some stem plus ".go"; the empty name fails with "file name is not set"; every other rejected name fails with "file name must end with .go" |
| UsageGen.NameExamples | main.go:99 | the default `usage_generated.go` (`DefaultOutFile`) passes both checks, `foo.txt` fails the suffix check, the bare `.go` passes |
| UsageGen.Generate | main.go:63-95 | on success the bytes to write start with the marker and the `package main` clause |
| UsageGen.Run | main.go:63-97 | returns the error of the pipeline or none; performs nothing when the name is rejected, the parse first otherwise, and the write of exactly the rendered bytes to `outFile` last and only when no error occurs |
| UsageGen.GenerateOutcomes | main.go:64-88 | which error each input produces, checks in source order (name, suffix, parse, main package, empty docs); a parse failure is returned as the parser's own error, unchanged; success exactly when all pass and some main-package doc comment reflows to non-empty text |
| UsageGen.GeneratedFile | main.go:86-95 | a successful file is the flag's template around the quoted, non-empty collected text of the main package, and its first line is the marker |
| UsageGen.OtherPackagesIrrelevant | main.go:75-78 | two directories whose `main` entries agree (both missing, or equal) give the same outcome, whatever other packages they hold |
| UsageGen.UndocumentedFileIrrelevant | main.go:80-83 | adding a main-package file without a doc comment, at any position, never changes the outcome |

## Left out

- `main` (main.go:51-61): flag registration, `flag.Parse`, writing the error text to standard error and `os.Exit(1)` are command-line and process plumbing; `Message` gives the `err.Error()` text, to which `main` adds a newline.
- `parser.ParseDir` (main.go:71) is a foreign parser: its result, or its error, is the `ParseResult` input.
- `doc.ToText` and `CommentGroup.Text` (main.go:84) are foreign text formatting: the `reflow` parameter, with no properties assumed.
- `%#v` string quoting (main.go:92-94) is foreign: the `quote` parameter; properties that need its Go string-literal behaviour take injectivity or an inverse as a hypothesis.
- `fmt.Fprintf` format processing (the `%#v` slot and the `%%` escape) is not modelled; each template is its emitted prefix and suffix.
- `ioutil.WriteFile` (main.go:96): the file write is an effect `Run` reports with the path and bytes; permissions and write failures are not modelled.
- usage_generated.go is a generated file with no logic of its own.
- Go strings are byte strings and the model's are `seq<char>`, so a `-f` name that is not valid UTF-8 cannot be expressed; on valid UTF-8 the core's own string operations (comparison with "", the ".go" suffix test, the `"main"` lookup, the empty-buffer test) give the same answers.
- The concrete end-to-end output for a given comment depends on `reflow` and `quote` and is not modelled.
