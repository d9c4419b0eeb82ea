/**
  The two fixed output templates of usagegen and their rendering
  (main.go:89-95 and main.go:101-127).

  Each template is held as the text that `fmt.Fprintf` emits on either side of its
  single `%#v` verb: the `%%s` of the auto template therefore already stands as `%s`
  here, as it does in the generated file. The `%#v` quoting itself is foreign and is a
  parameter `quote` of every member that renders.
 */
module Templates {
  import opened Wrappers

  /**
    The first line of every generated file. It is written as the two fixed ends of Go's
    generated-file convention around the tool's name, so that proofs about those ends
    need not unfold one long literal.
   */
  const Marker: string := "// Code generated " + "by github.com/artyom/usagegen;" + " DO NOT EDIT."

  /** The lines both templates share: the marker, a blank line, the package clause, a blank line. */
  const Header: string := Marker + PackageClause

  const PackageClause: string := "\n\npackage main\n\n"

  datatype Template = Template(prefix: string, suffix: string)

  /** `templateFormat`: a file holding one top-level constant `usage`. */
  const TemplateFormat: Template := Template(Header + PlainDecl, "\n")

  const PlainDecl: string := "const usage = "

  /** `templateFormatAuto`: a file whose `init` installs `flag.Usage` around a local `usage`. */
  const TemplateFormatAuto: Template := Template(Header + (AutoImports + AutoInit), AutoTail)

  const AutoImports: string :=
    "import (\n"
    + "\t\"flag\"\n\t\"fmt\"\n\t\"os\"\n\t\"path/filepath\"\n"
    + ")\n\n"

  const AutoInit: string := "func init() {\n\tconst usage = "

  const AutoTail: string :=
    "\n\tflag.Usage = func() {\n"
    + "\t\tfmt.Fprintln(flag.CommandLine.Output(), usage)\n"
    + "\t\tfmt.Fprintf(flag.CommandLine.Output(), \"Usage of %s:\\n\", filepath.Base(os.Args[0]))\n"
    + "\t\tflag.PrintDefaults()\n"
    + "\t}\n"
    + "}\n"

  /** The template the `switch` of `run` picks: the auto one exactly when the flag is set. */
  function TemplateFor(autoHelp: bool): (t: Template)
    ensures Header <= t.prefix
    ensures |Header| < |t.prefix|
    ensures t.prefix[|Header|] == (if autoHelp then 'i' else 'c')
  {
    if autoHelp then
      assert AutoImports[0] == 'i';
      assert (AutoImports + AutoInit)[0] == AutoImports[0];
      TemplateFormatAuto
    else
      assert PlainDecl[0] == 'c';
      TemplateFormat
  }

  /**
    Reads the literal back out of a file rendered from `t`: the text between the
    template's prefix and suffix, or None when `out` is not of that shape.
   */
  function ExtractLiteral(t: Template, out: string): (lit: Option<string>)
  {
    if |t.prefix| + |t.suffix| <= |out|
       && out[..|t.prefix|] == t.prefix
       && out[|out| - |t.suffix|..] == t.suffix
    then Some(out[|t.prefix|..|out| - |t.suffix|])
    else None
  }

  /** A file is rendered from `t` around `lit` exactly when reading it back yields `lit`. */
  lemma ExtractLiteralIff(t: Template, out: string, lit: string)
    ensures ExtractLiteral(t, out) == Some(lit) <==> out == t.prefix + lit + t.suffix
  {
  }

  /**
    The bytes `run` writes for the collected text: the chosen template with
    `quote(text)` in its slot, and nothing else.
   */
  function Render(autoHelp: bool, text: string, quote: string -> string): (out: string)
    ensures ExtractLiteral(TemplateFor(autoHelp), out) == Some(quote(text))
    ensures Header <= out
  {
    var t := TemplateFor(autoHelp);
    ExtractLiteralIff(t, t.prefix + quote(text) + t.suffix, quote(text));
    t.prefix + quote(text) + t.suffix
  }

  /** The two modes never produce the same file, whatever texts they embed. */
  lemma ModesNeverCollide(a: string, b: string, quote: string -> string)
    ensures Render(true, a, quote) != Render(false, b, quote)
  {
  }

  /**
    Rendering loses nothing: when `quote` is injective (as Go string-literal quoting is),
    equal files came from equal texts.
   */
  lemma RenderInjective(autoHelp: bool, a: string, b: string, quote: string -> string)
    requires forall x, y :: quote(x) == quote(y) ==> x == y
    ensures Render(autoHelp, a, quote) == Render(autoHelp, b, quote) ==> a == b
  {
  }

  /**
    The literal read back from a rendered file unquotes to the collected text, for any
    `unquote` that inverts `quote` on that text.
   */
  lemma LiteralRoundTrip(autoHelp: bool, text: string, quote: string -> string, unquote: string -> string)
    requires unquote(quote(text)) == text
    ensures var lit := ExtractLiteral(TemplateFor(autoHelp), Render(autoHelp, text, quote));
            lit.Some? && unquote(lit.value) == text
  {
  }

  /** The text of `s` up to, not including, its first newline. */
  function FirstLine(s: string): string
  {
    if s == [] || s[0] == '\n' then [] else [s[0]] + FirstLine(s[1..])
  }

  lemma {:induction false} FirstLineOf(line: string, s: string)
    requires '\n' !in line
    requires |line| < |s| && s[..|line|] == line && s[|line|] == '\n'
    ensures FirstLine(s) == line
  {
    if line != [] {
      assert s[1..][..|line| - 1] == line[1..];
      FirstLineOf(line[1..], s[1..]);
    }
  }

  /**
    Go's convention for generated files: a whole line starting with "// Code generated "
    and ending with " DO NOT EDIT.".
   */
  predicate IsGeneratedMarker(line: string)
  {
    var head, tail := "// Code generated ", " DO NOT EDIT.";
    && |head| + |tail| <= |line|
    && line[..|head|] == head
    && line[|line| - |tail|..] == tail
    && '\n' !in line
  }

  /** The marker line follows Go's convention for generated files. */
  lemma MarkerFollowsConvention()
    ensures IsGeneratedMarker(Marker)
  {
  }

  /** Every rendered file begins with the generated-file marker line. */
  lemma {:induction false} RenderStartsWithMarker(autoHelp: bool, text: string, quote: string -> string)
    ensures FirstLine(Render(autoHelp, text, quote)) == Marker
    ensures IsGeneratedMarker(FirstLine(Render(autoHelp, text, quote)))
  {
    var out := Render(autoHelp, text, quote);
    MarkerFollowsConvention();
    assert out[..|Header|] == Header;
    assert out[..|Marker|] == Header[..|Marker|] == Marker;
    assert out[|Marker|] == Header[|Marker|] == PackageClause[0] == '\n';
    FirstLineOf(Marker, out);
  }
}
