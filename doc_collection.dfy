/**
  Collection of the main package's documentation (main.go:79-88).

  A source file is represented by its doc comment: `Some(text)` where `text` is what
  `f.Doc.Text()` returns, `None` where `f.Doc == nil`. The files come in the order in
  which `range p.Files` visits them, which Go leaves unspecified, so every statement
  here holds for whatever order the caller supplies. `reflow` stands for
  `doc.ToText(_, text, "", "\t", 80)`, the foreign paragraph re-wrapping.
 */
module DocCollection {
  import opened Wrappers

  /** The doc texts of the files that have one, in file order. */
  function Docs(files: seq<Option<string>>): seq<string>
  {
    if files == [] then []
    else (if files[0].Some? then [files[0].value] else []) + Docs(files[1..])
  }

  /** The reflowed texts of `ds`, one after another. */
  function Joined(ds: seq<string>, reflow: string -> string): string
  {
    if ds == [] then "" else reflow(ds[0]) + Joined(ds[1..], reflow)
  }

  /** What `docBuf` holds once every file has been visited. */
  function CollectedText(files: seq<Option<string>>, reflow: string -> string): string
  {
    Joined(Docs(files), reflow)
  }

  lemma {:induction false} DocsAppend(a: seq<Option<string>>, b: seq<Option<string>>)
    ensures Docs(a + b) == Docs(a) + Docs(b)
  {
    if a != [] {
      assert (a + b)[1..] == a[1..] + b;
      DocsAppend(a[1..], b);
    } else {
      assert a + b == b;
    }
  }

  lemma {:induction false} JoinedAppend(a: seq<string>, b: seq<string>, reflow: string -> string)
    ensures Joined(a + b, reflow) == Joined(a, reflow) + Joined(b, reflow)
  {
    if a != [] {
      assert (a + b)[1..] == a[1..] + b;
      JoinedAppend(a[1..], b, reflow);
    } else {
      assert a + b == b;
    }
  }

  /** Collecting two runs of files one after the other gives the two texts one after the other. */
  lemma CollectedTextAppend(a: seq<Option<string>>, b: seq<Option<string>>, reflow: string -> string)
    ensures CollectedText(a + b, reflow) == CollectedText(a, reflow) + CollectedText(b, reflow)
  {
    DocsAppend(a, b);
    JoinedAppend(Docs(a), Docs(b), reflow);
  }

  /** Exactly the files with a doc comment supply the texts that are reflowed. */
  lemma {:induction false} DocsMembership(files: seq<Option<string>>, d: string)
    ensures d in Docs(files) <==> Some(d) in files
  {
    if files != [] {
      DocsMembership(files[1..], d);
      assert files == [files[0]] + files[1..];
    }
  }

  /** A file without a doc comment contributes nothing, wherever it stands. */
  lemma UndocumentedFileContributesNothing(a: seq<Option<string>>, b: seq<Option<string>>, reflow: string -> string)
    ensures CollectedText(a + [None] + b, reflow) == CollectedText(a + b, reflow)
  {
    CollectedTextAppend(a + [None], b, reflow);
    CollectedTextAppend(a, [None], reflow);
    CollectedTextAppend(a, b, reflow);
  }

  lemma {:induction false} JoinedEmptyIff(ds: seq<string>, reflow: string -> string)
    ensures Joined(ds, reflow) == "" <==> forall i :: 0 <= i < |ds| ==> reflow(ds[i]) == ""
  {
    if ds != [] {
      JoinedEmptyIff(ds[1..], reflow);
      assert forall i :: 1 <= i < |ds| ==> ds[i] == ds[1..][i - 1];
    }
  }

  /**
    The collected text is empty exactly when every doc comment present reflows to
    nothing; in particular when no file has a doc comment.
   */
  lemma CollectedTextEmptyIff(files: seq<Option<string>>, reflow: string -> string)
    ensures CollectedText(files, reflow) == "" <==> forall d :: Some(d) in files ==> reflow(d) == ""
  {
    var ds := Docs(files);
    JoinedEmptyIff(ds, reflow);
    forall d
      ensures d in ds <==> Some(d) in files
    {
      DocsMembership(files, d);
    }
  }

  /**
    The loop of `run` over the main package's files: skip a file without a doc comment,
    append the reflowed comment of every other one to `docBuf`.
   */
  method CollectDocs(files: seq<Option<string>>, reflow: string -> string) returns (docBuf: string)
    ensures docBuf == CollectedText(files, reflow)
  {
    docBuf := "";
    for i := 0 to |files|
      invariant docBuf == CollectedText(files[..i], reflow)
    {
      assert files[..i + 1] == files[..i] + [files[i]];
      CollectedTextAppend(files[..i], [files[i]], reflow);
      assert Docs([files[i]]) == (if files[i].Some? then [files[i].value] else []);
      if files[i].None? {
        continue;
      }
      docBuf := docBuf + reflow(files[i].value);
    }
    assert files[..|files|] == files;
  }
}
