/** The naming rules an upload passes through (mcp_server/src/tools.py and
    src/document_digestion/processor.py): the extension check on the name
    the client gives, the temporary file the content is written to, and the
    suffix test that chooses the reader. */
module UploadNames {
  import opened Wrappers
  import opened Strings
  import opened Documents
  import opened Chunker

  /** The extension check: the lower-cased name ends with `.pdf`, `.txt` or
      `.text`. */
  predicate UploadNameAccepted(filename: string)
  {
    EndsWith(Lower(filename), ".pdf") || EndsWith(Lower(filename), ".txt") || EndsWith(Lower(filename), ".text")
  }

  /** The random part of a temporary file's name: letters, digits and `_`,
      so neither a dot nor a slash. */
  predicate RandomStem(stem: string)
  {
    forall i :: 0 <= i < |stem| ==> stem[i] != '.' && stem[i] != '/'
  }

  /** `NamedTemporaryFile(suffix=Path(filename).suffix).name`: `tmp`, the
      random stem and the upload's suffix, in the directory `dir`. */
  function TempName(dir: string, stem: string, filename: string): string
  {
    dir + "/tmp" + stem + Suffix(filename)
  }

  /** The temporary file has the upload's suffix, so the processor picks the
      reader the upload's own name would select and reads it the same way;
      the chunks are tagged with the temporary name. */
  lemma {:induction false} TempNameKeepsSuffix(dir: string, stem: string, filename: string, read: FileKind -> Option<string>)
    requires RandomStem(stem)
    ensures BaseName(TempName(dir, stem, filename)) == "tmp" + stem + Suffix(filename)
    ensures Suffix(TempName(dir, stem, filename)) == Suffix(filename)
    ensures DetectKind(TempName(dir, stem, filename)) == DetectKind(filename)
    ensures Extracted(TempName(dir, stem, filename), read) == Extracted(filename, read)
  {
    var sfx := Suffix(filename);
    var b := "tmp" + stem + sfx;
    assert TempName(dir, stem, filename) == dir + "/" + b;
    TempBaseHasNoSlash(stem, sfx);
    BaseNameAfterSlash(dir, b);
    TempBaseSuffix(stem, sfx);
    assert Suffix(TempName(dir, stem, filename)) == sfx;
    SameSuffixSameReader(TempName(dir, stem, filename), filename, read);
  }

  /** The temporary file's own name holds no slash. */
  lemma {:induction false} TempBaseHasNoSlash(stem: string, sfx: string)
    requires RandomStem(stem)
    requires forall i :: 0 <= i < |sfx| ==> sfx[i] != '/'
    ensures forall i :: 0 <= i < |"tmp" + stem + sfx| ==> ("tmp" + stem + sfx)[i] != '/'
  {
    var b := "tmp" + stem + sfx;
    forall i | 0 <= i < |b|
      ensures b[i] != '/'
    {
      if i >= 3 + |stem| {
        assert b[i] == sfx[i - 3 - |stem|];
      } else if i >= 3 {
        assert b[i] == stem[i - 3];
      } else {
        assert b[i] == "tmp"[i];
      }
    }
  }

  /** The suffix of the temporary file's own name is the one it was given. */
  lemma {:induction false} TempBaseSuffix(stem: string, sfx: string)
    requires RandomStem(stem)
    requires sfx == "" || (|sfx| >= 2 && sfx[0] == '.')
    requires forall i :: 0 <= i < |sfx| ==> sfx[i] != '/'
    requires forall i :: 1 <= i < |sfx| ==> sfx[i] != '.'
    ensures var b := "tmp" + stem + sfx;
      var i := LastIndexOf(b, '.');
      (if 0 < i < |b| - 1 then b[i..] else "") == sfx
  {
    var b := "tmp" + stem + sfx;
    if sfx == "" {
      assert b == "tmp" + stem;
      NoDotInTempBase(stem);
    } else {
      LastDotOfTempBase(stem, sfx);
      assert b[3 + |stem|..] == sfx;
    }
  }

  /** The reader depends on the suffix alone. */
  lemma {:induction false} SameSuffixSameReader(p: string, q: string, read: FileKind -> Option<string>)
    requires Suffix(p) == Suffix(q)
    ensures DetectKind(p) == DetectKind(q)
    ensures Extracted(p, read) == Extracted(q, read)
  {
  }

  /** The extension at the end of a path lies inside its final component. */
  lemma {:induction false} ExtensionInBaseName(path: string, ext: string)
    requires EndsWith(Lower(path), ext) && |ext| >= 1 && ext[0] == '.'
    requires forall i :: 1 <= i < |ext| ==> ext[i] != '/'
    ensures EndsWith(Lower(BaseName(path)), ext)
  {
    ExtensionHasNoSlash(path, ext);
    BaseNameKeepsTail(path, |ext|);
    SameTailSameEnding(BaseName(path), path, ext);
  }

  /** A tail without slashes stays inside the final component. */
  lemma {:induction false} BaseNameKeepsTail(path: string, e: nat)
    requires e <= |path|
    requires forall i :: |path| - e <= i < |path| ==> path[i] != '/'
    ensures |BaseName(path)| >= e
    ensures BaseName(path)[|BaseName(path)| - e..] == path[|path| - e..]
  {
    var k := LastIndexOf(path, '/');
    assert k >= 0 ==> path[k] == '/';
    assert k < |path| - e;
  }

  /** Two strings with the same last `|ext|` characters end with `ext`
      alike once lower-cased. */
  lemma {:induction false} SameTailSameEnding(b: string, path: string, ext: string)
    requires |ext| <= |b| && |ext| <= |path|
    requires b[|b| - |ext|..] == path[|path| - |ext|..]
    requires EndsWith(Lower(path), ext)
    ensures EndsWith(Lower(b), ext)
  {
    LowerOfDrop(b, |b| - |ext|);
    LowerOfDrop(path, |path| - |ext|);
  }

  lemma {:induction false} ExtensionHasNoSlash(path: string, ext: string)
    requires EndsWith(Lower(path), ext) && |ext| >= 1 && ext[0] == '.'
    requires forall i :: 1 <= i < |ext| ==> ext[i] != '/'
    ensures forall i :: |path| - |ext| <= i < |path| ==> path[i] != '/'
  {
    var n, e := |path|, |ext|;
    forall i | n - e <= i < n
      ensures path[i] != '/'
    {
      var j := i - (n - e);
      assert Lower(path)[i] == ext[j];
      assert ext[j] != '/';
      assert LowerChar('/') == '/';
    }
  }

  /** In a name ending with a dotted extension (in any case), the last dot
      is the extension's. */
  lemma {:induction false} LastDotOfExtension(name: string, ext: string)
    requires EndsWith(Lower(name), ext) && |ext| >= 1 && ext[0] == '.'
    requires forall i :: 1 <= i < |ext| ==> ext[i] != '.'
    ensures LastIndexOf(name, '.') == |name| - |ext|
  {
    var k := |name| - |ext|;
    forall i | k <= i < |name|
      ensures (i == k) == (name[i] == '.')
    {
      assert Lower(name)[i] == ext[i - k];
      assert LowerChar('.') == '.';
    }
    LastIndexOfIs(name, '.', k);
  }

  /** A path whose lower-cased form ends with a dotted extension has that
      extension as its suffix, unless its final component is the extension
      alone. */
  lemma {:induction false} ExtensionSuffix(path: string, ext: string)
    requires KnownExtension(ext) && EndsWith(Lower(path), ext)
    ensures EndsWith(Lower(BaseName(path)), ext)
    ensures Lower(BaseName(path)) == ext ==> Suffix(path) == ""
    ensures Lower(BaseName(path)) != ext ==> Lower(Suffix(path)) == ext
  {
    KnownExtensionShape(ext);
    ExtensionInBaseName(path, ext);
    var b := BaseName(path);
    var k := |b| - |ext|;
    LastDotOfExtension(b, ext);
    if k > 0 {
      assert Suffix(path) == b[k..];
      LowerOfDrop(b, k);
    } else {
      assert Lower(b) == ext;
      assert Suffix(path) == "";
    }
  }

  /** After the last slash comes the final component. */
  lemma {:induction false} BaseNameAfterSlash(dir: string, b: string)
    requires forall i :: 0 <= i < |b| ==> b[i] != '/'
    ensures BaseName(dir + "/" + b) == b
  {
    var t := dir + "/" + b;
    forall i | |dir| < i < |t|
      ensures t[i] != '/'
    {
      assert t[i] == b[i - |dir| - 1];
    }
    LastIndexOfIs(t, '/', |dir|);
  }

  /** A temporary name with a suffix has its last dot where the suffix
      starts. */
  lemma {:induction false} LastDotOfTempBase(stem: string, sfx: string)
    requires forall i :: 0 <= i < |stem| ==> stem[i] != '.'
    requires sfx != "" && sfx[0] == '.' && forall i :: 1 <= i < |sfx| ==> sfx[i] != '.'
    ensures LastIndexOf("tmp" + stem + sfx, '.') == 3 + |stem|
  {
    var b := "tmp" + stem + sfx;
    forall i | 3 + |stem| < i < |b|
      ensures b[i] != '.'
    {
      assert b[i] == sfx[i - 3 - |stem|];
    }
    LastIndexOfIs(b, '.', 3 + |stem|);
  }

  /** A temporary name without a suffix has no dot. */
  lemma {:induction false} NoDotInTempBase(stem: string)
    requires forall i :: 0 <= i < |stem| ==> stem[i] != '.'
    ensures LastIndexOf("tmp" + stem, '.') == -1
  {
    var b := "tmp" + stem;
    forall i | 0 <= i < |b|
      ensures b[i] != '.'
    {
      if i >= 3 {
        assert b[i] == stem[i - 3];
      } else {
        assert b[i] == "tmp"[i];
      }
    }
    LastIndexOfIs(b, '.', -1);
  }

  /** The extension check is looser than the processor's suffix test: a
      name whose final component is the bare extension (`.pdf`, `.TXT`,
      `dir/.text`) has no suffix for `pathlib`, so it passes the check and
      is then refused with "Unsupported file type". Every other accepted
      name reaches a reader. */
  lemma {:induction false} AcceptedNameReachesReader(filename: string)
    requires UploadNameAccepted(filename)
    ensures DetectKind(filename).Ok? <==> !KnownExtension(Lower(BaseName(filename)))
  {
    if EndsWith(Lower(filename), ".pdf") {
      ReaderForExtension(filename, ".pdf");
    } else if EndsWith(Lower(filename), ".txt") {
      ReaderForExtension(filename, ".txt");
    } else {
      ReaderForExtension(filename, ".text");
    }
  }

  lemma {:induction false} ReaderForExtension(filename: string, ext: string)
    requires KnownExtension(ext) && EndsWith(Lower(filename), ext)
    ensures DetectKind(filename).Ok? <==> !KnownExtension(Lower(BaseName(filename)))
  {
    KnownExtensionShape(ext);
    ExtensionInBaseName(filename, ext);
    ExtensionsDoNotNest(Lower(BaseName(filename)), ext);
    if Lower(BaseName(filename)) == ext {
      BareExtensionIsRefused(filename, ext);
    } else {
      LongerNameIsRead(filename, ext);
    }
  }

  lemma {:induction false} BareExtensionIsRefused(filename: string, ext: string)
    requires KnownExtension(ext) && EndsWith(Lower(filename), ext) && Lower(BaseName(filename)) == ext
    ensures DetectKind(filename).Err?
  {
    ExtensionSuffix(filename, ext);
    DetectKindAccepts(filename);
    assert Lower(Suffix(filename)) == "";
  }

  lemma {:induction false} LongerNameIsRead(filename: string, ext: string)
    requires KnownExtension(ext) && EndsWith(Lower(filename), ext) && Lower(BaseName(filename)) != ext
    ensures DetectKind(filename).Ok?
  {
    ExtensionSuffix(filename, ext);
    DetectKindAccepts(filename);
  }

  /** Each extension is a dot followed by at least two characters that are
      neither dots nor slashes. */
  lemma {:induction false} KnownExtensionShape(ext: string)
    requires KnownExtension(ext)
    ensures |ext| >= 3 && ext[0] == '.'
    ensures forall i :: 1 <= i < |ext| ==> ext[i] != '.' && ext[i] != '/'
  {
  }

  /** None of the three extensions ends with another. */
  lemma {:induction false} ExtensionsDoNotNest(name: string, ext: string)
    requires KnownExtension(ext)
    requires EndsWith(name, ext)
    ensures KnownExtension(name) <==> name == ext
  {
  }

}
