/** Document digestion: the sliding-window text splitter and the step that
    turns an extracted text into chunk documents tagged with their file name
    and ordinal (src/document_digestion/processor.py). */
module Chunker {
  import opened Wrappers
  import opened Strings
  import opened Documents

  /** `SimpleTextSplitter(chunk_size, chunk_overlap)`; the splitter never
      changes its two settings after construction. */
  datatype SplitterConfig = SplitterConfig(chunkSize: int, chunkOverlap: int)
  {
    /** The settings the model covers. `split_text` terminates exactly when
        the window start moves forward, `chunk_overlap < chunk_size`, and
        the constructor does not check even that. A positive `chunk_size`
        is this model's own restriction: it keeps the slice bounds
        non-negative (Python reads a negative bound from the end) and every
        window non-empty. The processor builds its splitter with 1000 and
        200. */
    predicate Valid()
    {
      0 < chunkSize && chunkOverlap < chunkSize
    }

    /** How far the window start moves after each chunk. */
    function Step(): int
    {
      chunkSize - chunkOverlap
    }
  }

  /** The settings `DocumentProcessor()` uses. */
  const DefaultSplitter := SplitterConfig(1000, 200)

  /** The number of windows over a text of length `n`: the ceiling of
      `n / step`. */
  function ChunkCount(n: nat, step: nat): nat
    requires step > 0
  {
    (n + step - 1) / step
  }

  /** Window `i`: `text[i*step : i*step + chunk_size]`. */
  function Window(text: string, cfg: SplitterConfig, i: nat): string
    requires cfg.Valid()
  {
    Slice(text, i * cfg.Step(), i * cfg.Step() + cfg.chunkSize)
  }

  /** The chunks `split_text` produces, in closed form: one window per step
      until the start passes the end of the text. */
  function Windows(text: string, cfg: SplitterConfig): seq<string>
    requires cfg.Valid()
  {
    seq(ChunkCount(|text|, cfg.Step()), i requires 0 <= i => Window(text, cfg, i))
  }

  /** `SimpleTextSplitter.split_text`: move a window of `chunk_size`
      characters along the text, `chunk_size - chunk_overlap` characters at
      a time, and collect each window until the start reaches the end. */
  method SplitText(cfg: SplitterConfig, text: string) returns (chunks: seq<string>)
    requires cfg.Valid()
    ensures chunks == Windows(text, cfg)
  {
    var step := cfg.Step();
    chunks := [];
    var start := 0;
    while start < |text|
      invariant 0 <= start == |chunks| * step
      invariant |chunks| == 0 || (|chunks| - 1) * step < |text|
      invariant forall i :: 0 <= i < |chunks| ==> chunks[i] == Window(text, cfg, i)
      decreases |text| - start
    {
      var end := start + cfg.chunkSize;
      chunks := chunks + [Slice(text, start, end)];
      start := end - cfg.chunkOverlap;
      assert start == |chunks| * step by {
        assert start == (|chunks| - 1) * step + step;
      }
      if start >= |text| {
        break;
      }
    }
    CountIsLeastCover(|text|, step, |chunks|);
  }

  /** `a / d == q` whenever `q * d <= a < (q + 1) * d`. */
  lemma {:induction false} DivIsUnique(a: int, d: int, q: int)
    requires d > 0
    requires q * d <= a < (q + 1) * d
    ensures a / d == q
  {
    var r := a / d;
    assert a == r * d + a % d;
    MulIsMonotone(r + 1, q, d);
    MulIsMonotone(q + 1, r, d);
  }

  lemma {:induction false} MulIsMonotone(x: int, y: int, d: nat)
    ensures x <= y ==> x * d <= y * d
  {
  }

  /** The chunk count is the least `c` with `c * step >= n`: the windows
      starting at `0, step, ..., (c-1)*step` all start inside the text, and
      the next start does not. */
  lemma {:induction false} CountIsLeastCover(n: nat, step: nat, c: nat)
    requires step > 0
    requires n <= c * step
    requires c == 0 || (c - 1) * step < n
    ensures c == ChunkCount(n, step)
  {
    if c > 0 {
      assert c * step == (c - 1) * step + step;
    }
    DivIsUnique(n + step - 1, step, c);
  }

  /** Conversely, the chunk count satisfies both bounds. */
  lemma {:induction false} CountBounds(n: nat, step: nat)
    requires step > 0
    ensures n <= ChunkCount(n, step) * step
    ensures ChunkCount(n, step) == 0 || (ChunkCount(n, step) - 1) * step < n
    ensures n == 0 <==> ChunkCount(n, step) == 0
  {
    var c := ChunkCount(n, step);
    var a := n + step - 1;
    assert a == c * step + a % step;
    if c > 0 {
      assert c * step == (c - 1) * step + step;
    }
  }

  /** `split_text("") == []`, and a non-empty text yields at least one chunk:
      chunk `i` is exactly `text[i*step : min(i*step + chunk_size, len)]`, is
      non-empty and holds at most `chunk_size` characters. */
  lemma {:induction false} WindowShape(text: string, cfg: SplitterConfig, i: nat)
    requires cfg.Valid()
    requires i < |Windows(text, cfg)|
    ensures i * cfg.Step() < |text|
    ensures Windows(text, cfg)[i] == text[i * cfg.Step()..Min(i * cfg.Step() + cfg.chunkSize, |text|)]
    ensures 0 < |Windows(text, cfg)[i]| <= cfg.chunkSize
  {
    var n, step, c := |text|, cfg.Step(), |Windows(text, cfg)|;
    CountBounds(n, step);
    assert i * step <= (c - 1) * step;
  }

  lemma {:induction false} EmptyTextHasNoChunks(cfg: SplitterConfig)
    requires cfg.Valid()
    ensures Windows("", cfg) == []
  {
  }

  /** The end of window `i`, clamped to the text. */
  function WindowEnd(n: nat, cfg: SplitterConfig, i: nat): nat
    requires cfg.Valid()
  {
    Min(i * cfg.Step() + cfg.chunkSize, n)
  }

  /** Chunk 0 followed by the overlap-stripped rest of every later chunk. */
  function Reassemble(chunks: seq<string>, overlap: nat): string
  {
    if chunks == [] then "" else chunks[0] + Tails(chunks[1..], overlap)
  }

  /** Each chunk with its first `overlap` characters removed, concatenated. */
  function Tails(chunks: seq<string>, overlap: nat): string
  {
    if chunks == [] then "" else Drop(chunks[0], overlap) + Tails(chunks[1..], overlap)
  }

  /** Coverage: for a non-negative overlap the chunks overlap by exactly
      `chunk_overlap` characters (less at the end of the text), so the first
      chunk followed by every later chunk minus its overlap is the text
      again; no character is lost and none is repeated. */
  lemma {:induction false} ChunksCoverText(text: string, cfg: SplitterConfig)
    requires cfg.Valid() && 0 <= cfg.chunkOverlap
    ensures Reassemble(Windows(text, cfg), cfg.chunkOverlap) == text
  {
    var w := Windows(text, cfg);
    if |w| > 0 {
      WindowShape(text, cfg, 0);
      TailsFrom(text, cfg, 0);
      assert w[1..] == w[1..|w|];
      assert text == text[..WindowEnd(|text|, cfg, 0)] + text[WindowEnd(|text|, cfg, 0)..];
    }
  }

  /** The overlap-stripped chunks after chunk `i` cover the text from the
      end of chunk `i` to the end. */
  lemma {:induction false} TailsFrom(text: string, cfg: SplitterConfig, i: nat)
    requires cfg.Valid() && 0 <= cfg.chunkOverlap
    requires i < |Windows(text, cfg)|
    ensures WindowEnd(|text|, cfg, i) <= |text|
    ensures Tails(Windows(text, cfg)[i + 1..], cfg.chunkOverlap) == text[WindowEnd(|text|, cfg, i)..]
    decreases |Windows(text, cfg)| - i
  {
    if i + 1 == |Windows(text, cfg)| {
      TailsAtEnd(text, cfg, i);
    } else {
      TailsFrom(text, cfg, i + 1);
      TailsBefore(text, cfg, i);
    }
  }

  /** No chunk is left after the last one, and it ends the text. */
  lemma {:induction false} TailsAtEnd(text: string, cfg: SplitterConfig, i: nat)
    requires cfg.Valid() && 0 <= cfg.chunkOverlap
    requires i + 1 == |Windows(text, cfg)|
    ensures WindowEnd(|text|, cfg, i) <= |text|
    ensures Tails(Windows(text, cfg)[i + 1..], cfg.chunkOverlap) == text[WindowEnd(|text|, cfg, i)..]
  {
    var w := Windows(text, cfg);
    LastWindowReachesEnd(text, cfg);
    assert w[i + 1..] == [];
  }

  /** Chunk `i + 1`, stripped, extends the cover of the later chunks back
      to the end of chunk `i`. */
  lemma {:induction false} TailsBefore(text: string, cfg: SplitterConfig, i: nat)
    requires cfg.Valid() && 0 <= cfg.chunkOverlap
    requires i + 1 < |Windows(text, cfg)|
    requires Tails(Windows(text, cfg)[i + 2..], cfg.chunkOverlap) == text[WindowEnd(|text|, cfg, i + 1)..]
    ensures WindowEnd(|text|, cfg, i) <= |text|
    ensures Tails(Windows(text, cfg)[i + 1..], cfg.chunkOverlap) == text[WindowEnd(|text|, cfg, i)..]
  {
    var w, n, ov := Windows(text, cfg), |text|, cfg.chunkOverlap;
    StrippedWindow(text, cfg, i);
    TailsStep(w, i + 1, ov);
    SliceAt(text, WindowEnd(n, cfg, i), WindowEnd(n, cfg, i + 1));
  }

  /** A suffix of a string is its slice up to `e1` followed by the rest. */
  lemma {:induction false} SliceAt(s: string, e0: nat, e1: nat)
    requires e0 <= e1 <= |s|
    ensures s[e0..] == s[e0..e1] + s[e1..]
  {
  }

  /** Unfolding `Tails` once on a suffix of the chunks. */
  lemma {:induction false} TailsStep(chunks: seq<string>, j: nat, overlap: nat)
    requires j < |chunks|
    ensures Tails(chunks[j..], overlap) == Drop(chunks[j], overlap) + Tails(chunks[j + 1..], overlap)
  {
    assert chunks[j..][1..] == chunks[j + 1..];
  }

  /** The last chunk runs to the end of the text. */
  lemma {:induction false} LastWindowReachesEnd(text: string, cfg: SplitterConfig)
    requires cfg.Valid() && 0 <= cfg.chunkOverlap
    requires 0 < |Windows(text, cfg)|
    ensures WindowEnd(|text|, cfg, |Windows(text, cfg)| - 1) == |text|
  {
    var n, step, c := |text|, cfg.Step(), |Windows(text, cfg)|;
    CountBounds(n, step);
    assert c * step == (c - 1) * step + step;
  }

  /** Chunk `i + 1` minus its first `chunk_overlap` characters is the text
      from the end of chunk `i` to the end of chunk `i + 1`. */
  lemma {:induction false} StrippedWindow(text: string, cfg: SplitterConfig, i: nat)
    requires cfg.Valid() && 0 <= cfg.chunkOverlap
    requires i + 1 < |Windows(text, cfg)|
    ensures WindowEnd(|text|, cfg, i) <= WindowEnd(|text|, cfg, i + 1)
    ensures Drop(Windows(text, cfg)[i + 1], cfg.chunkOverlap)
         == text[WindowEnd(|text|, cfg, i)..WindowEnd(|text|, cfg, i + 1)]
  {
    var w, n, step, ov := Windows(text, cfg), |text|, cfg.Step(), cfg.chunkOverlap;
    WindowShape(text, cfg, i + 1);
    var p := i * step;
    assert (i + 1) * step == p + step;
    var e0, e1 := WindowEnd(n, cfg, i), WindowEnd(n, cfg, i + 1);
    if ov <= |w[i + 1]| {
      assert Drop(w[i + 1], ov) == text[(i + 1) * step + ov..e1];
    } else {
      assert e1 == n && e0 == n;
    }
  }

  /** The kinds of file `process_document` can read. */
  datatype FileKind = Pdf | PlainText

  /** The index of the last occurrence of `c` in `s`, or -1. */
  function LastIndexOf(s: string, c: char): (r: int)
    ensures -1 <= r < |s|
    ensures r >= 0 ==> s[r] == c
    ensures forall i :: r < i < |s| ==> s[i] != c
  {
    if |s| == 0 then -1
    else if s[|s| - 1] == c then |s| - 1
    else LastIndexOf(s[..|s| - 1], c)
  }

  /** Pins down `LastIndexOf` from an occurrence with no later one. */
  lemma {:induction false} LastIndexOfIs(s: string, c: char, k: int)
    requires -1 <= k < |s| && (k >= 0 ==> s[k] == c)
    requires forall i :: k < i < |s| ==> s[i] != c
    ensures LastIndexOf(s, c) == k
  {
  }

  /** `Path(path).name` for a path with no trailing '/' and no "."
      component: the final component, after the last '/'. */
  function BaseName(path: string): (r: string)
    ensures |r| <= |path| && r == path[|path| - |r|..]
    ensures forall i :: 0 <= i < |r| ==> r[i] != '/'
  {
    path[LastIndexOf(path, '/') + 1..]
  }

  /** `Path(path).suffix`: the final component from its last dot on,
      provided that dot is neither the first nor the last character of the
      component; otherwise empty. */
  function Suffix(path: string): (r: string)
    ensures r == "" || (|r| >= 2 && r[0] == '.')
    ensures forall i :: 0 <= i < |r| ==> r[i] != '/'
    ensures forall i :: 1 <= i < |r| ==> r[i] != '.'
  {
    var name := BaseName(path);
    var i := LastIndexOf(name, '.');
    if 0 < i < |name| - 1 then name[i..] else ""
  }

  /** The reader `process_document` chooses from the lower-cased suffix. */
  function DetectKind(name: string): Result<FileKind, Error>
  {
    var ext := Lower(Suffix(name));
    if ext == ".pdf" then Ok(Pdf)
    else if ext == ".txt" || ext == ".text" then Ok(PlainText)
    else Err(ValueError("Unsupported file type: " + Suffix(name)))
  }

  /** The extensions the suffix test accepts, lower-cased. */
  predicate KnownExtension(ext: string)
  {
    ext == ".pdf" || ext == ".txt" || ext == ".text"
  }

  /** The suffix test accepts exactly the three extensions, in any case. */
  lemma {:induction false} DetectKindAccepts(name: string)
    ensures DetectKind(name).Ok? <==> KnownExtension(Lower(Suffix(name)))
  {
  }

  lemma {:induction false} DetectKindCases(name: string)
    ensures DetectKind(name) == Ok(Pdf) <==> Lower(Suffix(name)) == ".pdf"
    ensures DetectKind(name) == Ok(PlainText) <==> Lower(Suffix(name)) in {".txt", ".text"}
    ensures DetectKind(name).Err? ==> DetectKind(name).error.ValueError?
  {
  }

  /** The chunk documents of one file: document `i` carries chunk `i` as its
      page content and `{"source": name, "chunk": i}` as its metadata. */
  function Tag(name: string, chunks: seq<string>): seq<Document>
  {
    seq(|chunks|, i requires 0 <= i < |chunks| => Document(chunks[i], Metadata(Some(name), Some(i), None)))
  }

  /** Tagging loses nothing: reading the page contents back gives the
      chunks, in order, and every document names the file and its own
      position. */
  lemma {:induction false} TagIsFaithful(name: string, chunks: seq<string>)
    ensures Texts(Tag(name, chunks)) == chunks
    ensures forall i :: 0 <= i < |chunks| ==>
      Tag(name, chunks)[i].metadata == Metadata(Some(name), Some(i), None)
  {
  }

  /** The text `process_document` extracts: the reader is chosen by the
      suffix (`read` stands for the PDF and text readers, `None` when the
      read raises); an unknown suffix raises `ValueError` before anything
      is read. */
  function Extracted(name: string, read: FileKind -> Option<string>): Result<string, Error>
  {
    match DetectKind(name)
    case Err(e) => Err(e)
    case Ok(kind) => if read(kind).Some? then Ok(read(kind).value) else Err(ExtractionFailed)
  }

  /** `DocumentProcessor.process_document`: extract the text, split it and
      tag the chunks with the file's name, the path's final component. */
  method ProcessDocument(cfg: SplitterConfig, name: string, read: FileKind -> Option<string>)
    returns (r: Result<seq<Document>, Error>)
    requires cfg.Valid()
    ensures Extracted(name, read).Err? ==> r == Err(Extracted(name, read).error)
    ensures Extracted(name, read).Ok? ==> r == Ok(Tag(BaseName(name), Windows(Extracted(name, read).value, cfg)))
  {
    var kind := DetectKind(name);
    if kind.Err? {
      return Err(kind.error);
    }
    var text := read(kind.value);
    if text.None? {
      return Err(ExtractionFailed);
    }
    var chunks := SplitText(cfg, text.value);
    r := Ok(Tag(BaseName(name), chunks));
  }
}
