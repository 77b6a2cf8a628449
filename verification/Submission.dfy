/** src/fileset.{hpp,cc} and the submission loop of src/main.cc: the files to post, their pieces, and the
    articles main builds for them. */
module Submission {
  import opened Text
  import opened Message
  import opened Parts
  import opened PoolModel
  import opened IdTheory
  import MessageId

  const LINE_SIZE := 128

  datatype Input = Input(name: string, content: seq<byte>)

  /** The settings that shape the articles; `crc` stands for boost::crc_32_type. */
  datatype Settings = Settings(
    from: string, subject: string, groups: seq<string>, domain: string, articleSize: nat, crc: seq<byte> -> nat)

  // ---- What main submits ------------------------------------------------------------------------------

  function PiecesOf(cfg: Settings, input: Input): nat
    requires cfg.articleSize > 0
  {
    NumParts(|input.content|, cfg.articleSize)
  }

  /** get_usenet_subject */
  function Subject(subject: string, fileIndex: nat, numFiles: nat, name: string, pieceIndex: nat, numPieces: nat): string
  {
    subject + " [" + Digits(fileIndex + 1, 10) + "/" + Digits(numFiles, 10) + "] - \"" + name
    + "\" yEnc (" + Digits(pieceIndex + 1, 10) + "/" + Digits(numPieces, 10) + ")"
  }

  function ChunkPart(cfg: Settings, input: Input, p: nat): PartInfo
    requires cfg.articleSize > 0
  {
    FilePart(input.name, input.content, cfg.articleSize, LINE_SIZE, p, cfg.crc)
  }

  function Chunk(cfg: Settings, input: Input, p: nat): string
    requires cfg.articleSize > 0
  {
    PartText(ChunkPart(cfg, input, p))
  }

  function PieceAt(cfg: Settings, inputs: seq<Input>, nonce: string, f: nat, p: nat): Piece
    requires cfg.articleSize > 0 && f < |inputs|
  {
    var subject := Subject(cfg.subject, f, |inputs|, inputs[f].name, p, PiecesOf(cfg, inputs[f]));
    Piece(MessageId.Key(f, p),
          Article(Header(cfg.from, cfg.groups, subject, MessageId.Print(nonce, cfg.domain, MessageId.Key(f, p)), []),
                  [Chunk(cfg, inputs[f], p)]))
  }

  /** The pieces of file f, in order. */
  function FilePieces(cfg: Settings, inputs: seq<Input>, nonce: string, f: nat): seq<Piece>
    requires cfg.articleSize > 0 && f < |inputs|
  {
    seq(PiecesOf(cfg, inputs[f]), p requires 0 <= p => PieceAt(cfg, inputs, nonce, f, p))
  }

  function PerFile(cfg: Settings, inputs: seq<Input>, nonce: string): seq<seq<Piece>>
    requires cfg.articleSize > 0
  {
    seq(|inputs|, f requires 0 <= f < |inputs| => FilePieces(cfg, inputs, nonce, f))
  }

  function Flatten<T>(xss: seq<seq<T>>): seq<T>
  {
    if xss == [] then [] else Flatten(xss[..|xss| - 1]) + xss[|xss| - 1]
  }

  /** The pieces of all files, file after file. */
  function Pieces(cfg: Settings, inputs: seq<Input>, nonce: string): seq<Piece>
    requires cfg.articleSize > 0
  {
    Flatten(PerFile(cfg, inputs, nonce))
  }

  /** The number of pieces of the first n files. */
  function Offset(cfg: Settings, inputs: seq<Input>, n: nat): nat
    requires cfg.articleSize > 0 && n <= |inputs|
  {
    if n == 0 then 0 else Offset(cfg, inputs, n - 1) + PiecesOf(cfg, inputs[n - 1])
  }

  function PieceSizes(cfg: Settings, input: Input, p: nat): map<nat, nat>
    requires cfg.articleSize > 0
  {
    map q | 0 <= q < p :: |Chunk(cfg, input, q)|
  }

  // ---- fileset ----------------------------------------------------------------------------------------

  class Fileset {
    const articleSize: nat
    const crc: seq<byte> -> nat
    var files: seq<string>
    var filehandles: seq<YencGenerator>

    /** Every file has its own open stream. */
    ghost predicate Valid()
      reads this, filehandles
    {
      && articleSize > 0 && |files| == |filehandles|
      && (forall i :: 0 <= i < |filehandles| ==>
            var g := filehandles[i];
            g.Valid() && g.name == files[i] && g.articleSize == articleSize && g.lineSize == LINE_SIZE && g.crc == crc)
      && (forall i, j :: 0 <= i < j < |filehandles| ==> filehandles[i].file != filehandles[j].file)
    }

    ghost function Inputs(): (r: seq<Input>)
      requires Valid()
      reads this, filehandles
    {
      seq(|filehandles|, i requires 0 <= i < |filehandles| reads this => Input(filehandles[i].name, filehandles[i].file.content))
    }

    constructor (articleSize: nat, crc: seq<byte> -> nat)
      requires articleSize > 0
      ensures Valid() && Inputs() == [] && this.articleSize == articleSize && this.crc == crc
    {
      this.articleSize := articleSize;
      this.crc := crc;
      files, filehandles := [], [];
    }

    method AddFile(name: string, content: seq<byte>, regular: bool) returns (added: bool)
      requires Valid()
      modifies this
      ensures Valid() && added == regular
      ensures Inputs() == old(Inputs()) + if regular then [Input(name, content)] else []
      ensures old(filehandles) <= filehandles
      ensures regular ==> fresh(filehandles[|filehandles| - 1].file) && !filehandles[|filehandles| - 1].file.failed
    {
      if !regular {
        return false;
      }
      files := files + [name];
      var g := new YencGenerator(name, content, articleSize, LINE_SIZE, crc);
      filehandles := filehandles + [g];
      return true;
    }

    /** get_total_pieces */
    method TotalPieces() returns (ret: nat)
      requires Valid()
      ensures ret == Offset(Settings("", "", [], "", articleSize, crc), Inputs(), |files|)
    {
      ret := 0;
      ghost var cfg := Settings("", "", [], "", articleSize, crc);
      for i := 0 to |filehandles|
        invariant ret == Offset(cfg, Inputs(), i)
      {
        assert filehandles[i].numParts == PiecesOf(cfg, Inputs()[i]);
        ret := ret + filehandles[i].numParts;
      }
    }

    /** get_chunk; vector::at throws for an index out of range. */
    method GetChunk(fileIndex: nat, pieceIndex: nat) returns (chunk: Option<string>)
      requires Valid()
      modifies if fileIndex < |filehandles| then {filehandles[fileIndex].file} else {}
      ensures Valid() && chunk.Some? == (fileIndex < |filehandles|)
      ensures chunk.Some? ==>
        var g := filehandles[fileIndex];
        var data := Delivered(g.file.content, articleSize, pieceIndex, old(g.file.failed));
        && chunk.value == PartText(PartOf(g.name, g.fileSize, articleSize, LINE_SIZE, pieceIndex, data, crc(data)))
        && g.file.failed == (old(g.file.failed) || |data| < articleSize)
    {
      if fileIndex >= |filehandles| {
        return None;
      }
      var ret := filehandles[fileIndex].GetPart(pieceIndex);
      return Some(ret);
    }
  }

  ghost function Streams(files: Fileset): set<InputFile>
    reads files
  {
    set i | 0 <= i < |files.filehandles| :: files.filehandles[i].file
  }

  ghost predicate Matches(files: Fileset, cfg: Settings)
  {
    cfg.articleSize == files.articleSize > 0 && cfg.crc == files.crc
  }

  // ---- The submission loop -----------------------------------------------------------------------------

  /** The body of the inner loop: one chunk, its article, its size. */
  method BuildPiece(files: Fileset, cfg: Settings, nonce: string, fileIndex: nat, pieceIndex: nat)
    returns (piece: Piece, size: nat)
    requires files.Valid() && Matches(files, cfg) && fileIndex < |files.filehandles|
    requires !files.filehandles[fileIndex].file.failed
    modifies files.filehandles[fileIndex].file
    ensures files.Valid()
    ensures piece == PieceAt(cfg, files.Inputs(), nonce, fileIndex, pieceIndex)
    ensures size == |Chunk(cfg, files.Inputs()[fileIndex], pieceIndex)|
    ensures files.filehandles[fileIndex].file.failed
         == IsShort(files.filehandles[fileIndex].file.content, cfg.articleSize, pieceIndex)
  {
    var g := files.filehandles[fileIndex];
    var got := files.GetChunk(fileIndex, pieceIndex);
    var chunk := got.value;
    assert chunk == Chunk(cfg, files.Inputs()[fileIndex], pieceIndex);
    size := |chunk|;
    var subject := Subject(cfg.subject, fileIndex, |files.files|, files.files[fileIndex], pieceIndex, g.numParts);
    var msgid := MessageId.Print(nonce, cfg.domain, MessageId.Key(fileIndex, pieceIndex));
    var header := Header(cfg.from, cfg.groups, subject, msgid, []);
    piece := Piece(MessageId.Key(fileIndex, pieceIndex), Article(header, [chunk]));
  }

  lemma NotShort(content: seq<byte>, articleSize: nat, i: nat)
    requires articleSize > 0 && i < NumParts(|content|, articleSize)
    ensures i + 1 < NumParts(|content|, articleSize) ==> !IsShort(content, articleSize, i)
  {
    OnlyLastIsShort(|content|, articleSize, i);
  }

  /** One turn of the inner loop, on the lists. */
  lemma PieceStep(cfg: Settings, inputs: seq<Input>, nonce: string, f: nat, p: nat)
    requires cfg.articleSize > 0 && f < |inputs| && p < PiecesOf(cfg, inputs[f])
    ensures FilePieces(cfg, inputs, nonce, f)[..p + 1]
         == FilePieces(cfg, inputs, nonce, f)[..p] + [PieceAt(cfg, inputs, nonce, f, p)]
    ensures PieceSizes(cfg, inputs[f], p + 1) == PieceSizes(cfg, inputs[f], p)[p := |Chunk(cfg, inputs[f], p)|]
  {
  }

  /** One file of the submission loop: its articles are handed on in order, its piece sizes recorded. */
  method SubmitFile(files: Fileset, cfg: Settings, nonce: string, fileIndex: nat)
    returns (posts: seq<Piece>, sizes: map<nat, nat>)
    requires files.Valid() && Matches(files, cfg) && fileIndex < |files.filehandles|
    requires !files.filehandles[fileIndex].file.failed
    modifies files.filehandles[fileIndex].file
    ensures files.Valid()
    ensures posts == FilePieces(cfg, files.Inputs(), nonce, fileIndex)
    ensures sizes == FileSizes(cfg, files.Inputs()[fileIndex])
  {
    ghost var inputs := files.Inputs();
    var g := files.filehandles[fileIndex];
    posts, sizes := [], map[];
    for pieceIndex := 0 to g.numParts
      invariant files.Valid() && files.Inputs() == inputs && g.numParts == PiecesOf(cfg, inputs[fileIndex])
      invariant pieceIndex < g.numParts ==> !g.file.failed
      invariant posts == FilePieces(cfg, inputs, nonce, fileIndex)[..pieceIndex]
      invariant sizes == PieceSizes(cfg, inputs[fileIndex], pieceIndex)
    {
      NotShort(g.file.content, cfg.articleSize, pieceIndex);
      PieceStep(cfg, inputs, nonce, fileIndex, pieceIndex);
      var piece, size := BuildPiece(files, cfg, nonce, fileIndex, pieceIndex);
      sizes := sizes[pieceIndex := size];
      posts := posts + [piece];
    }
  }

  lemma FlattenStep<T>(xss: seq<seq<T>>, n: nat)
    requires n < |xss|
    ensures Flatten(xss[..n + 1]) == Flatten(xss[..n]) + xss[n]
  {
    assert xss[..n + 1][..n] == xss[..n];
  }

  /** One turn of the outer loop, on the lists. */
  lemma FileStep(cfg: Settings, inputs: seq<Input>, nonce: string, f: nat)
    requires cfg.articleSize > 0 && f < |inputs|
    ensures Flatten(PerFile(cfg, inputs, nonce)[..f + 1])
         == Flatten(PerFile(cfg, inputs, nonce)[..f]) + FilePieces(cfg, inputs, nonce, f)
    ensures AllSizes(cfg, inputs)[..f + 1] == AllSizes(cfg, inputs)[..f] + [FileSizes(cfg, inputs[f])]
  {
    FlattenStep(PerFile(cfg, inputs, nonce), f);
  }

  lemma AllFiles(cfg: Settings, inputs: seq<Input>, nonce: string)
    requires cfg.articleSize > 0
    ensures Flatten(PerFile(cfg, inputs, nonce)[..|inputs|]) == Pieces(cfg, inputs, nonce)
    ensures AllSizes(cfg, inputs)[..|inputs|] == AllSizes(cfg, inputs)
  {
    assert PerFile(cfg, inputs, nonce)[..|inputs|] == PerFile(cfg, inputs, nonce);
  }

  /** The submission loop of main: enqueue_post is called with these articles, in this order. */
  method SubmitAll(files: Fileset, cfg: Settings, nonce: string) returns (posts: seq<Piece>, pieceSizes: seq<map<nat, nat>>)
    requires files.Valid() && Matches(files, cfg)
    requires forall i :: 0 <= i < |files.filehandles| ==> !files.filehandles[i].file.failed
    modifies Streams(files)
    ensures files.Valid()
    ensures posts == Pieces(cfg, files.Inputs(), nonce)
    ensures pieceSizes == AllSizes(cfg, files.Inputs())
  {
    ghost var inputs := files.Inputs();
    posts, pieceSizes := [], [];
    for fileIndex := 0 to |files.files|
      invariant files.Valid() && files.Inputs() == inputs
      invariant forall i :: fileIndex <= i < |files.filehandles| ==> !files.filehandles[i].file.failed
      invariant posts == Flatten(PerFile(cfg, inputs, nonce)[..fileIndex])
      invariant pieceSizes == AllSizes(cfg, inputs)[..fileIndex]
    {
      assert files.filehandles[fileIndex].file in Streams(files);
      var more, sizes := SubmitFile(files, cfg, nonce, fileIndex);
      FileStep(cfg, inputs, nonce, fileIndex);
      posts := posts + more;
      pieceSizes := pieceSizes + [sizes];
    }
    AllFiles(cfg, inputs, nonce);
  }

  function FileSizes(cfg: Settings, input: Input): map<nat, nat>
    requires cfg.articleSize > 0
  {
    PieceSizes(cfg, input, PiecesOf(cfg, input))
  }

  function AllSizes(cfg: Settings, inputs: seq<Input>): seq<map<nat, nat>>
    requires cfg.articleSize > 0
  {
    seq(|inputs|, i requires 0 <= i < |inputs| => FileSizes(cfg, inputs[i]))
  }

  // ---- The pieces as a list -----------------------------------------------------------------------------

  function Before<T>(xss: seq<seq<T>>, n: nat): nat
    requires n <= |xss|
  {
    if n == 0 then 0 else Before(xss, n - 1) + |xss[n - 1]|
  }

  lemma {:induction false} BeforePrefix<T>(xss: seq<seq<T>>, m: nat, n: nat)
    requires n <= m <= |xss|
    ensures Before(xss[..m], n) == Before(xss, n)
  {
    if n > 0 {
      BeforePrefix(xss, m, n - 1);
    }
  }

  lemma {:induction false} FlattenLength<T>(xss: seq<seq<T>>)
    ensures |Flatten(xss)| == Before(xss, |xss|)
  {
    if xss != [] {
      FlattenLength(xss[..|xss| - 1]);
      BeforePrefix(xss, |xss| - 1, |xss| - 1);
    }
  }

  lemma {:induction false} FlattenAt<T>(xss: seq<seq<T>>, f: nat, p: nat)
    requires f < |xss| && p < |xss[f]|
    ensures Before(xss, f) + p < |Flatten(xss)|
    ensures Flatten(xss)[Before(xss, f) + p] == xss[f][p]
  {
    var init := xss[..|xss| - 1];
    FlattenLength(init);
    BeforePrefix(xss, |xss| - 1, |xss| - 1);
    if f < |xss| - 1 {
      FlattenAt(init, f, p);
      BeforePrefix(xss, |xss| - 1, f);
    }
  }

  lemma {:induction false} FlattenBehind<T>(xss: seq<seq<T>>, j: nat) returns (f: nat, p: nat)
    requires j < |Flatten(xss)|
    ensures f < |xss| && p < |xss[f]| && j == Before(xss, f) + p
  {
    var init := xss[..|xss| - 1];
    FlattenLength(init);
    BeforePrefix(xss, |xss| - 1, |xss| - 1);
    if j < |Flatten(init)| {
      f, p := FlattenBehind(init, j);
      BeforePrefix(xss, |xss| - 1, f);
    } else {
      f, p := |xss| - 1, j - |Flatten(init)|;
    }
  }

  lemma {:induction false} OffsetIs(cfg: Settings, inputs: seq<Input>, nonce: string, n: nat)
    requires cfg.articleSize > 0 && n <= |inputs|
    ensures Before(PerFile(cfg, inputs, nonce), n) == Offset(cfg, inputs, n)
  {
    if n > 0 {
      OffsetIs(cfg, inputs, nonce, n - 1);
    }
  }

  /** Piece p of file f is the article number Offset(f) + p. */
  lemma {:induction false} PieceIndex(cfg: Settings, inputs: seq<Input>, nonce: string, f: nat, p: nat)
    requires cfg.articleSize > 0 && f < |inputs| && p < PiecesOf(cfg, inputs[f])
    ensures Offset(cfg, inputs, f) + p < |Pieces(cfg, inputs, nonce)|
    ensures Pieces(cfg, inputs, nonce)[Offset(cfg, inputs, f) + p] == PieceAt(cfg, inputs, nonce, f, p)
  {
    FlattenAt(PerFile(cfg, inputs, nonce), f, p);
    OffsetIs(cfg, inputs, nonce, f);
  }

  /** And every article is a piece of a file. */
  lemma Locate(cfg: Settings, inputs: seq<Input>, nonce: string, j: nat) returns (f: nat, p: nat)
    requires cfg.articleSize > 0 && j < |Pieces(cfg, inputs, nonce)|
    ensures f < |inputs| && p < PiecesOf(cfg, inputs[f]) && j == Offset(cfg, inputs, f) + p
  {
    f, p := FlattenBehind(PerFile(cfg, inputs, nonce), j);
    OffsetIs(cfg, inputs, nonce, f);
  }

  lemma {:induction false} PieceBehind(cfg: Settings, inputs: seq<Input>, nonce: string, j: nat) returns (f: nat, p: nat)
    requires cfg.articleSize > 0 && j < |Pieces(cfg, inputs, nonce)|
    ensures f < |inputs| && p < PiecesOf(cfg, inputs[f]) && j == Offset(cfg, inputs, f) + p
    ensures Pieces(cfg, inputs, nonce)[j] == PieceAt(cfg, inputs, nonce, f, p)
  {
    f, p := Locate(cfg, inputs, nonce, j);
    PieceIndex(cfg, inputs, nonce, f, p);
  }

  /** The step system is run with what the submission loop submits. */
  ghost predicate Submits(run: Config, cfg: Settings, inputs: seq<Input>)
  {
    && cfg.articleSize > 0
    && run.posts == Pieces(cfg, inputs, run.nonce)
    && run.domain == cfg.domain && MessageId.IsNonce(run.nonce, 16)
  }

  /** The articles of the submission loop are one for every piece: keys are distinct, and every header has
      the id of its key. */
  lemma SubmissionIsValid(run: Config, cfg: Settings, inputs: seq<Input>)
    requires Submits(run, cfg, inputs)
    ensures ValidConfig(run)
    ensures |run.posts| == Offset(cfg, inputs, |inputs|)
  {
    FlattenLength(PerFile(cfg, inputs, run.nonce));
    OffsetIs(cfg, inputs, run.nonce, |inputs|);
    forall i, j | 0 <= i < j < |run.posts|
      ensures run.posts[i].key != run.posts[j].key
    {
      var f1, p1 := PieceBehind(cfg, inputs, run.nonce, i);
      var f2, p2 := PieceBehind(cfg, inputs, run.nonce, j);
    }
    forall i | 0 <= i < |run.posts|
      ensures ValidPiece(run, run.posts[i])
    {
      var f, p := PieceBehind(cfg, inputs, run.nonce, i);
    }
  }

  // ---- The STAT loop -----------------------------------------------------------------------------------

  function FileIds(cfg: Settings, inputs: seq<Input>, nonce: string, f: nat): seq<string>
    requires cfg.articleSize > 0 && f < |inputs|
  {
    seq(PiecesOf(cfg, inputs[f]), p requires 0 <= p => MessageId.Print(nonce, cfg.domain, MessageId.Key(f, p)))
  }

  function IdsPerFile(cfg: Settings, inputs: seq<Input>, nonce: string): seq<seq<string>>
    requires cfg.articleSize > 0
  {
    seq(|inputs|, f requires 0 <= f < |inputs| => FileIds(cfg, inputs, nonce, f))
  }

  /** The ids main asks for: those of the run nonce, whatever became of the articles. */
  function StatIds(cfg: Settings, inputs: seq<Input>, nonce: string): seq<string>
    requires cfg.articleSize > 0
  {
    Flatten(IdsPerFile(cfg, inputs, nonce))
  }

  /** The loop after the submission loop: enqueue_stat is called with these ids, in this order. */
  method SubmitStats(files: Fileset, cfg: Settings, nonce: string, validatePosts: bool) returns (stats: seq<string>)
    requires files.Valid() && Matches(files, cfg)
    ensures stats == if validatePosts then StatIds(cfg, files.Inputs(), nonce) else []
  {
    stats := [];
    if validatePosts {
      ghost var inputs := files.Inputs();
      ghost var perFile := IdsPerFile(cfg, inputs, nonce);
      for fileIndex := 0 to |files.files|
        invariant stats == Flatten(perFile[..fileIndex])
      {
        ghost var before := stats;
        ghost var ids := FileIds(cfg, inputs, nonce, fileIndex);
        var numPieces := files.filehandles[fileIndex].numParts;
        assert numPieces == PiecesOf(cfg, inputs[fileIndex]);
        for pieceIndex := 0 to numPieces
          invariant stats == before + ids[..pieceIndex]
        {
          var id := MessageId.Print(nonce, cfg.domain, MessageId.Key(fileIndex, pieceIndex));
          assert id == ids[pieceIndex] && ids[..pieceIndex + 1] == ids[..pieceIndex] + [id];
          Assoc(before, ids[..pieceIndex], [id]);
          stats := stats + [id];
        }
        assert ids[..numPieces] == ids == perFile[fileIndex];
        FlattenStep(perFile, fileIndex);
      }
      assert perFile[..|inputs|] == perFile;
    }
  }

  lemma {:induction false} SameOffsets(cfg: Settings, inputs: seq<Input>, nonce: string, n: nat)
    requires cfg.articleSize > 0 && n <= |inputs|
    ensures Before(IdsPerFile(cfg, inputs, nonce), n) == Offset(cfg, inputs, n)
  {
    if n > 0 {
      SameOffsets(cfg, inputs, nonce, n - 1);
    }
  }

  /** One STAT for every article, in the same order: the one for article j names the id j was submitted with. */
  lemma {:induction false} StatIdsAre(cfg: Settings, inputs: seq<Input>, nonce: string, j: nat)
    requires cfg.articleSize > 0
    ensures |StatIds(cfg, inputs, nonce)| == |Pieces(cfg, inputs, nonce)|
    ensures j < |Pieces(cfg, inputs, nonce)| ==>
      StatIds(cfg, inputs, nonce)[j] == MessageId.Print(nonce, cfg.domain, Pieces(cfg, inputs, nonce)[j].key)
  {
    FlattenLength(IdsPerFile(cfg, inputs, nonce));
    FlattenLength(PerFile(cfg, inputs, nonce));
    SameOffsets(cfg, inputs, nonce, |inputs|);
    OffsetIs(cfg, inputs, nonce, |inputs|);
    if j < |Pieces(cfg, inputs, nonce)| {
      var f, p := PieceBehind(cfg, inputs, nonce, j);
      SameOffsets(cfg, inputs, nonce, f);
      FlattenAt(IdsPerFile(cfg, inputs, nonce), f, p);
    }
  }
}
