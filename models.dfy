/** The model store of `src-tauri/src/model.rs`: the fixed key of each
    speech-recognition model, where a downloaded model lives on disk, and the
    get / download / get-or-download sequence.

    Everything foreign is an input: the home directory (`dirs::home_dir`), the
    outcome of creating `~/.sotto`, the HTTP replies of the model index and of
    the model files, and the outcomes of creating the model file and of writing
    each chunk. The filesystem is a `FileSystem` object whose directories and
    files the operations update in place. */
module Models {
  import opened Wrappers
  import opened Errors

  newtype byte = x: int | 0 <= x < 0x100

  /** The models Sotto can download. */
  datatype Model = WhisperTiny | WhisperBase | WhisperSmall | WhisperMedium | WhisperLarge

  /** The five keys used both in the model index and in the file names. */
  const IDENTIFIERS: set<string> :=
    {"whisper_tiny", "whisper_base", "whisper_small", "whisper_medium", "whisper_large"}

  /** `Model::to_identifier`. */
  function ToIdentifier(m: Model): (key: string)
    ensures key in IDENTIFIERS
  {
    match m
    case WhisperTiny => "whisper_tiny"
    case WhisperBase => "whisper_base"
    case WhisperSmall => "whisper_small"
    case WhisperMedium => "whisper_medium"
    case WhisperLarge => "whisper_large"
  }

  /** Distinct models have distinct keys, so no two models share an index
      entry or a file. */
  lemma ToIdentifierInjective(m1: Model, m2: Model)
    ensures ToIdentifier(m1) == ToIdentifier(m2) <==> m1 == m2
  {
    if m1 != m2 {
      var k1, k2 := ToIdentifier(m1), ToIdentifier(m2);
      if |k1| == |k2| {
        // equal lengths: the keys differ at position 8 ('t'/'b' or 's'/'l')
        assert k1[8] != k2[8];
      }
    }
  }

  /** Every listed key is the key of some model. */
  lemma IdentifiersAreKeys(key: string)
    requires key in IDENTIFIERS
    ensures exists m :: ToIdentifier(m) == key
  {
    if key == "whisper_tiny" { assert ToIdentifier(WhisperTiny) == key; }
    else if key == "whisper_base" { assert ToIdentifier(WhisperBase) == key; }
    else if key == "whisper_small" { assert ToIdentifier(WhisperSmall) == key; }
    else if key == "whisper_medium" { assert ToIdentifier(WhisperMedium) == key; }
    else { assert ToIdentifier(WhisperLarge) == key; }
  }

  // ---------------------------------------------------------------------
  // Paths

  /** `PathBuf::join` of a relative component: a separator is inserted unless
      the base is empty or already ends in one. */
  function Join(base: string, component: string): (p: string)
    ensures p == base + component || p == base + "/" + component
    ensures |p| >= |base| + |component|
  {
    if |base| == 0 || base[|base| - 1] == '/' then base + component else base + "/" + component
  }

  /** `~/.sotto`. */
  function SottoDir(home: string): (dir: string)
    ensures dir == home + ".sotto" || dir == home + "/.sotto"
    ensures |dir| > 0 && dir[|dir| - 1] != '/'
  {
    Join(home, ".sotto")
  }

  /** `~/.sotto/{key}.bin`, the one path both `get` and `download` use. */
  function ModelPath(home: string, m: Model): (p: string)
    ensures p == SottoDir(home) + "/" + ToIdentifier(m) + ".bin"
  {
    Join(SottoDir(home), ToIdentifier(m) + ".bin")
  }

  /** Under one home directory distinct models are stored at distinct paths. */
  lemma ModelPathInjective(home: string, m1: Model, m2: Model)
    ensures ModelPath(home, m1) == ModelPath(home, m2) <==> m1 == m2
  {
    if ModelPath(home, m1) == ModelPath(home, m2) {
      var d := SottoDir(home) + "/";
      var k1, k2 := ToIdentifier(m1), ToIdentifier(m2);
      assert ModelPath(home, m1) == d + (k1 + ".bin");
      assert ModelPath(home, m2) == d + (k2 + ".bin");
      assert k1 + ".bin" == ModelPath(home, m1)[|d|..];
      assert k2 + ".bin" == ModelPath(home, m2)[|d|..];
      assert k1 == (k1 + ".bin")[..|k1|];
      assert k2 == (k2 + ".bin")[..|k2|];
      ToIdentifierInjective(m1, m2);
    }
  }

  /** Creating `~/.sotto` never makes the model path exist. */
  lemma ModelPathIsNotSottoDir(home: string, m: Model)
    ensures ModelPath(home, m) != SottoDir(home)
  {
    assert |ModelPath(home, m)| > |SottoDir(home)|;
  }

  // ---------------------------------------------------------------------
  // The filesystem

  /** The files and directories that exist, with the contents of each file. */
  class FileSystem {
    var dirs: set<string>
    var files: map<string, seq<byte>>

    constructor (dirs: set<string>, files: map<string, seq<byte>>)
      ensures this.dirs == dirs && this.files == files
    {
      this.dirs := dirs;
      this.files := files;
    }

    /** `Path::exists`: true of directories and of files. */
    predicate Exists(p: string)
      reads this
    {
      p in dirs || p in files
    }
  }

  // ---------------------------------------------------------------------
  // HTTP replies, as inputs

  /** `StatusCode::is_success`. */
  predicate IsSuccess(status: u16) {
    200 <= status <= 299
  }

  /** The body of the index reply: reading it as text can fail, and the text
      may not parse as a string-to-string map. */
  datatype IndexBody = TextFailed | Unparsable | Parsed(entries: map<string, string>)

  /** The reply to the request for the model index. */
  datatype IndexReply = IndexUnreachable | IndexResponse(status: u16, body: IndexBody)

  /** One item of a model's body stream. */
  datatype Chunk = Bytes(data: seq<byte>) | CorruptChunk

  /** The reply to the request for a model file. */
  datatype ModelResponse = ModelResponse(status: u16, stream: seq<Chunk>)

  /** What the network answers: the index reply, and a reply for each URL that
      can be reached (a URL not in `models` fails to send). */
  datatype Network = Network(index: IndexReply, models: map<string, ModelResponse>)

  /** Outcomes of the disk operations of `download`: whether `File::create`
      fails, and the positions of the chunks whose `write_all` fails. */
  datatype Disk = Disk(createFails: bool, writeFails: set<nat>)

  // ---------------------------------------------------------------------
  // download: index lookup and status checks

  /** Fetch the model index and look up this model's URL in it. */
  function ModelUrl(m: Model, index: IndexReply): (r: Result<string, Error>)
    ensures r.Ok? <==>
      index.IndexResponse? && IsSuccess(index.status) &&
      index.body.Parsed? && ToIdentifier(m) in index.body.entries
    ensures r.Ok? ==> r.value == index.body.entries[ToIdentifier(m)]
    ensures index.IndexUnreachable? ==> r == Err(GetModelIndexFailed)
    ensures index.IndexResponse? && !IsSuccess(index.status) ==>
      r == Err(GetModelIndexBadStatus(index.status))
    ensures (index.IndexResponse? && IsSuccess(index.status) && index.body.Parsed? &&
      ToIdentifier(m) !in index.body.entries) ==>
      r == Err(IndexError(Incomplete(ToIdentifier(m))))
    ensures index.IndexResponse? && IsSuccess(index.status) && index.body.TextFailed? ==>
      r == Err(GetModelIndexFailed)
    ensures index.IndexResponse? && IsSuccess(index.status) && index.body.Unparsable? ==>
      r == Err(IndexError(ParseFailed))
  {
    match index
    case IndexUnreachable => Err(GetModelIndexFailed)
    case IndexResponse(status, body) =>
      if !IsSuccess(status) then Err(GetModelIndexBadStatus(status))
      else
        match body
        case TextFailed => Err(GetModelIndexFailed)
        case Unparsable => Err(IndexError(ParseFailed))
        case Parsed(entries) =>
          var key := ToIdentifier(m);
          if key in entries then Ok(entries[key]) else Err(IndexError(Incomplete(key)))
  }

  /** Where a download writes and what it streams there. */
  datatype Plan = Plan(path: string, stream: seq<Chunk>)

  /** Everything `download` does before it creates the model file. */
  function DownloadPlan(m: Model, home: Option<string>, net: Network): (r: Result<Plan, Error>)
    ensures ModelUrl(m, net.index).Err? ==> r == Err(ModelUrl(m, net.index).error)
    ensures ModelUrl(m, net.index).Ok? && home.None? ==> r == Err(NoHomeDir)
    ensures ModelUrl(m, net.index).Ok? && home.Some? && ModelUrl(m, net.index).value !in net.models ==>
      r == Err(DownloadModelFailed)
    ensures r.Ok? <==>
      ModelUrl(m, net.index).Ok? && home.Some? && ModelUrl(m, net.index).value in net.models &&
      IsSuccess(net.models[ModelUrl(m, net.index).value].status)
    ensures r.Ok? ==>
      r.value == Plan(ModelPath(home.value, m), net.models[ModelUrl(m, net.index).value].stream)
    ensures r.Err? && ModelUrl(m, net.index).Ok? && home.Some? && ModelUrl(m, net.index).value in net.models ==>
      r == Err(DownloadModelBadStatus(net.models[ModelUrl(m, net.index).value].status))
  {
    match ModelUrl(m, net.index)
    case Err(e) => Err(e)
    case Ok(url) =>
      match home
      case None => Err(NoHomeDir)
      case Some(h) =>
        if url !in net.models then Err(DownloadModelFailed)
        else
          var response := net.models[url];
          if !IsSuccess(response.status) then Err(DownloadModelBadStatus(response.status))
          else Ok(Plan(ModelPath(h, m), response.stream))
  }

  // ---------------------------------------------------------------------
  // download: streaming the body into the file

  /** Whether handling chunk `i` aborts the loop: the chunk is bad, or writing
      it fails. */
  predicate Faulty(stream: seq<Chunk>, writeFails: set<nat>, i: nat)
    requires i < |stream|
  {
    stream[i].CorruptChunk? || i in writeFails
  }

  /** The position of the first faulty chunk at or after `i`, or `|stream|`. */
  function FirstFaultFrom(stream: seq<Chunk>, writeFails: set<nat>, i: nat): (k: nat)
    requires i <= |stream|
    ensures i <= k <= |stream|
    ensures forall j :: i <= j < k ==> stream[j].Bytes? && j !in writeFails
    ensures k < |stream| ==> Faulty(stream, writeFails, k)
    decreases |stream| - i
  {
    if i == |stream| || Faulty(stream, writeFails, i) then i
    else FirstFaultFrom(stream, writeFails, i + 1)
  }

  /** The position of the first faulty chunk, or `|stream|` if none is. */
  function FirstFault(stream: seq<Chunk>, writeFails: set<nat>): (k: nat)
    ensures k <= |stream|
    ensures forall j :: 0 <= j < k ==> stream[j].Bytes? && j !in writeFails
    ensures k < |stream| ==> stream[k].CorruptChunk? || k in writeFails
  {
    FirstFaultFrom(stream, writeFails, 0)
  }

  /** The bytes of the good chunks, concatenated in order. */
  function Payload(chunks: seq<Chunk>): seq<byte>
  {
    if |chunks| == 0 then []
    else
      var last := chunks[|chunks| - 1];
      Payload(chunks[..|chunks| - 1]) + (if last.Bytes? then last.data else [])
  }

  /** Payloads of consecutive parts of a stream concatenate. */
  lemma {:induction false} PayloadAppend(a: seq<Chunk>, b: seq<Chunk>)
    ensures Payload(a + b) == Payload(a) + Payload(b)
    decreases |b|
  {
    if |b| == 0 {
      assert a + b == a;
    } else {
      var b' := b[..|b| - 1];
      assert (a + b)[..|a + b| - 1] == a + b';
      PayloadAppend(a, b');
    }
  }

  /** How the chunk loop ends: the first bad chunk gives `BadChunk`, the first
      failed write `WriteChunkFailed`, and a clean run `Ok`. */
  function StreamResult(stream: seq<Chunk>, writeFails: set<nat>): (r: Result<(), Error>)
    ensures r.Ok? <==> forall j :: 0 <= j < |stream| ==> stream[j].Bytes? && j !in writeFails
    ensures r.Err? ==> r.error == BadChunk || r.error == WriteChunkFailed
    ensures r == Err(BadChunk) <==>
      exists k :: 0 <= k < |stream| && stream[k].CorruptChunk? &&
        forall j :: 0 <= j < k ==> stream[j].Bytes? && j !in writeFails
  {
    var k := FirstFault(stream, writeFails);
    if k == |stream| then Ok(())
    else if stream[k].CorruptChunk? then Err(BadChunk)
    else Err(WriteChunkFailed)
  }

  /** The `while let` loop of `download`: append each chunk to the file at
      `path` until the stream ends or a chunk or a write fails. The file then
      holds what it held before followed by the chunks before the first fault. */
  method WriteStream(fs: FileSystem, path: string, stream: seq<Chunk>, writeFails: set<nat>)
    returns (r: Result<(), Error>)
    requires path in fs.files
    modifies fs
    ensures fs.dirs == old(fs.dirs)
    ensures r == StreamResult(stream, writeFails)
    ensures fs.files ==
      old(fs.files)[path := old(fs.files[path]) + Payload(stream[..FirstFault(stream, writeFails)])]
  {
    var i := 0;
    assert stream[..0] == [] && old(fs.files[path]) + [] == old(fs.files[path]);
    while i < |stream|
      invariant i <= FirstFault(stream, writeFails)
      invariant fs.dirs == old(fs.dirs)
      invariant fs.files == old(fs.files)[path := old(fs.files[path]) + Payload(stream[..i])]
    {
      match stream[i]
      case CorruptChunk =>
        return Err(BadChunk);
      case Bytes(data) =>
        if i in writeFails {
          return Err(WriteChunkFailed);
        }
        ghost var done := old(fs.files[path]) + Payload(stream[..i]);
        assert stream[..i + 1] == stream[..i] + [stream[i]];
        PayloadAppend(stream[..i], [stream[i]]);
        assert Payload([stream[i]]) == data;
        assert done + data == old(fs.files[path]) + Payload(stream[..i + 1]);
        fs.files := fs.files[path := fs.files[path] + data];
      i := i + 1;
    }
    assert stream[..i] == stream;
    return Ok(());
  }

  // ---------------------------------------------------------------------
  // download as a whole

  /** What a download answers, and the file it leaves behind (path and contents), if any. */
  datatype Fetch = Fetch(result: Result<string, Error>, written: Option<(string, seq<byte>)>)

  /** The outcome of `download` for the given inputs. */
  function DownloadOutcome(m: Model, home: Option<string>, net: Network, disk: Disk): Fetch
  {
    match DownloadPlan(m, home, net)
    case Err(e) => Fetch(Err(e), None)
    case Ok(plan) =>
      if disk.createFails then Fetch(Err(CreateModelFileFailed), None)
      else
        var k := FirstFault(plan.stream, disk.writeFails);
        var r := StreamResult(plan.stream, disk.writeFails);
        Fetch(if r.Ok? then Ok(plan.path) else Err(r.error),
                 Some((plan.path, Payload(plan.stream[..k]))))
  }

  /** The files after a download. */
  function WithDownload(files: map<string, seq<byte>>, d: Fetch): map<string, seq<byte>>
  {
    if d.written.Some? then files[d.written.value.0 := d.written.value.1] else files
  }

  /** A successful download returns the path `get` checks, and that file holds
      the whole body of the model reply, chunk after chunk. */
  lemma DownloadSuccess(m: Model, home: Option<string>, net: Network, disk: Disk)
    requires DownloadOutcome(m, home, net, disk).result.Ok?
    ensures home.Some?
    ensures DownloadOutcome(m, home, net, disk).result.value == ModelPath(home.value, m)
    ensures DownloadPlan(m, home, net).Ok?
    ensures DownloadOutcome(m, home, net, disk).written ==
      Some((ModelPath(home.value, m), Payload(DownloadPlan(m, home, net).value.stream)))
  {
    var stream := DownloadPlan(m, home, net).value.stream;
    assert stream[..FirstFault(stream, disk.writeFails)] == stream;
  }

  /** A download that fails inside the chunk loop leaves a truncated file at
      the model path, holding exactly the chunks before the fault. */
  lemma DownloadFailureLeavesPartialFile(m: Model, home: Option<string>, net: Network, disk: Disk)
    requires DownloadOutcome(m, home, net, disk).result in {Err(BadChunk), Err(WriteChunkFailed)}
    ensures home.Some? && DownloadPlan(m, home, net).Ok?
    ensures var stream := DownloadPlan(m, home, net).value.stream;
      var k := FirstFault(stream, disk.writeFails);
      k < |stream| &&
      DownloadOutcome(m, home, net, disk).written == Some((ModelPath(home.value, m), Payload(stream[..k])))
  {
  }

  /** `Model::download`. It does not create `~/.sotto`; it writes the model
      file at `ModelPath` and streams the body into it. */
  method Download(m: Model, fs: FileSystem, home: Option<string>, net: Network, disk: Disk)
    returns (r: Result<string, Error>)
    modifies fs
    ensures fs.dirs == old(fs.dirs)
    ensures r == DownloadOutcome(m, home, net, disk).result
    ensures fs.files == WithDownload(old(fs.files), DownloadOutcome(m, home, net, disk))
  {
    var plan := DownloadPlan(m, home, net);
    if plan.Err? {
      return Err(plan.error);
    }
    var path, stream := plan.value.path, plan.value.stream;
    if disk.createFails {
      return Err(CreateModelFileFailed);
    }
    ghost var before := fs.files;
    // `File::create` creates the file, or truncates it if it exists
    fs.files := fs.files[path := []];
    var streamed := WriteStream(fs, path, stream, disk.writeFails);
    ghost var k := FirstFault(stream, disk.writeFails);
    assert [] + Payload(stream[..k]) == Payload(stream[..k]);
    assert fs.files == before[path := Payload(stream[..k])];
    if streamed.Err? {
      return Err(streamed.error);
    }
    return Ok(path);
  }

  /** `Model::get`: make sure `~/.sotto` exists, then report the model path
      exactly when something exists there. */
  method Get(m: Model, fs: FileSystem, home: Option<string>, mkdirOk: bool)
    returns (r: Result<Option<string>, Error>)
    modifies fs
    ensures fs.files == old(fs.files)
    ensures home.None? ==> r == Err(NoHomeDir) && unchanged(fs)
    ensures home.Some? && !mkdirOk ==> r == Err(CreateSottoDirFailed) && unchanged(fs)
    ensures home.Some? && mkdirOk ==> fs.dirs == old(fs.dirs) + {SottoDir(home.value)}
    ensures home.Some? && mkdirOk ==>
      var p := ModelPath(home.value, m);
      r == Ok(if old(fs.Exists(p)) then Some(p) else None)
  {
    if home.None? {
      return Err(NoHomeDir);
    }
    var sottoDir := SottoDir(home.value);
    if !mkdirOk {
      return Err(CreateSottoDirFailed);
    }
    fs.dirs := fs.dirs + {sottoDir};
    var downloadPath := ModelPath(home.value, m);
    ModelPathIsNotSottoDir(home.value, m);
    if fs.Exists(downloadPath) {
      return Ok(Some(downloadPath));
    } else {
      return Ok(None);
    }
  }

  /** `Model::get_or_download`: an existing model is returned without any
      download; a missing one is downloaded; an error of `get` is returned. */
  method GetOrDownload(m: Model, fs: FileSystem, home: Option<string>, mkdirOk: bool, net: Network, disk: Disk)
    returns (r: Result<string, Error>)
    modifies fs
    ensures home.None? ==> r == Err(NoHomeDir) && unchanged(fs)
    ensures home.Some? && !mkdirOk ==> r == Err(CreateSottoDirFailed) && unchanged(fs)
    ensures home.Some? && mkdirOk ==> fs.dirs == old(fs.dirs) + {SottoDir(home.value)}
    ensures home.Some? && mkdirOk && old(fs.Exists(ModelPath(home.value, m))) ==>
      r == Ok(ModelPath(home.value, m)) && fs.files == old(fs.files)
    ensures home.Some? && mkdirOk && !old(fs.Exists(ModelPath(home.value, m))) ==>
      r == DownloadOutcome(m, home, net, disk).result &&
      fs.files == WithDownload(old(fs.files), DownloadOutcome(m, home, net, disk))
  {
    var found := Get(m, fs, home, mkdirOk);
    if found.Err? {
      return Err(found.error);
    }
    if found.value.Some? {
      return Ok(found.value.value);
    }
    r := Download(m, fs, home, net, disk);
  }

  /** After a successful download, `get` finds the model at the very path the
      download returned, unless it fails to make sure `~/.sotto` exists. */
  method DownloadThenGet(m: Model, fs: FileSystem, home: Option<string>, net: Network, disk: Disk, mkdirOk: bool)
    returns (downloaded: Result<string, Error>, found: Result<Option<string>, Error>)
    modifies fs
    ensures downloaded == DownloadOutcome(m, home, net, disk).result
    ensures downloaded.Ok? && mkdirOk ==> found == Ok(Some(downloaded.value))
    ensures downloaded.Ok? && !mkdirOk ==> found == Err(CreateSottoDirFailed)
  {
    downloaded := Download(m, fs, home, net, disk);
    if downloaded.Ok? {
      DownloadSuccess(m, home, net, disk);
    }
    found := Get(m, fs, home, mkdirOk);
  }
}
