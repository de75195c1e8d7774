/** The store of db.js: the options the constructor accepts, the file name it
    derives from them, and the `loaded` state machine of `loadSync`,
    `saveSync` and `reloadSync` over a disk reached through the adapter
    calls `exists`, `mkdir`, `read` and `save`. */
module Db {
  import opened Errs
  import opened Json
  import Merges

  // ---------------------------------------------------------------------------
  // deepMerge

  /** `deepMerge(...srcs)`: the sources reduced, left to right, into a fresh
      `{}`; an accumulated `undefined` is the value that gets replaced. */
  method DeepMerge(srcs: seq<Value>) returns (dest: map<string, Value>)
    ensures dest == Merges.MergeAll(Merges.ReplaceUndefined, srcs)
    ensures forall k :: k in dest <==> exists i :: 0 <= i < |srcs| && k in Merges.KeysOf(srcs[i])
  {
    dest := Merges.MergeWith(Merges.ReplaceUndefined, srcs);
    forall k | true
      ensures k in dest <==> exists i :: 0 <= i < |srcs| && k in Merges.KeysOf(srcs[i])
    {
      Merges.MergeAllKeys(Merges.ReplaceUndefined, srcs, k);
    }
  }

  // ---------------------------------------------------------------------------
  // Options and the file name

  /** A `file` or `filename` option: a string, or an array of path parts that
      `pjoin` joins. */
  datatype PathSpec = Text(s: string) | Parts(parts: seq<string>)

  /** The `dirname` option: a fixed directory, or a resolver applied to the
      file name. */
  datatype DirnameOpt = DirFixed(dir: string) | DirResolver(resolve: string -> string)

  /** The `setup` option: the default (load, and save when loading fails), or a
      value that is not a function, which runs nothing. */
  datatype SetupOpt = DefaultSetup | NoSetup

  /** The constructor's options; an absent option is `None`. */
  datatype Options = Options(
    file: Option<PathSpec>,
    filename: Option<PathSpec>,
    init: Option<Value>,
    dirname: DirnameOpt,
    setup: SetupOpt,
    pjoin: seq<string> -> string)

  /** What the constructor keeps from its options. */
  datatype Config = Config(file: string, filename: string, init: Value, dirname: DirnameOpt, setup: SetupOpt)

  const DefaultFile := "db.json"
  const JsonExtension := ".json"

  /** The default `init`: `{type: 'DBDotJSON'}`. */
  function DefaultInit(): Value {
    Obj(map["type" := Str("DBDotJSON")])
  }

  predicate EndsWith(s: string, suffix: string) {
    |suffix| <= |s| && s[|s| - |suffix|..] == suffix
  }

  function Join(pjoin: seq<string> -> string, p: PathSpec): string {
    match p
    case Text(s) => s
    case Parts(parts) => pjoin(parts)
  }

  /** The file name rule: a name that already ends in `.json` is kept, any
      other gets `.json` appended once. */
  function NormalizeFilename(name: string): (r: string)
    ensures EndsWith(r, JsonExtension)
    ensures EndsWith(name, JsonExtension) ==> r == name
    ensures !EndsWith(name, JsonExtension) ==> r == name + JsonExtension
  {
    if EndsWith(name, JsonExtension) then name else name + JsonExtension
  }

  /** Normalising twice is normalising once. */
  lemma NormalizeFilenameIdempotent(name: string)
    ensures NormalizeFilename(NormalizeFilename(name)) == NormalizeFilename(name)
  {
  }

  /** Appending happens at most once: the result is never longer than the name
      plus the extension, and it keeps the name as a prefix. */
  lemma NormalizeFilenameKeepsName(name: string)
    ensures |NormalizeFilename(name)| <= |name| + |JsonExtension|
    ensures NormalizeFilename(name)[..|name|] == name
  {
  }

  function SyntaxErrorFor(): Error {
    Native("SyntaxError", "`file` must exist and be a string.")
  }

  /** The constructor's option handling: `file` defaults to `db.json`,
      `filename` to `file`, `init` (absent or `undefined`) to
      `{type: 'DBDotJSON'}`, an array of parts is joined, an empty `file` is
      refused with a SyntaxError, and the file name gets its extension. */
  function Configure(opts: Options): (r: Result<Config>)
    ensures var file := if opts.file.Some? then opts.file.value else Text(DefaultFile);
      var filename := if opts.filename.Some? then opts.filename.value else file;
      && (r.Err? <==> Join(opts.pjoin, file) == "")
      && (r.Err? ==> r.error == SyntaxErrorFor())
      && (r.Ok? ==>
            && r.value.file == Join(opts.pjoin, file) != ""
            && EndsWith(r.value.filename, JsonExtension)
            && r.value.filename == NormalizeFilename(Join(opts.pjoin, filename)))
    ensures r.Ok? && (opts.init.None? || opts.init == Some(Undefined)) ==> r.value.init == DefaultInit()
    ensures r.Ok? && opts.init.Some? && opts.init.value != Undefined ==> r.value.init == opts.init.value
  {
    var file := if opts.file.Some? then opts.file.value else Text(DefaultFile);
    var filename := if opts.filename.Some? then opts.filename.value else file;
    var joined := Join(opts.pjoin, file);
    if joined == "" then Err(SyntaxErrorFor())
    else Ok(Config(joined, NormalizeFilename(Join(opts.pjoin, filename)),
                   if opts.init.Some? && opts.init.value != Undefined then opts.init.value else DefaultInit(),
                   opts.dirname, opts.setup))
  }

  /** With an empty options object (or only an explicit `init: undefined`) the store
      lives in `db.json` and starts from the default state. */
  lemma ConfigureDefaults(opts: Options)
    requires opts.file.None? && opts.filename.None? && (opts.init.None? || opts.init == Some(Undefined))
    ensures Configure(opts).Ok?
    ensures Configure(opts).value.file == "db.json" && Configure(opts).value.filename == "db.json"
    ensures Configure(opts).value.init == DefaultInit()
  {
  }

  // ---------------------------------------------------------------------------
  // The adapters and the disk they reach

  datatype Adapter = ExistsCall | MkdirCall | ReadCall | SaveCall

  function AdapterName(a: Adapter): string {
    match a
    case ExistsCall => "exists"
    case MkdirCall => "mkdir"
    case ReadCall => "read"
    case SaveCall => "save"
  }

  /** What an adapter that fails throws. */
  function AdapterFailure(a: Adapter): Error {
    Native("Error", AdapterName(a) + " failed")
  }

  function MissingFile(name: string): Error {
    Native("Error", "ENOENT: no such file or directory, open '" + name + "'")
  }

  function ExistsOutcome(faults: set<Adapter>, files: map<string, string>, name: string): Result<bool> {
    if ExistsCall in faults then Err(AdapterFailure(ExistsCall)) else Ok(name in files)
  }

  function ReadOutcome(faults: set<Adapter>, files: map<string, string>, name: string): Result<string> {
    if ReadCall in faults then Err(AdapterFailure(ReadCall))
    else if name in files then Ok(files[name])
    else Err(MissingFile(name))
  }

  /** The files and directories the adapters read and write. The adapters in
      `faults` throw on every call. */
  class Disk {
    var files: map<string, string>
    var dirs: set<string>
    const faults: set<Adapter>

    constructor (files: map<string, string>, dirs: set<string>, faults: set<Adapter>)
      ensures this.files == files && this.dirs == dirs && this.faults == faults
    {
      this.files := files;
      this.dirs := dirs;
      this.faults := faults;
    }

    method Exists(name: string) returns (r: Result<bool>)
      ensures r == ExistsOutcome(faults, files, name)
    {
      if ExistsCall in faults {
        return Err(AdapterFailure(ExistsCall));
      }
      r := Ok(name in files);
    }

    method Mkdir(dir: string) returns (r: Result<()>)
      modifies this
      ensures r.Ok? <==> MkdirCall !in faults
      ensures r.Ok? ==> dirs == old(dirs) + {dir} && files == old(files)
      ensures r.Err? ==> r.error == AdapterFailure(MkdirCall) && unchanged(this)
    {
      if MkdirCall in faults {
        return Err(AdapterFailure(MkdirCall));
      }
      dirs := dirs + {dir};
      r := Ok(());
    }

    method Read(name: string) returns (r: Result<string>)
      ensures r == ReadOutcome(faults, files, name)
    {
      if ReadCall in faults {
        return Err(AdapterFailure(ReadCall));
      }
      if name !in files {
        return Err(MissingFile(name));
      }
      r := Ok(files[name]);
    }

    method Save(text: string, name: string) returns (r: Result<()>)
      modifies this
      ensures r.Ok? <==> SaveCall !in faults
      ensures r.Ok? ==> files == old(files)[name := text] && dirs == old(dirs)
      ensures r.Err? ==> r.error == AdapterFailure(SaveCall) && unchanged(this)
    {
      if SaveCall in faults {
        return Err(AdapterFailure(SaveCall));
      }
      files := files[name := text];
      r := Ok(());
    }
  }

  /** `JSON.parse` and `JSON.stringify` with the configured reviver, replacer
      and indentation, as opaque functions that may throw. */
  datatype Codec = Codec(parse: string -> Result<Value>, stringify: Value -> Result<string>)

  /** The codec reads back what it wrote. */
  predicate ReadsBack(codec: Codec, v: Value) {
    codec.stringify(v).Ok? && codec.parse(codec.stringify(v).value) == Ok(v)
  }

  // ---------------------------------------------------------------------------
  // The state machine, as functions of the store and the disk

  /** Everything `loadSync`, `saveSync` and `reloadSync` read or write. */
  datatype World = World(
    loaded: bool,
    state: Value,
    dirname: Option<string>,
    files: map<string, string>,
    dirs: set<string>)

  /** What a call did to the world, and whether it returned or threw. */
  datatype Outcome = Outcome(world: World, result: Result<()>)

  function DirFor(cfg: Config): string {
    match cfg.dirname
    case DirFixed(d) => d
    case DirResolver(resolve) => resolve(cfg.filename)
  }

  function LoadError(cause: Error): (e: Error)
    ensures Is(e, DatabaseError, LoadFailed) && e.inner == Some(cause)
  {
    NewDatabaseError("Couldn't load the Database.", LoadFailed, Some(cause))
  }

  function SaveError(cause: Error): (e: Error)
    ensures Is(e, DatabaseError, SaveFailed) && e.inner == Some(cause)
  {
    NewDatabaseError("Couldn't save the Database.", SaveFailed, Some(cause))
  }

  function NotLoadedError(): (e: Error)
    ensures Is(e, DatabaseError, NotLoaded) && e.inner.None?
  {
    NewDatabaseError("DataBase not loaded. Can't write.", NotLoaded, None)
  }

  /** The synchronous part shared by `save` and `saveSync`: stringify the
      state, then hand the text to the `save` adapter under the file name. */
  function WriteState(cfg: Config, codec: Codec, faults: set<Adapter>, w: World): (r: Result<World>)
    ensures r.Ok? ==>
      && codec.stringify(w.state).Ok?
      && r.value == w.(files := w.files[cfg.filename := codec.stringify(w.state).value])
  {
    match codec.stringify(w.state)
    case Err(e) => Err(e)
    case Ok(text) =>
      if SaveCall in faults then Err(AdapterFailure(SaveCall))
      else Ok(w.(files := w.files[cfg.filename := text]))
  }

  /** Read the file and parse it into the state. */
  function ReadAndParse(cfg: Config, codec: Codec, faults: set<Adapter>, w: World): (World, Option<Error>) {
    match ReadOutcome(faults, w.files, cfg.filename)
    case Err(e) => (w, Some(e))
    case Ok(text) =>
      match codec.parse(text)
      case Err(e) => (w, Some(e))
      case Ok(v) => (w.(state := v, loaded := true), None)
  }

  /** The body of `loadSync`'s `try`: when the file is missing, record and
      create its directory and write the current state there first (the
      synchronous part of `save(true)`); then read and parse the file. A throw
      leaves the effects made before it. */
  function LoadAttempt(cfg: Config, codec: Codec, faults: set<Adapter>, w: World): (World, Option<Error>) {
    match ExistsOutcome(faults, w.files, cfg.filename)
    case Err(e) => (w, Some(e))
    case Ok(present) =>
      if present then ReadAndParse(cfg, codec, faults, w)
      else
        var w1 := w.(dirname := Some(DirFor(cfg)));
        if MkdirCall in faults then (w1, Some(AdapterFailure(MkdirCall)))
        else
          var w2 := w1.(dirs := w1.dirs + {DirFor(cfg)});
          match WriteState(cfg, codec, faults, w2)
          case Err(e) => (w2, Some(e))
          case Ok(w3) => ReadAndParse(cfg, codec, faults, w3.(loaded := true))
  }

  /** `loadSync(force)`. */
  function LoadSpec(cfg: Config, codec: Codec, faults: set<Adapter>, w: World, force: bool): Outcome {
    if w.loaded && !force then Outcome(w, Ok(()))
    else
      var (w1, thrown) := LoadAttempt(cfg, codec, faults, w.(loaded := false));
      if thrown.None? then Outcome(w1, Ok(()))
      else Outcome(w1.(loaded := false), Err(LoadError(thrown.value)))
  }

  /** `saveSync(force)`, writing under the store's file name. */
  function SaveSpec(cfg: Config, codec: Codec, faults: set<Adapter>, w: World, force: bool): Outcome {
    if !force && !w.loaded then Outcome(w, Err(NotLoadedError()))
    else
      match WriteState(cfg, codec, faults, w)
      case Ok(w1) => Outcome(w1, Ok(()))
      case Err(e) => Outcome(w, Err(SaveError(e)))
  }

  /** `reloadSync()`. */
  function ReloadSpec(cfg: Config, codec: Codec, faults: set<Adapter>, w: World): Outcome {
    LoadSpec(cfg, codec, faults, w.(loaded := false), true)
  }

  /** The default `setup`: `loadSync()`, and `saveSync(true)` when it throws. */
  function SetupSpec(cfg: Config, codec: Codec, faults: set<Adapter>, w: World): Outcome {
    if cfg.setup.NoSetup? then Outcome(w, Ok(()))
    else
      var loaded := LoadSpec(cfg, codec, faults, w, false);
      if loaded.result.Ok? then loaded
      else SaveSpec(cfg, codec, faults, loaded.world, true)
  }

  // ---------------------------------------------------------------------------
  // What the state machine guarantees

  /** A loaded store is not loaded again unless forced: no adapter is called
      and nothing changes. */
  lemma LoadSkipsWhenLoaded(cfg: Config, codec: Codec, faults: set<Adapter>, w: World)
    requires w.loaded
    ensures LoadSpec(cfg, codec, faults, w, false) == Outcome(w, Ok(()))
  {
  }

  /** `loadSync` either ends loaded, with the state parsed from the file, or
      ends not loaded with DatabaseError 1 wrapping the cause, the state
      untouched. Only the store's own file may have been written. */
  lemma LoadOutcomes(cfg: Config, codec: Codec, faults: set<Adapter>, w: World, force: bool)
    requires !w.loaded || force
    ensures var o := LoadSpec(cfg, codec, faults, w, force);
      && (o.result.Ok? ==>
            && o.world.loaded
            && cfg.filename in o.world.files
            && codec.parse(o.world.files[cfg.filename]) == Ok(o.world.state))
      && (o.result.Err? ==>
            && !o.world.loaded
            && o.world.state == w.state
            && Is(o.result.error, DatabaseError, LoadFailed)
            && o.result.error.message == "Couldn't load the Database."
            && o.result.error.inner.Some?)
      && (o.world.files == w.files ||
          (cfg.filename in o.world.files && o.world.files == w.files[cfg.filename := o.world.files[cfg.filename]]))
      && w.dirs <= o.world.dirs
  {
    var w0 := w.(loaded := false);
    var (w1, thrown) := LoadAttempt(cfg, codec, faults, w0);
    var e := ExistsOutcome(faults, w0.files, cfg.filename);
    if e.Ok? && !e.value && MkdirCall !in faults {
      var w2 := w0.(dirname := Some(DirFor(cfg))).(dirs := w0.dirs + {DirFor(cfg)});
      var s := WriteState(cfg, codec, faults, w2);
      if s.Ok? {
        assert s.value.files == w.files[cfg.filename := codec.stringify(w.state).value];
      }
    }
  }

  /** On a disk without the file, `loadSync` creates the directory, writes the
      current state to the file and reads it back. */
  lemma LoadCreatesMissingFile(cfg: Config, codec: Codec, w: World, force: bool)
    requires !w.loaded || force
    requires cfg.filename !in w.files
    requires ReadsBack(codec, w.state)
    ensures var o := LoadSpec(cfg, codec, {}, w, force);
      && o.result.Ok?
      && o.world.loaded && o.world.state == w.state
      && o.world.dirname == Some(DirFor(cfg))
      && o.world.dirs == w.dirs + {DirFor(cfg)}
      && o.world.files == w.files[cfg.filename := codec.stringify(w.state).value]
  {
  }

  /** `reloadSync` always reads the file again, even when the store is
      loaded: it is `loadSync(true)`. */
  lemma ReloadIsForcedLoad(cfg: Config, codec: Codec, faults: set<Adapter>, w: World)
    ensures ReloadSpec(cfg, codec, faults, w) == LoadSpec(cfg, codec, faults, w, true)
    ensures var o := ReloadSpec(cfg, codec, faults, w);
      o.result.Ok? ==> cfg.filename in o.world.files && codec.parse(o.world.files[cfg.filename]) == Ok(o.world.state)
  {
    assert w.(loaded := false).(loaded := false) == w.(loaded := false);
    LoadOutcomes(cfg, codec, faults, w, true);
  }

  /** `saveSync(false)` on a store that is not loaded throws DatabaseError 7
      before anything is written. */
  lemma SaveRequiresLoaded(cfg: Config, codec: Codec, faults: set<Adapter>, w: World)
    requires !w.loaded
    ensures SaveSpec(cfg, codec, faults, w, false) == Outcome(w, Err(NotLoadedError()))
    ensures Is(NotLoadedError(), DatabaseError, 7)
  {
  }

  /** `saveSync` writes exactly the stringified state under the file name and
      nothing else; when it throws, nothing changed. The `loaded` flag and the
      state are never touched. */
  lemma SaveOutcomes(cfg: Config, codec: Codec, faults: set<Adapter>, w: World, force: bool)
    ensures var o := SaveSpec(cfg, codec, faults, w, force);
      && o.world.loaded == w.loaded && o.world.state == w.state
      && (o.result.Ok? <==>
            (force || w.loaded) && codec.stringify(w.state).Ok? && SaveCall !in faults)
      && (o.result.Ok? ==>
            o.world == w.(files := w.files[cfg.filename := codec.stringify(w.state).value]))
      && (o.result.Err? ==> o.world == w)
      && (o.result.Err? && (force || w.loaded) ==>
            Is(o.result.error, DatabaseError, SaveFailed) && o.result.error.inner.Some?)
  {
  }

  /** Saving twice leaves the disk as saving once. */
  lemma SaveIdempotent(cfg: Config, codec: Codec, faults: set<Adapter>, w: World, force: bool)
    ensures var once := SaveSpec(cfg, codec, faults, w, force);
      SaveSpec(cfg, codec, faults, once.world, force) == Outcome(once.world, once.result)
  {
    var once := SaveSpec(cfg, codec, faults, w, force);
    if once.result.Ok? {
      assert once.world.state == w.state;
      assert once.world.files[cfg.filename := codec.stringify(w.state).value] == once.world.files;
    }
  }

  /** With a codec that reads back the state, saving and then reloading gives
      back the same state, loaded. */
  lemma SaveThenReload(cfg: Config, codec: Codec, w: World, force: bool)
    requires force || w.loaded
    requires ReadsBack(codec, w.state)
    ensures var saved := SaveSpec(cfg, codec, {}, w, force);
      var reloaded := ReloadSpec(cfg, codec, {}, saved.world);
      && saved.result.Ok? && reloaded.result.Ok?
      && reloaded.world == saved.world.(loaded := true)
      && reloaded.world.state == w.state
  {
    var saved := SaveSpec(cfg, codec, {}, w, force);
    assert cfg.filename in saved.world.files;
  }

  /** The default setup on a disk without the file ends with the file holding
      the initial state and the store loaded with it. */
  lemma SetupCreatesStore(cfg: Config, codec: Codec, w: World)
    requires cfg.setup.DefaultSetup?
    requires !w.loaded && cfg.filename !in w.files
    requires ReadsBack(codec, w.state)
    ensures var o := SetupSpec(cfg, codec, {}, w);
      && o.result.Ok? && o.world.loaded && o.world.state == w.state
      && o.world.files[cfg.filename] == codec.stringify(w.state).value
  {
    LoadCreatesMissingFile(cfg, codec, w, false);
  }

  // ---------------------------------------------------------------------------
  // The store

  /** A `DBDotJSON` instance. */
  class DBDotJSON {
    var loaded: bool
    var state: Value
    var dirname: Option<string>
    const config: Config
    const codec: Codec
    const disk: Disk

    function Current(): World
      reads this, disk
    {
      World(loaded, state, dirname, disk.files, disk.dirs)
    }

    /** The fields the constructor sets before it runs `setup`. */
    constructor (config: Config, codec: Codec, disk: Disk)
      ensures this.config == config && this.codec == codec && this.disk == disk
      ensures !loaded && state == config.init && dirname.None?
    {
      this.config := config;
      this.codec := codec;
      this.disk := disk;
      loaded := false;
      state := config.init;
      dirname := None;
    }

    /** `new DBDotJSON(opts)`: refuse an empty `file`, keep the configuration,
        then run `setup`, whose throw escapes the constructor. */
    static method New(opts: Options, codec: Codec, disk: Disk) returns (r: Result<DBDotJSON>)
      modifies disk
      ensures Configure(opts).Err? ==> r == Err(Configure(opts).error) && unchanged(disk)
      ensures Configure(opts).Ok? ==>
        var cfg := Configure(opts).value;
        var o := SetupSpec(cfg, codec, disk.faults, World(false, cfg.init, None, old(disk.files), old(disk.dirs)));
        && disk.files == o.world.files && disk.dirs == o.world.dirs
        && (r.Ok? <==> o.result.Ok?)
        && (r.Err? ==> r.error == o.result.error)
        && (r.Ok? ==> fresh(r.value) && r.value.disk == disk && r.value.config == cfg && r.value.Current() == o.world)
    {
      var cfg := Configure(opts);
      if cfg.Err? {
        return Err(cfg.error);
      }
      var db := new DBDotJSON(cfg.value, codec, disk);
      var s := db.Setup();
      if s.Err? {
        return Err(s.error);
      }
      r := Ok(db);
    }

    /** The default `setup` closure. */
    method Setup() returns (r: Result<()>)
      modifies this, disk
      ensures (Current(), r) == (SetupSpec(config, codec, disk.faults, old(Current())).world,
                               SetupSpec(config, codec, disk.faults, old(Current())).result)
    {
      if config.setup.NoSetup? {
        return Ok(());
      }
      r := LoadSync(false);
      if r.Err? {
        r := SaveSync(true);
      }
    }

    /** `toJSON()`: the live state itself. */
    function ToJSON(): (v: Value)
      reads this
      ensures v == state
    {
      state
    }

    /** The synchronous part of `save(true)` and of `saveSync`. */
    method WriteStateToDisk() returns (r: Result<()>)
      modifies disk
      ensures var o := WriteState(config, codec, disk.faults, old(Current()));
        && r == (if o.Ok? then Ok(()) else Err(o.error))
        && (o.Ok? ==> Current() == o.value)
        && (o.Err? ==> r.error == o.error && Current() == old(Current()))
    {
      var text := codec.stringify(state);
      if text.Err? {
        return Err(text.error);
      }
      var saved := disk.Save(text.value, config.filename);
      if saved.Err? {
        return Err(saved.error);
      }
      r := Ok(());
    }

    method ReadAndParseFromDisk() returns (r: Result<()>)
      modifies this
      ensures var (w, thrown) := ReadAndParse(config, codec, disk.faults, old(Current()));
        Current() == w && r == (if thrown.None? then Ok(()) else Err(thrown.value))
    {
      var text := disk.Read(config.filename);
      if text.Err? {
        return Err(text.error);
      }
      var v := codec.parse(text.value);
      if v.Err? {
        return Err(v.error);
      }
      state := v.value;
      loaded := true;
      r := Ok(());
    }

    /** `loadSync(force)`. */
    method LoadSync(force: bool) returns (r: Result<()>)
      modifies this, disk
      ensures Current() == LoadSpec(config, codec, disk.faults, old(Current()), force).world
      ensures r == LoadSpec(config, codec, disk.faults, old(Current()), force).result
    {
      if loaded && !force {
        return Ok(());
      }
      loaded := false;
      var present := disk.Exists(config.filename);
      if present.Err? {
        return Err(LoadError(present.error));
      }
      if !present.value {
        dirname := Some(DirFor(config));
        var made := disk.Mkdir(dirname.value);
        if made.Err? {
          return Err(LoadError(made.error));
        }
        var saved := WriteStateToDisk();
        if saved.Err? {
          return Err(LoadError(saved.error));
        }
        loaded := true;
      }
      r := ReadAndParseFromDisk();
      if r.Err? {
        loaded := false;
        r := Err(LoadError(r.error));
      }
    }

    /** `reloadSync()`. */
    method ReloadSync() returns (r: Result<()>)
      modifies this, disk
      ensures Current() == ReloadSpec(config, codec, disk.faults, old(Current())).world
      ensures r == ReloadSpec(config, codec, disk.faults, old(Current())).result
    {
      loaded := false;
      r := LoadSync(true);
    }

    /** `saveSync(force)`, writing under the store's file name. */
    method SaveSync(force: bool) returns (r: Result<()>)
      modifies disk
      ensures Current() == SaveSpec(config, codec, disk.faults, old(Current()), force).world
      ensures r == SaveSpec(config, codec, disk.faults, old(Current()), force).result
    {
      if !force && !loaded {
        return Err(NotLoadedError());
      }
      r := WriteStateToDisk();
      if r.Err? {
        r := Err(SaveError(r.error));
      }
    }
  }

  // ---------------------------------------------------------------------------
  // saveSync as written

  /** `saveSync` as the source has it: the adapter call passes the store and
      an unbound `filename`, whose lookup throws a ReferenceError once the
      state has been stringified, before the adapter runs. */
  function SaveSyncAsWritten(codec: Codec, w: World, force: bool): (o: Outcome)
    ensures o.world == w
    ensures o.result.Err?
  {
    if !force && !w.loaded then Outcome(w, Err(NotLoadedError()))
    else
      match codec.stringify(w.state)
      case Err(e) => Outcome(w, Err(SaveError(e)))
      case Ok(_) => Outcome(w, Err(SaveError(Native("ReferenceError", "filename is not defined"))))
  }

  /** Past the gate, the code as written never writes, even with a working
      adapter and a codec that reads back, where the intended call succeeds
      and stores the text. */
  lemma SaveSyncAsWrittenNeverSaves(cfg: Config, codec: Codec, w: World)
    requires w.loaded && ReadsBack(codec, w.state)
    ensures SaveSyncAsWritten(codec, w, false).result.Err?
    ensures Is(SaveSyncAsWritten(codec, w, false).result.error, DatabaseError, SaveFailed)
    ensures SaveSpec(cfg, codec, {}, w, false).result.Ok?
    ensures SaveSpec(cfg, codec, {}, w, false).world.files[cfg.filename] == codec.stringify(w.state).value
  {
  }
}
