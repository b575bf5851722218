/**
 * `Model` and `SimpleModel` of dffml/model/model.py: the configuration's
 * location, the file the model is stored in, and the reentrant
 * enter/exit lifecycle that creates the location, loads storage on the
 * first enter and saves it on the last exit.
 */
module Model {
  import opened Wrappers
  import opened Json
  import opened Pathlib
  import opened ModelFeatures
  import opened ModelLifecycle

  /** `config.location`: absent (`None`), a string, or a path. */
  datatype Location = Unset | Text(text: string) | FsPath(path: Path)

  /**
   * `ModelConfig`: the location, the features if the config has them, and
   * whatever other fields a concrete model's config declares.
   */
  datatype ModelConfig = ModelConfig(
    location: Location,
    features: Option<seq<Feature>>,
    others: map<string, Value>)

  /** What the lifecycle raises. */
  datatype LifecycleError =
    | NoLocation                       // `pathlib.Path(None, "Model")` raises a TypeError
    | LocationNotCreatable(path: Path) // `mkdir` raises
    | NotWritable(path: Path)          // `write_text` raises

  /** The path a string or path location stands for. */
  function LocationPath(location: Location): (p: Path)
    requires !location.Unset?
    ensures location.Text? ==> WellFormed(p) && (p.absolute <==> |location.text| > 0 && location.text[0] == '/')
    ensures location.FsPath? ==> p == location.path
  {
    match location
    case Text(s) => ParsePath(s)
    case FsPath(p) => p
  }

  /**
   * `Model.__init__`: a string location becomes a path, and every path is
   * passed through `expanduser().resolve()`, here the parameter `expandResolve`.
   */
  function NormaliseLocation(location: Location, expandResolve: Path -> Path): (r: Location)
    ensures r.Unset? <==> location.Unset?
    ensures !r.Text?
    ensures r.FsPath? ==> r.path == expandResolve(LocationPath(location))
  {
    match location
    case Unset => Unset
    case Text(s) => FsPath(expandResolve(ParsePath(s)))
    case FsPath(p) => FsPath(expandResolve(p))
  }

  /** Normalising a normalised location changes nothing when the normaliser is idempotent. */
  lemma NormaliseLocationIdempotent(location: Location, expandResolve: Path -> Path)
    requires !location.Unset? ==>
      expandResolve(expandResolve(LocationPath(location))) == expandResolve(LocationPath(location))
    ensures NormaliseLocation(NormaliseLocation(location, expandResolve), expandResolve)
      == NormaliseLocation(location, expandResolve)
  {
  }

  /**
   * `disk_path`: the file `Model` directly inside the location. The
   * extension and every other config field are ignored (the normalised
   * config the source computes is never used).
   */
  function DiskPath(config: ModelConfig, extension: Option<string>): (r: Option<Path>)
    ensures r.None? <==> config.location.Unset?
    ensures r.Some? ==> Parent(r.value) == LocationPath(config.location)
    ensures r.Some? ==> |r.value.parts| > 0 && r.value.parts[|r.value.parts| - 1] == "Model"
  {
    if config.location.Unset? then None
    else
      var p := Child(LocationPath(config.location), "Model");
      assert p.parts[..|p.parts| - 1] == LocationPath(config.location).parts;
      Some(p)
  }

  /**
   * The file of a model built from `config` is `Model` inside the
   * normaliser's output for the configured location.
   */
  lemma NormalisedDiskPath(config: ModelConfig, expandResolve: Path -> Path, extension: Option<string>)
    ensures DiskPath(config.(location := NormaliseLocation(config.location, expandResolve)), extension)
      == if config.location.Unset? then None
         else Some(Child(expandResolve(LocationPath(config.location)), "Model"))
  {
  }

  /** Two configs with the same location share one file, whatever their other fields. */
  lemma DiskPathDependsOnlyOnLocation(c1: ModelConfig, c2: ModelConfig, e1: Option<string>, e2: Option<string>)
    requires c1.location == c2.location
    ensures DiskPath(c1, e1) == DiskPath(c2, e2)
  {
  }

  /** The storage file is never the location directory itself. */
  lemma DiskPathIsNotLocation(config: ModelConfig, extension: Option<string>)
    requires !config.location.Unset?
    ensures DiskPath(config, extension).value != LocationPath(config.location)
    ensures !(DiskPath(config, extension).value in Prefixes(LocationPath(config.location)))
  {
    var p := DiskPath(config, extension).value;
    assert |p.parts| == |LocationPath(config.location).parts| + 1;
  }

  /** `_make_config_location` will succeed: no location, an existing directory, or a creatable one. */
  predicate CanPrepare(location: Location, dirs: set<Path>, files: map<Path, Value>)
  {
    location.Unset?
    || IsDirIn(dirs, LocationPath(location))
    || CanMakeDirs(dirs, files, LocationPath(location))
  }

  /** The directories after `_make_config_location`. */
  function PreparedDirs(location: Location, dirs: set<Path>, files: map<Path, Value>): set<Path>
  {
    if location.Unset? || IsDirIn(dirs, LocationPath(location))
       || !CanMakeDirs(dirs, files, LocationPath(location)) then dirs
    else dirs + Prefixes(LocationPath(location))
  }

  /**
   * `_make_config_location` is idempotent: once it has succeeded the
   * location is a directory, and running it again succeeds and creates nothing.
   */
  lemma {:induction false} PrepareIdempotent(location: Location, dirs: set<Path>, files: map<Path, Value>)
    requires CanPrepare(location, dirs, files)
    ensures !location.Unset? ==> IsDirIn(PreparedDirs(location, dirs, files), LocationPath(location))
    ensures CanPrepare(location, PreparedDirs(location, dirs, files), files)
    ensures PreparedDirs(location, PreparedDirs(location, dirs, files), files) == PreparedDirs(location, dirs, files)
  {
    if !location.Unset? {
      var p := LocationPath(location);
      if p.parts != [] {
        assert p == Path(p.absolute, p.parts[..|p.parts|]);
        assert p in Prefixes(p);
      }
    }
  }

  /** The storage after `open`: the file's contents when it exists, else unchanged. */
  function LoadedStorage(path: Path, files: map<Path, Value>, current: Value): Value
  {
    if path in files then files[path] else current
  }

  /** A model that is its own context, with a reentrancy counter. */
  class SimpleModel {
    /** The class-level `DTYPES`, `NUM_SUPPORTED_FEATURES` and `SUPPORTED_LENGTHS`. */
    const caps: Capabilities
    /** The filesystem the model's location lives on. */
    const fs: FileSystem
    var config: ModelConfig
    /** `self.features`, set only when the config has features. */
    var features: Option<seq<string>>
    var storage: Value
    /** `_in_context`. */
    var inContext: int
    /** Completed loads and saves, for stating how often they happen. */
    ghost var loads: nat
    ghost var saves: nat

    ghost predicate Valid()
      reads this, fs
    {
      fs.Valid()
    }

    /** `Model.__init__` and the part of `SimpleModel.__init__` that cannot raise. */
    constructor (config: ModelConfig, caps: Capabilities, fs: FileSystem, expandResolve: Path -> Path)
      requires fs.Valid()
      ensures Valid()
      ensures this.caps == caps && this.fs == fs
      ensures this.config == config.(location := NormaliseLocation(config.location, expandResolve))
      ensures storage == Object(map[]) && features == None && inContext == 0
      ensures loads == 0 && saves == 0
    {
      this.caps := caps;
      this.fs := fs;
      this.config := config;
      storage := Object(map[]);
      features := None;
      inContext := 0;
      loads, saves := 0, 0;
      new;
      var location := this.config.location;
      if location.Text? {
        location := FsPath(ParsePath(location.text));
      }
      if location.FsPath? {
        this.config := this.config.(location := FsPath(expandResolve(location.path)));
      }
    }

    /**
     * `SimpleModel(config)`: normalises the location, starts with empty
     * storage, and raises if the config's features are not applicable.
     */
    static method Create(config: ModelConfig, caps: Capabilities, fs: FileSystem, expandResolve: Path -> Path)
      returns (r: Result<SimpleModel, FeatureError>)
      requires fs.Valid()
      ensures r.Err? <==> config.features.Some? && ApplicableFeaturesSpec(caps, config.features.value).Err?
      ensures r.Err? ==> r.error == ApplicableFeaturesSpec(caps, config.features.value).error
      ensures r.Ok? ==> fresh(r.value) && r.value.Valid() && r.value.caps == caps && r.value.fs == fs
      ensures r.Ok? ==> r.value.config == config.(location := NormaliseLocation(config.location, expandResolve))
      ensures r.Ok? ==> r.value.features ==
                        (if config.features.Some? then Some(ApplicableFeaturesSpec(caps, config.features.value).value)
                         else None)
      ensures r.Ok? ==> r.value.storage == Object(map[]) && r.value.inContext == 0
      ensures r.Ok? ==> r.value.loads == 0 && r.value.saves == 0
    {
      var m := new SimpleModel(config, caps, fs, expandResolve);
      if config.features.Some? {
        var names := ApplicableFeatures(caps, config.features.value);
        if names.Err? {
          return Err(names.error);
        }
        m.features := Some(names.value);
      }
      return Ok(m);
    }

    /** `_make_config_location`: creates the location directory unless it already is one. */
    method MakeConfigLocation() returns (r: Outcome<LifecycleError>)
      requires Valid()
      modifies fs
      ensures Valid()
      ensures r.Pass? <==> CanPrepare(config.location, old(fs.dirs), old(fs.files))
      ensures r.Fail? ==> r.error == LocationNotCreatable(LocationPath(config.location))
      ensures fs.dirs == PreparedDirs(config.location, old(fs.dirs), old(fs.files))
      ensures fs.files == old(fs.files)
      ensures r.Pass? && !config.location.Unset? ==> fs.IsDir(LocationPath(config.location))
    {
      if config.location.Unset? {
        return Pass;
      }
      var location := LocationPath(config.location);
      if !fs.IsDir(location) {
        var made := fs.MakeDirs(location);
        if !made {
          return Fail(LocationNotCreatable(location));
        }
      }
      return Pass;
    }

    /** `open`: loads storage from the model's file if there is one. */
    method Open() returns (r: Outcome<LifecycleError>)
      requires Valid()
      modifies this`storage, this`loads
      ensures Valid()
      ensures r.Pass? <==> !config.location.Unset?
      ensures r.Fail? ==> r.error == NoLocation
      ensures storage == if r.Pass? then LoadedStorage(DiskPath(config, Some(".json")).value, fs.files, old(storage))
                         else old(storage)
      ensures loads == old(loads) + if r.Pass? then 1 else 0
    {
      var filepath := DiskPath(config, Some(".json"));
      if filepath.None? {
        return Fail(NoLocation);
      }
      if fs.IsFile(filepath.value) {
        storage := fs.files[filepath.value];
      }
      loads := loads + 1;
      return Pass;
    }

    /** `close`: writes storage to the model's file, replacing what was there. */
    method Close() returns (r: Outcome<LifecycleError>)
      requires Valid()
      modifies this`saves, fs
      ensures Valid()
      ensures r.Pass? <==> !config.location.Unset? && CanWrite(old(fs.dirs), DiskPath(config, Some(".json")).value)
      ensures r.Fail? ==> r.error == if config.location.Unset? then NoLocation
                                     else NotWritable(DiskPath(config, Some(".json")).value)
      ensures fs.dirs == old(fs.dirs)
      ensures fs.files == if r.Pass? then old(fs.files)[DiskPath(config, Some(".json")).value := storage]
                          else old(fs.files)
      ensures saves == old(saves) + if r.Pass? then 1 else 0
    {
      var filepath := DiskPath(config, Some(".json"));
      if filepath.None? {
        return Fail(NoLocation);
      }
      var written := fs.WriteText(filepath.value, storage);
      if !written {
        return Fail(NotWritable(filepath.value));
      }
      saves := saves + 1;
      return Pass;
    }

    /**
     * `__aenter__` as written: the counter is incremented before the
     * location is created and storage loaded, and stays incremented when
     * either raises.
     */
    method EnterAsWritten() returns (r: Outcome<LifecycleError>)
      requires Valid()
      modifies this`inContext, this`storage, this`loads, fs
      ensures Valid()
      ensures inContext == StepAsWritten(old(inContext), if r.Pass? then Event.Enter else FailedEnter)
      ensures !Loads(old(inContext), Event.Enter) ==>
        r.Pass? && unchanged(fs) && storage == old(storage) && loads == old(loads)
      ensures Loads(old(inContext), Event.Enter) ==>
        (r.Pass? <==> !config.location.Unset? && CanPrepare(config.location, old(fs.dirs), old(fs.files)))
        && (r.Fail? ==> r.error == if config.location.Unset? then NoLocation
                                   else LocationNotCreatable(LocationPath(config.location)))
        && fs.dirs == PreparedDirs(config.location, old(fs.dirs), old(fs.files))
        && fs.files == old(fs.files)
        && storage == (if r.Pass? then LoadedStorage(DiskPath(config, Some(".json")).value, old(fs.files), old(storage))
                       else old(storage))
        && loads == old(loads) + (if r.Pass? then 1 else 0)
    {
      inContext := inContext + 1;
      if inContext > 1 {
        return Pass;
      }
      r := MakeConfigLocation();
      if r.Fail? {
        return r;
      }
      r := Open();
    }

    /**
     * `__aenter__` with the increment taken back when creating the location
     * or loading raises. The first enter creates the location and loads
     * storage from the file if it exists; a nested enter only counts.
     */
    method Enter() returns (r: Outcome<LifecycleError>)
      requires Valid()
      modifies this`inContext, this`storage, this`loads, fs
      ensures Valid()
      ensures inContext == Step(old(inContext), if r.Pass? then Event.Enter else FailedEnter)
      ensures !Loads(old(inContext), Event.Enter) ==>
        r.Pass? && unchanged(fs) && storage == old(storage) && loads == old(loads)
      ensures Loads(old(inContext), Event.Enter) ==>
        (r.Pass? <==> !config.location.Unset? && CanPrepare(config.location, old(fs.dirs), old(fs.files)))
        && (r.Fail? ==> r.error == if config.location.Unset? then NoLocation
                                   else LocationNotCreatable(LocationPath(config.location)))
        && fs.dirs == PreparedDirs(config.location, old(fs.dirs), old(fs.files))
        && fs.files == old(fs.files)
        && storage == (if r.Pass? then LoadedStorage(DiskPath(config, Some(".json")).value, old(fs.files), old(storage))
                       else old(storage))
        && loads == old(loads) + (if r.Pass? then 1 else 0)
    {
      inContext := inContext + 1;
      if inContext > 1 {
        return Pass;
      }
      r := MakeConfigLocation();
      if r.Pass? {
        r := Open();
      }
      if r.Fail? {
        inContext := inContext - 1;
      }
    }

    /** `__aexit__`: the last exit saves storage to the model's file. */
    method Exit() returns (r: Outcome<LifecycleError>)
      requires Valid()
      modifies this`inContext, this`saves, fs
      ensures Valid()
      ensures inContext == Step(old(inContext), Event.Exit)
      ensures !Saves(old(inContext), Event.Exit) ==> r.Pass? && unchanged(fs) && saves == old(saves)
      ensures Saves(old(inContext), Event.Exit) ==>
        (r.Pass? <==> !config.location.Unset? && CanWrite(old(fs.dirs), DiskPath(config, Some(".json")).value))
        && (r.Fail? ==> r.error == if config.location.Unset? then NoLocation
                                   else NotWritable(DiskPath(config, Some(".json")).value))
        && fs.dirs == old(fs.dirs)
        && fs.files == (if r.Pass? then old(fs.files)[DiskPath(config, Some(".json")).value := storage]
                        else old(fs.files))
        && saves == old(saves) + (if r.Pass? then 1 else 0)
    {
      inContext := inContext - 1;
      if inContext == 0 {
        r := Close();
      } else {
        r := Pass;
      }
    }
  }
}
