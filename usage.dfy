/**
 * How callers use a `SimpleModel` through `async with`, as sequences of
 * enter and exit calls, and what the lifecycle promises them.
 */
module ModelUsage {
  import opened Wrappers
  import opened Pathlib
  import opened Model
  import opened ModelLifecycle

  /**
   * `n` nested `async with model:` blocks on a fresh model whose location
   * can be created: the counter returns to 0, storage is loaded once (from
   * the file if it exists) and saved once, to the model's file. This holds
   * for `__aenter__` as written (`asWritten`) and with its correction.
   */
  method NestedScopes(m: SimpleModel, n: nat, asWritten: bool)
    requires m.Valid() && n >= 1 && m.inContext == 0
    requires m.config.location.FsPath?
    requires CanPrepare(m.config.location, m.fs.dirs, m.fs.files)
    requires !IsDirIn(m.fs.dirs, DiskPath(m.config, Some(".json")).value)
    modifies m, m.fs
    ensures m.config == old(m.config)
    ensures m.Valid() && m.inContext == 0
    ensures m.loads == old(m.loads) + 1 && m.saves == old(m.saves) + 1
    ensures m.storage == LoadedStorage(DiskPath(m.config, Some(".json")).value, old(m.fs.files), old(m.storage))
    ensures m.fs.files == old(m.fs.files)[DiskPath(m.config, Some(".json")).value := m.storage]
    ensures m.fs.dirs == PreparedDirs(m.config.location, old(m.fs.dirs), old(m.fs.files))
  {
    ghost var location := LocationPath(m.config.location);
    ghost var file := DiskPath(m.config, Some(".json")).value;
    ghost var loaded := LoadedStorage(file, m.fs.files, m.storage);
    DiskPathIsNotLocation(m.config, Some(".json"));
    var i := 0;
    while i < n
      invariant 0 <= i <= n
      invariant m.Valid() && m.inContext == i
      invariant m.config == old(m.config)
      invariant m.saves == old(m.saves)
      invariant m.fs.files == old(m.fs.files)
      invariant i == 0 ==> m.loads == old(m.loads) && m.storage == old(m.storage) && m.fs.dirs == old(m.fs.dirs)
      invariant i >= 1 ==> m.loads == old(m.loads) + 1 && m.storage == loaded
      invariant i >= 1 ==> IsDirIn(m.fs.dirs, location) && !IsDirIn(m.fs.dirs, file)
      invariant i >= 1 ==> m.fs.dirs == PreparedDirs(m.config.location, old(m.fs.dirs), old(m.fs.files))
    {
      var r;
      if asWritten {
        r := m.EnterAsWritten();
      } else {
        r := m.Enter();
      }
      if i == 0 {
        PrepareIdempotent(m.config.location, old(m.fs.dirs), old(m.fs.files));
      }
      assert r.Pass?;
      i := i + 1;
    }
    while i > 0
      invariant 0 <= i <= n
      invariant m.Valid() && m.inContext == i
      invariant m.config == old(m.config)
      invariant m.loads == old(m.loads) + 1 && m.storage == loaded
      invariant IsDirIn(m.fs.dirs, location) && !IsDirIn(m.fs.dirs, file)
      invariant m.fs.dirs == PreparedDirs(m.config.location, old(m.fs.dirs), old(m.fs.files))
      invariant i >= 1 ==> m.saves == old(m.saves) && m.fs.files == old(m.fs.files)
      invariant i == 0 ==> m.saves == old(m.saves) + 1 && m.fs.files == old(m.fs.files)[file := loaded]
    {
      var r := m.Exit();
      assert r.Pass?;
      i := i - 1;
    }
  }

  /**
   * What one model saves on its last exit, a second model with the same
   * location loads on its first enter, whatever the rest of its config;
   * with `__aenter__` as written (`asWritten`) or corrected.
   */
  method PersistAcrossInstances(a: SimpleModel, b: SimpleModel, asWritten: bool) returns (saved: Outcome<LifecycleError>, loaded: Outcome<LifecycleError>)
    requires a != b && a.fs == b.fs && a.Valid()
    requires a.config.location == b.config.location && a.config.location.FsPath?
    requires a.inContext == 1 && b.inContext == 0
    requires IsDirIn(a.fs.dirs, LocationPath(a.config.location))
    requires !IsDirIn(a.fs.dirs, DiskPath(a.config, Some(".json")).value)
    modifies a, b, a.fs
    ensures saved.Pass? && loaded.Pass?
    ensures a.inContext == 0 && b.inContext == 1
    ensures b.storage == old(a.storage)
  {
    DiskPathDependsOnlyOnLocation(a.config, b.config, Some(".json"), Some(".json"));
    DiskPathIsNotLocation(a.config, Some(".json"));
    saved := a.Exit();
    if asWritten {
      loaded := b.EnterAsWritten();
    } else {
      loaded := b.Enter();
    }
  }

  /**
   * As written, when the location cannot be created (a regular file sits
   * there), the first enter raises but keeps its increment, and the next
   * enter reports success without creating the location or loading.
   */
  method RetryAfterFailedEnterAsWritten(m: SimpleModel) returns (first: Outcome<LifecycleError>, second: Outcome<LifecycleError>)
    requires m.Valid() && m.inContext == 0
    requires m.config.location.FsPath? && m.fs.IsFile(LocationPath(m.config.location))
    modifies m, m.fs
    ensures m.config == old(m.config)
    ensures first.Fail? && second.Pass?
    ensures m.inContext == 2
    ensures m.loads == old(m.loads)
    ensures !m.fs.IsDir(LocationPath(m.config.location))
  {
    first := m.EnterAsWritten();
    second := m.EnterAsWritten();
  }

  /**
   * With the increment taken back, the same retry raises again and the
   * counter stays 0, so a later successful enter is a first enter.
   */
  method RetryAfterFailedEnter(m: SimpleModel) returns (first: Outcome<LifecycleError>, second: Outcome<LifecycleError>)
    requires m.Valid() && m.inContext == 0
    requires m.config.location.FsPath? && m.fs.IsFile(LocationPath(m.config.location))
    modifies m, m.fs
    ensures first.Fail? && second.Fail?
    ensures m.inContext == 0
    ensures m.loads == old(m.loads)
  {
    first := m.Enter();
    second := m.Enter();
  }
}
