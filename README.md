# dffml model lifecycle, in Dafny

A model of the lifecycle core of `dffml/model/model.py`, the plugin base
class for machine-learning models in DFFML, centred on `SimpleModel`:

- **Feature validation** (`applicable_features`, `check_applicable_feature`,
  `check_feature_dtype`, `check_feature_length`): a feature list is checked
  against a model's declared capabilities (`DTYPES`, `NUM_SUPPORTED_FEATURES`,
  `SUPPORTED_LENGTHS`, here the `Capabilities` record) and either rejected or
  turned into the sorted list of feature names (`features.dfy`, with Python's
  string ordering and `sorted` in `strings.dfy`).
- **Location normalisation** (`Model.__init__`): a string location becomes a
  path, and every path goes through `expanduser().resolve()`, which is a
  parameter of the model (`model.dfy`, with `pathlib.Path(str)` in `paths.dfy`).
- **Storage path** (`disk_path`): the file `Model` inside the location. As
  the code is written, the extension argument and the normalised config it
  computes are ignored, so every config with the same location shares one file.
- **Reentrant lifecycle** (`__aenter__`, `__aexit__`, `open`, `close`,
  `_make_config_location`): the `SimpleModel` class keeps `storage`, the
  counter `inContext` and its config; the first enter creates the location
  directory and loads storage from the file if it exists, the last exit
  writes storage back. The filesystem is a `FileSystem` object holding a set
  of directories and a map from file paths to JSON values (`paths.dfy`).
  Ghost counters `loads` and `saves` record how often `open` and `close`
  complete (`open` counts even when no file exists and storage is kept).
  The counter alone is modelled as a pure state machine in
  `lifecycle.dfy`, and `usage.dfy` drives the class as `async with` blocks
  do, with `__aenter__` as written and with the correction described under
  "## Findings".

Where the code's own comments, docstrings or messages suggest otherwise, the
model follows the code:

- the feature count must equal `NUM_SUPPORTED_FEATURES` exactly: fewer
  features are rejected too, although the message says "more than";
- the docstring of `disk_path` promises a file name unique to the model's
  configuration, but the code always returns `location/Model`: two models
  with different settings and the same location read and write the same file
  (`ModelUsage.PersistAcrossInstances` shows the second one loading what the
  first saved).

Two plain facts of the lifecycle as the code has it:

- `close` writes storage on every last exit;
- `open` replaces storage only when the file exists; when it does not,
  storage stays as it was (the empty object for a new model).

## Model

| member | source | states |
|---|---|---|
| `Strings.LexLe` | dffml/model/model.py:205 | Python's `str` order: a prefix sorts before every string it starts, and otherwise the first differing code point decides |
| `Strings.Insert` | dffml/model/model.py:205 | inserting into an ascending list keeps it ascending and adds exactly one element |
| `Strings.SortStrings` | dffml/model/model.py:205 | `sorted` on strings returns an ascending permutation of its input |
| `Strings.SortedUnique` | dffml/model/model.py:205 | two ascending lists with the same elements are equal, so any correct sort gives the result `sorted` gives |
| `Strings.SortPermutationInvariant` | dffml/model/model.py:202-205 | lists that are permutations of each other sort to the same list |
| `ModelFeatures.CheckFeatureDtype` | dffml/model/model.py:214-218 | passes exactly when the data type is one of `DTYPES`, otherwise raises the data-type error |
| `ModelFeatures.CheckFeatureLength` | dffml/model/model.py:220-225 | with `SUPPORTED_LENGTHS` `None` or empty every length passes; otherwise a length passes exactly when listed, and fails with the dimensionality error |
| `ModelFeatures.CheckApplicableFeature` | dffml/model/model.py:207-212 | returns `True` exactly when the feature passes both checks; otherwise raises the data-type error first, the dimensionality error only for a supported data type |
| `ModelFeatures.FirstRejection` | dffml/model/model.py:199-201 | none exactly when every feature is accepted; otherwise the error of the first rejected feature, all features before it accepted |
| `ModelFeatures.ApplicableFeaturesSpec` | dffml/model/model.py:184-205 | succeeds exactly when the count is accepted and every feature is; the result is sorted, a permutation of the input names, as long as the input |
| `ModelFeatures.FirstRejectionAt` | dffml/model/model.py:199-201 | the first rejected feature after accepted ones decides the error raised |
| `ModelFeatures.ApplicableFeatures` | dffml/model/model.py:184-205 | the loop collecting names, then `sorted`, returns or raises exactly what the specification function does |
| `ModelFeatures.NamesPermutation` | dffml/model/model.py:199-201 | the names collected from a permutation of the features are a permutation of the names |
| `ModelFeatures.ApplicableFeaturesOrderIndependent` | dffml/model/model.py:202-205 | a permutation of the features is accepted exactly when the original is, with the same sorted names |
| `ModelFeatures.CountMismatchRejected` | dffml/model/model.py:188-197 | with a declared count, any other number of features, fewer or more, raises the count error |
| `ModelFeatures.UnsupportedDtypeRejected` | dffml/model/model.py:214-218 | one feature with a data type outside `DTYPES` makes the whole list rejected |
| `ModelFeatures.ApplicableFeaturesKeepsEveryName` | dffml/model/model.py:199-205 | on success every input name is in the result and the result holds nothing else |
| `ModelFeatures.SimpleModelAcceptsIntAndFloat` | dffml/model/model.py:109-111 | `SimpleModel`'s own constants accept an int and a float feature and return `["f1", "f2"]` |
| `ModelFeatures.SingleFeatureModelRejectsTwo` | dffml/model/model.py:188-197 | a model declaring one feature rejects two with the count error |
| `Pathlib.ParsePath` | dffml/model/model.py:76-77 | `pathlib.Path(s)` is rooted exactly when `s` starts with '/', and its components are non-empty, not ".", without '/' |
| `Pathlib.ComponentsOfSegment` | dffml/model/model.py:76-77 | a string with no '/' is one component, or none when it is empty or "." |
| `Pathlib.ComponentsOfSlash` | dffml/model/model.py:76-77 | the components of `a/b` are those of `a` followed by those of `b`, so repeated and trailing separators add nothing |
| `Pathlib.Format` | dffml/model/model.py:76-77 | `str(path)` is never empty and starts with '/' exactly when a well-formed path is rooted |
| `Pathlib.ParseFormatRoundTrip` | dffml/model/model.py:76-77 | a path so parsed prints to a string that parses back to the same path |
| `Pathlib.FileSystem.MakeDirs` | dffml/model/model.py:98-99 | `mkdir(parents=True)` succeeds exactly when nothing is at the path and no ancestor is a file, and then adds the path and its ancestors as directories |
| `Pathlib.FileSystem.WriteText` | dffml/model/model.py:163 | `write_text` succeeds exactly when the path is not a directory and its parent is one, and then the file holds the value |
| `Model.LocationPath` | dffml/model/model.py:97 | `pathlib.Path(location)`: a string location is parsed to a well-formed path, rooted exactly when the string starts with '/'; a path location is itself |
| `Model.NormaliseLocation` | dffml/model/model.py:75-84 | a location stays absent exactly when it was, is never a string afterwards, and is otherwise the normaliser's output for the path it stood for |
| `Model.NormalisedDiskPath` | dffml/model/model.py:75-84 | the file of a model built from a config is `Model` inside the normalised location |
| `Model.NormaliseLocationIdempotent` | dffml/model/model.py:75-84 | normalising twice is normalising once when `expanduser().resolve()` is idempotent |
| `Model.DiskPath` | dffml/model/model.py:166-182 | no path exactly when there is no location; otherwise a child of the location whose last component is `Model` |
| `Model.DiskPathDependsOnlyOnLocation` | dffml/model/model.py:173-182 | configs with the same location get the same file whatever the extension and other fields |
| `Model.DiskPathIsNotLocation` | dffml/model/model.py:182 | the file is neither the location nor one of the directories creating the location adds |
| `Model.PrepareIdempotent` | dffml/model/model.py:90-99 | after `_make_config_location` succeeds the location is a directory, and running it again succeeds and creates nothing |
| `Model.SimpleModel.constructor` | dffml/model/model.py:70-84 | the config's location is normalised, other fields kept; storage is `{}` and the counter 0 |
| `Model.SimpleModel.Create` | dffml/model/model.py:114-119 | construction raises exactly when the config has features that `applicable_features` rejects; otherwise `features` holds the sorted names |
| `Model.SimpleModel.MakeConfigLocation` | dffml/model/model.py:90-99 | succeeds exactly when there is no location or it is or can become a directory; files are untouched and the location is then a directory |
| `Model.SimpleModel.Open` | dffml/model/model.py:146-156 | with a location, storage becomes the file's contents if the file exists and is unchanged otherwise; without one it raises |
| `Model.SimpleModel.Close` | dffml/model/model.py:158-164 | overwrites the model's file with storage, or raises when there is no location or the file cannot be written |
| `Model.SimpleModel.EnterAsWritten` | dffml/model/model.py:124-131 | the counter is incremented even when the enter raises; a nested enter does no I/O; a first enter creates the location and loads |
| `Model.SimpleModel.Enter` | dffml/model/model.py:124-131 | a first enter creates the location and loads storage from the file if it exists, or raises with the counter unchanged; a nested enter only counts |
| `Model.SimpleModel.Exit` | dffml/model/model.py:133-136 | decrements the counter; the exit reaching 0 writes storage to the model's file, any other does no I/O |
| `ModelLifecycle.Loads` | dffml/model/model.py:125-131 | only an enter loads; an enter with the counter at 1 or more never does, one from 0 always does |
| `ModelLifecycle.Saves` | dffml/model/model.py:134-136 | an event saves exactly when it is an exit with the counter at 1 |
| `ModelLifecycle.StepAsWritten` | dffml/model/model.py:125-135 | every enter, failed or not, raises the counter; a loading enter leaves it at most 1 and a saving exit leaves it 0 |
| `ModelLifecycle.Step` | dffml/model/model.py:125-135 | the same update as written except that a failed enter leaves the counter unchanged |
| `ModelLifecycle.RunAppend` | dffml/model/model.py:124-136 | the counter, loads and saves of a run split in two add up |
| `ModelLifecycle.EntersFrom` | dffml/model/model.py:124-131 | `n` enters from a non-negative count raise it by `n`, load only if it was 0, and never save |
| `ModelLifecycle.ExitsFrom` | dffml/model/model.py:133-136 | `n` exits lower the count by `n` and save once exactly when it passes through 0 |
| `ModelLifecycle.NestedScopesLoadAndSaveOnce` | dffml/model/model.py:124-136 | `n` enters then `n` exits from 0 return the counter to 0 with exactly one load and one save |
| `ModelLifecycle.FailedEnterSuppressesNextScope` | dffml/model/model.py:124-131 | as written, after a failed first enter the next scope neither loads nor saves; with the increment taken back it does both |
| `ModelUsage.NestedScopes` | dffml/model/model.py:124-164 | `n` nested blocks on a model whose location can be created load once, save once, return the counter to 0, leave the file holding storage and the directories exactly those that creating the location adds, with `__aenter__` as written or corrected |
| `ModelUsage.PersistAcrossInstances` | dffml/model/model.py:146-164 | what one model saves on its last exit a second model with the same location loads on its first enter, with `__aenter__` as written or corrected |
| `ModelUsage.RetryAfterFailedEnterAsWritten` | dffml/model/model.py:124-131 | as written, with a file at the location the second enter reports success without a directory or a load |
| `ModelUsage.RetryAfterFailedEnter` | dffml/model/model.py:124-131 | with the increment taken back, the retry raises again and the counter stays 0 |

## Left out

- The JSON text encoding of `open` and `close`: a file holds the storage value itself, so the model does not capture that `json` loses non-string keys; JSON numbers are integers here.
- `expanduser().resolve()`: it depends on the home directory, the working directory and symbolic links, so it is a function parameter of the constructor with no properties assumed.
- `pathlib` details beyond what the core uses: `~user` forms, the POSIX special case of a leading `//`, and `..` components (kept as ordinary components).
- Failures of reading the model's file (`read_text` or `json.loads` raising): `open` with a location always succeeds here.
- `Pathlib.FileSystem.MakeDirs`: fails only when a file or directory is in the way; other filesystem failures of `mkdir` (permission denied, read-only filesystem, disk full) are not modelled.
- `Pathlib.FileSystem.WriteText`: fails only when the path is a directory or its parent is not one; other filesystem failures of `write_text` (permission denied, read-only filesystem, disk full) are not modelled, so `ModelUsage.NestedScopes` saving once holds only in their absence.
- The filesystem changes only through the model's own operations; nothing removes files or directories, and other processes are not modelled.
- The secure permission bits `MODE_BITS_SECURE`, logging, `base_entry_point` plugin registration and `no_enforce_immutable`.
- Model.SimpleModel.constructor: the config is a value, so the normalised location is not written back into a config object shared with the caller; in the code the first model changes that shared config and each later model normalises an already normalised path, which `Model.NormaliseLocationIdempotent` shows changes nothing when `expanduser().resolve()` is idempotent on it.
- Async execution and concurrency: enter and exit are sequential calls.
- `ModelContext.train` and `predict` and `ModelNotTrained`: abstract methods without bodies, and an exception this file never raises.
- `Model.__call__`, which creates the location and returns `self.CONTEXT(self)`: `SimpleModel.__call__` overrides it and returns the model itself, so the base version is never reached from `SimpleModel`; the `parent` property likewise returns the model itself.
- The `exported` dictionary in `disk_path`, which the code computes and never uses; so the configuration fingerprint and its independence of the location are not modelled.
- Exact error messages: one error kind per check.
- Python types as data types: `DType` enumerates a few and names the rest.
- model/daal4py/tests/test_lr_integration.py: a command-line end-to-end test of an external back end, with no logic of this core.

## Findings

| source | as written | input that shows it | evidently intended | confidence | as-written member | corrected member |
|---|---|---|---|---|---|---|
| dffml/model/model.py:124-131 | `__aenter__` increments `_in_context` before `_make_config_location()` and `open()`, and `async with` does not call `__aexit__` when `__aenter__` raises, so a failed enter keeps its increment | a location naming an existing regular file: the first enter raises, the second enter returns without creating the location or loading, and its exit does not save | a failed enter leaves the counter as it was, so the next enter is a first enter again | medium, not executed | `Model.SimpleModel.EnterAsWritten` (`ModelUsage.RetryAfterFailedEnterAsWritten`, `ModelLifecycle.FailedEnterSuppressesNextScope`) | `Model.SimpleModel.Enter` (`ModelUsage.RetryAfterFailedEnter`) |
