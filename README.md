# stereodemo core in Dafny

stereodemo runs stereo-matching methods on pairs of rectified images. This
project models the parts of it that are plain logic rather than image
processing:

- the parameter records of a method (`IntParameter`, `EnumParameter`);
- the validators `odd_only` and `multiple_of_16`;
- the default tables that `reset_defaults` writes for OpenCV BM, OpenCV SGBM
  and RAFT-Stereo;
- the block-size fix-up of OpenCV BM;
- the file-list image source. It splits the list into left and right halves,
  serves the pairs round-robin and picks a calibration file for each pair;
- RAFT-Stereo's checkpoint handling. Its steps are:
  - parse the "WxH" shape;
  - build the checkpoint file name;
  - look the name up in the `urls` table;
  - download the file only when it is not cached;
  - choose CPU or CUDA from the variant name.

Modules:

- `Common` (`common.dfy`):
  - Python's exceptions as a `Result`;
  - Python list indexing;
  - relative paths;
  - the set of files on disk.
- `Text` (`text.dfy`) holds the string built-ins the code uses:
  - `str(int)`;
  - `int(str)`;
  - `str.split`;
  - `sub in s`.
- `Methods` (`methods.dfy`) holds `stereodemo/methods.py`:
  - parameter records are classes;
  - a method's `parameters` dictionary is a map to those records;
  - `ValuesOf` reads the records' current contents.
- `FileList` (`file_list.dfy`) holds `FileListSource` from `stereodemo/main.py`.
- `Raft` (`raft_stereo.dfy`) holds `stereodemo/raft_stereo.py`.

A call that raises in Python returns `Err(...)` with the exception:

- `IndexError` for a bad list index;
- `KeyError` for a missing dictionary key;
- `ValueError` for a failed `int()` or a failed tuple unpacking.

### Behaviour the code has that a reader might not expect

- The `urls` table has no entry for the `middlebury-cpu` variant, yet that
  variant is one of the "Model" choices. With it selected and no cached
  checkpoint, `_load_model` raises KeyError for every shape
  (`Raft.MiddleburyCpuHasNoCheckpoint` with `Raft.RaftStereo.PrepareModel`).
  The earlier choice list, kept as a comment in `raft_stereo.py`, has no
  `middlebury-cpu` entry either. The code gives no address to correct the
  table with, so the model keeps the table as written.
- `get_next_pair` on an empty file list resets the index to 0 and then raises
  IndexError.
- `EnumParameter.value` follows Python indexing, so a negative index counts
  from the end.
- `set_value` applies the validator but does not clamp to `min`/`max`. A value
  outside the range can stay outside it, or be rounded into it: for "Block
  Size" (3 to 63) `odd_only(2)` is 3. A validator can also push an in-range
  value out of range unless the bounds suit it. `Methods.RangeClosed` states
  which bounds do.

## Model

| member | source | states |
|---|---|---|
| `Common.PyIndex` | stereodemo/methods.py:32-34 | `values[index]` succeeds exactly for `-len <= index < len` and raises IndexError otherwise; a non-negative index gives that element, and any success is an element of the list |
| `Common.PyIndexWraps` | stereodemo/methods.py:34 | a negative index names the same element as the index `len` higher |
| `Common.Join` | stereodemo/main.py:48 | `p / name` has `name` as its name and `p` as its parent |
| `Text.DecimalString` | stereodemo/raft_stereo.py:84 | formatting a number gives a non-empty string of digits without a leading zero |
| `Text.ParseDecimal` | stereodemo/raft_stereo.py:79 | `int(s)` succeeds exactly on non-empty digit strings |
| `Text.ParseDecimalString` | stereodemo/raft_stereo.py:79-84 | `int(str(n)) == n` |
| `Text.SplitOn` | stereodemo/raft_stereo.py:78 | `s.split(sep)` gives at least one piece, no piece holds `sep`, and joining the pieces with `sep` gives back `s` |
| `Text.SplitWithoutSeparator` | stereodemo/raft_stereo.py:78 | a string without the separator splits into itself alone |
| `Text.SplitAroundSeparator` | stereodemo/raft_stereo.py:78 | `(a + sep + b).split(sep) == [a, b]` when neither side holds `sep` |
| `Text.ContainsSpec` | stereodemo/raft_stereo.py:90 | `sub in s` holds exactly when `sub` occurs at some position of `s` |
| `Methods.OddOnly` | stereodemo/methods.py:36-37 | the result is odd; it is `x` exactly when `x` is odd, and otherwise `x + 1` |
| `Methods.MultipleOf16` | stereodemo/methods.py:39-40 | the result is a multiple of 16 and at least 16; for `x >= 16` it is the largest multiple of 16 not above `x`, and below 32 it is 16 |
| `Methods.Apply` | stereodemo/methods.py:18-21 | the default validator keeps the value; `odd_only` gives an odd value at most one above; `multiple_of_16` gives a multiple of 16 that is at least 16; for values of 16 or more it is the largest multiple of 16 not above the value, and below 32 it is 16 |
| `Methods.ValidatorIdempotent` | stereodemo/methods.py:36-40 | applying any validator twice gives the same result as applying it once |
| `Methods.ValidatorKeepsRange` | stereodemo/methods.py:20-21 | when the bounds suit the validator, a validated in-range value stays in range |
| `Methods.ValidatorsDoNotClamp` | stereodemo/methods.py:20-21 | validators do not clamp to the parameter's range: 1000 stays 1000, 64 becomes 65, 300 becomes 288 |
| `Methods.IntParameter.constructor` | stereodemo/methods.py:12-18 | the record holds the given fields; without a `to_valid` argument the validator keeps values unchanged |
| `Methods.IntParameter.SetValue` | stereodemo/methods.py:20-21 | the value becomes the validator applied to `x`; the other fields are unchanged; when the bounds suit the validator, an in-range `x` leaves an in-range value |
| `Methods.EnumParameter.constructor` | stereodemo/methods.py:23-27 | the record holds the given fields |
| `Methods.EnumParameter.SetIndex` | stereodemo/methods.py:29-30 | any index is stored, even out of range; the other fields are unchanged |
| `Methods.EnumParameter.Value` | stereodemo/methods.py:32-34 | the value is `values[index]` with Python indexing: IndexError exactly outside `-len .. len-1` |
| `Methods.NewRecords` | stereodemo/methods.py:69-79 | the dictionary literal allocates one fresh record per key, holding that key's defaults, and no two keys share a record |
| `Methods.UpdatedValues` | stereodemo/methods.py:69 | after `update`, the updated keys show the new records' contents and every other key keeps its contents |
| `Methods.UpdateWithFresh` | stereodemo/methods.py:69-79 | `parameters.update({...})` adds the table's keys with fresh records, keeps the other records, and writes the table over the old contents |
| `Methods.BMDefaultsSound` | stereodemo/methods.py:70-78 | each BM default lies within its bounds, is left unchanged by its validator, and has bounds that suit its validator |
| `Methods.SGBMDefaultsSound` | stereodemo/methods.py:112-127 | each SGBM default lies within its bounds and passes its validator; the mode index is a valid choice |
| `Methods.SGBMPenaltiesOrdered` | stereodemo/methods.py:119-120 | with one channel and block size 3 the penalties are P1 = 72 and P2 = 288, so P2 > P1 as its description demands |
| `Methods.StereoMethod.BM` | stereodemo/methods.py:62-64 | a new BM method has its name, its description, and exactly the BM defaults as parameter contents |
| `Methods.StereoMethod.SGBM` | stereodemo/methods.py:103-105 | a new SGBM method has its name, its description, and exactly the SGBM defaults as parameter contents |
| `Methods.StereoMethod.ResetDefaults` | stereodemo/methods.py:66-79 | the table's keys get fresh records holding the defaults; other keys keep their records and contents; records that were separate stay separate |
| `Methods.StereoMethod.MatcherBlockSize` | stereodemo/methods.py:82-84 | the block size given to the matcher is odd; it is the stored one, plus one when the stored one is even |
| `FileList.SiblingCalibration` | stereodemo/main.py:48 | the calibration candidate is `stereodemo_calibration.json` in the left image's directory |
| `FileList.ChooseCalibration` | stereodemo/main.py:47-53 | a path the user gave always wins; otherwise the sibling file if it exists; the default calibration exactly when there is no user path and no sibling file |
| `FileList.SplitHalves` | stereodemo/main.py:31-34 | the two halves have length `len // 2` each and concatenate to the list |
| `FileList.UsedIndex` | stereodemo/main.py:39-45 | the index read is the stored index while it is still in range, and 0 once it has reached or passed the end; for a non-empty list it is always a valid position |
| `FileList.CallsCycle` | stereodemo/main.py:38-67 | call number k serves pair `k % n` and leaves the index at `k % n + 1`, within `1..n` |
| `FileList.CallsRepeat` | stereodemo/main.py:38-67 | the pairs repeat with period n |
| `FileList.FileListSource.constructor` | stereodemo/main.py:30-36 | the left paths are the first half, the right paths the second half, the index is 0, and the calibration setting is kept |
| `FileList.FileListSource.GetNextPair` | stereodemo/main.py:38-69 | an empty list resets the index and raises IndexError; otherwise the index wraps past the end, the pair at that one index is served with its calibration, and the index steps by one |
| `Raft.UrlsNameTheirFile` | stereodemo/raft_stereo.py:21-42 | every address in `urls` ends with `/models/` followed by its key |
| `Raft.DefaultsSound` | stereodemo/raft_stereo.py:60-67 | both RAFT defaults select an existing choice |
| `Raft.DefaultChoices` | stereodemo/raft_stereo.py:62-66 | the defaults select shape `640x480` (index 2) and model `fast-cpu` (index 0) |
| `Raft.ParseShape` | stereodemo/raft_stereo.py:78-79 | the shape string parses exactly when it splits on `x` into two non-empty digit strings; any other string raises ValueError |
| `Raft.ParseFormattedShape` | stereodemo/raft_stereo.py:78-79 | the string `"{cols}x{rows}"` parses back to `(cols, rows)` |
| `Raft.ModelFileNameCarriesShape` | stereodemo/raft_stereo.py:84 | the checkpoint name is `raft-stereo-{variant}-`, then a shape string that parses back to (rows, cols), then `.scripted.pt` |
| `Raft.ModelFileNameInjective` | stereodemo/raft_stereo.py:84 | for one variant, two shapes with the same checkpoint name are the same shape |
| `Raft.CheckpointNameSwapsShape` | stereodemo/raft_stereo.py:78-84 | the checkpoint name writes the shape's two sides the other way round: "AxB" leads to `raft-stereo-{variant}-BxA.scripted.pt` |
| `Raft.CheckpointPath` | stereodemo/raft_stereo.py:78-84 | the checkpoint path exists exactly when the shape value, its parse and the variant value all succeed; it lies in the models directory and carries the checkpoint name; otherwise the first exception is raised: the shape read's, ValueError for a failed parse, or the variant read's |
| `Raft.CheckpointCoverage` | stereodemo/raft_stereo.py:21-42 | every shape choice parses; with it, every model choice except index 1 (`middlebury-cpu`) leads to a name in `urls`, and index 1 does not |
| `Raft.MiddleburyCpuHasNoCheckpoint` | stereodemo/raft_stereo.py:125-126 | with `middlebury-cpu` selected, every shape choice leads to a checkpoint whose name has no address, so the lookup raises KeyError unless the file is cached |
| `Raft.OtherChoicesHaveCheckpoints` | stereodemo/raft_stereo.py:21-42 | every other model choice, with every shape choice, leads to a checkpoint that has an address |
| `Raft.MiddleburyCpuChoice` | stereodemo/raft_stereo.py:66 | model index 1 is the only `middlebury-cpu` choice |
| `Raft.DefaultCheckpoint` | stereodemo/raft_stereo.py:62-90 | the default choices lead to `models/raft-stereo-fast-cpu-480x640.scripted.pt`, which has an address, on the CPU |
| `Raft.DeviceFor` | stereodemo/raft_stereo.py:90 | the device is CUDA exactly when `cuda` occurs in the variant name |
| `Raft.CpuVariantsWithoutCuda` | stereodemo/raft_stereo.py:66-90 | none of the three CPU variant names contains `cuda` |
| `Raft.ModelChoiceDevices` | stereodemo/raft_stereo.py:66 | the first three model choices run on the CPU and the last three on CUDA |
| `Raft.RaftStereo.constructor` | stereodemo/raft_stereo.py:51-58 | a new RAFT-Stereo has its name, its description, exactly the RAFT defaults as parameter contents, no target size, and no loaded network |
| `Raft.RaftStereo.ResetDefaults` | stereodemo/raft_stereo.py:60-67 | "Shape" and "Model" get fresh records holding the defaults; other keys keep their records and contents; records that were separate stay separate |
| `Raft.RaftStereo.LoadModel` | stereodemo/raft_stereo.py:119-131 | a cached checkpoint is loaded without a download; a missing one is downloaded from its address and then exists; a missing one without an address raises KeyError and changes nothing; success records the loaded path |
| `Raft.RaftStereo.PrepareModel` | stereodemo/raft_stereo.py:74-90 | the target size is set exactly when the shape parses. A failed shape read, parse or variant read raises before anything is loaded. Otherwise the checkpoint path is loaded as `LoadModel` says, and the device follows `DeviceFor` |

## Left out

- Image I/O, the OpenCV matchers, the torch network and its pre- and
  post-processing, GPU memory clean-up and timing are not modelled. They are
  foreign calls or floating point. The model is only the logic around them.
- Reading and parsing the calibration JSON is left out. A pair carries the
  calibration file it would read, or the fallback calibration. In the source,
  a user-given calibration file that does not exist fails when it is opened;
  that failure is not modelled.
- The warning printed when no calibration file is found, and the status
  string of a pair, are left out because they are output only.
- Images are given by their paths. `load_image` is not modelled, so an image
  that fails to load is not an outcome of `FileList.FileListSource.GetNextPair`:
  in the source, a left image that fails to load with no calibration file
  found makes the fallback calibration read the shape of `None` and raise,
  where the model returns the pair with `DefaultCalibration`.
- `utils.download_model` is assumed to succeed and to create the file it is
  given. The network is not modelled. A download is visible as the returned
  address and as the new file in the cache.
- Creating the models directory (raft_stereo.py:75-76) is left out, because
  directories are not modelled. Paths are relative sequences of components,
  and `models_path` is the constructor's `modelsPath` argument.
- `Text.ParseDecimal`: Python's `int()` also accepts a sign, surrounding
  whitespace and underscores. The model accepts ASCII digits only. The four
  shape choices contain none of those characters.
- `Methods.StereoMethod`: `StereoBMMethod` and `StereoSGBMMethod` are one
  class, `StereoMethod`, with a constructor for each. Besides their name,
  description and default table, they differ in `compute_disparity`: BM makes
  the block size odd before creating its matcher, while SGBM passes "Block
  Size" through unchanged. Of the two, only BM's block-size fix-up is
  modelled, as `Methods.StereoMethod.MatcherBlockSize`, which requires the BM
  table.
- The `to_valid` lambdas are the datatype `Validator` with the three rules the
  code uses.
- The `urls` values are written `ReleaseDir + key`. These are the same strings
  the source spells out.
- `FileList.FileListSource.constructor`: an odd-length file list fails the
  source's `assert`. The model makes even length a precondition.
- The other stereo methods, the visualiser, the camera sources and
  command-line parsing are out of scope.
