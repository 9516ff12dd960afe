# Per-epoch real/synthetic mixing driver for YOLO training, in Dafny

This project models `src/train_mix.py`. That script trains an object
detector one epoch at a time. Before every epoch it regenerates synthetic
images and mixes them with the fixed real dataset at 70 % real to 30 %
synthetic, for each of the train, val and test splits.

- `list_pairs` indexes the real image/label pairs of a split.
- `synth_needed` computes how many synthetic images go with R real ones.
- `write_list` writes a split's mixed list, one resolved path per line.
- `load_names` finds the class names, from `real/dataset.yaml` or
  `real/classes.json`.
- `main` runs the whole loop. It loads the names and indexes the three
  splits, and stops if one split is empty. Then, for each of 20 epochs, it
  asks the generator for fresh samples per split, writes three list files
  and a `dataset_epNNN.yaml`, and trains the model for one epoch. The
  model resumes from the second epoch on.

The files, one module each:

- `wrappers.dfy`: `Option` and `Result`.
- `text.dfy`: decimal formatting and `int()` parsing, `{:03d}` padding,
  the whitespace `str.isspace` and `\s` accept and the narrower set
  `int()` skips, and line splitting.
- `ordering.dfy`: Python string order and `sorted` as a stable insertion sort.
- `mix_ratio.dfy`: `synth_needed`.
- `dataset_index.dfy`: `list_pairs`, both as a specification function and as
  a method with its two loops.
- `json_text.dfy`: `json.dumps(names, ensure_ascii=False)`, plus a reference
  decoder that reads the output back.
- `manifest.dfy`: `write_list` and the text of the per-epoch dataset
  description.
- `class_names.dfy`: `load_names`, including the exact behaviour of the
  regular expression `names:\s*(\[.*?\])`.
- `epoch_driver.dfy`: `main`.

The program's side effects appear in the model as values.
- `EpochDriver.Run` is a method that returns how the run ends (an
  `Outcome`) and the trace of calls it makes, in order:
  - building the model;
  - creating the work directory;
  - each generator request;
  - each file write, with its full text;
  - each `model.train` call with its arguments.
- What the program reads comes in through an `Env` value:
  - the working directory;
  - the texts of the two name files;
  - `json.loads`, as an abstract function;
  - the directory listings.
- Every path is built from the source's constants exactly as the source
  builds it.

## Model

| member | source | states |
|---|---|---|
| MixRatio.SynthNeeded | src/train_mix.py:55-56 | the synthetic count S is within half a sample of 3R/7, i.e. of R·0.30/0.70 |
| MixRatio.RoundHalfEven | src/train_mix.py:56 | Python's `round` lands within half a unit of n/d |
| MixRatio.SynthNeededIsPythonRound | src/train_mix.py:55-56 | `synth_needed(R)` equals `max(0, round(R*0.30/0.70))` with round-half-to-even |
| MixRatio.SynthNeededIsNearest | src/train_mix.py:55-56 | S is the unique integer nearest to 3R/7 (no ties occur) |
| MixRatio.MixIsThirtyPercentSynthetic | src/train_mix.py:25-26 | in a mix of R real and S synthetic images, the synthetic share is 30 % to within half a sample |
| MixRatio.SynthNeededMonotonic | src/train_mix.py:55-56 | more real images never ask for fewer synthetic ones |
| MixRatio.SynthNeededExamples | src/train_mix.py:55-56 | 100, 20 and 10 real images need 43, 9 and 4 synthetic ones; 70 needs 30, 0 and 1 need 0 |
| Text.ParseInt | src/train_mix.py:78 | `int()` of a decimal: succeeds exactly on an optional `+` or `-` followed by one or more ASCII digits |
| Text.StripStartSpec | src/train_mix.py:78 | `int()` drops all the leading whitespace it skips (tab to carriage return, space, and the non-ASCII spaces) and nothing else: the rest is a suffix that starts with no such character |
| Text.StripEndSpec | src/train_mix.py:78 | `int()` drops all the trailing whitespace it skips and nothing else: the rest is a prefix that ends with no such character |
| Text.IntOf | src/train_mix.py:78 | `int(k)` of a text with no whitespace at either end is `ParseInt` of that text; the general case is `Text.IntOfSpec` |
| Text.IntOfSpec | src/train_mix.py:78 | `int(k)` parses exactly the text between the maximal leading and trailing runs of the whitespace it skips |
| Text.SeparatorIsNotIntSpace | src/train_mix.py:78 | U+001C counts as whitespace for `str.isspace` and `\s`, but `int("\x1c1")` raises ValueError |
| Text.NatToString | src/train_mix.py:79 | `str(k)` is non-empty decimal digits with no leading zero |
| Text.ParseIntToString | src/train_mix.py:78-79 | parsing `str(k)` gives back `k` |
| Text.IntOfToString | src/train_mix.py:78-79 | `int(str(k)) == k`, whitespace stripping included |
| Text.Pad3 | src/train_mix.py:98 | `{ep:03d}` is all digits, exactly three wide for `ep < 1000`, and `str(ep)` from 1000 on |
| Text.NatToStringWidth | src/train_mix.py:98 | `str(n)` has at most three digits exactly when `n < 1000` |
| Text.Pad3Value | src/train_mix.py:98 | `{ep:03d}` reads back as `ep` |
| Text.Pad3Injective | src/train_mix.py:98 | different epochs get different `{ep:03d}` names |
| Ordering.LexLeqTotal | src/train_mix.py:45 | Python's string order compares any two paths |
| Ordering.LexLeqTransitive | src/train_mix.py:45 | Python's string order is transitive |
| Ordering.LexLeqAntisymmetric | src/train_mix.py:45 | Python's string order is antisymmetric |
| Ordering.InsertSorted | src/train_mix.py:42 | one insertion step keeps the list sorted and adds exactly one element |
| Ordering.SortBySpec | src/train_mix.py:42 | `sorted(labels)` is ordered by path and is a permutation of its input |
| Ordering.SortPathsSpec | src/train_mix.py:45 | `sorted(pairs)` is ordered and is a permutation of its input |
| Ordering.SortInts | src/train_mix.py:78 | `sorted(map(int, keys))` is ascending and a permutation of the keys |
| DatasetIndex.FirstByStemKeys | src/train_mix.py:38-40 | `imgs` has a key for exactly the stems of the globbed images |
| DatasetIndex.FirstByStemFirst | src/train_mix.py:38-40 | the first image listed with a stem is the one `imgs` keeps for it (`setdefault`) |
| DatasetIndex.FirstByStemWitness | src/train_mix.py:38-40 | every entry of `imgs` is the first image listed with its key as stem |
| DatasetIndex.FirstByStemSpec | src/train_mix.py:38-40 | `imgs` has a key for exactly the stems of the globbed images, each mapped to the first image with that stem (`setdefault`) |
| DatasetIndex.MatchedMembers | src/train_mix.py:41-44 | a path is kept iff it is the image recorded for the stem of some label |
| DatasetIndex.PairedImagesMembers | src/train_mix.py:35-45 | `list_pairs` returns exactly the first-by-stem images whose stem has a label |
| DatasetIndex.PairedImagesShape | src/train_mix.py:45 | the pairs are sorted by path and no more numerous than the labels |
| DatasetIndex.NoDuplicatesCounts | src/train_mix.py:35-45 | "no duplicates" means each path occurs at most once |
| DatasetIndex.MatchedNoDuplicates | src/train_mix.py:41-44 | distinct labels with distinct stems yield distinct images |
| DatasetIndex.PairedImagesNoDuplicates | src/train_mix.py:35-45 | with distinct image paths and distinct label stems, no image is listed twice |
| DatasetIndex.ListPairs | src/train_mix.py:35-45 | the two loops compute `list_pairs`: sorted, at most one per label, exactly the matched images |
| JsonText.EscapeChar | src/train_mix.py:138 | an escaped character contains no character below U+0020 and never begins with a bare quote |
| JsonText.EscapeChars | src/train_mix.py:138 | an escaped string contains no character below U+0020 |
| JsonText.DumpsIsOneLine | src/train_mix.py:138 | `json.dumps(names)` contains no character below U+0020, so no `\n` and no `\r` |
| JsonText.EscapeCharsDecode | src/train_mix.py:138 | decoding an escaped string up to its closing quote gives back the string |
| JsonText.JoinQuotedDecodes | src/train_mix.py:138 | the comma-separated quoted names decode back to the names |
| JsonText.DumpsRoundTrip | src/train_mix.py:138 | decoding `json.dumps(names)` gives back `names` (class names round-trip losslessly) |
| JsonText.Dumps | src/train_mix.py:138 | `json.dumps(names, ensure_ascii=False)` is a bracketed array; `JsonText.DumpsRoundTrip` decodes it back to `names` |
| Manifest.ForwardSlashes | src/train_mix.py:62 | `.replace("\\","/")` turns every backslash into `/`, leaves no backslash and keeps every other character in place |
| Manifest.ListTextAppend | src/train_mix.py:60-62 | each path adds its resolved line and a newline at the end of the file |
| Manifest.ListTextConcat | src/train_mix.py:60-62 | the list file of `a + b` is the file of `a` followed by the file of `b` |
| Manifest.ListLineOneLine | src/train_mix.py:62 | a resolved path with no newline writes a single line |
| Manifest.ListTextLines | src/train_mix.py:58-62 | the list file reads back as one line per path, in order, each the resolved forward-slash path |
| Manifest.ListTextHasNoBackslash | src/train_mix.py:62 | a list file never contains a backslash |
| Manifest.WriteList | src/train_mix.py:58-62 | the loop writes exactly the list text, free of backslashes |
| Manifest.NumberOneLine | src/train_mix.py:137 | the `nc` number is a single line |
| Manifest.DatasetYaml | src/train_mix.py:133-140 | the yaml text starts with its `train: ` line; `Manifest.DatasetYamlFields` reads all five lines back |
| Manifest.DatasetYamlSplits | src/train_mix.py:133-140 | the dataset description splits into exactly its five lines |
| Manifest.DatasetYamlFields | src/train_mix.py:133-140 | read back: train/val/test name the resolved list files, `nc` parses as the number of names, `names` decodes to the names |
| ClassNames.SkipSpaces | src/train_mix.py:69 | `\s*` consumes the maximal whitespace run |
| ClassNames.MatchAt | src/train_mix.py:69 | a match at i starts with `names:`; its group is bracketed and contains no inner `]` (lazy `.*?`) |
| ClassNames.MatchAtGroupInText | src/train_mix.py:69 | the group of a match at i is the text found right after `names:` and its `\s*` run |
| ClassNames.SkipSpacesStops | src/train_mix.py:69 | `\s*` before a `[` ends exactly at that `[` |
| ClassNames.MatchAtFinds | src/train_mix.py:69 | conversely, `names:`, whitespace, `[`, text without `]`, `]` is a match whose group is that bracketed text |
| ClassNames.SearchFrom | src/train_mix.py:69 | `re.search` finds the leftmost matching position, or reports that no position matches |
| ClassNames.NamesGroup | src/train_mix.py:69-70 | `m.group(1)` is the group of the leftmost match, and there is none exactly when no position matches |
| ClassNames.Lookup | src/train_mix.py:79 | `str(k) in mp` holds iff some item has that key, and the value found is stored under it |
| ClassNames.KeyInts | src/train_mix.py:78 | `map(int, keys)` succeeds iff every key parses; the values are the parsed keys in order; otherwise the error names a key of the file that `int()` rejects |
| ClassNames.KeyIntsFirstRejected | src/train_mix.py:78 | the key reported is the first key of the file that `int()` rejects: every earlier key parses |
| ClassNames.ValuesInOrder | src/train_mix.py:79 | the comprehension succeeds iff every `str(k)` is a key; each name is stored under `str(k)`; otherwise a `k` whose `str(k)` is no key is reported |
| ClassNames.ValuesInOrderFirstMissing | src/train_mix.py:79 | the `k` reported is the first one in `keys` whose `str(k)` is no key: every earlier one is found |
| ClassNames.NamesFromClassIndex | src/train_mix.py:75-79 | the classes.json branch returns one stored name per key, or raises ValueError for a key `int()` rejects or KeyError for a missing `str(k)`; `ClassNames.ClassIndexOrder` gives the order |
| ClassNames.LoadNames | src/train_mix.py:64-80 | `load_names` raises RuntimeError exactly when it falls through with no classes.json, and a JSON error only from classes.json; `DatasetYamlFirst`, `FallsBackToClassIndex` and `NoSourceRaises` fix which source wins |
| ClassNames.DatasetYamlFirst | src/train_mix.py:66-74 | a `names:` group in dataset.yaml that `json.loads` accepts is the answer, whatever classes.json says |
| ClassNames.FallsBackToClassIndex | src/train_mix.py:70-79 | without a usable group, classes.json decides: a load error raises, otherwise the class-index result is returned |
| ClassNames.NoSourceRaises | src/train_mix.py:80 | no usable group and no classes.json raises "Cannot determine class names" |
| ClassNames.ClassIndexOrder | src/train_mix.py:75-79 | with integer keys written as `str(k)`, one name per key is returned in ascending key order, each the value under its key |
| ClassNames.KeyIntsCanonical | src/train_mix.py:78 | keys written as `str(k)` all parse back to their own text |
| ClassNames.SortedKeysPresent | src/train_mix.py:78-79 | after sorting, every key is still present and can be looked up |
| ClassNames.LeadingZeroKeyParses | src/train_mix.py:78 | `int("01") == 1` |
| ClassNames.LeadingZeroKeyRaises | src/train_mix.py:78-79 | key `"01"` parses as 1, but `"1"` is no key, so the lookup raises KeyError |
| ClassNames.LeadingZeroKeyShadowed | src/train_mix.py:78-79 | with keys `"01"` and `"1"`, both parse as 1 and the name under `"1"` is returned twice; the name under `"01"` is lost |
| ClassNames.BracketInNameCutsGroup | src/train_mix.py:69 | a `]` inside a quoted name ends the group early: `names: ["a]b"]` gives `["a]` |
| EpochDriver.FirstEmpty | src/train_mix.py:89-91 | a split with no real pairs, every split before it in train, val, test order having some; none exactly when all three have some |
| EpochDriver.EpochsCalls | src/train_mix.py:96-150 | each epoch makes exactly eight calls |
| EpochDriver.Run | src/train_mix.py:82-152 | `main`'s outcome and call trace are `RunOutcome` and `RunCalls`; a failed check makes no call at all |
| EpochDriver.RunOutcome | src/train_mix.py:84-91 | a run finishes exactly when names load and all three splits have real pairs; `EpochDriver.RunChecks` names the failure otherwise |
| EpochDriver.RunCalls | src/train_mix.py:82-150 | a run makes no call exactly when it does not finish, and otherwise the two setup calls and eight per epoch |
| EpochDriver.IndexRealData | src/train_mix.py:88 | `real_lists` maps every split to its `list_pairs` |
| EpochDriver.CheckRealData | src/train_mix.py:89-91 | the fail-fast loop stops at the first empty split in train, val, test order (`FirstEmpty`) |
| EpochDriver.RunEpoch | src/train_mix.py:98-150 | one pass of the epoch loop makes the epoch's eight calls in program order |
| EpochDriver.EpochShape | src/train_mix.py:98-150 | an epoch makes three generator requests (train, val, test), writes three list files and the yaml, then trains |
| EpochDriver.EpochPicks | src/train_mix.py:98-150 | an epoch trains once, generates three times and writes its four files |
| EpochDriver.TrainSchedule | src/train_mix.py:142-150 | n epochs train n times: call k uses `dataset_epk.yaml`, 1 epoch, 640, 16, device 0, and resume iff k > 0 |
| EpochDriver.GeneratorSchedule | src/train_mix.py:101-120 | n epochs make 3n generator requests: for epoch k, train, val and test in that order, each asking `synth_needed` of the split's real count |
| EpochDriver.RequestFields | src/train_mix.py:105-119 | a request has seed `ep + 2025` and dir `out_epoch/ep_NNN`, and asks S images for its own split and none for the others |
| EpochDriver.EpochDirInjective | src/train_mix.py:98 | different epochs write to different synthetic output directories |
| EpochDriver.ListPathInjective | src/train_mix.py:127-129 | list files of different split or epoch differ |
| EpochDriver.YamlPathInjective | src/train_mix.py:132 | dataset descriptions of different epochs differ |
| EpochDriver.ListPathNotYamlPath | src/train_mix.py:127-132 | a list file is never a dataset description |
| EpochDriver.EpochFilesDistinct | src/train_mix.py:127-132 | the four files of two epochs coincide only for the same epoch and position |
| EpochDriver.WriteSchedule | src/train_mix.py:127-133 | n epochs write 4n files: train, val and test lists and the yaml of each epoch in turn |
| EpochDriver.NoFileWrittenTwice | src/train_mix.py:96-140 | no file is written twice over the epochs |
| EpochDriver.FileNamesOneLine | src/train_mix.py:127-132 | the list and yaml paths contain no newline |
| EpochDriver.EpochDatasetYaml | src/train_mix.py:127-143 | the yaml of epoch k names that epoch's three list files under `train:`, `val:` and `test:`, holds the class count under `nc: ` and the names under `names: `; `model.train` gets that very yaml |
| EpochDriver.SynthImagesSpec | src/train_mix.py:121-122 | the synthetic images are the found files in path order, or none if the directory is missing |
| EpochDriver.EpochListFile | src/train_mix.py:123-130 | a split's list file holds the real pairs' lines first, the same every epoch, then the synthetic images' lines in path order |
| EpochDriver.MixedShare | src/train_mix.py:102-123 | when the generator delivers S images, the mix has R + S entries and is 30 % synthetic to within half a sample |
| EpochDriver.RunCallsShape | src/train_mix.py:82-96 | a run past its checks is setup (model, work dir) followed by the 20 epochs |
| EpochDriver.RunTraining | src/train_mix.py:93-150 | a run builds the model first and trains 20 times, one epoch each, on each epoch's yaml, resuming from the second on |
| EpochDriver.RunGeneration | src/train_mix.py:96-120 | a run makes 60 generator requests, three per epoch, sized from the fixed real counts |
| EpochDriver.RunWritesEachFileOnce | src/train_mix.py:94-140 | a run writes 80 distinct files |
| EpochDriver.RunChecks | src/train_mix.py:84-91 | the run goes ahead iff names load and all three splits have real pairs; otherwise it names the failure and makes no call |
| EpochDriver.GenerationExample | src/train_mix.py:102-111 | with 100/20/10 real pairs, every epoch asks for 43 train, 9 val and 4 test images |

## Left out

- Imports and `ensure_import`: the loading of `ultralytics` and of the
  generator module (`src/train_mix.py:47-53, 83, 85`) are not modelled. An
  import failure happens outside the model.
- Generator and trainer internals: `generate_dataset` and `model.train`
  appear only as calls in the trace. Whatever they create on disk enters
  through `Env.synthListing`. Their exceptions, which would abort the run
  part-way, are not modelled.
- `print`: the progress messages are not modelled.
- Command-line arguments: none are modelled, because the script reads
  none. The settings are the module constants (`src/train_mix.py:16-33`).
- `start.py`, the environment bootstrap and the generator script are not
  part of this model.
- The `mkdir(parents=True)` inside `write_list` is not recorded. Its
  directory is always the work directory that `main` creates first.
- The file system: glob order and existence checks enter as the listings
  in `Env`. Every listing is sorted, so its order does not matter, except
  in `setdefault`, which keeps the first image per stem in listing order.
- EpochDriver.RealList: `Path` order is modelled as string order on the
  path text. These agree here because every sorted list shares a single
  parent directory.
- Manifest.Resolve: `Path.resolve` is modelled as a lexical join with the
  working directory (`os.getcwd()`, which ends in `/` only when it is `/`). Symlinks, `..` and Windows drive letters are not
  modelled.
- Text.ParseInt: underscores and non-ASCII digits, which `int()` also
  accepts, are not modelled.
- ClassNames.LoadNames: `json.loads` is a parameter. For `dataset.yaml` it
  returns the list of strings or None; for `classes.json` it returns the
  items of the resulting dict, with distinct keys in insertion order.
  Names that are not strings, and duplicate JSON keys, are outside the
  model.
- MixRatio.SynthNeeded: the exact integer formula `(6R + 7) / 14` stands
  for the float computation. The two agree as long as `R * 0.3 / 0.7` is
  computed to within 1/14. For counts large enough to break that,
  floating point rounding is not modelled.
- `CLASS_RATIOS` and `PER_CLASS_MINMAX`: these are always empty, so
  `GenConfig` does not carry them.

## Behaviour of `train_mix.py` worth knowing

- The mixed list of a split has R real entries plus whatever files the
  generator's split directory holds. That is R + S only when the generator
  delivers exactly S files (`EpochDriver.MixedShare`).
- The generator is called once per split, three times per epoch. All three
  calls use the same seed and output directory, and each asks for images of
  one split only.
- `list_pairs` returns the pairs ordered by image path, not by label file
  name.
- All three splits are always mixed; there is no option to leave val and
  test real-only.
- A `classes.json` that `json.loads` rejects raises that error; the code
  does not go on to the "no name source" error.
- An empty `names: []` array is accepted.
- The lazy regex group ends at the first `]`, even one inside a quoted
  name. `json.loads` then usually rejects the group, and the code falls
  back to `classes.json` (`ClassNames.BracketInNameCutsGroup`).
- `int()` skips only tab to carriage return, space and non-ASCII
  whitespace around a key, not U+001C to U+001F, which `str.isspace` and
  `\s` accept: a key starting with U+001C raises ValueError
  (`Text.SeparatorIsNotIntSpace`).
- A `classes.json` key that is not in canonical form, such as `"01"` or
  `" 1"`, makes the lookup `mp[k]` raise KeyError when the canonical key
  is absent (`ClassNames.LeadingZeroKeyRaises`). When the canonical key is
  present too, its name is returned twice and the other key's name is
  silently dropped (`ClassNames.LeadingZeroKeyShadowed`).
- `json.dumps(..., ensure_ascii=False)` leaves U+007F to U+009F and
  U+2028/U+2029 unescaped. A YAML reader may take U+0085, U+2028 and
  U+2029 in a class name as line breaks in the `names:` line.
