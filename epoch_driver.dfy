/**
 * `main`: load the class names, index the real train/val/test pairs, stop
 * if a split has none, then for every epoch ask the generator for fresh
 * synthetic samples per split, write the mixed file lists and a dataset
 * description, and train the model for one epoch on it.
 *
 * The filesystem, the generator and the trainer are outside the model:
 * what the program reads comes in through `Env`, and what it does to the
 * outside world is returned as a trace of `Call`s in the order it makes them.
 */
module EpochDriver {
  import opened Wrappers
  import opened Text
  import opened Ordering
  import opened MixRatio
  import opened DatasetIndex
  import opened Manifest
  import opened ClassNames
  import opened JsonText

  const REAL_ROOT := "real"
  const ASSETS_DIR := "assets"
  const OUT_BASE := "out_epoch"
  const MODEL_WEIGHTS := "yolo11n.pt"
  const EPOCHS: nat := 20
  const IMGSZ: nat := 640
  const BATCH: nat := 16
  const DEVICE: int := 0
  const IMAGE_SIZE: (nat, nat) := (1280, 720)
  const MIN_OBJS: nat := 1
  const MAX_OBJS: nat := 4
  const ALLOW_OVERLAP := true
  const SEED_BASE: nat := 2025
  const WORKDIR := "epoch_work"

  datatype Split = Train | Val | Test

  const SPLITS: seq<Split> := [Train, Val, Test]

  function SplitName(sp: Split): string
  {
    match sp
    case Train => "train"
    case Val => "val"
    case Test => "test"
  }

  /** The arguments of one `GenConfig(...)`; class ratios and per-class bounds are always empty. */
  datatype GenConfig = GenConfig(
    assetsDir: string,
    outDir: string,
    imageSize: (nat, nat),
    trainCount: nat,
    valCount: nat,
    testCount: nat,
    minObjects: nat,
    maxObjects: nat,
    allowOverlap: bool,
    yamlAbs: bool,
    seed: nat)

  /** The keyword arguments of one `model.train(...)`. */
  datatype TrainArgs = TrainArgs(
    data: string,
    epochs: nat,
    imgsz: nat,
    batch: nat,
    device: int,
    resume: bool,
    verbose: bool)

  /** What the program asks of the world outside it. */
  datatype Call =
    | BuildModel(weights: string)          // YOLO(MODEL_WEIGHTS)
    | MakeDir(dir: string)                 // workdir.mkdir(exist_ok=True)
    | Generate(config: GenConfig)          // gen.generate_dataset(cfg)
    | WriteFile(path: string, text: string)
    | TrainEpoch(args: TrainArgs)          // model.train(...)

  /**
   * What the program reads: the working directory (for `resolve`), the
   * two name sources (None when the file is missing) and the JSON loader,
   * the glob of `real/images/<split>` and `real/labels/<split>`, and the
   * glob of `out_epoch/ep_NNN/images/<split>` right after that split's
   * generator call in epoch NNN (None when the directory does not exist).
   */
  datatype Env = Env(
    cwd: string,
    datasetYaml: Option<string>,
    classesJson: Option<string>,
    loadArray: ArrayLoader,
    loadObject: ObjectLoader,
    images: Split -> seq<File>,
    labels: Split -> seq<File>,
    synthListing: (nat, Split) -> Option<seq<string>>)

  datatype Outcome =
    | Finished
    | NamesUnknown(error: NamesError)
    | NoRealData(dir: string)   // RuntimeError("No real data found in <dir>")

  function RealImagesDir(sp: Split): string
  {
    REAL_ROOT + "/images/" + SplitName(sp)
  }

  /** `list_pairs(REAL_ROOT, sp)`. */
  function RealList(env: Env, sp: Split): seq<string>
  {
    PairedImages(env.images(sp), env.labels(sp))
  }

  /** `real_lists`: the real pairs of every split. */
  function RealLists(env: Env): map<Split, seq<string>>
  {
    map[Train := RealList(env, Train), Val := RealList(env, Val), Test := RealList(env, Test)]
  }

  /** A value of `real_lists` or `mix`: one list per split. */
  predicate Covers(lists: map<Split, seq<string>>)
  {
    Train in lists && Val in lists && Test in lists
  }

  /** `OUT_BASE / f"ep_{ep:03d}"`. */
  function EpochDir(ep: nat): string
  {
    OUT_BASE + "/ep_" + Pad3(ep)
  }

  /** The generator request for split `sp` of epoch `ep`, given `nReal` real pairs. */
  function Request(ep: nat, sp: Split, nReal: nat): GenConfig
  {
    var s := SynthNeeded(nReal);
    GenConfig(ASSETS_DIR, EpochDir(ep), IMAGE_SIZE,
              if sp == Train then s else 0,
              if sp == Val then s else 0,
              if sp == Test then s else 0,
              MIN_OBJS, MAX_OBJS, ALLOW_OVERLAP, true, ep + SEED_BASE)
  }

  /** `sorted(synth_dir.glob("*.*")) if synth_dir.exists() else []`. */
  function SynthImages(env: Env, ep: nat, sp: Split): seq<string>
  {
    match env.synthListing(ep, sp)
    case None => []
    case Some(found) => SortPaths(found)
  }

  /** `list(real_lists[sp]) + synth_imgs`. */
  function MixedList(env: Env, reals: map<Split, seq<string>>, ep: nat, sp: Split): seq<string>
    requires sp in reals
  {
    reals[sp] + SynthImages(env, ep, sp)
  }

  /** `workdir / f"{sp}_ep{ep:03d}.txt"`. */
  function ListPath(sp: Split, ep: nat): string
  {
    WORKDIR + "/" + SplitName(sp) + "_ep" + Pad3(ep) + ".txt"
  }

  /** `workdir / f"dataset_ep{ep:03d}.yaml"`. */
  function YamlPath(ep: nat): string
  {
    WORKDIR + "/dataset_ep" + Pad3(ep) + ".yaml"
  }

  function TrainArgsFor(ep: nat): TrainArgs
  {
    TrainArgs(YamlPath(ep), 1, IMGSZ, BATCH, DEVICE, ep > 0, true)
  }

  /** `gen.generate_dataset(cfg)` for split `sp` of epoch `ep`. */
  function GenerateCall(reals: map<Split, seq<string>>, ep: nat, sp: Split): Call
    requires sp in reals
  {
    Generate(Request(ep, sp, |reals[sp]|))
  }

  /** `write_list(mix[sp], workdir / f"{sp}_ep{ep:03d}.txt")`. */
  function ListCall(env: Env, reals: map<Split, seq<string>>, ep: nat, sp: Split): Call
    requires sp in reals
  {
    WriteFile(ListPath(sp, ep), ListText(env.cwd, MixedList(env, reals, ep, sp)))
  }

  /** `yaml.write_text(...)` for epoch `ep`. */
  function YamlCall(env: Env, names: seq<string>, ep: nat): Call
  {
    WriteFile(YamlPath(ep), DatasetYaml(env.cwd, ListPath(Train, ep), ListPath(Val, ep), ListPath(Test, ep), names))
  }

  /** The eight calls of one epoch, in program order. */
  function EpochCalls(env: Env, names: seq<string>, reals: map<Split, seq<string>>, ep: nat): seq<Call>
    requires Covers(reals)
  {
    [ GenerateCall(reals, ep, Train), GenerateCall(reals, ep, Val), GenerateCall(reals, ep, Test),
      ListCall(env, reals, ep, Train), ListCall(env, reals, ep, Val), ListCall(env, reals, ep, Test),
      YamlCall(env, names, ep),
      TrainEpoch(TrainArgsFor(ep)) ]
  }

  /** The calls of epochs 0 .. n-1. */
  function EpochsCalls(env: Env, names: seq<string>, reals: map<Split, seq<string>>, n: nat): (r: seq<Call>)
    requires Covers(reals)
    ensures |r| == 8 * n
  {
    if n == 0 then [] else EpochsCalls(env, names, reals, n - 1) + EpochCalls(env, names, reals, n - 1)
  }

  /** The setup calls made once the inputs have been checked. */
  const SETUP: seq<Call> := [BuildModel(MODEL_WEIGHTS), MakeDir(WORKDIR)]

  /** The first split, in the order train, val, test, without real pairs. */
  function FirstEmpty(lists: map<Split, seq<string>>): (r: Option<Split>)
    requires Covers(lists)
    ensures r.Some? ==> r.value in lists && lists[r.value] == []
    ensures r.None? <==> lists[Train] != [] && lists[Val] != [] && lists[Test] != []
    ensures r == Some(Val) ==> lists[Train] != []
    ensures r == Some(Test) ==> lists[Train] != [] && lists[Val] != []
  {
    if lists[Train] == [] then Some(Train)
    else if lists[Val] == [] then Some(Val)
    else if lists[Test] == [] then Some(Test)
    else None
  }

  /** How a run ends, decided before any call is made. */
  function RunOutcome(env: Env): (o: Outcome)
    ensures o.Finished? <==>
      && LoadNames(env.datasetYaml, env.classesJson, env.loadArray, env.loadObject).Success?
      && RealList(env, Train) != [] && RealList(env, Val) != [] && RealList(env, Test) != []
  {
    match LoadNames(env.datasetYaml, env.classesJson, env.loadArray, env.loadObject)
    case Failure(e) => NamesUnknown(e)
    case Success(_) =>
      match FirstEmpty(RealLists(env))
      case Some(sp) => NoRealData(RealImagesDir(sp))
      case None => Finished
  }

  /** The trace of a whole run. */
  function RunCalls(env: Env): (r: seq<Call>)
    ensures r == [] <==> !RunOutcome(env).Finished?
    ensures r != [] ==> |r| == |SETUP| + 8 * EPOCHS
  {
    match LoadNames(env.datasetYaml, env.classesJson, env.loadArray, env.loadObject)
    case Failure(_) => []
    case Success(names) =>
      if FirstEmpty(RealLists(env)).None? then SETUP + EpochsCalls(env, names, RealLists(env), EPOCHS) else []
  }

  /** `main()`. */
  method Run(env: Env) returns (outcome: Outcome, calls: seq<Call>)
    ensures outcome == RunOutcome(env)
    ensures calls == RunCalls(env)
    ensures !outcome.Finished? ==> calls == []
  {
    var loaded := LoadNames(env.datasetYaml, env.classesJson, env.loadArray, env.loadObject);
    if loaded.Failure? {
      return NamesUnknown(loaded.error), [];
    }
    var names := loaded.value;

    var realLists := IndexRealData(env);
    var missing := CheckRealData(realLists);
    if missing.Some? {
      return NoRealData(RealImagesDir(missing.value)), [];
    }

    var trained: seq<Call> := [];
    for ep := 0 to EPOCHS
      invariant trained == EpochsCalls(env, names, realLists, ep)
    {
      var epochCalls := RunEpoch(env, names, realLists, ep);
      trained := trained + epochCalls;
    }
    outcome, calls := Finished, SETUP + trained;
  }

  /** The loop of `main` that raises on the first split without real pairs. */
  method CheckRealData(realLists: map<Split, seq<string>>) returns (missing: Option<Split>)
    requires Covers(realLists)
    ensures missing == FirstEmpty(realLists)
  {
    assert SPLITS[0] == Train && SPLITS[1] == Val && SPLITS[2] == Test;
    for i := 0 to |SPLITS|
      invariant forall j :: 0 <= j < i ==> realLists[SPLITS[j]] != []
    {
      if realLists[SPLITS[i]] == [] {
        return Some(SPLITS[i]);
      }
    }
    return None;
  }

  /** `real_lists = {sp: list_pairs(REAL_ROOT, sp) for sp in splits}`. */
  method IndexRealData(env: Env) returns (realLists: map<Split, seq<string>>)
    ensures realLists == RealLists(env)
  {
    realLists := map[];
    for i := 0 to |SPLITS|
      invariant forall sp :: sp in realLists <==> sp in SPLITS[..i]
      invariant forall j :: 0 <= j < i ==> realLists[SPLITS[j]] == RealList(env, SPLITS[j])
    {
      var sp := SPLITS[i];
      var pairs := ListPairs(env.images(sp), env.labels(sp));
      realLists := realLists[sp := pairs];
      assert SPLITS[..i + 1] == SPLITS[..i] + [sp];
    }
    assert SPLITS[..3] == [Train, Val, Test];
    assert realLists.Keys == RealLists(env).Keys;
  }

  /** One pass of the epoch loop of `main`. */
  method RunEpoch(env: Env, names: seq<string>, realLists: map<Split, seq<string>>, ep: nat)
    returns (epochCalls: seq<Call>)
    requires Covers(realLists)
    ensures epochCalls == EpochCalls(env, names, realLists, ep)
  {
    var mix: map<Split, seq<string>> := map[];
    var generated: seq<Call> := [];
    for i := 0 to |SPLITS|
      invariant |generated| == i
      invariant forall j :: 0 <= j < i ==> generated[j] == GenerateCall(realLists, ep, SPLITS[j])
      invariant forall j :: 0 <= j < i ==> SPLITS[j] in mix && mix[SPLITS[j]] == MixedList(env, realLists, ep, SPLITS[j])
    {
      var sp := SPLITS[i];
      var nReal := |realLists[sp]|;
      generated := generated + [Generate(Request(ep, sp, nReal))];
      var synth := match env.synthListing(ep, sp) case None => [] case Some(found) => SortPaths(found);
      mix := mix[sp := realLists[sp] + synth];
    }
    assert SPLITS[0] == Train && SPLITS[1] == Val && SPLITS[2] == Test;
    assert generated == [GenerateCall(realLists, ep, Train), GenerateCall(realLists, ep, Val), GenerateCall(realLists, ep, Test)];
    var trainText := WriteList(env.cwd, mix[Train]);
    var valText := WriteList(env.cwd, mix[Val]);
    var testText := WriteList(env.cwd, mix[Test]);
    var written := [WriteFile(ListPath(Train, ep), trainText),
                    WriteFile(ListPath(Val, ep), valText),
                    WriteFile(ListPath(Test, ep), testText)];
    var yaml := DatasetYaml(env.cwd, ListPath(Train, ep), ListPath(Val, ep), ListPath(Test, ep), names);
    assert written[0] == ListCall(env, realLists, ep, Train);
    assert written[1] == ListCall(env, realLists, ep, Val);
    assert written[2] == ListCall(env, realLists, ep, Test);
    var yamlCall := WriteFile(YamlPath(ep), yaml);
    assert yamlCall == YamlCall(env, names, ep);
    epochCalls := generated + written + [yamlCall, TrainEpoch(TrainArgsFor(ep))];
    EpochConcat(generated, written, yamlCall, TrainEpoch(TrainArgsFor(ep)));
  }

  lemma EpochConcat(g: seq<Call>, w: seq<Call>, y: Call, t: Call)
    requires |g| == 3 && |w| == 3
    ensures g + w + [y, t] == [g[0], g[1], g[2], w[0], w[1], w[2], y, t]
  {
  }

  /** The `model.train` calls of a trace, in order. */
  function TrainRuns(calls: seq<Call>): (r: seq<TrainArgs>)
    ensures |r| <= |calls|
  {
    if calls == [] then []
    else if calls[0].TrainEpoch? then [calls[0].args] + TrainRuns(calls[1..])
    else TrainRuns(calls[1..])
  }

  /** The generator requests of a trace, in order. */
  function GenRequests(calls: seq<Call>): (r: seq<GenConfig>)
    ensures |r| <= |calls|
  {
    if calls == [] then []
    else if calls[0].Generate? then [calls[0].config] + GenRequests(calls[1..])
    else GenRequests(calls[1..])
  }

  /** The paths of the files a trace writes, in order. */
  function WrittenPaths(calls: seq<Call>): (r: seq<string>)
    ensures |r| <= |calls|
  {
    if calls == [] then []
    else if calls[0].WriteFile? then [calls[0].path] + WrittenPaths(calls[1..])
    else WrittenPaths(calls[1..])
  }

  lemma {:induction false} WrittenPathsAppend(a: seq<Call>, b: seq<Call>)
    ensures WrittenPaths(a + b) == WrittenPaths(a) + WrittenPaths(b)
  {
    if a != [] {
      assert (a + b)[0] == a[0];
      assert (a + b)[1..] == a[1..] + b;
      WrittenPathsAppend(a[1..], b);
      var head := if a[0].WriteFile? then [a[0].path] else [];
      assert WrittenPaths(a) == head + WrittenPaths(a[1..]);
      assert WrittenPaths(a + b) == head + (WrittenPaths(a[1..]) + WrittenPaths(b));
    } else {
      assert a + b == b;
    }
  }

  lemma {:induction false} TrainRunsAppend(a: seq<Call>, b: seq<Call>)
    ensures TrainRuns(a + b) == TrainRuns(a) + TrainRuns(b)
  {
    if a != [] {
      assert (a + b)[0] == a[0];
      assert (a + b)[1..] == a[1..] + b;
      TrainRunsAppend(a[1..], b);
      var head := if a[0].TrainEpoch? then [a[0].args] else [];
      assert TrainRuns(a) == head + TrainRuns(a[1..]);
      assert TrainRuns(a + b) == head + (TrainRuns(a[1..]) + TrainRuns(b));
    } else {
      assert a + b == b;
    }
  }

  lemma {:induction false} GenRequestsAppend(a: seq<Call>, b: seq<Call>)
    ensures GenRequests(a + b) == GenRequests(a) + GenRequests(b)
  {
    if a != [] {
      assert (a + b)[0] == a[0];
      assert (a + b)[1..] == a[1..] + b;
      GenRequestsAppend(a[1..], b);
      var head := if a[0].Generate? then [a[0].config] else [];
      assert GenRequests(a) == head + GenRequests(a[1..]);
      assert GenRequests(a + b) == head + (GenRequests(a[1..]) + GenRequests(b));
    } else {
      assert a + b == b;
    }
  }

  /** What one epoch's eight calls are, call by call, leaving out the texts written. */
  lemma EpochShape(env: Env, names: seq<string>, reals: map<Split, seq<string>>, k: nat)
    requires Covers(reals)
    ensures var c := EpochCalls(env, names, reals, k);
      && |c| == 8
      && c[0] == Generate(Request(k, Train, |reals[Train]|))
      && c[1] == Generate(Request(k, Val, |reals[Val]|))
      && c[2] == Generate(Request(k, Test, |reals[Test]|))
      && c[3].WriteFile? && c[3].path == ListPath(Train, k)
      && c[4].WriteFile? && c[4].path == ListPath(Val, k)
      && c[5].WriteFile? && c[5].path == ListPath(Test, k)
      && c[6].WriteFile? && c[6].path == YamlPath(k)
      && c[7] == TrainEpoch(TrainArgsFor(k))
  {
    var c := EpochCalls(env, names, reals, k);
    ListCallPath(env, reals, k, Train);
    ListCallPath(env, reals, k, Val);
    ListCallPath(env, reals, k, Test);
    assert c[3] == ListCall(env, reals, k, Train);
    assert c[4] == ListCall(env, reals, k, Val);
    assert c[5] == ListCall(env, reals, k, Test);
    assert c[6] == YamlCall(env, names, k);
  }

  lemma ListCallPath(env: Env, reals: map<Split, seq<string>>, k: nat, sp: Split)
    requires sp in reals
    ensures ListCall(env, reals, k, sp).WriteFile? && ListCall(env, reals, k, sp).path == ListPath(sp, k)
  {
  }

  /** Projections of a sequence of eight calls shaped like one epoch. */
  lemma EightPicks(c: seq<Call>)
    requires |c| == 8
    requires c[0].Generate? && c[1].Generate? && c[2].Generate?
    requires c[3].WriteFile? && c[4].WriteFile? && c[5].WriteFile? && c[6].WriteFile?
    requires c[7].TrainEpoch?
    ensures TrainRuns(c) == [c[7].args]
    ensures GenRequests(c) == [c[0].config, c[1].config, c[2].config]
    ensures WrittenPaths(c) == [c[3].path, c[4].path, c[5].path, c[6].path]
  {
    var t7, t6, t5, t4, t3, t2, t1 := c[7..], c[6..], c[5..], c[4..], c[3..], c[2..], c[1..];
    assert t7 == [c[7]] && t7[1..] == [];
    assert t6[0] == c[6] && t6[1..] == t7;
    assert t5[0] == c[5] && t5[1..] == t6;
    assert t4[0] == c[4] && t4[1..] == t5;
    assert t3[0] == c[3] && t3[1..] == t4;
    assert t2[0] == c[2] && t2[1..] == t3;
    assert t1[0] == c[1] && t1[1..] == t2;
    assert c[1..] == t1;
    assert TrainRuns(t7) == [c[7].args] && GenRequests(t7) == [] && WrittenPaths(t7) == [];
    assert TrainRuns(t6) == [c[7].args] && GenRequests(t6) == [] && WrittenPaths(t6) == [c[6].path];
    assert TrainRuns(t5) == [c[7].args] && GenRequests(t5) == [] && WrittenPaths(t5) == [c[5].path, c[6].path];
    assert TrainRuns(t4) == [c[7].args] && GenRequests(t4) == []
      && WrittenPaths(t4) == [c[4].path, c[5].path, c[6].path];
    assert TrainRuns(t3) == [c[7].args] && GenRequests(t3) == []
      && WrittenPaths(t3) == [c[3].path, c[4].path, c[5].path, c[6].path];
    assert TrainRuns(t2) == [c[7].args] && GenRequests(t2) == [c[2].config]
      && WrittenPaths(t2) == WrittenPaths(t3);
    assert WrittenPaths(t1) == WrittenPaths(t3);
    assert TrainRuns(t1) == [c[7].args] && GenRequests(t1) == [c[1].config, c[2].config];
  }

  lemma EpochPicks(env: Env, names: seq<string>, reals: map<Split, seq<string>>, k: nat)
    requires Covers(reals)
    ensures TrainRuns(EpochCalls(env, names, reals, k)) == [TrainArgsFor(k)]
    ensures GenRequests(EpochCalls(env, names, reals, k))
      == [Request(k, Train, |reals[Train]|), Request(k, Val, |reals[Val]|), Request(k, Test, |reals[Test]|)]
    ensures WrittenPaths(EpochCalls(env, names, reals, k))
      == [ListPath(Train, k), ListPath(Val, k), ListPath(Test, k), YamlPath(k)]
  {
    EpochShape(env, names, reals, k);
    EightPicks(EpochCalls(env, names, reals, k));
  }

  /**
   * Over `n` epochs the model is trained `n` times, one epoch each time,
   * on that epoch's dataset description; only the first run starts fresh,
   * every later one resumes.
   */
  lemma {:induction false} TrainSchedule(env: Env, names: seq<string>, reals: map<Split, seq<string>>, n: nat)
    requires Covers(reals)
    ensures |TrainRuns(EpochsCalls(env, names, reals, n))| == n
    ensures forall k :: 0 <= k < n ==>
      var t := TrainRuns(EpochsCalls(env, names, reals, n))[k];
      && t.data == YamlPath(k) && t.epochs == 1
      && t.imgsz == IMGSZ && t.batch == BATCH && t.device == DEVICE
      && (t.resume <==> k > 0)
  {
    if n > 0 {
      TrainSchedule(env, names, reals, n - 1);
      TrainRunsAppend(EpochsCalls(env, names, reals, n - 1), EpochCalls(env, names, reals, n - 1));
      EpochPicks(env, names, reals, n - 1);
      var prev := TrainRuns(EpochsCalls(env, names, reals, n - 1));
      var all := TrainRuns(EpochsCalls(env, names, reals, n));
      assert all == prev + [TrainArgsFor(n - 1)];
      TrainStep(prev, all, n);
    }
  }

  /** One more epoch appends its own `model.train` call to the schedule. */
  lemma TrainStep(prev: seq<TrainArgs>, all: seq<TrainArgs>, n: nat)
    requires n > 0 && |prev| == n - 1
    requires forall k :: 0 <= k < n - 1 ==>
      && prev[k].data == YamlPath(k) && prev[k].epochs == 1
      && prev[k].imgsz == IMGSZ && prev[k].batch == BATCH && prev[k].device == DEVICE
      && (prev[k].resume <==> k > 0)
    requires all == prev + [TrainArgsFor(n - 1)]
    ensures |all| == n
    ensures forall k :: 0 <= k < n ==>
      && all[k].data == YamlPath(k) && all[k].epochs == 1
      && all[k].imgsz == IMGSZ && all[k].batch == BATCH && all[k].device == DEVICE
      && (all[k].resume <==> k > 0)
  {
    forall k | 0 <= k < n - 1 ensures all[k] == prev[k] {
    }
  }

  /**
   * Every epoch asks the generator three times, for train, val and test in
   * that order, each time into that epoch's own directory with the seed
   * `2025 + epoch`, and only the split being generated gets a nonzero
   * count: `synth_needed` of its number of real pairs.
   */
  lemma {:induction false} GeneratorSchedule(env: Env, names: seq<string>, reals: map<Split, seq<string>>, n: nat)
    requires Covers(reals)
    ensures |GenRequests(EpochsCalls(env, names, reals, n))| == 3 * n
    ensures forall k :: 0 <= k < n ==>
      && GenRequests(EpochsCalls(env, names, reals, n))[3 * k] == Request(k, Train, |reals[Train]|)
      && GenRequests(EpochsCalls(env, names, reals, n))[3 * k + 1] == Request(k, Val, |reals[Val]|)
      && GenRequests(EpochsCalls(env, names, reals, n))[3 * k + 2] == Request(k, Test, |reals[Test]|)
  {
    if n > 0 {
      GeneratorSchedule(env, names, reals, n - 1);
      GenRequestsAppend(EpochsCalls(env, names, reals, n - 1), EpochCalls(env, names, reals, n - 1));
      EpochPicks(env, names, reals, n - 1);
      var prev := GenRequests(EpochsCalls(env, names, reals, n - 1));
      var all := GenRequests(EpochsCalls(env, names, reals, n));
      assert all == prev + GenRequests(EpochCalls(env, names, reals, n - 1));
      GenerateStep(prev, all, n, |reals[Train]|, |reals[Val]|, |reals[Test]|);
    }
  }

  /** One more epoch appends its three generator requests to the schedule. */
  lemma GenerateStep(prev: seq<GenConfig>, all: seq<GenConfig>, n: nat, rt: nat, rv: nat, rs: nat)
    requires n > 0 && |prev| == 3 * (n - 1)
    requires forall k :: 0 <= k < n - 1 ==>
      prev[3 * k] == Request(k, Train, rt) && prev[3 * k + 1] == Request(k, Val, rv)
      && prev[3 * k + 2] == Request(k, Test, rs)
    requires all == prev + [Request(n - 1, Train, rt), Request(n - 1, Val, rv), Request(n - 1, Test, rs)]
    ensures |all| == 3 * n
    ensures forall k :: 0 <= k < n ==>
      all[3 * k] == Request(k, Train, rt) && all[3 * k + 1] == Request(k, Val, rv)
      && all[3 * k + 2] == Request(k, Test, rs)
  {
    forall k | 0 <= k < n
      ensures all[3 * k] == Request(k, Train, rt)
      ensures all[3 * k + 1] == Request(k, Val, rv)
      ensures all[3 * k + 2] == Request(k, Test, rs)
    {
      if k < n - 1 {
        assert all[3 * k] == prev[3 * k] && all[3 * k + 1] == prev[3 * k + 1] && all[3 * k + 2] == prev[3 * k + 2];
      }
    }
  }

  /**
   * The request for a split carries the epoch's seed and directory and a
   * nonzero count for that split only: `synth_needed` of its real pairs.
   */
  lemma RequestFields(ep: nat, sp: Split, nReal: nat)
    ensures var g := Request(ep, sp, nReal);
      && g.seed == SEED_BASE + ep && g.outDir == EpochDir(ep)
      && g.trainCount + g.valCount + g.testCount == SynthNeeded(nReal)
      && (sp == Train ==> g.trainCount == SynthNeeded(nReal))
      && (sp == Val ==> g.valCount == SynthNeeded(nReal))
      && (sp == Test ==> g.testCount == SynthNeeded(nReal))
  {
  }

  lemma AffixCancel(p: string, a: string, b: string, q: string)
    requires p + a + q == p + b + q
    ensures a == b
  {
    var t := p + a + q;
    assert |a| == |b|;
    assert a == t[|p|..|p| + |a|];
    assert b == (p + b + q)[|p|..|p| + |b|];
  }

  /** Each epoch has its own generator output directory. */
  lemma EpochDirInjective(a: nat, b: nat)
    ensures EpochDir(a) == EpochDir(b) <==> a == b
  {
    if EpochDir(a) == EpochDir(b) {
      assert OUT_BASE + "/ep_" + Pad3(a) + "" == OUT_BASE + "/ep_" + Pad3(b) + "";
      AffixCancel(OUT_BASE + "/ep_", Pad3(a), Pad3(b), "");
      Pad3Injective(a, b);
    }
  }

  /** The list file of a split in an epoch is named after both. */
  lemma ListPathInjective(sp: Split, a: nat, sp': Split, b: nat)
    ensures ListPath(sp, a) == ListPath(sp', b) <==> sp == sp' && a == b
  {
    if ListPath(sp, a) == ListPath(sp', b) {
      var x, y := ListPath(sp, a), ListPath(sp', b);
      assert x[12] == SplitName(sp)[1];
      assert y[12] == SplitName(sp')[1];
      AffixCancel(WORKDIR + "/" + SplitName(sp) + "_ep", Pad3(a), Pad3(b), ".txt");
      Pad3Injective(a, b);
    }
  }

  lemma YamlPathInjective(a: nat, b: nat)
    ensures YamlPath(a) == YamlPath(b) <==> a == b
  {
    if YamlPath(a) == YamlPath(b) {
      AffixCancel(WORKDIR + "/dataset_ep", Pad3(a), Pad3(b), ".yaml");
      Pad3Injective(a, b);
    }
  }

  /** A list file (".txt") is never a dataset description (".yaml"). */
  lemma ListPathNotYamlPath(sp: Split, a: nat, b: nat)
    ensures ListPath(sp, a) != YamlPath(b)
  {
    var x, y := ListPath(sp, a), YamlPath(b);
    assert x[|x| - 1] == 't';
    assert y[|y| - 1] == 'l';
  }

  /** The four files epoch `k` writes, in order. */
  function EpochFiles(k: nat): seq<string>
  {
    [ListPath(Train, k), ListPath(Val, k), ListPath(Test, k), YamlPath(k)]
  }

  lemma EpochFilesDistinct(k: nat, i: nat, k': nat, i': nat)
    requires i < 4 && i' < 4
    ensures EpochFiles(k)[i] == EpochFiles(k')[i'] <==> k == k' && i == i'
  {
    var sps := [Train, Val, Test];
    if i < 3 && i' < 3 {
      ListPathInjective(sps[i], k, sps[i'], k');
    } else if i < 3 {
      ListPathNotYamlPath(sps[i], k, k');
    } else if i' < 3 {
      ListPathNotYamlPath(sps[i'], k', k);
    } else {
      YamlPathInjective(k, k');
    }
  }

  lemma {:induction false} WriteSchedule(env: Env, names: seq<string>, reals: map<Split, seq<string>>, n: nat)
    requires Covers(reals)
    ensures |WrittenPaths(EpochsCalls(env, names, reals, n))| == 4 * n
    ensures forall k, i :: 0 <= k < n && 0 <= i < 4 ==>
      WrittenPaths(EpochsCalls(env, names, reals, n))[4 * k + i] == EpochFiles(k)[i]
  {
    if n > 0 {
      WriteSchedule(env, names, reals, n - 1);
      WrittenPathsAppend(EpochsCalls(env, names, reals, n - 1), EpochCalls(env, names, reals, n - 1));
      EpochPicks(env, names, reals, n - 1);
      var prev := WrittenPaths(EpochsCalls(env, names, reals, n - 1));
      var all := WrittenPaths(EpochsCalls(env, names, reals, n));
      assert all == prev + EpochFiles(n - 1);
      forall k, i | 0 <= k < n && 0 <= i < 4 ensures all[4 * k + i] == EpochFiles(k)[i] {
        if k < n - 1 {
          assert all[4 * k + i] == prev[4 * k + i];
        }
      }
    }
  }

  /**
   * No run writes the same file twice: every epoch writes its own three
   * list files and its own dataset description.
   */
  lemma NoFileWrittenTwice(env: Env, names: seq<string>, reals: map<Split, seq<string>>, n: nat)
    requires Covers(reals)
    ensures var w := WrittenPaths(EpochsCalls(env, names, reals, n));
      forall a, b :: 0 <= a < b < |w| ==> w[a] != w[b]
  {
    WriteSchedule(env, names, reals, n);
    DistinctFiles(WrittenPaths(EpochsCalls(env, names, reals, n)), n);
  }

  lemma DistinctFiles(w: seq<string>, n: nat)
    requires |w| == 4 * n
    requires forall k, i :: 0 <= k < n && 0 <= i < 4 ==> w[4 * k + i] == EpochFiles(k)[i]
    ensures forall a, b :: 0 <= a < b < |w| ==> w[a] != w[b]
  {
    forall a, b | 0 <= a < b < |w| ensures w[a] != w[b] {
      DistinctEntries(w, n, a, b);
    }
  }

  lemma DistinctEntries(w: seq<string>, n: nat, a: nat, b: nat)
    requires |w| == 4 * n
    requires forall k, i :: 0 <= k < n && 0 <= i < 4 ==> w[4 * k + i] == EpochFiles(k)[i]
    requires a < b < |w|
    ensures w[a] != w[b]
  {
    var k, i := Position(a);
    var k', i' := Position(b);
    assert w[a] == EpochFiles(k)[i];
    assert w[b] == EpochFiles(k')[i'];
    EpochFilesDistinct(k, i, k', i');
  }

  /** Entry `a` of a run's written files is file `i` of epoch `k`. */
  lemma Position(a: nat) returns (k: nat, i: nat)
    ensures a == 4 * k + i && i < 4
  {
    k, i := a / 4, a % 4;
  }

  /** File names built from digits and fixed words hold no line break. */
  lemma FileNamesOneLine(sp: Split, k: nat)
    ensures '\n' !in ListPath(sp, k) && '\n' !in YamlPath(k)
  {
    var d := Pad3(k);
    assert '\n' !in d by {
      assert forall i :: 0 <= i < |d| ==> d[i] != '\n';
    }
    NoBreakAround(WORKDIR + "/" + SplitName(sp) + "_ep", d, ".txt");
    NoBreakAround(WORKDIR + "/dataset_ep", d, ".yaml");
  }

  lemma NoBreakAround(a: string, d: string, b: string)
    requires '\n' !in a && '\n' !in d && '\n' !in b
    ensures '\n' !in a + d + b
  {
    forall i | 0 <= i < |a + d + b| ensures (a + d + b)[i] != '\n' {
      if i < |a| {
        assert (a + d + b)[i] == a[i];
      } else if i < |a| + |d| {
        assert (a + d + b)[i] == d[i - |a|];
      } else {
        assert (a + d + b)[i] == b[i - |a| - |d|];
      }
    }
  }

  /**
   * The dataset description written in epoch `k` names, resolved and with
   * forward slashes, the three list files written just before it in the
   * same epoch; its `nc` reads back as the number of class names and its
   * `names` decode to the names; the training call that follows reads it.
   */
  lemma EpochDatasetYaml(env: Env, names: seq<string>, reals: map<Split, seq<string>>, k: nat)
    requires Covers(reals)
    requires '\n' !in env.cwd
    ensures var c := EpochCalls(env, names, reals, k);
      var lines := SplitLines(c[6].text);
      && c[6].WriteFile? && c[3].WriteFile? && c[4].WriteFile? && c[5].WriteFile? && c[7].TrainEpoch?
      && c[7].args.data == c[6].path
      && |lines| == 5
      && lines[0] == "train: " + ListLine(env.cwd, c[3].path)
      && lines[1] == "val: " + ListLine(env.cwd, c[4].path)
      && lines[2] == "test: " + ListLine(env.cwd, c[5].path)
      && |lines[3]| >= 4 && lines[3][..4] == "nc: " && ParseInt(lines[3][4..]) == Some(|names|)
      && |lines[4]| >= 7 && lines[4][..7] == "names: " && DecodeArray(lines[4][7..]) == Some(names)
  {
    EpochShape(env, names, reals, k);
    FileNamesOneLine(Train, k);
    FileNamesOneLine(Val, k);
    FileNamesOneLine(Test, k);
    DatasetYamlFields(env.cwd, ListPath(Train, k), ListPath(Val, k), ListPath(Test, k), names);
  }

  /**
   * `sorted(glob)` of the synthetic directory: in path order and holding
   * exactly the files found.
   */
  lemma SynthImagesSpec(env: Env, k: nat, sp: Split)
    ensures SortedBy(SynthImages(env, k, sp), Identity)
    ensures env.synthListing(k, sp).None? ==> SynthImages(env, k, sp) == []
    ensures env.synthListing(k, sp).Some? ==>
      multiset(SynthImages(env, k, sp)) == multiset(env.synthListing(k, sp).value)
  {
    if env.synthListing(k, sp).Some? {
      SortPathsSpec(env.synthListing(k, sp).value);
    }
  }

  /**
   * The list file of split `sp` in epoch `k` has one line per mixed sample:
   * first the real pairs, the same lines in every epoch, then this epoch's
   * synthetic images in path order.
   */
  lemma EpochListFile(env: Env, reals: map<Split, seq<string>>, k: nat, sp: Split)
    requires sp in reals
    requires '\n' !in env.cwd
    requires forall p :: p in reals[sp] ==> '\n' !in p
    requires env.synthListing(k, sp).Some? ==> forall p :: p in env.synthListing(k, sp).value ==> '\n' !in p
    ensures var text := ListText(env.cwd, MixedList(env, reals, k, sp));
      text == ListText(env.cwd, reals[sp]) + ListText(env.cwd, SynthImages(env, k, sp))
    ensures var lines := SplitLines(ListText(env.cwd, MixedList(env, reals, k, sp)));
      var synth := SynthImages(env, k, sp);
      && |lines| == |reals[sp]| + |synth|
      && (forall i :: 0 <= i < |reals[sp]| ==> lines[i] == ListLine(env.cwd, reals[sp][i]))
      && (forall i :: 0 <= i < |synth| ==> lines[|reals[sp]| + i] == ListLine(env.cwd, synth[i]))
  {
    var synth := SynthImages(env, k, sp);
    var mixed := MixedList(env, reals, k, sp);
    SynthImagesSpec(env, k, sp);
    forall p | p in synth ensures '\n' !in p {
      assert p in multiset(synth);
    }
    ListTextConcat(env.cwd, reals[sp], synth);
    ListTextLines(env.cwd, mixed);
  }

  /**
   * When the generator delivers the count it was asked for, a mixed split
   * is 30% synthetic to within half a sample.
   */
  lemma MixedShare(env: Env, reals: map<Split, seq<string>>, k: nat, sp: Split)
    requires sp in reals
    requires |SynthImages(env, k, sp)| == SynthNeeded(|reals[sp]|)
    ensures var s := |SynthImages(env, k, sp)|;
      var m := |MixedList(env, reals, k, sp)|;
      m == |reals[sp]| + s && 20 * Abs(10 * s - 3 * m) < 70
  {
    MixIsThirtyPercentSynthetic(|reals[sp]|);
  }

  /** The two setup calls neither train, generate nor write. */
  lemma SetupPicks(x: seq<Call>)
    ensures TrainRuns(SETUP + x) == TrainRuns(x)
    ensures GenRequests(SETUP + x) == GenRequests(x)
    ensures WrittenPaths(SETUP + x) == WrittenPaths(x)
  {
    TrainRunsAppend(SETUP, x);
    GenRequestsAppend(SETUP, x);
    WrittenPathsAppend(SETUP, x);
    assert SETUP[1..][1..] == [];
  }

  /** A run past its checks: the setup calls, then the calls of every epoch. */
  lemma RunCallsShape(env: Env)
    requires RunOutcome(env).Finished?
    ensures LoadNames(env.datasetYaml, env.classesJson, env.loadArray, env.loadObject).Success?
    ensures Covers(RealLists(env))
    ensures RunCalls(env) == SETUP + EpochsCalls(env,
      LoadNames(env.datasetYaml, env.classesJson, env.loadArray, env.loadObject).value, RealLists(env), EPOCHS)
  {
  }

  /**
   * A run that gets past its checks builds the model first, then trains
   * it EPOCHS times, one epoch each, resuming from the second time on.
   */
  lemma RunTraining(env: Env)
    requires RunOutcome(env).Finished?
    ensures RunCalls(env)[0] == BuildModel(MODEL_WEIGHTS)
    ensures |TrainRuns(RunCalls(env))| == EPOCHS
    ensures forall k :: 0 <= k < EPOCHS ==>
      var t := TrainRuns(RunCalls(env))[k];
      t.data == YamlPath(k) && t.epochs == 1 && (t.resume <==> k > 0)
  {
    RunCallsShape(env);
    var names := LoadNames(env.datasetYaml, env.classesJson, env.loadArray, env.loadObject).value;
    SetupPicks(EpochsCalls(env, names, RealLists(env), EPOCHS));
    TrainSchedule(env, names, RealLists(env), EPOCHS);
  }

  /**
   * Each epoch of a run asks the generator for train, val and test, in that
   * order, with the epoch's seed and directory and `synth_needed` of the
   * split's number of real pairs.
   */
  lemma RunGeneration(env: Env)
    requires RunOutcome(env).Finished?
    ensures |GenRequests(RunCalls(env))| == 3 * EPOCHS
    ensures forall k :: 0 <= k < EPOCHS ==>
      && GenRequests(RunCalls(env))[3 * k] == Request(k, Train, |RealList(env, Train)|)
      && GenRequests(RunCalls(env))[3 * k + 1] == Request(k, Val, |RealList(env, Val)|)
      && GenRequests(RunCalls(env))[3 * k + 2] == Request(k, Test, |RealList(env, Test)|)
  {
    RunCallsShape(env);
    var names := LoadNames(env.datasetYaml, env.classesJson, env.loadArray, env.loadObject).value;
    SetupPicks(EpochsCalls(env, names, RealLists(env), EPOCHS));
    GeneratorSchedule(env, names, RealLists(env), EPOCHS);
  }

  /** A run never writes the same file twice. */
  lemma RunWritesEachFileOnce(env: Env)
    requires RunOutcome(env).Finished?
    ensures |WrittenPaths(RunCalls(env))| == 4 * EPOCHS
    ensures forall a, b :: 0 <= a < b < |WrittenPaths(RunCalls(env))| ==>
      WrittenPaths(RunCalls(env))[a] != WrittenPaths(RunCalls(env))[b]
  {
    RunCallsShape(env);
    var names := LoadNames(env.datasetYaml, env.classesJson, env.loadArray, env.loadObject).value;
    SetupPicks(EpochsCalls(env, names, RealLists(env), EPOCHS));
    WriteSchedule(env, names, RealLists(env), EPOCHS);
    NoFileWrittenTwice(env, names, RealLists(env), EPOCHS);
  }

  /**
   * A run goes ahead exactly when the class names load and every split
   * has real pairs; otherwise it stops before touching anything, naming
   * an empty split's image directory when that is the reason.
   */
  lemma RunChecks(env: Env)
    ensures RunOutcome(env).Finished? <==>
      && LoadNames(env.datasetYaml, env.classesJson, env.loadArray, env.loadObject).Success?
      && RealList(env, Train) != [] && RealList(env, Val) != [] && RealList(env, Test) != []
    ensures RunOutcome(env).NamesUnknown? <==>
      LoadNames(env.datasetYaml, env.classesJson, env.loadArray, env.loadObject).Failure?
    ensures RunOutcome(env).NoRealData? ==>
      exists sp :: RunOutcome(env).dir == RealImagesDir(sp) && RealList(env, sp) == []
    ensures !RunOutcome(env).Finished? ==> RunCalls(env) == []
  {
    if RunOutcome(env).NoRealData? {
      var sp := FirstEmpty(RealLists(env)).value;
      assert RunOutcome(env).dir == RealImagesDir(sp);
    }
  }

  /**
   * With 100, 20 and 10 real pairs, every epoch asks for 43, 9 and 4
   * synthetic train, val and test images.
   */
  lemma GenerationExample(env: Env, names: seq<string>, reals: map<Split, seq<string>>)
    requires Covers(reals)
    requires |reals[Train]| == 100 && |reals[Val]| == 20 && |reals[Test]| == 10
    ensures |GenRequests(EpochsCalls(env, names, reals, EPOCHS))| == 3 * EPOCHS
    ensures forall k :: 0 <= k < EPOCHS ==>
      && GenRequests(EpochsCalls(env, names, reals, EPOCHS))[3 * k].trainCount == 43
      && GenRequests(EpochsCalls(env, names, reals, EPOCHS))[3 * k + 1].valCount == 9
      && GenRequests(EpochsCalls(env, names, reals, EPOCHS))[3 * k + 2].testCount == 4
  {
    GeneratorSchedule(env, names, reals, EPOCHS);
    SynthNeededExamples();
  }
}
