/**
  The feature part of the example-gallery generator (docs/source/examples/gen_examples.py):
  the check/cross icon, which pipeline features an example configuration
  demonstrates (OR-ed over the ERP CORE tasks for some features), the per-page
  feature table and the summary table of all examples.

  Importing a configuration file is not modelled: `configFor` gives the
  configuration that the import yields for a task.
*/
module ExampleFeatures {
  import opened Strings

  const Check := "\U{2705}"
  const Cross := "\U{274C}"

  /** _bool_to_icon: a check mark for a truthy value, a cross otherwise. */
  function BoolToIcon(x: bool): (r: string)
    ensures r == Check || r == Cross
    ensures r == Check <==> x
  {
    if x then Check else Cross
  }

  /**
    The configuration values the feature detection reads, each as the truth value
    Python gives it (so `l_freq` is true when it is neither None nor zero, and
    `contrasts` when the list is not empty).
  */
  datatype DemoConfig = DemoConfig(
    chTypes: seq<string>,
    useMaxwellFilter: bool,
    lFreq: bool,
    hFreq: bool,
    regressArtifactSet: bool,
    spatialFilter: string,
    contrasts: bool,
    decode: bool,
    decodingTimeGeneralization: bool,
    decodingCsp: bool,
    timeFrequencyConditions: bool,
    recreateBem: bool,
    useTemplateMri: bool)

  const ErpCoreStem := "config_ERP_CORE"
  const ErpCoreTasks: seq<string> := ["N400", "ERN", "LRP", "MMN", "N2pc", "N170", "P3"]

  /** The features the gallery reports on. */
  datatype Feature =
    | MegProcessing | EegProcessing | MaxwellFilter | FrequencyFilter | ArtifactRegression
    | Ssp | Ica | EvokedContrasts | TimeByTimeDecoding | TimeGeneralizationDecoding
    | CspDecoding | TimeFrequencyAnalysis | BemSurfaceCreation | TemplateMri

  /** The dict key under which a feature is stored and shown. */
  function Name(f: Feature): string {
    match f
    case MegProcessing => "MEG processing"
    case EegProcessing => "EEG processing"
    case MaxwellFilter => "Maxwell filter"
    case FrequencyFilter => "Frequency filter"
    case ArtifactRegression => "Artifact regression"
    case Ssp => "SSP"
    case Ica => "ICA"
    case EvokedContrasts => "Evoked contrasts"
    case TimeByTimeDecoding => "Time-by-time decoding"
    case TimeGeneralizationDecoding => "Time-generalization decoding"
    case CspDecoding => "CSP decoding"
    case TimeFrequencyAnalysis => "Time-frequency analysis"
    case BemSurfaceCreation => "BEM surface creation"
    case TemplateMri => "Template MRI"
  }

  /** The features in the order the detection assigns them on every pass. */
  const FeatureOrder: seq<Feature> := [
    MegProcessing, EegProcessing, MaxwellFilter, FrequencyFilter, ArtifactRegression,
    Ssp, Ica, EvokedContrasts, TimeByTimeDecoding, TimeGeneralizationDecoding,
    CspDecoding, TimeFrequencyAnalysis, BemSurfaceCreation, TemplateMri]

  /** The features that are OR-ed over all tasks; the others keep the last task's value. */
  predicate IsOrKey(f: Feature) {
    f in {MaxwellFilter, ArtifactRegression, Ssp, Ica, TimeByTimeDecoding,
          TimeGeneralizationDecoding, CspDecoding}
  }

  /** The tasks whose configurations are inspected: the seven ERP CORE tasks, or one empty task. */
  function Tasks(stem: string): (r: seq<string>)
    ensures |r| >= 1
    ensures stem == ErpCoreStem ==> r == ErpCoreTasks
    ensures stem != ErpCoreStem ==> r == [""]
  {
    if stem == ErpCoreStem then ErpCoreTasks else [""]
  }

  function UpperChTypes(c: DemoConfig): seq<string> {
    seq(|c.chTypes|, i requires 0 <= i < |c.chTypes| => Upper(c.chTypes[i]))
  }

  /** What one task's configuration alone says about a feature. */
  function TaskValue(c: DemoConfig, f: Feature): bool {
    var anyDecoding := c.decode && c.contrasts;
    match f
    case MegProcessing => "MEG" in UpperChTypes(c)
    case EegProcessing => "EEG" in UpperChTypes(c)
    case MaxwellFilter => c.useMaxwellFilter
    case FrequencyFilter => c.lFreq || c.hFreq
    case ArtifactRegression => c.regressArtifactSet
    case Ssp => c.spatialFilter == "ssp"
    case Ica => c.spatialFilter == "ica"
    case EvokedContrasts => c.contrasts
    case TimeByTimeDecoding => anyDecoding
    case TimeGeneralizationDecoding => anyDecoding && c.decodingTimeGeneralization
    case CspDecoding => anyDecoding && c.decodingCsp
    case TimeFrequencyAnalysis => c.timeFrequencyConditions
    case BemSurfaceCreation => c.recreateBem
    case TemplateMri => c.useTemplateMri
  }

  /**
    MEG and EEG processing are shown exactly when some channel type upper-cases to
    "MEG" or "EEG"; every decoding feature needs both decoding and contrasts.
  */
  lemma TaskValueMeaning(c: DemoConfig)
    ensures TaskValue(c, MegProcessing) <==> exists i :: 0 <= i < |c.chTypes| && Upper(c.chTypes[i]) == "MEG"
    ensures TaskValue(c, EegProcessing) <==> exists i :: 0 <= i < |c.chTypes| && Upper(c.chTypes[i]) == "EEG"
    ensures forall f :: f in {TimeByTimeDecoding, TimeGeneralizationDecoding, CspDecoding} && TaskValue(c, f) ==>
      c.decode && c.contrasts
  {
    var u := UpperChTypes(c);
    assert forall i :: 0 <= i < |c.chTypes| ==> u[i] == Upper(c.chTypes[i]);
  }

  /** Some task among `tasks` enables the feature. */
  function AnyTask(tasks: seq<string>, configFor: string -> DemoConfig, key: Feature): bool
    decreases |tasks|
  {
    tasks != [] && (AnyTask(tasks[..|tasks| - 1], configFor, key) || TaskValue(configFor(tasks[|tasks| - 1]), key))
  }

  /** One more task: its value joins the OR. */
  lemma AnyTaskSnoc(tasks: seq<string>, i: nat, configFor: string -> DemoConfig, key: Feature)
    requires i < |tasks|
    ensures AnyTask(tasks[..i + 1], configFor, key) == (AnyTask(tasks[..i], configFor, key) || TaskValue(configFor(tasks[i]), key))
  {
    assert tasks[..i + 1][..i] == tasks[..i];
    assert tasks[..i + 1][i] == tasks[i];
  }

  lemma {:induction false} AnyTaskMeansSomeTask(tasks: seq<string>, configFor: string -> DemoConfig, key: Feature)
    ensures AnyTask(tasks, configFor, key) <==> exists i :: 0 <= i < |tasks| && TaskValue(configFor(tasks[i]), key)
    decreases |tasks|
  {
    if tasks != [] {
      var init := tasks[..|tasks| - 1];
      AnyTaskMeansSomeTask(init, configFor, key);
      if exists i :: 0 <= i < |init| && TaskValue(configFor(init[i]), key) {
        var i :| 0 <= i < |init| && TaskValue(configFor(init[i]), key);
        assert tasks[i] == init[i];
      }
      if exists i :: 0 <= i < |tasks| && TaskValue(configFor(tasks[i]), key) {
        var i :| 0 <= i < |tasks| && TaskValue(configFor(tasks[i]), key);
        if i < |init| {
          assert init[i] == tasks[i];
        }
      }
    }
  }

  /** Within one task, time-generalization or CSP decoding implies time-by-time decoding. */
  lemma DecodingImpliesTimeByTime(c: DemoConfig)
    ensures TaskValue(c, TimeGeneralizationDecoding) ==> TaskValue(c, TimeByTimeDecoding)
    ensures TaskValue(c, CspDecoding) ==> TaskValue(c, TimeByTimeDecoding)
  {
  }

  /** The same implications hold of the values OR-ed over any list of tasks. */
  lemma {:induction false} AnyTaskDecodingImpliesTimeByTime(tasks: seq<string>, configFor: string -> DemoConfig)
    ensures AnyTask(tasks, configFor, TimeGeneralizationDecoding) ==> AnyTask(tasks, configFor, TimeByTimeDecoding)
    ensures AnyTask(tasks, configFor, CspDecoding) ==> AnyTask(tasks, configFor, TimeByTimeDecoding)
    decreases |tasks|
  {
    if tasks != [] {
      AnyTaskDecodingImpliesTimeByTime(tasks[..|tasks| - 1], configFor);
      DecodingImpliesTimeByTime(configFor(tasks[|tasks| - 1]));
    }
  }

  /** A Python dict from feature to value, as its items in insertion order. */
  type FeatureDict = seq<(Feature, bool)>

  function Keys(d: FeatureDict): seq<Feature> {
    seq(|d|, i requires 0 <= i < |d| => d[i].0)
  }

  /** `d[key]` on a `defaultdict(lambda: False)`: a missing key reads as False. */
  function Lookup(d: FeatureDict, key: Feature): bool
    decreases |d|
  {
    if d == [] then false else if d[0].0 == key then d[0].1 else Lookup(d[1..], key)
  }

  /** `d[key] = value`: an existing key keeps its place, a new one goes last. */
  function Assign(d: FeatureDict, key: Feature, value: bool): (r: FeatureDict)
    ensures Keys(r) == if key in Keys(d) then Keys(d) else Keys(d) + [key]
    ensures forall k :: Lookup(r, k) == if k == key then value else Lookup(d, k)
    decreases |d|
  {
    if d == [] then [(key, value)]
    else if d[0].0 == key then
      KeysCons((key, value), d[1..]);
      KeysCons(d[0], d[1..]);
      assert d == [d[0]] + d[1..];
      [(key, value)] + d[1..]
    else
      var rest := Assign(d[1..], key, value);
      KeysCons(d[0], d[1..]);
      KeysCons(d[0], rest);
      assert d == [d[0]] + d[1..];
      [d[0]] + rest
  }

  /** The keys of a dict with one more item in front. */
  lemma KeysCons(x: (Feature, bool), d: FeatureDict)
    ensures Keys([x] + d) == [x.0] + Keys(d)
    ensures ([x] + d)[1..] == d
  {
  }

  /** The position of a feature in FeatureOrder. */
  function Ordinal(f: Feature): (r: nat)
    ensures r < |FeatureOrder| && FeatureOrder[r] == f
  {
    match f
    case MegProcessing => 0
    case EegProcessing => 1
    case MaxwellFilter => 2
    case FrequencyFilter => 3
    case ArtifactRegression => 4
    case Ssp => 5
    case Ica => 6
    case EvokedContrasts => 7
    case TimeByTimeDecoding => 8
    case TimeGeneralizationDecoding => 9
    case CspDecoding => 10
    case TimeFrequencyAnalysis => 11
    case BemSurfaceCreation => 12
    case TemplateMri => 13
  }

  predicate Distinct<T(==)>(s: seq<T>) {
    forall i, j :: 0 <= i < j < |s| ==> s[i] != s[j]
  }

  /** One more element of a list without repeats: it extends the prefix and is not already in it. */
  lemma TakeOneMore<T>(s: seq<T>, j: nat)
    requires Distinct(s) && j < |s|
    ensures s[..j + 1] == s[..j] + [s[j]]
    ensures s[j] !in s[..j]
  {
    forall i | 0 <= i < j ensures s[..j][i] != s[j] {
      assert s[..j][i] == s[i];
    }
  }

  /** Every feature occurs in FeatureOrder, and only once. */
  lemma FeatureOrderComplete()
    ensures Distinct(FeatureOrder)
    ensures forall f :: f in FeatureOrder
  {
    forall i, j | 0 <= i < j < |FeatureOrder| ensures FeatureOrder[i] != FeatureOrder[j] {
      assert Ordinal(FeatureOrder[i]) == i;
      assert Ordinal(FeatureOrder[j]) == j;
    }
    forall f ensures f in FeatureOrder {
      assert FeatureOrder[Ordinal(f)] == f;
    }
  }

  /** The key order of a dict after `d[k] = ...` for one key. */
  function AppendNew<T(==)>(ks: seq<T>, k: T): seq<T> {
    if k in ks then ks else ks + [k]
  }

  /** The key order of a dict after assigning the keys of `s` in turn. */
  function AppendAll<T(==)>(ks: seq<T>, s: seq<T>): seq<T>
    decreases |s|
  {
    if s == [] then ks else AppendNew(AppendAll(ks, s[..|s| - 1]), s[|s| - 1])
  }

  /** Assigning distinct new keys appends them in the order assigned. */
  lemma {:induction false} AppendAllFresh<T>(ks: seq<T>, s: seq<T>)
    requires Distinct(s)
    requires forall x :: x in s ==> x !in ks
    ensures AppendAll(ks, s) == ks + s
    decreases |s|
  {
    if s != [] {
      var init := s[..|s| - 1];
      var x := s[|s| - 1];
      assert Distinct(init) by {
        forall i, j | 0 <= i < j < |init| ensures init[i] != init[j] {
          assert init[i] == s[i] && init[j] == s[j];
        }
      }
      forall y | y in init ensures y !in ks {
        assert y in s;
      }
      AppendAllFresh(ks, init);
      assert x !in init by {
        forall i | 0 <= i < |init| ensures init[i] != x {
          assert init[i] == s[i];
        }
      }
      assert x !in ks + init by {
        assert x in s;
      }
      assert AppendAll(ks, s) == AppendNew(ks + init, x);
      assert s == init + [x];
      SeqAssoc(ks, init, [x]);
    }
  }

  /** Assigning keys that are all present leaves the key order alone. */
  lemma {:induction false} AppendAllCovered<T>(ks: seq<T>, s: seq<T>)
    requires forall x :: x in s ==> x in ks
    ensures AppendAll(ks, s) == ks
    decreases |s|
  {
    if s != [] {
      var init := s[..|s| - 1];
      assert forall x :: x in init ==> x in s;
      AppendAllCovered(ks, init);
    }
  }

  /** What one pass leaves under `f`, given the previous dict and the task's configuration. */
  function PassValue(prev: FeatureDict, c: DemoConfig, f: Feature): bool {
    if IsOrKey(f) then Lookup(prev, f) || TaskValue(c, f) else TaskValue(c, f)
  }

  /**
    One pass of the loop body of _gen_demonstrated_funcs: every feature is assigned
    once, in the order of FeatureOrder; an OR-key takes its previous value (False
    when absent) or-ed with this task's value, any other key this task's value.
  */
  method AssignPass(prev: FeatureDict, config: DemoConfig) returns (funcs: FeatureDict)
    ensures Keys(funcs) == AppendAll(Keys(prev), FeatureOrder)
    ensures forall f :: Lookup(funcs, f) == PassValue(prev, config, f)
  {
    FeatureOrderComplete();
    funcs := prev;
    for j := 0 to |FeatureOrder|
      invariant Keys(funcs) == AppendAll(Keys(prev), FeatureOrder[..j])
      invariant forall f :: f in FeatureOrder[..j] ==> Lookup(funcs, f) == PassValue(prev, config, f)
      invariant forall f :: f !in FeatureOrder[..j] ==> Lookup(funcs, f) == Lookup(prev, f)
    {
      var key := FeatureOrder[j];
      var value := if IsOrKey(key) then Lookup(funcs, key) || TaskValue(config, key) else TaskValue(config, key);
      ghost var before := funcs;
      funcs := Assign(funcs, key, value);
      AssignStep(prev, config, FeatureOrder, j, before, value, funcs);
    }
    assert FeatureOrder[..|FeatureOrder|] == FeatureOrder;
  }

  /** Assigning key `order[j]` extends the pass from the first `j` keys of `order` to the first `j + 1`. */
  lemma AssignStep(prev: FeatureDict, config: DemoConfig, order: seq<Feature>, j: nat,
                   funcs: FeatureDict, value: bool, next: FeatureDict)
    requires Distinct(order) && j < |order|
    requires Keys(funcs) == AppendAll(Keys(prev), order[..j])
    requires forall f :: f in order[..j] ==> Lookup(funcs, f) == PassValue(prev, config, f)
    requires forall f :: f !in order[..j] ==> Lookup(funcs, f) == Lookup(prev, f)
    requires value == if IsOrKey(order[j]) then Lookup(funcs, order[j]) || TaskValue(config, order[j]) else TaskValue(config, order[j])
    requires next == Assign(funcs, order[j], value)
    ensures Keys(next) == AppendAll(Keys(prev), order[..j + 1])
    ensures forall f :: f in order[..j + 1] ==> Lookup(next, f) == PassValue(prev, config, f)
    ensures forall f :: f !in order[..j + 1] ==> Lookup(next, f) == Lookup(prev, f)
  {
    TakeOneMore(order, j);
    assert value == PassValue(prev, config, order[j]);
  }

  /** The first pass lays the keys out in FeatureOrder; later passes keep that order. */
  lemma PassKeepsFeatureOrder(prev: FeatureDict)
    requires Keys(prev) == [] || Keys(prev) == FeatureOrder
    ensures AppendAll(Keys(prev), FeatureOrder) == FeatureOrder
  {
    FeatureOrderComplete();
    if Keys(prev) == [] {
      AppendAllFresh(Keys(prev), FeatureOrder);
    } else {
      AppendAllCovered(Keys(prev), FeatureOrder);
    }
  }

  /**
    What the detection promises of its result: the keys in FeatureOrder, an OR-key
    true exactly when some task enables it, any other key as the last task says.
  */
  predicate Demonstrates(funcs: FeatureDict, stem: string, configFor: string -> DemoConfig) {
    && Keys(funcs) == FeatureOrder
    && (forall f :: IsOrKey(f) ==> Lookup(funcs, f) == AnyTask(Tasks(stem), configFor, f))
    && (forall f :: !IsOrKey(f) ==> Lookup(funcs, f) == TaskValue(configFor(Tasks(stem)[|Tasks(stem)| - 1]), f))
  }

  /**
    _gen_demonstrated_funcs: one pass per task assigns every feature, in the fixed
    order of FeatureOrder; the OR-keys accumulate over the passes and the other
    keys keep the last task's value.
  */
  method GenDemonstratedFuncs(stem: string, configFor: string -> DemoConfig) returns (funcs: FeatureDict)
    ensures Demonstrates(funcs, stem, configFor)
  {
    funcs := [];
    var tasks := Tasks(stem);
    ghost var last := configFor("");
    var i := 0;
    while i < |tasks|
      invariant 0 <= i <= |tasks|
      invariant Keys(funcs) == if i == 0 then [] else FeatureOrder
      invariant forall f :: IsOrKey(f) ==> Lookup(funcs, f) == AnyTask(tasks[..i], configFor, f)
      invariant i > 0 ==> last == configFor(tasks[i - 1])
      invariant i > 0 ==> forall f :: !IsOrKey(f) ==> Lookup(funcs, f) == TaskValue(last, f)
    {
      var config := configFor(tasks[i]);
      ghost var prev := funcs;
      funcs := AssignPass(funcs, config);
      PassStep(tasks, i, configFor, prev, funcs);
      last := config;
      i := i + 1;
    }
    assert tasks[..|tasks|] == tasks;
  }

  /** One pass of the task loop keeps the detection invariant, one task further on. */
  lemma PassStep(tasks: seq<string>, i: nat, configFor: string -> DemoConfig, prev: FeatureDict, next: FeatureDict)
    requires i < |tasks|
    requires Keys(prev) == [] || Keys(prev) == FeatureOrder
    requires forall f :: IsOrKey(f) ==> Lookup(prev, f) == AnyTask(tasks[..i], configFor, f)
    requires Keys(next) == AppendAll(Keys(prev), FeatureOrder)
    requires forall f :: Lookup(next, f) == PassValue(prev, configFor(tasks[i]), f)
    ensures Keys(next) == FeatureOrder
    ensures forall f :: IsOrKey(f) ==> Lookup(next, f) == AnyTask(tasks[..i + 1], configFor, f)
    ensures forall f :: !IsOrKey(f) ==> Lookup(next, f) == TaskValue(configFor(tasks[i]), f)
  {
    PassKeepsFeatureOrder(prev);
    forall f | IsOrKey(f) ensures Lookup(next, f) == AnyTask(tasks[..i + 1], configFor, f) {
      AnyTaskSnoc(tasks, i, configFor, f);
    }
  }

  const FeatureTableHead: seq<string> := ["## Demonstrated features\n", "Feature | This example", "--------|:-----------:"]

  /** One row of the per-example feature table. */
  function FeatureRow(item: (Feature, bool)): string {
    Name(item.0) + " | " + BoolToIcon(item.1)
  }

  /** The rows of the per-example feature table, one per dict item in order. */
  function FeatureRows(funcs: FeatureDict): (r: seq<string>)
    ensures |r| == |funcs|
  {
    seq(|funcs|, k requires 0 <= k < |funcs| => FeatureRow(funcs[k]))
  }

  /** The lines of the per-example feature table: the heading, the table head, one row per feature. */
  function FeatureLines(funcs: FeatureDict): (r: seq<string>)
    ensures |r| == |FeatureTableHead| + |funcs|
  {
    FeatureTableHead + FeatureRows(funcs)
  }

  /** The per-example feature table, built by appending one row per dict item. */
  method DemonstratedFuncsStr(funcs: FeatureDict) returns (lines: seq<string>, text: string)
    ensures lines == FeatureLines(funcs)
    ensures text == Join("\n", lines) + "\n\n"
  {
    lines := FeatureTableHead;
    ghost var rows := FeatureRows(funcs);
    var i := 0;
    while i < |funcs|
      invariant 0 <= i <= |funcs|
      invariant lines == FeatureTableHead + rows[..i]
    {
      TakeSnoc(rows, i);
      SeqAssoc(FeatureTableHead, rows[..i], [rows[i]]);
      lines := lines + [FeatureRow(funcs[i])];
      i := i + 1;
    }
    assert rows[..|funcs|] == rows;
    text := Join("\n", lines) + "\n\n";
  }

  const ExampleHeader :=
    "# Examples\n\n"
    + "Here you will find a number of examples using publicly available\n"
    + "datasets, mostly taken from [OpenNeuro](https://openneuro.org).\n\n"
    + "For a first example, see the results obtained with the\n"
    + "[MNE sample dataset](ds000248_base.md).\n\n"
    + "## Demonstrated features\n\n"

  function Icons(d: FeatureDict): seq<string> {
    seq(|d|, i requires 0 <= i < |d| => BoolToIcon(d[i].1))
  }

  function KeyNames(d: FeatureDict): seq<string> {
    seq(|d|, i requires 0 <= i < |d| => Name(d[i].0))
  }

  function HeaderLine(d: FeatureDict): string {
    "Dataset | " + Join(" | ", KeyNames(d)) + "\n"
  }

  function SeparatorCells(n: nat): seq<string> {
    seq(n, _ => ":---:")
  }

  function SeparatorLine(d: FeatureDict): string {
    "--------|" + Join("|", SeparatorCells(|d|)) + "\n"
  }

  function RowLine(name: string, d: FeatureDict): string {
    "[" + name + "](" + name + ".md) | " + Join(" | ", Icons(d)) + "\n"
  }

  /** The rows of the first `n` examples. */
  function Rows(all: seq<(string, FeatureDict)>, n: nat): string
    requires n <= |all|
  {
    if n == 0 then "" else Rows(all, n - 1) + RowLine(all[n - 1].0, all[n - 1].1)
  }

  /**
    The summary table: the header and the separator once, taken from the first
    example's features, then one row per example.
  */
  method ExamplesIndex(all: seq<(string, FeatureDict)>) returns (text: string)
    ensures |all| == 0 ==> text == ExampleHeader
    ensures |all| > 0 ==> text == ExampleHeader + HeaderLine(all[0].1) + SeparatorLine(all[0].1) + Rows(all, |all|)
  {
    text := WriteTable(ExampleHeader, all);
  }

  /** The loop of the summary: after `start`, the header and separator before the first row, then the rows. */
  method WriteTable(start: string, all: seq<(string, FeatureDict)>) returns (text: string)
    ensures |all| == 0 ==> text == start
    ensures |all| > 0 ==> text == start + HeaderLine(all[0].1) + SeparatorLine(all[0].1) + Rows(all, |all|)
  {
    text := start;
    var headerWritten := false;
    ghost var head := start;
    var i := 0;
    while i < |all|
      invariant 0 <= i <= |all|
      invariant headerWritten <==> i > 0
      invariant head == if i == 0 then start else start + HeaderLine(all[0].1) + SeparatorLine(all[0].1)
      invariant text == head + Rows(all, i)
    {
      var name := all[i].0;
      var funcs := all[i].1;
      if !headerWritten {
        assert text == start + "" == start;
        text := text + HeaderLine(funcs);
        text := text + SeparatorLine(funcs);
        headerWritten := true;
        head := text;
      }
      RowsStep(all, i, head, text);
      text := text + RowLine(name, funcs);
      i := i + 1;
    }
    assert |all| == 0 ==> text == start + "" == start;
  }

  /** Writing the next row extends the rows written so far. */
  lemma RowsStep(all: seq<(string, FeatureDict)>, i: nat, head: string, text: string)
    requires i < |all| && text == head + Rows(all, i)
    ensures text + RowLine(all[i].0, all[i].1) == head + Rows(all, i + 1)
  {
    assert Rows(all, i + 1) == Rows(all, i) + RowLine(all[i].0, all[i].1);
    ConcatAssoc(head, Rows(all, i), RowLine(all[i].0, all[i].1));
  }

  /** No feature name and no icon contains the table's cell separator. */
  lemma NoSeparatorInCells(d: FeatureDict)
    ensures forall i :: 0 <= i < |KeyNames(d)| ==> '|' !in KeyNames(d)[i]
    ensures forall i :: 0 <= i < |Icons(d)| ==> '|' !in Icons(d)[i]
    ensures forall i :: 0 <= i < |SeparatorCells(|d|)| ==> '|' !in SeparatorCells(|d|)[i]
  {
    forall i | 0 <= i < |d| ensures '|' !in KeyNames(d)[i] {
      match d[i].0
      case MegProcessing =>
      case EegProcessing =>
      case MaxwellFilter =>
      case FrequencyFilter =>
      case ArtifactRegression =>
      case Ssp =>
      case Ica =>
      case EvokedContrasts =>
      case TimeByTimeDecoding =>
      case TimeGeneralizationDecoding =>
      case CspDecoding =>
      case TimeFrequencyAnalysis =>
      case BemSurfaceCreation =>
      case TemplateMri =>
    }
  }

  /**
    When every example has the detected feature keys and no dataset name contains a
    `|`, the header line, the separator line and every row line hold the same number
    of `|` separators, one per feature, so every line has the same number of cells.
  */
  lemma {:induction false} TableCellsAligned(all: seq<(string, FeatureDict)>)
    requires |all| > 0
    requires forall k :: 0 <= k < |all| ==> Keys(all[k].1) == FeatureOrder
    requires forall k :: 0 <= k < |all| ==> '|' !in all[k].0
    ensures CountChar(HeaderLine(all[0].1), '|') == |FeatureOrder|
    ensures CountChar(SeparatorLine(all[0].1), '|') == |FeatureOrder|
    ensures forall k :: 0 <= k < |all| ==> CountChar(RowLine(all[k].0, all[k].1), '|') == |FeatureOrder|
  {
    var d := all[0].1;
    assert |Keys(d)| == |d|;
    HeaderCells(d);
    SeparatorCellsCount(d);
    forall k | 0 <= k < |all| ensures CountChar(RowLine(all[k].0, all[k].1), '|') == |FeatureOrder| {
      RowCells(all[k].0, all[k].1);
      assert |Keys(all[k].1)| == |all[k].1|;
    }
  }

  lemma HeaderCells(d: FeatureDict)
    requires |d| > 0
    ensures CountChar(HeaderLine(d), '|') == |d|
  {
    NoSeparatorInCells(d);
    CountOnce(" ", " ", '|');
    assert " | " == " " + ['|'] + " ";
    CountJoin(" | ", KeyNames(d), '|');
    CountOnce("Dataset ", " ", '|');
    assert "Dataset | " == "Dataset " + ['|'] + " ";
    CountAbsent("\n", '|');
    CountAppend("Dataset | ", Join(" | ", KeyNames(d)), '|');
    CountAppend("Dataset | " + Join(" | ", KeyNames(d)), "\n", '|');
  }

  lemma SeparatorCellsCount(d: FeatureDict)
    requires |d| > 0
    ensures CountChar(SeparatorLine(d), '|') == |d|
  {
    NoSeparatorInCells(d);
    CountOnce("", "", '|');
    assert "|" == "" + ['|'] + "";
    CountJoin("|", SeparatorCells(|d|), '|');
    CountOnce("--------", "", '|');
    assert "--------|" == "--------" + ['|'] + "";
    CountAbsent("\n", '|');
    CountAppend("--------|", Join("|", SeparatorCells(|d|)), '|');
    CountAppend("--------|" + Join("|", SeparatorCells(|d|)), "\n", '|');
  }

  lemma RowCells(name: string, d: FeatureDict)
    requires |d| > 0 && '|' !in name
    ensures CountChar(RowLine(name, d), '|') == |d|
  {
    NoSeparatorInCells(d);
    CountOnce(" ", " ", '|');
    assert " | " == " " + ['|'] + " ";
    CountJoin(" | ", Icons(d), '|');
    var a := "[" + name + "](" + name + ".md) | ";
    CountOnce("[" + name + "](" + name + ".md) ", " ", '|');
    assert a == "[" + name + "](" + name + ".md) " + ['|'] + " ";
    CountAbsent("\n", '|');
    CountAppend(a, Join(" | ", Icons(d)), '|');
    CountAppend(a + Join(" | ", Icons(d)), "\n", '|');
  }
}
