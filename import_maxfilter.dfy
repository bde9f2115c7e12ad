/**
  The legacy import step `01-import_and_maxfilter.py`: for one subject (and
  optionally one session) it builds the BIDS search path of every run, picks
  exactly one readable input file per run, sets up the derivatives directory and
  its `dataset_description.json` on the first run, and saves each run, Maxwell
  filtered or not, under a name that says which. `main` runs one job per
  subject and session.

  Reading, filtering and saving are MNE's; here they are effects the step asks
  for, in order. The glob, `make_bids_basename`, the directories that already
  exist and the set of extensions mne-bids can read are inputs.
*/
module ImportMaxfilter {
  import opened Wrappers
  import opened Strings

  /** The fields of the legacy `config` module that the step reads. */
  datatype Config = Config(
    bidsRoot: string,
    kind: string,
    runs: seq<string>,
    pipelineName: string,
    version: string,
    codeUrl: string,
    bidsVersion: string,
    useMaxwellFilter: bool)

  /** One call of `run_maxwell_filter(subject, session)` and the world it sees. */
  datatype Env = Env(
    cfg: Config,
    subject: string,
    session: Option<string>,
    basenameOf: string -> string,
    globFor: string -> seq<string>,
    readers: set<string>,
    existing: set<string>)

  datatype ImportError =
    | NotFound(searchStr: string)
    | NotUnique(searchStr: string, found: seq<string>)

  /** The `ds_json` dict written to `dataset_description.json`. */
  datatype DatasetDescription = DatasetDescription(
    name: string,
    bidsVersion: string,
    pipelineName: string,
    pipelineVersion: string,
    codeUrl: string,
    sourceUrl: string)

  /**
    What the step asks of the file system and of MNE. `headFrom` is the file whose
    device-to-head transform is the Maxwell filter's destination; it is `None`
    when the run is saved without Maxwell filtering.
  */
  datatype Effect =
    | MakeDirs(path: string)
    | WriteJson(path: string, description: DatasetDescription)
    | ReadRaw(fname: string)
    | Save(path: string, source: string, headFrom: Option<string>)

  /** `sub-<subject>`, then `ses-<session>` when a session is given, then the data kind, joined as paths. */
  function SubjectPath(subject: string, session: Option<string>, kind: string): (r: string)
    ensures EndsWith(r, kind)
  {
    var p := "sub-" + subject;
    var p' := if session.Some? then PathJoin(p, "ses-" + session.value) else p;
    PathJoinEnds(p', kind);
    PathJoin(p', kind)
  }

  lemma PathJoinPlain(a: string, b: string)
    requires a != [] && a[|a| - 1] != '/' && (b == [] || b[0] != '/')
    ensures PathJoin(a, b) == a + "/" + b
  {
    assert !StartsWith(b, "/") by {
      if |b| > 0 {
        assert b[..1] == [b[0]];
      }
    }
    assert !EndsWith(a, "/") by {
      assert a[|a| - 1..] == [a[|a| - 1]];
    }
  }

  /** With plain names, the session directory sits between the subject and the kind exactly when a session is given. */
  lemma SubjectPathShape(subject: string, session: Option<string>, kind: string)
    requires '/' !in subject && (session.Some? ==> '/' !in session.value)
    requires kind == [] || kind[0] != '/'
    ensures session.None? ==> SubjectPath(subject, session, kind) == "sub-" + subject + "/" + kind
    ensures session.Some? ==>
      SubjectPath(subject, session, kind) == "sub-" + subject + "/" + "ses-" + session.value + "/" + kind
  {
    var p := "sub-" + subject;
    assert p[|p| - 1] != '/' by {
      if |subject| > 0 {
        assert p[|p| - 1] == subject[|subject| - 1];
      }
    }
    if session.Some? {
      var q := "ses-" + session.value;
      PathJoinPlain(p, q);
      assert q[|q| - 1] != '/' by {
        if |session.value| > 0 {
          assert q[|q| - 1] == session.value[|session.value| - 1];
        }
      }
      PathJoinPlain(p + "/" + q, kind);
      assert p + "/" + q == "sub-" + subject + "/" + "ses-" + session.value;
    } else {
      PathJoinPlain(p, kind);
    }
  }

  /** `op.join(data_dir, bids_basename) + '_' + kind + '*'`. */
  function SearchString(dataDir: string, basename: string, kind: string): (r: string)
    ensures EndsWith(r, basename + "_" + kind + "*")
  {
    PathJoinEnds(dataDir, basename);
    EndsWithAppend(PathJoin(dataDir, basename), basename, "_" + kind + "*");
    assert PathJoin(dataDir, basename) + ("_" + kind + "*") == PathJoin(dataDir, basename) + "_" + kind + "*";
    assert basename + ("_" + kind + "*") == basename + "_" + kind + "*";
    PathJoin(dataDir, basename) + "_" + kind + "*"
  }

  /** The index of the last `c` in `s`. */
  function LastIndexOf(s: string, c: char): (r: Option<nat>)
    ensures r.Some? ==> r.value < |s| && s[r.value] == c && c !in s[r.value + 1..]
    ensures r.None? ==> c !in s
    decreases |s|
  {
    if |s| == 0 then None
    else if s[|s| - 1] == c then Some(|s| - 1)
    else
      var r := LastIndexOf(s[..|s| - 1], c);
      assert s == s[..|s| - 1] + [s[|s| - 1]];
      r
  }

  /**
    The extension `op.splitext(p)[1]`: from the last `.` of the final path
    component, unless only dots precede it there (a leading dot starts a name,
    not an extension).
  */
  function Ext(p: string): (r: string)
    ensures r == [] || (r[0] == '.' && EndsWith(p, r) && '/' !in r && '.' !in r[1..])
  {
    var t := PathTail(p);
    var d := LastIndexOf(t, '.');
    if d.Some? && exists i :: 0 <= i < d.value && t[i] != '.' then
      TailSuffix(p, t, d.value);
      t[d.value..]
    else []
  }

  /**
    The splitext rule: a path has an extension exactly when some dot of its file name
    follows a character that is not a dot.
  */
  lemma ExtSplitext(p: string)
    ensures Ext(p) != [] <==> exists i, j :: 0 <= j < i < |PathTail(p)| && PathTail(p)[i] == '.' && PathTail(p)[j] != '.'
  {
    var t := PathTail(p);
    LastDotAfterName(t);
    ExtCases(p);
  }

  /** An extension runs from the last dot of the file name. */
  lemma ExtFromLastDot(p: string)
    ensures Ext(p) != [] ==> LastIndexOf(PathTail(p), '.').Some? && Ext(p) == PathTail(p)[LastIndexOf(PathTail(p), '.').value..]
  {
    ExtCases(p);
  }

  /** The two branches of `Ext`. */
  lemma ExtCases(p: string)
    ensures var t := PathTail(p); var d := LastIndexOf(t, '.');
      if d.Some? && exists i :: 0 <= i < d.value && t[i] != '.' then Ext(p) == t[d.value..] && Ext(p) != []
      else Ext(p) == []
  {
  }

  /** Some dot of `t` follows a non-dot exactly when its last dot does. */
  lemma LastDotAfterName(t: string)
    ensures (exists i, j :: 0 <= j < i < |t| && t[i] == '.' && t[j] != '.') <==>
      (LastIndexOf(t, '.').Some? && exists j :: 0 <= j < LastIndexOf(t, '.').value && t[j] != '.')
  {
    var d := LastIndexOf(t, '.');
    if i, j :| 0 <= j < i < |t| && t[i] == '.' && t[j] != '.' {
      assert t[i] in t;
      assert 0 <= j < d.value && t[j] != '.';
    }
    if d.Some? && exists j :: 0 <= j < d.value && t[j] != '.' {
      var j :| 0 <= j < d.value && t[j] != '.';
      assert 0 <= j < d.value < |t| && t[d.value] == '.';
    }
  }

  /** The tail after a `/` is the file name itself. */
  lemma {:induction false} PathTailAfterSlash(dir: string, name: string)
    requires '/' !in name
    ensures PathTail(dir + "/" + name) == name
    decreases |name|
  {
    var p := dir + "/" + name;
    if name != [] {
      var init := name[..|name| - 1];
      assert p[..|p| - 1] == dir + "/" + init;
      assert p[|p| - 1] == name[|name| - 1];
      PathTailAfterSlash(dir, init);
      assert name == init + [name[|name| - 1]];
    }
  }

  /** A file `base.ext` in a directory, with a base that does not start with a dot, has the extension `.ext`. */
  lemma ExtOfName(dir: string, base: string, ext: string)
    requires base != [] && base[0] != '.' && '/' !in base
    requires '.' !in ext && '/' !in ext
    ensures Ext(dir + "/" + base + "." + ext) == "." + ext
  {
    var name := base + "." + ext;
    var p := dir + "/" + name;
    assert p == dir + "/" + base + "." + ext;
    PathTailAfterSlash(dir, name);
    assert PathTail(p) == name;
    DotOfName(base, ext);
    var t := PathTail(p);
    assert 0 <= 0 < |base| < |t| && t[|base|] == '.' && t[0] != '.';
    assert Ext(p) != [];
    assert Ext(p) == t[|base|..];
  }

  /** The last dot of `base.ext` is the one before `ext`. */
  lemma {:induction false} DotOfName(base: string, ext: string)
    requires '.' !in ext
    ensures LastIndexOf(base + "." + ext, '.') == Some(|base|)
    ensures (base + "." + ext)[|base|..] == "." + ext
    decreases |ext|
  {
    var name := base + "." + ext;
    if ext != [] {
      var init := ext[..|ext| - 1];
      assert name[..|name| - 1] == base + "." + init;
      assert name[|name| - 1] == ext[|ext| - 1];
      DotOfName(base, init);
    }
  }

  lemma TailSuffix(p: string, t: string, d: nat)
    requires EndsWith(p, t) && '/' !in t && d < |t| && t[d] == '.' && '.' !in t[d + 1..]
    ensures var r := t[d..]; r[0] == '.' && EndsWith(p, r) && '/' !in r && '.' !in r[1..]
  {
    assert t[d..][1..] == t[d + 1..];
    assert p[|p| - |t|..] == t;
    assert p[|p| - |t[d..]|..] == t[d..];
  }

  /** `sorted(glob(search_str))`, keeping the names whose extension mne-bids can read. */
  function Candidates(found: seq<string>, readers: set<string>): (r: seq<string>)
    ensures Sorted(r)
    ensures forall f :: f in r <==> f in found && Ext(f) in readers
    ensures multiset(r) <= multiset(found)
  {
    var sorted := Sort(found);
    FilterSorted(sorted, f => Ext(f) in readers);
    Filter(sorted, f => Ext(f) in readers)
  }

  /** Keeping some elements of a sorted list keeps it sorted. */
  lemma {:induction false} FilterSorted(s: seq<string>, p: string -> bool)
    requires Sorted(s)
    ensures Sorted(Filter(s, p))
    decreases |s|
  {
    if s != [] {
      var rest := Filter(s[1..], p);
      assert Sorted(s[1..]) by {
        forall i, j | 0 <= i < j < |s[1..]| ensures LexLe(s[1..][i], s[1..][j]) {
          assert s[1..][i] == s[i + 1] && s[1..][j] == s[j + 1];
        }
      }
      FilterSorted(s[1..], p);
      if p(s[0]) {
        var r := [s[0]] + rest;
        forall i, j | 0 <= i < j < |r| ensures LexLe(r[i], r[j]) {
          if i == 0 {
            assert r[j] in s[1..];
            var k :| 0 <= k < |s[1..]| && s[1..][k] == r[j];
            assert LexLe(s[0], s[k + 1]);
          } else {
            assert r[i] == rest[i - 1] && r[j] == rest[j - 1];
          }
        }
      }
    }
  }

  /** The `len(fnames)` branch: exactly one candidate is the input; none or several raise. */
  function SelectSingle(searchStr: string, fnames: seq<string>): (r: Result<string, ImportError>)
    ensures r.Ok? <==> |fnames| == 1
    ensures r.Ok? ==> r.value == fnames[0]
    ensures r == Err(NotFound(searchStr)) <==> |fnames| == 0
    ensures r == Err(NotUnique(searchStr, fnames)) <==> |fnames| > 1
  {
    if |fnames| == 1 then Ok(fnames[0])
    else if |fnames| == 0 then Err(NotFound(searchStr))
    else Err(NotUnique(searchStr, fnames))
  }

  /** The text of the `ValueError` raised; the candidate list of the second one is left out. */
  function ErrorText(e: ImportError): (r: string)
    ensures e.NotFound? ==> StartsWith(r, "Could not find input data file matching: ")
    ensures e.NotUnique? ==> StartsWith(r, "Expected to find a single input data file: ")
    ensures Contains(r, "\"" + e.searchStr + "\"")
  {
    var quoted := "\"" + e.searchStr + "\"";
    match e
    case NotFound(s) =>
      var r := "Could not find input data file matching: " + quoted;
      ContainsSuffix("Could not find input data file matching: ", quoted);
      r
    case NotUnique(s, _) =>
      var r := "Expected to find a single input data file: " + quoted + "  but found:\n\n";
      ContainsMiddle("Expected to find a single input data file: ", quoted, "  but found:\n\n");
      r
  }

  function DataDir(e: Env): string {
    PathJoin(e.cfg.bidsRoot, SubjectPath(e.subject, e.session, e.cfg.kind))
  }

  function RunSearch(e: Env, i: nat): string
    requires i < |e.cfg.runs|
  {
    SearchString(DataDir(e), e.basenameOf(e.cfg.runs[i]), e.cfg.kind)
  }

  /** The input file of run `i`, or why there is none. */
  function Selection(e: Env, i: nat): Result<string, ImportError>
    requires i < |e.cfg.runs|
  {
    SelectSingle(RunSearch(e, i), Candidates(e.globFor(RunSearch(e, i)), e.readers))
  }

  /** `inputs` are the input files of the first `|inputs|` runs, each its run's single candidate. */
  predicate Selected(e: Env, inputs: seq<string>) {
    && |inputs| <= |e.cfg.runs|
    && forall i {:trigger Selection(e, i)} :: 0 <= i < |inputs| ==> Selection(e, i) == Ok(inputs[i])
  }

  /**
    Each selected input was found by its run's search, has an extension a reader
    takes, and is the only such file.
  */
  lemma SelectedRuns(e: Env, inputs: seq<string>, i: nat)
    requires Selected(e, inputs) && i < |inputs|
    ensures inputs[i] in e.globFor(RunSearch(e, i)) && Ext(inputs[i]) in e.readers
    ensures forall f :: f in e.globFor(RunSearch(e, i)) && Ext(f) in e.readers ==> f == inputs[i]
  {
    assert Selection(e, i) == Ok(inputs[i]);
    SingleCandidate(RunSearch(e, i), e.globFor(RunSearch(e, i)), e.readers, inputs[i]);
  }

  /** The one candidate is a found file with a readable extension, and no other found file has one. */
  lemma SingleCandidate(searchStr: string, found: seq<string>, readers: set<string>, x: string)
    requires SelectSingle(searchStr, Candidates(found, readers)) == Ok(x)
    ensures x in found && Ext(x) in readers
    ensures forall f :: f in found && Ext(f) in readers ==> f == x
  {
    OnlyElement(Candidates(found, readers), x);
  }

  lemma OnlyElement<T>(c: seq<T>, x: T)
    requires |c| == 1 && c[0] == x
    ensures forall y :: y in c <==> y == x
  {
    assert c == [x];
  }

  /** `<bids_root>/derivatives/<PIPELINE_NAME>`. */
  function DerivPath(c: Config): string {
    PathJoin(PathJoin(c.bidsRoot, "derivatives"), c.pipelineName)
  }

  /** `fpath_out`: the subject's directory under the pipeline's derivatives. */
  function OutDir(e: Env): string {
    PathJoin(DerivPath(e.cfg), SubjectPath(e.subject, e.session, e.cfg.kind))
  }

  function Description(c: Config): (r: DatasetDescription)
    ensures r.name == c.pipelineName + " outputs" && r.pipelineName == c.pipelineName
    ensures r.sourceUrl == "n/a"
  {
    DatasetDescription(c.pipelineName + " outputs", c.bidsVersion, c.pipelineName, c.version, c.codeUrl, "n/a")
  }

  /** The first run's setup: the output directory unless it exists, then the dataset description. */
  function SetupEffects(e: Env): seq<Effect> {
    (if OutDir(e) in e.existing then [] else [MakeDirs(OutDir(e))])
    + [WriteJson(PathJoin(DerivPath(e.cfg), "dataset_description.json"), Description(e.cfg))]
  }

  function OutSuffix(useMaxwellFilter: bool): string {
    if useMaxwellFilter then "_sss_raw.fif" else "_nosss_raw.fif"
  }

  /** `raw_fname_out`. */
  function OutFile(e: Env, basename: string): string {
    PathJoin(OutDir(e), basename + OutSuffix(e.cfg.useMaxwellFilter))
  }

  /** An output file is named `_sss_raw.fif` exactly when the run is Maxwell filtered. */
  lemma OutFileNamed(e: Env, basename: string)
    ensures EndsWith(OutFile(e, basename), "_sss_raw.fif") <==> e.cfg.useMaxwellFilter
    ensures EndsWith(OutFile(e, basename), basename + OutSuffix(e.cfg.useMaxwellFilter))
  {
    PathJoinEnds(OutDir(e), basename + OutSuffix(e.cfg.useMaxwellFilter));
    SuffixNamed(OutFile(e, basename), basename, e.cfg.useMaxwellFilter);
  }

  /** A name ending in `<basename>_sss_raw.fif` or `<basename>_nosss_raw.fif` tells which it is. */
  lemma SuffixNamed(r: string, basename: string, maxwell: bool)
    requires EndsWith(r, basename + OutSuffix(maxwell))
    ensures EndsWith(r, "_sss_raw.fif") <==> maxwell
  {
    var tail := basename + OutSuffix(maxwell);
    assert r[|r| - |tail|..] == tail;
    if maxwell {
      assert r[|r| - 12..] == tail[|tail| - 12..];
      assert tail[|tail| - 12..] == "_sss_raw.fif";
    } else {
      assert r[|r| - 12] == tail[|tail| - 12] == 'o';
    }
  }

  /** The transform destination: the first run's input file when Maxwell filtering, none otherwise. */
  function HeadFrom(e: Env, inputs: seq<string>): Option<string>
    requires |inputs| > 0
  {
    if e.cfg.useMaxwellFilter then Some(PathTail(inputs[0])) else None
  }

  /** The effects of run `i` on input file `input`: the setup on the first run, then reading the file and saving it. */
  function RunEffects(e: Env, i: nat, input: string, headFrom: Option<string>): seq<Effect>
    requires i < |e.cfg.runs|
  {
    (if i == 0 then SetupEffects(e) else [])
    + [ReadRaw(PathTail(input)), Save(OutFile(e, e.basenameOf(e.cfg.runs[i])), PathTail(input), headFrom)]
  }

  /** The effects of the runs whose input files are `inputs`, in order. */
  function Effects(e: Env, inputs: seq<string>): seq<Effect>
    requires |inputs| <= |e.cfg.runs|
    decreases |inputs|
  {
    if inputs == [] then []
    else
      var n := |inputs| - 1;
      Effects(e, inputs[..n]) + RunEffects(e, n, inputs[n], HeadFrom(e, inputs))
  }

  /**
    `run_maxwell_filter(subject, session)`. `inputs` are the input files it
    found, run by run; it stops at the first run without a single input file,
    after the effects of the runs before it.
  */
  method RunMaxwellFilter(e: Env) returns (effects: seq<Effect>, err: Option<ImportError>, inputs: seq<string>)
    ensures Selected(e, inputs)
    ensures effects == Effects(e, inputs)
    ensures err.None? <==> |inputs| == |e.cfg.runs|
    ensures err.Some? ==> |inputs| < |e.cfg.runs| && Selection(e, |inputs|) == Err(err.value)
  {
    var subjectPath := "sub-" + e.subject;
    if e.session.Some? {
      subjectPath := PathJoin(subjectPath, "ses-" + e.session.value);
    }
    subjectPath := PathJoin(subjectPath, e.cfg.kind);
    assert subjectPath == SubjectPath(e.subject, e.session, e.cfg.kind);
    var dataDir := PathJoin(e.cfg.bidsRoot, subjectPath);
    effects, err, inputs := [], None, [];
    var fpathOut := "";
    var destination: Option<string> := None;
    for runIdx := 0 to |e.cfg.runs|
      invariant |inputs| == runIdx && Selected(e, inputs)
      invariant effects == Effects(e, inputs)
      invariant runIdx > 0 ==> fpathOut == OutDir(e)
      invariant runIdx > 0 && e.cfg.useMaxwellFilter ==> destination == HeadFrom(e, inputs)
    {
      var found, run;
      found, run, fpathOut, destination := ImportRun(e, subjectPath, dataDir, inputs, fpathOut, destination);
      if found.Err? {
        return effects, Some(found.error), inputs;
      }
      RunsAppend(e, inputs, found.value, effects);
      SelectedAppend(e, inputs, found.value);
      effects := effects + run;
      inputs := inputs + [found.value];
    }
  }

  /**
    One pass of the run loop: find the run's input file; on the first run set up
    the derivatives; then read the file and save it, Maxwell filtered towards the
    first run's head position under an `_sss` name, or unfiltered under a
    `_nosss` name.
  */
  method ImportRun(e: Env, subjectPath: string, dataDir: string, inputs: seq<string>,
                   fpathOut: string, destination: Option<string>)
    returns (found: Result<string, ImportError>, run: seq<Effect>, nextOut: string, nextDestination: Option<string>)
    requires |inputs| < |e.cfg.runs|
    requires subjectPath == SubjectPath(e.subject, e.session, e.cfg.kind) && dataDir == DataDir(e)
    requires |inputs| > 0 ==> fpathOut == OutDir(e)
    requires |inputs| > 0 && e.cfg.useMaxwellFilter ==> destination == HeadFrom(e, inputs)
    ensures found == Selection(e, |inputs|)
    ensures found.Ok? ==> run == RunEffects(e, |inputs|, found.value, HeadFrom(e, inputs + [found.value]))
    ensures found.Ok? ==> nextOut == OutDir(e)
    ensures found.Ok? && e.cfg.useMaxwellFilter ==> nextDestination == HeadFrom(e, inputs + [found.value])
  {
    run, nextOut, nextDestination := [], fpathOut, destination;
    found := FindInput(e, dataDir, |inputs|);
    if found.Err? {
      return;
    }
    var bidsFpath := found.value;
    var setup: seq<Effect> := [];
    if inputs == [] {
      nextOut, setup := SetUpDerivatives(e, subjectPath);
    }
    var save;
    save, nextDestination := SaveRun(e, inputs, bidsFpath, nextOut, destination);
    run := setup + [ReadRaw(PathTail(bidsFpath)), save];
  }

  /**
    Saving one run: Maxwell filtered towards the first run's head position under
    an `_sss` name, or unfiltered under a `_nosss` name.
  */
  method SaveRun(e: Env, inputs: seq<string>, input: string, fpathOut: string, destination: Option<string>)
    returns (save: Effect, nextDestination: Option<string>)
    requires |inputs| < |e.cfg.runs| && fpathOut == OutDir(e)
    requires |inputs| > 0 && e.cfg.useMaxwellFilter ==> destination == HeadFrom(e, inputs)
    ensures save == Save(OutFile(e, e.basenameOf(e.cfg.runs[|inputs|])), PathTail(input), HeadFrom(e, inputs + [input]))
    ensures e.cfg.useMaxwellFilter ==> nextDestination == HeadFrom(e, inputs + [input])
  {
    var basename := e.basenameOf(e.cfg.runs[|inputs|]);
    var bidsFname := PathTail(input);
    assert (inputs + [input])[0] == if inputs == [] then input else inputs[0];
    nextDestination := destination;
    if e.cfg.useMaxwellFilter {
      if inputs == [] {
        nextDestination := Some(bidsFname);
      }
      save := Save(PathJoin(fpathOut, basename + "_sss_raw.fif"), bidsFname, nextDestination);
    } else {
      save := Save(PathJoin(fpathOut, basename + "_nosss_raw.fif"), bidsFname, None);
    }
  }

  /** Finding the data file of one run: the search string, the readable glob results, and the single-file rule. */
  method FindInput(e: Env, dataDir: string, runIdx: nat) returns (r: Result<string, ImportError>)
    requires runIdx < |e.cfg.runs| && dataDir == DataDir(e)
    ensures r == Selection(e, runIdx)
  {
    var basename := e.basenameOf(e.cfg.runs[runIdx]);
    var searchStr := PathJoin(dataDir, basename) + "_" + e.cfg.kind + "*";
    assert searchStr == RunSearch(e, runIdx);
    var fnames := Candidates(e.globFor(searchStr), e.readers);
    if |fnames| == 1 {
      r := Ok(fnames[0]);
    } else if |fnames| == 0 {
      r := Err(NotFound(searchStr));
    } else {
      r := Err(NotUnique(searchStr, fnames));
    }
  }

  lemma RunsAppend(e: Env, inputs: seq<string>, input: string, before: seq<Effect>)
    requires |inputs| < |e.cfg.runs| && before == Effects(e, inputs)
    ensures before + RunEffects(e, |inputs|, input, HeadFrom(e, inputs + [input])) == Effects(e, inputs + [input])
  {
    assert (inputs + [input])[..|inputs|] == inputs;
  }

  lemma SelectedAppend(e: Env, inputs: seq<string>, input: string)
    requires Selected(e, inputs) && |inputs| < |e.cfg.runs| && Selection(e, |inputs|) == Ok(input)
    ensures Selected(e, inputs + [input])
  {
    var s := inputs + [input];
    forall i | 0 <= i < |s|
      ensures Selection(e, i) == Ok(s[i])
    {
      if i < |inputs| {
        assert s[i] == inputs[i];
      } else {
        assert i == |inputs| && s[i] == input;
      }
    }
  }

  /** The `run_idx == 0` block: the output directory unless it exists, then `dataset_description.json`. */
  method SetUpDerivatives(e: Env, subjectPath: string) returns (fpathOut: string, effects: seq<Effect>)
    requires subjectPath == SubjectPath(e.subject, e.session, e.cfg.kind)
    ensures fpathOut == OutDir(e)
    ensures effects == SetupEffects(e)
  {
    var derivPath := PathJoin(PathJoin(e.cfg.bidsRoot, "derivatives"), e.cfg.pipelineName);
    fpathOut := PathJoin(derivPath, subjectPath);
    effects := [];
    if fpathOut !in e.existing {
      effects := effects + [MakeDirs(fpathOut)];
    }
    var dsJson := DatasetDescription(e.cfg.pipelineName + " outputs", e.cfg.bidsVersion,
                                     e.cfg.pipelineName, e.cfg.version, e.cfg.codeUrl, "n/a");
    effects := effects + [WriteJson(PathJoin(derivPath, "dataset_description.json"), dsJson)];
  }

  /** The setup effects open the effects of the first run and occur nowhere else. */
  lemma {:induction false} SetupOnlyOnFirstRun(e: Env, inputs: seq<string>)
    requires |inputs| <= |e.cfg.runs|
    ensures inputs == [] ==> Effects(e, inputs) == []
    ensures inputs != [] ==> |SetupEffects(e)| <= |Effects(e, inputs)| && Effects(e, inputs)[..|SetupEffects(e)|] == SetupEffects(e)
    ensures forall k :: |SetupEffects(e)| <= k < |Effects(e, inputs)| ==>
      !Effects(e, inputs)[k].MakeDirs? && !Effects(e, inputs)[k].WriteJson?
    decreases |inputs|
  {
    if inputs != [] {
      var n := |inputs| - 1;
      var prev := Effects(e, inputs[..n]);
      var run := RunEffects(e, n, inputs[n], HeadFrom(e, inputs));
      var setup := SetupEffects(e);
      SetupOnlyOnFirstRun(e, inputs[..n]);
      RunSetupFirst(e, n, inputs[n], HeadFrom(e, inputs));
      assert prev + run == Effects(e, inputs);
      if n == 0 {
        assert prev + run == run;
      } else {
        assert NoSetupFrom(prev, |setup|);
        NoSetupConcat(prev, run, |setup|);
      }
    }
  }

  /** No directory is made and no description written from index `from` on. */
  predicate NoSetupFrom(s: seq<Effect>, from: nat) {
    forall k :: from <= k < |s| ==> !s[k].MakeDirs? && !s[k].WriteJson?
  }

  lemma NoSetupConcat(a: seq<Effect>, b: seq<Effect>, from: nat)
    requires from <= |a| && NoSetupFrom(a, from) && NoSetupFrom(b, 0)
    ensures (a + b)[..from] == a[..from] && NoSetupFrom(a + b, from)
  {
    forall k | from <= k < |a + b| ensures !(a + b)[k].MakeDirs? && !(a + b)[k].WriteJson? {
      if k < |a| {
        assert (a + b)[k] == a[k];
      } else {
        assert (a + b)[k] == b[k - |a|];
      }
    }
  }

  /** One run's effects: the setup comes first on the first run, and there only. */
  lemma RunSetupFirst(e: Env, i: nat, input: string, headFrom: Option<string>)
    requires i < |e.cfg.runs|
    ensures var run := RunEffects(e, i, input, headFrom);
      && (i == 0 ==> |SetupEffects(e)| <= |run| && run[..|SetupEffects(e)|] == SetupEffects(e))
      && NoSetupFrom(run, if i == 0 then |SetupEffects(e)| else 0)
  {
    var setup: seq<Effect> := if i == 0 then SetupEffects(e) else [];
    var save := Save(OutFile(e, e.basenameOf(e.cfg.runs[i])), PathTail(input), headFrom);
    ShapeNoSetup(setup, ReadRaw(PathTail(input)), save);
  }

  /** Setup effects, a read and a save: the setup is a prefix and nothing after it sets up. */
  lemma ShapeNoSetup(setup: seq<Effect>, read: Effect, save: Effect)
    requires read.ReadRaw? && save.Save?
    ensures (setup + [read, save])[..|setup|] == setup
    ensures NoSetupFrom(setup + [read, save], |setup|)
  {
    var s := setup + [read, save];
    assert s[|setup|] == read && s[|setup| + 1] == save;
  }

  /** The number of `Save` effects. */
  function Saves(effects: seq<Effect>): nat
    decreases |effects|
  {
    if effects == [] then 0
    else Saves(effects[..|effects| - 1]) + (if effects[|effects| - 1].Save? then 1 else 0)
  }

  lemma {:induction false} SavesAppend(a: seq<Effect>, b: seq<Effect>)
    ensures Saves(a + b) == Saves(a) + Saves(b)
    decreases |b|
  {
    if b == [] {
      assert a + b == a;
    } else {
      assert (a + b)[..|a + b| - 1] == a + b[..|b| - 1];
      assert (a + b)[|a + b| - 1] == b[|b| - 1];
      SavesAppend(a, b[..|b| - 1]);
    }
  }

  lemma SetupSavesNothing(e: Env)
    ensures Saves(SetupEffects(e)) == 0
    ensures forall k :: 0 <= k < |SetupEffects(e)| ==> !SetupEffects(e)[k].Save?
  {
    var opt := if OutDir(e) in e.existing then [] else [MakeDirs(OutDir(e))];
    var json := [WriteJson(PathJoin(DerivPath(e.cfg), "dataset_description.json"), Description(e.cfg))];
    assert opt + json == SetupEffects(e);
    SavesAppend(opt, json);
    assert json[..0] == [];
    if opt != [] {
      assert opt[..0] == [];
    }
  }

  /** One save per run. */
  lemma {:induction false} SavesPerRun(e: Env, inputs: seq<string>)
    requires |inputs| <= |e.cfg.runs|
    ensures Saves(Effects(e, inputs)) == |inputs|
    decreases |inputs|
  {
    if inputs != [] {
      var n := |inputs| - 1;
      SavesPerRun(e, inputs[..n]);
      SavesAppend(Effects(e, inputs[..n]), RunEffects(e, n, inputs[n], HeadFrom(e, inputs)));
      RunSavesOne(e, n, inputs[n], HeadFrom(e, inputs));
    }
  }

  lemma RunSavesOne(e: Env, i: nat, input: string, headFrom: Option<string>)
    requires i < |e.cfg.runs|
    ensures Saves(RunEffects(e, i, input, headFrom)) == 1
  {
    var setup: seq<Effect> := if i == 0 then SetupEffects(e) else [];
    var save := Save(OutFile(e, e.basenameOf(e.cfg.runs[i])), PathTail(input), headFrom);
    assert RunEffects(e, i, input, headFrom) == setup + [ReadRaw(PathTail(input)), save];
    SetupSavesNothing(e);
    ShapeSavesOne(setup, ReadRaw(PathTail(input)), save);
  }

  lemma ShapeSavesOne(setup: seq<Effect>, read: Effect, save: Effect)
    requires Saves(setup) == 0 && !read.Save? && save.Save?
    ensures Saves(setup + [read, save]) == 1
  {
    var last := [read, save];
    SavesAppend(setup, last);
    assert [read][..0] == [];
    assert Saves([read]) == 0;
    assert last[..1] == [read];
    assert Saves(last) == Saves([read]) + 1;
  }

  /** A save is named by the filtering choice and points at `headFrom`. */
  predicate SaveOk(x: Effect, maxwell: bool, headFrom: Option<string>) {
    x.Save? ==> (EndsWith(x.path, "_sss_raw.fif") <==> maxwell) && x.headFrom == headFrom
  }

  predicate SavesOk(s: seq<Effect>, maxwell: bool, headFrom: Option<string>) {
    forall k :: 0 <= k < |s| ==> SaveOk(s[k], maxwell, headFrom)
  }

  lemma SavesOkConcat(a: seq<Effect>, b: seq<Effect>, maxwell: bool, headFrom: Option<string>)
    requires SavesOk(a, maxwell, headFrom) && SavesOk(b, maxwell, headFrom)
    ensures SavesOk(a + b, maxwell, headFrom)
  {
    forall k | 0 <= k < |a + b| ensures SaveOk((a + b)[k], maxwell, headFrom) {
      if k < |a| {
        assert (a + b)[k] == a[k];
      } else {
        assert (a + b)[k] == b[k - |a|];
      }
    }
  }

  /**
    Every save is named `_sss_raw.fif` exactly when Maxwell filtering, and has
    the first run's input file as its head-position destination.
  */
  lemma {:induction false} SavesNamed(e: Env, inputs: seq<string>)
    requires |inputs| <= |e.cfg.runs|
    ensures forall k :: 0 <= k < |Effects(e, inputs)| && Effects(e, inputs)[k].Save? ==>
      && (EndsWith(Effects(e, inputs)[k].path, "_sss_raw.fif") <==> e.cfg.useMaxwellFilter)
      && Effects(e, inputs)[k].headFrom == HeadFrom(e, inputs)
    decreases |inputs|
  {
    if inputs != [] {
      var n := |inputs| - 1;
      var head := HeadFrom(e, inputs);
      var prev: seq<Effect> := Effects(e, inputs[..n]);
      var run: seq<Effect> := RunEffects(e, n, inputs[n], head);
      SavesNamed(e, inputs[..n]);
      if n > 0 {
        assert HeadFrom(e, inputs[..n]) == head;
      }
      assert SavesOk(prev, e.cfg.useMaxwellFilter, head);
      RunSavesNamed(e, n, inputs[n], head);
      SavesOkConcat(prev, run, e.cfg.useMaxwellFilter, head);
      assert prev + run == Effects(e, inputs);
    }
  }

  /** The one save of a run is named by the filtering choice and points at `headFrom`. */
  lemma RunSavesNamed(e: Env, i: nat, input: string, headFrom: Option<string>)
    requires i < |e.cfg.runs|
    ensures SavesOk(RunEffects(e, i, input, headFrom), e.cfg.useMaxwellFilter, headFrom)
  {
    var setup: seq<Effect> := if i == 0 then SetupEffects(e) else [];
    var save := Save(OutFile(e, e.basenameOf(e.cfg.runs[i])), PathTail(input), headFrom);
    SetupSavesNothing(e);
    OutFileNamed(e, e.basenameOf(e.cfg.runs[i]));
    ShapeSavesOk(setup, ReadRaw(PathTail(input)), save, e.cfg.useMaxwellFilter, headFrom);
  }

  /** Setup effects, a read and one save: only that save matters. */
  lemma ShapeSavesOk(setup: seq<Effect>, read: Effect, save: Effect, maxwell: bool, headFrom: Option<string>)
    requires forall k :: 0 <= k < |setup| ==> !setup[k].Save?
    requires !read.Save? && SaveOk(save, maxwell, headFrom)
    ensures SavesOk(setup + [read, save], maxwell, headFrom)
  {
    assert SavesOk(setup, maxwell, headFrom);
    assert SavesOk([read, save], maxwell, headFrom);
    SavesOkConcat(setup, [read, save], maxwell, headFrom);
  }

  /** `itertools.product(subjects_list, sessions)`, subject by subject. */
  function Product(subjects: seq<string>, sessions: seq<Option<string>>): seq<(string, Option<string>)>
    decreases |subjects|
  {
    if subjects == [] then []
    else seq(|sessions|, j requires 0 <= j < |sessions| => (subjects[0], sessions[j]))
         + Product(subjects[1..], sessions)
  }

  /** `main` runs one job per subject and session pair, and each pair exactly when both are listed. */
  lemma MaxfilterJobs(subjects: seq<string>, sessions: seq<Option<string>>, subject: string, session: Option<string>)
    ensures |Product(subjects, sessions)| == |subjects| * |sessions|
    ensures (subject, session) in Product(subjects, sessions) <==> subject in subjects && session in sessions
  {
    ProductLength(subjects, sessions);
    ProductMembers(subjects, sessions, subject, session);
  }

  lemma {:induction false} ProductLength(subjects: seq<string>, sessions: seq<Option<string>>)
    ensures |Product(subjects, sessions)| == |subjects| * |sessions|
    decreases |subjects|
  {
    if subjects != [] {
      ProductLength(subjects[1..], sessions);
      assert |subjects| * |sessions| == |sessions| + |subjects[1..]| * |sessions|;
    }
  }

  lemma {:induction false} ProductMembers(subjects: seq<string>, sessions: seq<Option<string>>,
                                          subject: string, session: Option<string>)
    ensures (subject, session) in Product(subjects, sessions) <==> subject in subjects && session in sessions
    decreases |subjects|
  {
    if subjects != [] {
      var head := seq(|sessions|, j requires 0 <= j < |sessions| => (subjects[0], sessions[j]));
      ProductMembers(subjects[1..], sessions, subject, session);
      if subject == subjects[0] && session in sessions {
        var j :| 0 <= j < |sessions| && sessions[j] == session;
        assert head[j] == (subject, session);
      }
      if (subject, session) in head {
        var j :| 0 <= j < |head| && head[j] == (subject, session);
        assert sessions[j] == session;
      }
      assert subjects == [subjects[0]] + subjects[1..];
    }
  }
}
