/**
  The noise-covariance step (mne_bids_pipeline/steps/sensor/_06_make_cov.py):
  which strategy computes the covariance, which input files the step declares
  for each strategy, how the step consumes exactly those inputs, which report
  entries it adds, and when `main` runs or skips the step.

  The covariance itself, reading and writing files and the report object are
  MNE's and are not modelled: the outcome of the file-existence check, the
  number of evoked responses in the evoked file and the type of the custom
  callable's return value are parameters.
*/
module MakeCov {
  import opened Wrappers

  /** `cfg.noise_cov` once a user callable has been replaced by "custom". */
  datatype NoiseCov =
    | Custom
    | Rest
    | EmptyRoom
    | AdHoc
    | Window(tmin: Option<real>, tmax: Option<real>)

  /** The fields of the step's reduced configuration that the modelled logic reads. */
  datatype CovConfig = CovConfig(
    noiseCov: NoiseCov,
    chTypes: seq<string>,
    conditions: seq<string>,
    task: Option<string>,
    acq: Option<string>,
    rec: Option<string>,
    space: Option<string>,
    dataType: Option<string>,
    derivRoot: string)

  /** A `BIDSPath` as a record of its entities; rendering it to a file name is not modelled. */
  datatype BidsPath = BidsPath(
    subject: string,
    session: Option<string>,
    task: Option<string>,
    acquisition: Option<string>,
    run: Option<string>,
    recording: Option<string>,
    space: Option<string>,
    processing: Option<string>,
    suffix: string,
    extension: string,
    dataType: Option<string>,
    root: string)

  /** A value of the declared-inputs dict: a path, or the marker string for unknown inputs. */
  datatype InFile = Path(path: BidsPath) | Marker(text: string)

  datatype CovType = CustomCov | RawCov | EpochsCov

  const ReportInfo := "report_info"
  const Evoked := "evoked"
  const UnknownInputs := "__unknown_inputs__"
  const RawRole := "raw"
  const EpochsRole := "epochs"
  const CovRole := "cov"
  const CustomMarkerText := "custom noise_cov callable"
  const CovSection := "Noise covariance"

  /**
    _get_cov_type: the first matching row of the decision table. With "emptyroom"
    and EEG among the channel types the rule falls through to epochs.
  */
  function GetCovType(cfg: CovConfig): (t: CovType)
    ensures t == CustomCov <==> cfg.noiseCov == Custom
    ensures t == RawCov <==> cfg.noiseCov == Rest || (cfg.noiseCov == EmptyRoom && "eeg" !in cfg.chTypes)
    ensures t == EpochsCov <==>
      cfg.noiseCov.Window? || cfg.noiseCov == AdHoc || (cfg.noiseCov == EmptyRoom && "eeg" in cfg.chTypes)
  {
    if cfg.noiseCov == Custom then CustomCov
    else if cfg.noiseCov == Rest then RawCov
    else if cfg.noiseCov == EmptyRoom && "eeg" !in cfg.chTypes then RawCov
    else EpochsCov
  }

  /** The roles the input resolution declares for a strategy. */
  function ResolvedRoles(t: CovType, evokedExists: bool): set<string> {
    {ReportInfo}
    + (if evokedExists then {Evoked} else {})
    + (match t
       case CustomCov => {UnknownInputs}
       case RawCov => {RawRole}
       case EpochsCov => {EpochsRole})
  }

  /** The roles run_covariance and the strategy functions pop for a strategy. */
  function ConsumedRoles(t: CovType, hasEvoked: bool): set<string> {
    {ReportInfo}
    + (if hasEvoked then {Evoked} else {})
    + (match t
       case CustomCov => {}
       case RawCov => {RawRole}
       case EpochsCov => {EpochsRole})
  }

  /**
    The step-runner wrapper (outside this model) pops the unknown-inputs marker
    before the step runs; what it passes on is the map of real paths.
  */
  function DropUnknownInputs(m: map<string, InFile>): (r: map<string, BidsPath>)
    ensures UnknownInputs !in r
    ensures forall k :: k in r ==> k in m && m[k] == Path(r[k])
    ensures forall k :: k in m && k != UnknownInputs && m[k].Path? ==> k in r
  {
    map k | k in m && k != UnknownInputs && m[k].Path? :: m[k].path
  }

  /** A processed-derivative path in the step's BIDS location, shared by all three strategies. */
  function CleanPath(cfg: CovConfig, subject: string, session: Option<string>, suffix: string): BidsPath {
    BidsPath(subject, session, cfg.task, cfg.acq, None, cfg.rec, cfg.space,
             Some("clean"), suffix, ".fif", cfg.dataType, cfg.derivRoot)
  }

  /** `p` names a file of this subject and session in the derivatives root, fixed by `cfg`. */
  predicate InStepLocation(p: BidsPath, cfg: CovConfig, subject: string, session: Option<string>) {
    p.subject == subject && p.session == session && p.acquisition == cfg.acq && p.run == None
    && p.recording == cfg.rec && p.space == cfg.space && p.extension == ".fif"
    && p.dataType == cfg.dataType && p.root == cfg.derivRoot
  }

  /** get_input_fnames_cov: the inputs the step declares before anything is read. */
  method GetInputFnamesCov(cfg: CovConfig, subject: string, session: Option<string>, evokedExists: bool)
    returns (inFiles: map<string, InFile>)
    ensures inFiles.Keys == ResolvedRoles(GetCovType(cfg), evokedExists)
    ensures forall k :: k in inFiles && k != UnknownInputs ==>
      inFiles[k].Path? && InStepLocation(inFiles[k].path, cfg, subject, session)
    ensures inFiles[ReportInfo].Path?
    ensures inFiles[ReportInfo].path.processing == Some("clean") && inFiles[ReportInfo].path.suffix == "epo"
    ensures inFiles[ReportInfo].path.task == cfg.task
    ensures evokedExists ==>
      inFiles[Evoked] == Path(inFiles[ReportInfo].path.(suffix := "ave", processing := None))
    ensures GetCovType(cfg) == CustomCov ==> inFiles[UnknownInputs] == Marker(CustomMarkerText)
    ensures GetCovType(cfg) == RawCov ==>
      && inFiles[RawRole].path.task == Some(if cfg.noiseCov == Rest then "rest" else "noise")
      && inFiles[RawRole].path.processing == Some("clean")
      && inFiles[RawRole].path.suffix == "raw"
    ensures GetCovType(cfg) == EpochsCov ==> inFiles[EpochsRole] == inFiles[ReportInfo]
  {
    var covType := GetCovType(cfg);
    inFiles := map[];
    var fnameEpochs := CleanPath(cfg, subject, session, "epo");
    inFiles := inFiles[ReportInfo := Path(fnameEpochs.(processing := Some("clean")))];
    var fnameEvoked := fnameEpochs.(suffix := "ave", processing := None);
    if evokedExists {
      inFiles := inFiles[Evoked := Path(fnameEvoked)];
    }
    if covType == CustomCov {
      inFiles := inFiles[UnknownInputs := Marker(CustomMarkerText)];
      return;
    }
    if covType == RawCov {
      var rawNoise := CleanPath(cfg, subject, session, "raw");
      if cfg.noiseCov == Rest {
        rawNoise := rawNoise.(task := Some("rest"));
      } else {
        rawNoise := rawNoise.(task := Some("noise"));
      }
      inFiles := inFiles[RawRole := Path(rawNoise)];
    } else {
      inFiles := inFiles[EpochsRole := Path(fnameEpochs)];
    }
  }

  /** What declared inputs never hold: both a raw and an epochs input, or a real input beside the marker. */
  lemma ResolvedRolesExclusive(t: CovType, evokedExists: bool)
    ensures !(RawRole in ResolvedRoles(t, evokedExists) && EpochsRole in ResolvedRoles(t, evokedExists))
    ensures UnknownInputs in ResolvedRoles(t, evokedExists) <==> t == CustomCov
    ensures UnknownInputs in ResolvedRoles(t, evokedExists) ==>
      RawRole !in ResolvedRoles(t, evokedExists) && EpochsRole !in ResolvedRoles(t, evokedExists)
    ensures ReportInfo in ResolvedRoles(t, evokedExists)
    ensures Evoked in ResolvedRoles(t, evokedExists) <==> evokedExists
  {
  }

  /** Once the marker is dropped, the declared roles are exactly the roles the step consumes. */
  lemma ResolutionMatchesConsumption(m: map<string, InFile>, t: CovType, evokedExists: bool)
    requires m.Keys == ResolvedRoles(t, evokedExists)
    requires forall k :: k in m && k != UnknownInputs ==> m[k].Path?
    ensures DropUnknownInputs(m).Keys == ConsumedRoles(t, evokedExists)
    ensures Evoked in DropUnknownInputs(m) <==> evokedExists
  {
    assert DropUnknownInputs(m).Keys == m.Keys - {UnknownInputs};
  }

  /** Which computation produced the covariance, with the input it read. */
  datatype CovSource =
    | FromCustom(evokedPath: BidsPath)
    | FromRaw(rawPath: BidsPath, restingState: bool)
    | FromEpochs(epochsPath: BidsPath, tmin: Option<real>, tmax: Option<real>)

  /** An entry the step adds to the subject's report. */
  datatype ReportItem =
    | CovarianceItem(title: string, info: BidsPath)
    | FigureItem(title: string, tags: seq<string>, section: string)

  datatype CovRun = CovRun(source: CovSource, outFiles: map<string, BidsPath>, report: seq<ReportItem>)

  /** The exceptions and failed assertions of run_covariance, in the order they are met. */
  datatype CovError =
    | MissingInput(role: string)
    | UnexpectedInputs(roles: set<string>)
    | CustomNotCovariance
    | NotAWindow
    | ConditionCountMismatch(evoked: nat, conditions: nat)
    | UnconsumedInputs(roles: set<string>)

  /** The whitening figure for one condition: its title, tags and report section. */
  predicate IsWhiteningFigure(item: ReportItem, cfgConditions: seq<string>, condition: string,
                              sanitize: string -> string)
  {
    item == FigureItem("Whitening: " + condition,
                       ["evoked", "covariance", sanitize(condition)]
                       + (if condition in cfgConditions then [] else ["contrast"]),
                       CovSection)
  }

  /** The first failure run_covariance meets, as a decision on its inputs. */
  function FirstFailure(cfg: CovConfig, inFiles: map<string, BidsPath>, customIsCovariance: bool,
                        evokedCount: nat, conditionCount: nat): (r: Option<CovError>)
    ensures ReportInfo !in inFiles ==> r == Some(MissingInput(ReportInfo))
    ensures r.Some? && r.value.MissingInput? ==> r.value.role !in inFiles
    ensures r.Some? && r.value.UnexpectedInputs? ==>
      GetCovType(cfg) == CustomCov && r.value.roles != {} && r.value.roles <= inFiles.Keys
    ensures r == Some(CustomNotCovariance) ==> GetCovType(cfg) == CustomCov && !customIsCovariance
    ensures r == Some(NotAWindow) ==> GetCovType(cfg) == EpochsCov && !cfg.noiseCov.Window?
    ensures r.Some? && r.value.ConditionCountMismatch? ==> Evoked in inFiles && evokedCount != conditionCount
    ensures r.Some? && r.value.UnconsumedInputs? ==>
      && r.value.roles != {} && r.value.roles <= inFiles.Keys
      && r.value.roles !! ConsumedRoles(GetCovType(cfg), Evoked in inFiles)
  {
    var rest := inFiles.Keys - {ReportInfo, Evoked};
    var t := GetCovType(cfg);
    if ReportInfo !in inFiles then Some(MissingInput(ReportInfo))
    else if t == CustomCov && rest != {} then Some(UnexpectedInputs(rest))
    else if t == CustomCov && !customIsCovariance then Some(CustomNotCovariance)
    else if t == RawCov && RawRole !in inFiles then Some(MissingInput(RawRole))
    else if t == EpochsCov && !cfg.noiseCov.Window? then Some(NotAWindow)
    else if t == EpochsCov && EpochsRole !in inFiles then Some(MissingInput(EpochsRole))
    else if Evoked in inFiles && evokedCount != conditionCount then
      Some(ConditionCountMismatch(evokedCount, conditionCount))
    else if t == RawCov && rest != {RawRole} then Some(UnconsumedInputs(rest - {RawRole}))
    else if t == EpochsCov && rest != {EpochsRole} then Some(UnconsumedInputs(rest - {EpochsRole}))
    else None
  }

  /**
    The consumption discipline: run_covariance meets no failure exactly when the
    inputs it is given are the roles it consumes and the strategy's own checks hold.
  */
  lemma NoFailureIff(cfg: CovConfig, inFiles: map<string, BidsPath>, customIsCovariance: bool,
                     evokedCount: nat, conditionCount: nat)
    ensures FirstFailure(cfg, inFiles, customIsCovariance, evokedCount, conditionCount).None? <==>
      && inFiles.Keys == ConsumedRoles(GetCovType(cfg), Evoked in inFiles)
      && (GetCovType(cfg) == CustomCov ==> customIsCovariance)
      && (GetCovType(cfg) == EpochsCov ==> cfg.noiseCov.Window?)
      && (Evoked in inFiles ==> evokedCount == conditionCount)
  {
    var t := GetCovType(cfg);
    var rest := inFiles.Keys - {ReportInfo, Evoked};
    var ev := if Evoked in inFiles then {Evoked} else {};
    if ReportInfo in inFiles {
      assert inFiles.Keys == {ReportInfo} + ev + rest;
      assert ReportInfo !in rest && Evoked !in rest;
    }
  }

  /**
    run_covariance: pops the report and evoked inputs, lets the strategy pop its own
    input, records the covariance output, adds the covariance entry and one whitening
    figure per condition to the report, and finally requires every input consumed.
  */
  method RunCovariance(cfg: CovConfig, subject: string, session: Option<string>,
                       inFiles: map<string, BidsPath>, covPath: BidsPath,
                       customIsCovariance: bool, evokedCount: nat, allConditions: seq<string>,
                       sanitize: string -> string)
    returns (r: Result<CovRun, CovError>)
    ensures r.Err? <==> FirstFailure(cfg, inFiles, customIsCovariance, evokedCount, |allConditions|).Some?
    ensures r.Err? ==> Some(r.error) == FirstFailure(cfg, inFiles, customIsCovariance, evokedCount, |allConditions|)
    ensures r.Ok? ==> r.value.outFiles == map[CovRole := covPath]
    ensures r.Ok? && GetCovType(cfg) == CustomCov ==>
      r.value.source == FromCustom(CleanPath(cfg, subject, session, "ave"))
    ensures r.Ok? && GetCovType(cfg) == RawCov ==>
      r.value.source == FromRaw(inFiles[RawRole], inFiles[RawRole].task == Some("rest"))
    ensures r.Ok? && GetCovType(cfg) == EpochsCov ==>
      r.value.source == FromEpochs(inFiles[EpochsRole], cfg.noiseCov.tmin, cfg.noiseCov.tmax)
    ensures r.Ok? ==> |r.value.report| == 1 + (if Evoked in inFiles then |allConditions| else 0)
    ensures r.Ok? ==> r.value.report[0] == CovarianceItem(CovSection, inFiles[ReportInfo])
    ensures r.Ok? && Evoked in inFiles ==> forall k :: 0 <= k < |allConditions| ==>
      IsWhiteningFigure(r.value.report[k + 1], cfg.conditions, allConditions[k], sanitize)
  {
    var outFiles := map[CovRole := covPath];
    var covType := GetCovType(cfg);
    var remaining := inFiles;
    if ReportInfo !in remaining {
      return Err(MissingInput(ReportInfo));
    }
    var fnameInfo := remaining[ReportInfo];
    remaining := remaining - {ReportInfo};
    var fnameEvoked: Option<BidsPath> := None;
    if Evoked in remaining {
      fnameEvoked := Some(remaining[Evoked]);
      remaining := remaining - {Evoked};
    }
    assert remaining.Keys == inFiles.Keys - {ReportInfo, Evoked};
    var source: CovSource;
    if covType == CustomCov {
      if remaining != map[] {
        assert remaining.Keys != {};
        return Err(UnexpectedInputs(remaining.Keys));
      }
      assert remaining.Keys == {};
      var evokedBidsPath := CleanPath(cfg, subject, session, "ave");
      if !customIsCovariance {
        return Err(CustomNotCovariance);
      }
      source := FromCustom(evokedBidsPath);
    } else if covType == RawCov {
      if RawRole !in remaining {
        return Err(MissingInput(RawRole));
      }
      var fnameRaw := remaining[RawRole];
      remaining := remaining - {RawRole};
      assert remaining.Keys == (inFiles.Keys - {ReportInfo, Evoked}) - {RawRole};
      source := FromRaw(fnameRaw, fnameRaw.task == Some("rest"));
    } else {
      if !cfg.noiseCov.Window? {
        return Err(NotAWindow);
      }
      var tmin, tmax := cfg.noiseCov.tmin, cfg.noiseCov.tmax;
      if EpochsRole !in remaining {
        return Err(MissingInput(EpochsRole));
      }
      var epoFname := remaining[EpochsRole];
      remaining := remaining - {EpochsRole};
      assert remaining.Keys == (inFiles.Keys - {ReportInfo, Evoked}) - {EpochsRole};
      source := FromEpochs(epoFname, tmin, tmax);
    }
    var report := [CovarianceItem(CovSection, fnameInfo)];
    if fnameEvoked.Some? {
      if evokedCount != |allConditions| {
        return Err(ConditionCountMismatch(evokedCount, |allConditions|));
      }
      var i := 0;
      while i < |allConditions|
        invariant 0 <= i <= |allConditions|
        invariant |report| == 1 + i
        invariant report[0] == CovarianceItem(CovSection, fnameInfo)
        invariant forall k :: 0 <= k < i ==>
          IsWhiteningFigure(report[k + 1], cfg.conditions, allConditions[k], sanitize)
      {
        var condition := allConditions[i];
        var tags := ["evoked", "covariance", sanitize(condition)];
        var title := "Whitening: " + condition;
        if condition !in cfg.conditions {
          tags := tags + ["contrast"];
        }
        report := report + [FigureItem(title, tags, CovSection)];
        i := i + 1;
      }
    }
    if remaining != map[] {
      assert remaining.Keys != {};
      return Err(UnconsumedInputs(remaining.Keys));
    }
    assert remaining.Keys == {};
    r := Ok(CovRun(source, outFiles, report));
  }

  /** A whitening figure carries the "contrast" tag exactly when its condition is not a configured condition. */
  lemma WhiteningContrastTag(item: ReportItem, cfgConditions: seq<string>, condition: string,
                             sanitize: string -> string)
    requires IsWhiteningFigure(item, cfgConditions, condition, sanitize)
    ensures item.title == "Whitening: " + condition
    ensures item.tags[..3] == ["evoked", "covariance", sanitize(condition)]
    ensures |item.tags| == 4 <==> condition !in cfgConditions
    ensures |item.tags| == 4 ==> item.tags[3] == "contrast"
  {
  }

  datatype SkipReason = SourceEstimationDisabled | AdHocCovariance

  datatype StepOutcome = Skipped(reason: SkipReason) | Ran(jobs: seq<(string, Option<string>)>)

  /** One job per (subject, session) pair, subject by subject, in the order given. */
  function FanOut(subjectsSessions: seq<(string, seq<Option<string>>)>): seq<(string, Option<string>)>
    decreases |subjectsSessions|
  {
    if subjectsSessions == [] then []
    else
      var subject := subjectsSessions[0].0;
      var sessions := subjectsSessions[0].1;
      seq(|sessions|, i requires 0 <= i < |sessions| => (subject, sessions[i]))
      + FanOut(subjectsSessions[1..])
  }

  function SessionCount(subjectsSessions: seq<(string, seq<Option<string>>)>): nat
    decreases |subjectsSessions|
  {
    if subjectsSessions == [] then 0 else |subjectsSessions[0].1| + SessionCount(subjectsSessions[1..])
  }

  /** The fan-out holds a job for a pair exactly when the subject lists that session, one job per listed session. */
  lemma {:induction false} FanOutJobs(subjectsSessions: seq<(string, seq<Option<string>>)>,
                                      subject: string, session: Option<string>)
    ensures |FanOut(subjectsSessions)| == SessionCount(subjectsSessions)
    ensures (subject, session) in FanOut(subjectsSessions) <==>
      exists k :: 0 <= k < |subjectsSessions| && subjectsSessions[k].0 == subject && session in subjectsSessions[k].1
    decreases |subjectsSessions|
  {
    if subjectsSessions != [] {
      var tail := subjectsSessions[1..];
      FanOutJobs(tail, subject, session);
      var sessions := subjectsSessions[0].1;
      var head := seq(|sessions|, i requires 0 <= i < |sessions| => (subjectsSessions[0].0, sessions[i]));
      if session in sessions && subjectsSessions[0].0 == subject {
        var j :| 0 <= j < |sessions| && sessions[j] == session;
        assert head[j] == (subject, session);
      }
      if (subject, session) in head {
        var j :| 0 <= j < |head| && head[j] == (subject, session);
        assert sessions[j] == session;
      }
      if exists k :: 0 <= k < |tail| && tail[k].0 == subject && session in tail[k].1 {
        var k :| 0 <= k < |tail| && tail[k].0 == subject && session in tail[k].1;
        assert subjectsSessions[k + 1] == tail[k];
      }
      if exists k :: 0 <= k < |subjectsSessions| && subjectsSessions[k].0 == subject && session in subjectsSessions[k].1 {
        var k :| 0 <= k < |subjectsSessions| && subjectsSessions[k].0 == subject && session in subjectsSessions[k].1;
        if k > 0 {
          assert tail[k - 1] == subjectsSessions[k];
        }
      }
    }
  }

  /**
    main: the step is skipped when source estimation is off (checked first) or the
    covariance is the ad-hoc diagonal one; otherwise one job runs per (subject, session).
  */
  function CovMain(runSourceEstimation: bool, noiseCov: NoiseCov,
                   subjectsSessions: seq<(string, seq<Option<string>>)>): (r: StepOutcome)
    ensures !runSourceEstimation ==> r == Skipped(SourceEstimationDisabled)
    ensures runSourceEstimation && noiseCov == AdHoc ==> r == Skipped(AdHocCovariance)
    ensures r.Ran? <==> runSourceEstimation && noiseCov != AdHoc
    ensures r.Ran? ==> r.jobs == FanOut(subjectsSessions) && |r.jobs| == SessionCount(subjectsSessions)
  {
    if !runSourceEstimation then Skipped(SourceEstimationDisabled)
    else if noiseCov == AdHoc then Skipped(AdHocCovariance)
    else
      FanOutJobs(subjectsSessions, "", None);
      Ran(FanOut(subjectsSessions))
  }
}
