/**
  The page part of the example-gallery generator (docs/source/examples/gen_examples.py):
  which HTML reports are copied for a test, how the copied files are grouped into
  link buttons, the dataset-source URL, the `openneuro-py download` command, and the
  loop that writes one page per dataset and collects the summary table's rows.

  The filesystem is abstracted: `htmlFor` gives the HTML reports found under a
  dataset's derivatives directory, `listingFor` the file names in a dataset's
  gallery directory after copying, and `configFor` the configuration a config file
  yields for a task.
*/
module ExamplePages {
  import opened Wrappers
  import opened Strings
  import opened ExampleFeatures

  /** The keys of a test's options that the generator reads. */
  datatype TestOptions = TestOptions(dataset: Option<string>)

  /** A dataset's download options; each key may be absent from the dict. */
  datatype DatasetOptions = DatasetOptions(
    openneuro: Option<string>,
    web: Option<string>,
    mne: Option<string>,
    includes: Option<seq<string>>,
    excludes: Option<seq<string>>)

  datatype GalleryError =
    | MissingDatasetKey(testName: string)
    | NoErpCoreReports(testName: string)
    | UnknownDatasetOptions(key: string)
    | NotOneSource(key: string)

  /** A report file found by the recursive glob: its directory components and its name. */
  datatype ReportFile = ReportFile(dirs: seq<string>, name: string)

  function Parts(f: ReportFile): seq<string> {
    f.dirs + [f.name]
  }

  predicate IsErpCore(testName: string) {
    Contains(testName, "ERP_CORE")
  }

  /** ERP CORE tests take the dataset name from their options, every other test is its own dataset. */
  function DatasetNameOf(testName: string, opts: TestOptions): (r: Result<string, GalleryError>)
    ensures r.Err? <==> IsErpCore(testName) && opts.dataset.None?
    ensures r.Err? ==> r.error == MissingDatasetKey(testName)
    ensures r.Ok? && IsErpCore(testName) ==> Some(r.value) == opts.dataset
    ensures r.Ok? && !IsErpCore(testName) ==> r.value == testName
  {
    if IsErpCore(testName) then
      if opts.dataset.Some? then Ok(opts.dataset.value) else Err(MissingDatasetKey(testName))
    else Ok(testName)
  }

  /** The key into the dataset options: the `dataset` option, else the test name up to its first `_`. */
  function DatasetOptionsKey(testName: string, opts: TestOptions): (r: string)
    ensures opts.dataset.Some? ==> r == opts.dataset.value
    ensures opts.dataset.None? ==> StartsWith(testName, r) && '_' !in r
    ensures opts.dataset.None? && |r| < |testName| ==> testName[|r|] == '_'
  {
    if opts.dataset.Some? then opts.dataset.value else BeforeFirst(testName, '_')
  }

  /** The report belongs to subject `s`: a directory or the file is `sub-s` and the name mentions it. */
  predicate ShowsSubject(f: ReportFile, s: string) {
    ("sub-" + s) in Parts(f) && Contains(f.name, "sub-" + s)
  }

  /** For ERP CORE only subject 015 and the grand average are shown. */
  predicate ShownErpCore(f: ReportFile) {
    ShowsSubject(f, "015") || ShowsSubject(f, "average")
  }

  /** What the copy loop does for one test. */
  datatype CopyStep = NoHtml(datasetName: string) | Copied(datasetName: string, files: seq<ReportFile>)

  /** The reports the copy loop copies for one test, or why it stops. */
  function CopyPlan(testName: string, opts: TestOptions, htmlFor: string -> seq<ReportFile>): Result<CopyStep, GalleryError> {
    match DatasetNameOf(testName, opts)
    case Err(e) => Err(e)
    case Ok(name) =>
      var html := htmlFor(name);
      if html == [] then Ok(NoHtml(name))
      else if IsErpCore(testName) then
        var shown := Filter(html, ShownErpCore);
        if shown == [] then Err(NoErpCoreReports(testName)) else Ok(Copied(name, shown))
      else Ok(Copied(name, html))
  }

  /**
    A test without reports is recorded and copies nothing; an ERP CORE test copies
    exactly its reports of subject 015 and of the average and fails when there are
    none; any other test copies all of its reports.
  */
  lemma CopyPlanChoosesReports(testName: string, opts: TestOptions, htmlFor: string -> seq<ReportFile>, name: string)
    requires DatasetNameOf(testName, opts) == Ok(name)
    ensures CopyPlan(testName, opts, htmlFor) == Ok(NoHtml(name)) <==> htmlFor(name) == []
    ensures CopyPlan(testName, opts, htmlFor).Err? <==>
      htmlFor(name) != [] && IsErpCore(testName) && forall f :: f in htmlFor(name) ==> !ShownErpCore(f)
    ensures CopyPlan(testName, opts, htmlFor).Ok? && CopyPlan(testName, opts, htmlFor).value.Copied? ==>
      var step := CopyPlan(testName, opts, htmlFor).value;
      step.datasetName == name && step.files != [] &&
      forall f :: f in step.files <==> f in htmlFor(name) && (IsErpCore(testName) ==> ShownErpCore(f))
  {
    var html := htmlFor(name);
    if html != [] && IsErpCore(testName) {
      var shown := Filter(html, ShownErpCore);
      if shown == [] {
        forall f | f in html ensures !ShownErpCore(f) {
          assert f !in shown;
        }
      } else {
        assert shown[0] in shown;
      }
    }
  }

  /** The dataset names of the tests that found no report, in suite order. */
  function NoHtmlNames(steps: seq<CopyStep>): seq<string>
    decreases |steps|
  {
    if steps == [] then []
    else
      var last := steps[|steps| - 1];
      NoHtmlNames(steps[..|steps| - 1]) + (if last.NoHtml? then [last.datasetName] else [])
  }

  lemma {:induction false} NoHtmlNamesMembers(steps: seq<CopyStep>)
    ensures forall n :: n in NoHtmlNames(steps) <==> NoHtml(n) in steps
    decreases |steps|
  {
    if steps != [] {
      var init := steps[..|steps| - 1];
      NoHtmlNamesMembers(init);
      assert steps == init + [steps[|steps| - 1]];
    }
  }

  /** The body of the copy loop for one test: the reports it copies, or why it stops. */
  method CopyOne(testName: string, opts: TestOptions, htmlFor: string -> seq<ReportFile>)
    returns (r: Result<CopyStep, GalleryError>)
    ensures r == CopyPlan(testName, opts, htmlFor)
  {
    var datasetName: string;
    if IsErpCore(testName) {
      if opts.dataset.None? {
        return Err(MissingDatasetKey(testName));
      }
      datasetName := opts.dataset.value;
    } else {
      datasetName := testName;
    }
    var html := htmlFor(datasetName);
    if html == [] {
      return Ok(NoHtml(datasetName));
    }
    if IsErpCore(testName) {
      html := Filter(html, ShownErpCore);
      if html == [] {
        return Err(NoErpCoreReports(testName));
      }
    }
    return Ok(Copied(datasetName, html));
  }

  /**
    The copy loop: one step per test in suite order, each as CopyPlan says; the
    loop stops at the first test that fails. `withoutHtml` lists the datasets that
    had no report.
  */
  method CopyReports(suite: seq<(string, TestOptions)>, htmlFor: string -> seq<ReportFile>)
    returns (steps: seq<CopyStep>, withoutHtml: seq<string>, err: Option<GalleryError>)
    ensures |steps| <= |suite|
    ensures forall i :: 0 <= i < |steps| ==> CopyPlan(suite[i].0, suite[i].1, htmlFor) == Ok(steps[i])
    ensures err.None? ==> |steps| == |suite|
    ensures err.Some? ==> |steps| < |suite| && CopyPlan(suite[|steps|].0, suite[|steps|].1, htmlFor) == Err(err.value)
    ensures withoutHtml == NoHtmlNames(steps)
  {
    steps := [];
    withoutHtml := [];
    err := None;
    var i := 0;
    while i < |suite|
      invariant 0 <= i <= |suite| && |steps| == i
      invariant Planned(suite, htmlFor, steps)
      invariant withoutHtml == NoHtmlNames(steps)
    {
      var r := CopyOne(suite[i].0, suite[i].1, htmlFor);
      if r.Err? {
        return steps, withoutHtml, Some(r.error);
      }
      var step := r.value;
      if step.NoHtml? {
        withoutHtml := withoutHtml + [step.datasetName];
      }
      PlannedSnoc(suite, htmlFor, steps, step);
      assert (steps + [step])[..i] == steps;
      steps := steps + [step];
      i := i + 1;
    }
  }

  /** Each of `steps` is what CopyPlan gives for the test at its position. */
  predicate Planned(suite: seq<(string, TestOptions)>, htmlFor: string -> seq<ReportFile>, steps: seq<CopyStep>) {
    |steps| <= |suite| && forall k :: 0 <= k < |steps| ==> CopyPlan(suite[k].0, suite[k].1, htmlFor) == Ok(steps[k])
  }

  lemma PlannedSnoc(suite: seq<(string, TestOptions)>, htmlFor: string -> seq<ReportFile>, steps: seq<CopyStep>, step: CopyStep)
    requires Planned(suite, htmlFor, steps) && |steps| < |suite|
    requires CopyPlan(suite[|steps|].0, suite[|steps|].1, htmlFor) == Ok(step)
    ensures Planned(suite, htmlFor, steps + [step])
  {
    var steps' := steps + [step];
    forall k | 0 <= k < |steps'|
      ensures CopyPlan(suite[k].0, suite[k].1, htmlFor) == Ok(steps'[k])
    {
      if k < |steps| {
        assert steps'[k] == steps[k];
      }
    }
  }

  /** A file name that marks the output of a cleaning step. */
  predicate HasCleaningMarker(n: string) {
    Contains(n, "proc-clean") || Contains(n, "proc-ica") || Contains(n, "proc-ssp")
  }

  predicate IsSummaryReport(n: string) {
    EndsWith(n, ".html") && !HasCleaningMarker(n)
  }

  /** The names of `s` without repetitions, as a Python set would hold them. */
  function Dedup(s: seq<string>): (r: seq<string>)
    ensures forall x :: x in r <==> x in s
    ensures forall i, j :: 0 <= i < j < |r| ==> r[i] != r[j]
  {
    if s == [] then []
    else
      var init := Dedup(s[..|s| - 1]);
      var x := s[|s| - 1];
      assert forall y :: y in s <==> y in s[..|s| - 1] || y == x;
      if x in init then init else init + [x]
  }

  /** The summary reports of a gallery directory, sorted. */
  function Reports(dir: seq<string>): seq<string> {
    Sort(Filter(dir, IsSummaryReport))
  }

  /** The outputs of cleaning steps, sorted. */
  function Cleaning(dir: seq<string>): seq<string> {
    Sort(Filter(dir, HasCleaningMarker))
  }

  /** Everything else, sorted: the set difference of the directory and the two groups above. */
  function Other(dir: seq<string>): seq<string> {
    var reports := Reports(dir);
    var cleaning := Cleaning(dir);
    Sort(Filter(Dedup(dir), n => n !in cleaning && n !in reports))
  }

  /**
    The three groups are sorted, together hold exactly the directory's files, and are
    pairwise disjoint: a file with a cleaning marker is a cleaning file, an HTML file
    without one is a summary report, and anything else is other output.
  */
  lemma PartitionOfFiles(dir: seq<string>)
    ensures Sorted(Reports(dir)) && Sorted(Cleaning(dir)) && Sorted(Other(dir))
    ensures forall n :: n in Reports(dir) <==> n in dir && IsSummaryReport(n)
    ensures forall n :: n in Cleaning(dir) <==> n in dir && HasCleaningMarker(n)
    ensures forall n :: n in Other(dir) <==> n in dir && !IsSummaryReport(n) && !HasCleaningMarker(n)
    ensures forall n :: n in dir <==> n in Reports(dir) || n in Cleaning(dir) || n in Other(dir)
    ensures forall i, j :: 0 <= i < j < |Other(dir)| ==> Other(dir)[i] != Other(dir)[j]
  {
    GroupMembers(dir);
    var reports := Reports(dir);
    var cleaning := Cleaning(dir);
    var d := Dedup(dir);
    var kept := Filter(d, n => n !in cleaning && n !in reports);
    DistinctSortedFilter(d, kept, Sort(kept));
  }

  lemma GroupMembers(dir: seq<string>)
    ensures forall n :: n in Reports(dir) <==> n in dir && IsSummaryReport(n)
    ensures forall n :: n in Cleaning(dir) <==> n in dir && HasCleaningMarker(n)
    ensures forall n :: n in Other(dir) <==> n in dir && !IsSummaryReport(n) && !HasCleaningMarker(n)
  {
  }

  /** Sorting a filtered sequence of distinct names keeps them distinct. */
  lemma DistinctSortedFilter(d: seq<string>, kept: seq<string>, sorted: seq<string>)
    requires forall i, j :: 0 <= i < j < |d| ==> d[i] != d[j]
    requires multiset(kept) <= multiset(d)
    requires multiset(sorted) == multiset(kept)
    ensures forall i, j :: 0 <= i < j < |sorted| ==> sorted[i] != sorted[j]
  {
    DistinctMultiset(d);
    forall i, j | 0 <= i < j < |sorted| ensures sorted[i] != sorted[j] {
      RepeatedInMultiset(sorted, i, j);
    }
  }

  lemma RepeatedInMultiset(s: seq<string>, i: nat, j: nat)
    requires i < j < |s|
    ensures s[i] == s[j] ==> multiset(s)[s[i]] >= 2
  {
    var x := s[j];
    assert s == s[..j] + [x] + s[j + 1..];
    assert s[..j][i] == s[i];
    assert multiset(s) == multiset(s[..j]) + multiset{x} + multiset(s[j + 1..]);
  }

  lemma {:induction false} DistinctMultiset(d: seq<string>)
    requires forall i, j :: 0 <= i < j < |d| ==> d[i] != d[j]
    ensures forall x :: multiset(d)[x] <= 1
    decreases |d|
  {
    if d != [] {
      var init := d[..|d| - 1];
      DistinctMultiset(init);
      assert d == init + [d[|d| - 1]];
      assert d[|d| - 1] !in init by {
        forall k | 0 <= k < |init| ensures init[k] != d[|d| - 1] {
          assert init[k] == d[k];
        }
      }
    }
  }

  const OutputHead := "\n## Generated output\n\n"
  const SummaryHeading := "???+ info \"Summary reports\"\n"
  const CleaningHeading := "??? info \"Data cleaning\"\n"
  const OtherHeading := "??? info \"Other output\"\n"

  /** A piece of the generated-output section: a collapsible heading or a link button. */
  datatype Block = Heading(text: string) | Link(target: string, caption: string)

  const ButtonOpen := "    <a href=\""
  const ButtonClass := "\" target=\"_blank\" class=\"report-button md-button md-button--primary\">"
  const ButtonClose := " :fontawesome-solid-square-poll-vertical:</a>\n\n"

  function Button(target: string, caption: string): string {
    ButtonOpen + target + ButtonClass + caption + ButtonClose
  }

  function RenderBlock(b: Block): string {
    match b
    case Heading(t) => t
    case Link(target, caption) => Button(target, caption)
  }

  function Texts(bs: seq<Block>): (r: seq<string>)
    ensures |r| == |bs|
  {
    seq(|bs|, i requires 0 <= i < |bs| => RenderBlock(bs[i]))
  }

  /** The text of a sequence of blocks. */
  function Render(bs: seq<Block>): string {
    Concat(Texts(bs))
  }

  lemma RenderAppend(a: seq<Block>, b: seq<Block>)
    ensures Render(a + b) == Render(a) + Render(b)
  {
    assert Texts(a + b) == Texts(a) + Texts(b);
    ConcatAppend(Texts(a), Texts(b));
  }

  /** Writing the rendering of more blocks after a text that renders some blocks. */
  lemma RenderExtend(head: string, bs: seq<Block>, more: seq<Block>)
    ensures (head + Render(bs)) + Render(more) == head + Render(bs + more)
  {
    RenderAppend(bs, more);
    ConcatAssoc(head, Render(bs), Render(more));
  }

  /** One link per file, pointing into the dataset's directory. */
  function Links(datasetName: string, files: seq<string>): (r: seq<Block>)
    ensures |r| == |files|
    ensures forall i {:trigger r[i]} :: 0 <= i < |files| ==> r[i] == Link(PathJoin(datasetName, files[i]), files[i])
  {
    seq(|files|, i requires 0 <= i < |files| => Link(PathJoin(datasetName, files[i]), files[i]))
  }

  /** A heading that is shown only above a non-empty group. */
  function HeadingIf(text: string, group: seq<string>): seq<Block> {
    if group == [] then [] else [Heading(text)]
  }

  /** The generated-output section after its title, for given groups of files. */
  function Section(datasetName: string, reports: seq<string>, cleaning: seq<string>, other: seq<string>): seq<Block> {
    [Heading(SummaryHeading)] + Links(datasetName, reports)
    + HeadingIf(CleaningHeading, cleaning) + Links(datasetName, cleaning)
    + HeadingIf(OtherHeading, other) + Links(datasetName, other)
  }

  /** The generated-output section of a gallery directory after its title, as blocks. */
  function OutputBlocks(datasetName: string, dir: seq<string>): seq<Block> {
    Section(datasetName, Reports(dir), Cleaning(dir), Other(dir))
  }

  lemma SectionShape(datasetName: string, reports: seq<string>, cleaning: seq<string>, other: seq<string>)
    ensures Section(datasetName, reports, cleaning, other)[0] == Heading(SummaryHeading)
    ensures Heading(CleaningHeading) in Section(datasetName, reports, cleaning, other) <==> cleaning != []
    ensures Heading(OtherHeading) in Section(datasetName, reports, cleaning, other) <==> other != []
    ensures forall t, l :: Link(t, l) in Section(datasetName, reports, cleaning, other) <==>
      (l in reports || l in cleaning || l in other) && t == PathJoin(datasetName, l)
  {
    var r := Links(datasetName, reports);
    var c := Links(datasetName, cleaning);
    var o := Links(datasetName, other);
    var hc := HeadingIf(CleaningHeading, cleaning);
    var ho := HeadingIf(OtherHeading, other);
    assert forall b :: b in r ==> b.Link?;
    assert forall b :: b in c ==> b.Link?;
    assert forall b :: b in o ==> b.Link?;
    assert SummaryHeading != CleaningHeading && SummaryHeading != OtherHeading && CleaningHeading != OtherHeading by {
      assert |SummaryHeading| == 28 && |CleaningHeading| == 25 && |OtherHeading| == 24;
    }
    forall t, l
      ensures Link(t, l) in Section(datasetName, reports, cleaning, other) <==>
        (l in reports || l in cleaning || l in other) && t == PathJoin(datasetName, l)
    {
      LinkIn(datasetName, reports, t, l);
      LinkIn(datasetName, cleaning, t, l);
      LinkIn(datasetName, other, t, l);
    }
  }

  /**
    The summary heading always comes first; the cleaning and other headings appear
    exactly when their groups are not empty; and there is a link to a file exactly
    when the file is in the directory, its target the file inside the dataset's
    directory.
  */
  lemma OutputBlocksShape(datasetName: string, dir: seq<string>)
    ensures OutputBlocks(datasetName, dir)[0] == Heading(SummaryHeading)
    ensures Heading(CleaningHeading) in OutputBlocks(datasetName, dir) <==> Cleaning(dir) != []
    ensures Heading(OtherHeading) in OutputBlocks(datasetName, dir) <==> Other(dir) != []
    ensures forall t, l :: Link(t, l) in OutputBlocks(datasetName, dir) <==> l in dir && t == PathJoin(datasetName, l)
  {
    GroupMembers(dir);
    SectionShape(datasetName, Reports(dir), Cleaning(dir), Other(dir));
  }

  lemma LinkIn(datasetName: string, files: seq<string>, t: string, l: string)
    ensures Link(t, l) in Links(datasetName, files) <==> l in files && t == PathJoin(datasetName, l)
  {
    var r := Links(datasetName, files);
    if Link(t, l) in r {
      var i :| 0 <= i < |r| && r[i] == Link(t, l);
      assert files[i] == l;
    }
    if l in files && t == PathJoin(datasetName, l) {
      var i :| 0 <= i < |files| && files[i] == l;
      assert r[i] == Link(t, l);
    }
  }

  /** `report_str += <button>` for each file in turn. */
  method AppendButtons(s: string, datasetName: string, files: seq<string>) returns (r: string)
    ensures r == s + Render(Links(datasetName, files))
  {
    r := s;
    var i := 0;
    while i < |files|
      invariant 0 <= i <= |files|
      invariant r == s + Render(Links(datasetName, files[..i]))
    {
      var link := Link(PathJoin(datasetName, files[i]), files[i]);
      assert Links(datasetName, files[..i + 1]) == Links(datasetName, files[..i]) + [link];
      RenderOne(link);
      RenderExtend(s, Links(datasetName, files[..i]), [link]);
      r := r + Button(link.target, link.caption);
      i := i + 1;
    }
    assert files[..|files|] == files;
  }

  /** The generated-output section of a page: its title followed by the section's blocks. */
  method GeneratedOutputStr(datasetName: string, dir: seq<string>) returns (reportStr: string)
    ensures reportStr == OutputHead + Render(OutputBlocks(datasetName, dir))
  {
    var reports := Reports(dir);
    var cleaning := Cleaning(dir);
    var other := Other(dir);
    reportStr := WriteSection(datasetName, reports, cleaning, other);
  }

  /** `report_str` built up with `+=`: the title, each heading, each group's buttons. */
  method WriteSection(datasetName: string, reports: seq<string>, cleaning: seq<string>, other: seq<string>)
    returns (reportStr: string)
    ensures reportStr == OutputHead + Render(Section(datasetName, reports, cleaning, other))
  {
    reportStr := OutputHead;
    ghost var blocks := [Heading(SummaryHeading)];
    RenderOne(Heading(SummaryHeading));
    reportStr := reportStr + SummaryHeading;
    reportStr := AppendButtons(reportStr, datasetName, reports);
    RenderExtend(OutputHead, blocks, Links(datasetName, reports));
    blocks := blocks + Links(datasetName, reports);
    if cleaning != [] {
      RenderOne(Heading(CleaningHeading));
      RenderExtend(OutputHead, blocks, [Heading(CleaningHeading)]);
      reportStr := reportStr + CleaningHeading;
    } else {
      assert blocks + [] == blocks;
    }
    blocks := blocks + HeadingIf(CleaningHeading, cleaning);
    reportStr := AppendButtons(reportStr, datasetName, cleaning);
    RenderExtend(OutputHead, blocks, Links(datasetName, cleaning));
    blocks := blocks + Links(datasetName, cleaning);
    if other != [] {
      RenderOne(Heading(OtherHeading));
      RenderExtend(OutputHead, blocks, [Heading(OtherHeading)]);
      reportStr := reportStr + OtherHeading;
    } else {
      assert blocks + [] == blocks;
    }
    blocks := blocks + HeadingIf(OtherHeading, other);
    reportStr := AppendButtons(reportStr, datasetName, other);
    RenderExtend(OutputHead, blocks, Links(datasetName, other));
    blocks := blocks + Links(datasetName, other);
    assert blocks == Section(datasetName, reports, cleaning, other);
  }

  lemma RenderOne(b: Block)
    ensures Render([b]) == RenderBlock(b)
  {
    var t := Texts([b]);
    assert t == [RenderBlock(b)];
    assert t[..0] == [];
    assert Concat(t) == Concat([]) + RenderBlock(b);
  }

  function SourceCount(o: DatasetOptions): nat {
    (if o.openneuro.Some? then 1 else 0) + (if o.web.Some? then 1 else 0) + (if o.mne.Some? then 1 else 0)
  }

  const OpenNeuroPrefix := "https://openneuro.org/datasets/"
  const MnePrefix := "https://mne.tools/dev/generated/mne.datasets."
  const MneSuffix := ".data_path.html"

  /**
    The dataset-source URL: the options must name exactly one source; an OpenNeuro
    id becomes its dataset page, a web URL is used as it is, an MNE dataset name
    becomes its `data_path` documentation page.
  */
  function DatasetUrl(key: string, o: DatasetOptions): (r: Result<string, GalleryError>)
    ensures r.Err? <==> SourceCount(o) != 1
    ensures r.Err? ==> r.error == NotOneSource(key)
    ensures r.Ok? && o.openneuro.Some? ==> r.value == OpenNeuroPrefix + o.openneuro.value
    ensures r.Ok? && o.web.Some? ==> r.value == o.web.value
    ensures r.Ok? && o.mne.Some? ==> r.value == MnePrefix + o.mne.value + MneSuffix
  {
    if SourceCount(o) != 1 then Err(NotOneSource(key))
    else if o.openneuro.Some? then Ok(OpenNeuroPrefix + o.openneuro.value)
    else if o.web.Some? then Ok(o.web.value)
    else Ok(MnePrefix + o.mne.value + MneSuffix)
  }

  /** The dataset-source section: a heading, then a Markdown link whose text and target are both the URL. */
  function SourceStr(url: string): (r: string)
    ensures StartsWith(r, "## Dataset source\n\n")
    ensures EndsWith(r, ")\n")
    ensures Contains(r, "[" + url + "](" + url + ")")
  {
    var head := "## Dataset source\n\n";
    var intro := head + "This dataset was acquired from ";
    var link := "[" + url + "](" + url + ")";
    var r := intro + link + "\n";
    ContainsMiddle(intro, link, "\n");
    assert r[..|head|] == head;
    assert r[|r| - 2..] == [link[|link| - 1], '\n'] == ")\n";
    r
  }

  const FlagIndent := "                 "
  const Continuation := " \\\n"
  const DownloadTail := "\n    ```\n"
  const ExcludeNote := "\nNote that we have to explicitly exclude\nfiles due to a problem with OpenNeuro's storage.\n"

  function DownloadHead(id: string): string {
    "\n??? example \"How to download this dataset\"\n"
    + "    Run in your terminal:\n"
    + "    ```shell\n"
    + "    openneuro-py download \\\n"
    + FlagIndent + "--dataset=" + id + Continuation
  }

  function IncludeFlag(x: string): string {
    FlagIndent + "--include=" + x
  }

  function ExcludeFlag(x: string): string {
    FlagIndent + "--exclude=" + x
  }

  /** `flags` are the include flags, then the exclude flags, each in its list's order. */
  predicate FlagsOf(flags: seq<string>, includes: seq<string>, excludes: seq<string>) {
    && |flags| == |includes| + |excludes|
    && (forall i {:trigger IncludeFlag(includes[i])} :: 0 <= i < |includes| ==> flags[i] == IncludeFlag(includes[i]))
    && (forall j {:trigger ExcludeFlag(excludes[j])} :: 0 <= j < |excludes| ==> flags[|includes| + j] == ExcludeFlag(excludes[j]))
  }

  lemma FlagAt(flags: seq<string>, includes: seq<string>, excludes: seq<string>, n: nat)
    requires FlagsOf(flags, includes, excludes) && n < |flags|
    ensures n < |includes| ==> flags[n] == IncludeFlag(includes[n])
    ensures n >= |includes| ==> flags[n] == ExcludeFlag(excludes[n - |includes|])
  {
    if n >= |includes| {
      var j := n - |includes|;
      assert flags[|includes| + j] == ExcludeFlag(excludes[j]);
    } else {
      assert flags[n] == IncludeFlag(includes[n]);
    }
  }

  function Flags(includes: seq<string>, excludes: seq<string>): (r: seq<string>)
    ensures FlagsOf(r, includes, excludes)
  {
    seq(|includes|, i requires 0 <= i < |includes| => IncludeFlag(includes[i]))
    + seq(|excludes|, j requires 0 <= j < |excludes| => ExcludeFlag(excludes[j]))
  }

  /** The download instructions of an OpenNeuro dataset: the flags joined by line continuations. */
  function DownloadText(id: string, includes: seq<string>, excludes: seq<string>): string {
    DownloadHead(id) + Join(Continuation, Flags(includes, excludes)) + DownloadTail
    + (if excludes != [] then ExcludeNote else "")
  }

  /** Every part followed by a continuation. */
  function Continued(parts: seq<string>): string
    decreases |parts|
  {
    if parts == [] then "" else Continued(parts[..|parts| - 1]) + parts[|parts| - 1] + Continuation
  }

  /** The first `n` flags as the loops have written them: a continuation after all but the very last flag. */
  function Emitted(flags: seq<string>, n: nat): string
    requires n <= |flags|
  {
    if n == |flags| && n > 0 then Continued(flags[..n - 1]) + flags[n - 1] else Continued(flags[..n])
  }

  /** Joining with continuations puts one after every part but the last. */
  lemma {:induction false} JoinIsContinued(parts: seq<string>)
    requires parts != []
    ensures Join(Continuation, parts) == Continued(parts[..|parts| - 1]) + parts[|parts| - 1]
    decreases |parts|
  {
    if |parts| > 1 {
      var rest := parts[1..];
      JoinIsContinued(rest);
      ContinuedCons(parts[0], rest[..|rest| - 1]);
      assert [parts[0]] + rest[..|rest| - 1] == parts[..|parts| - 1];
      assert rest[|rest| - 1] == parts[|parts| - 1];
    } else {
      assert parts[..0] == [];
    }
  }

  lemma {:induction false} ContinuedCons(p: string, parts: seq<string>)
    ensures Continued([p] + parts) == p + Continuation + Continued(parts)
    decreases |parts|
  {
    if parts == [] {
      assert ([p] + parts)[..0] == [];
    } else {
      var init := parts[..|parts| - 1];
      var last := parts[|parts| - 1];
      assert ([p] + parts)[..|[p] + parts| - 1] == [p] + init;
      ContinuedCons(p, init);
    }
  }

  /** Both loops together write exactly the flags joined by continuations. */
  lemma EmittedAll(flags: seq<string>)
    ensures Emitted(flags, |flags|) == Join(Continuation, flags)
  {
    if flags != [] {
      JoinIsContinued(flags);
    }
  }

  /** One more flag written, with a continuation unless it is the last of all flags. */
  lemma EmittedStep(flags: seq<string>, n: nat)
    requires n < |flags|
    ensures Emitted(flags, n + 1) ==
      Emitted(flags, n) + flags[n] + (if n + 1 < |flags| then Continuation else "")
  {
    assert flags[..n + 1][..n] == flags[..n];
  }

  /** Writing flag `n` after the first `n`: with a continuation when more follow, without one after the last. */
  lemma EmitFlag(head: string, flags: seq<string>, n: nat, before: string, flag: string, more: bool, after: string)
    requires n < |flags| && before == head + Emitted(flags, n)
    requires flag == flags[n] && (more <==> n + 1 < |flags|)
    requires more ==> after == before + flag + Continuation
    requires !more ==> after == before + flag
    ensures after == head + Emitted(flags, n + 1)
  {
    EmittedStep(flags, n);
    ConcatAssoc(head, Emitted(flags, n), flags[n]);
    if more {
      ConcatAssoc(head, Emitted(flags, n) + flags[n], Continuation);
    } else {
      assert Emitted(flags, n) + flags[n] + "" == Emitted(flags, n) + flags[n];
    }
  }

  /**
    The download instructions: empty unless the dataset comes from OpenNeuro; then
    one includes flag per includes and one excludes flag per excludes, in that order,
    with a line continuation after every flag but the last, and the note about
    excluded files exactly when there are excludes.
  */
  method DownloadStr(o: DatasetOptions) returns (text: string)
    ensures o.openneuro.None? ==> text == ""
    ensures o.openneuro.Some? ==>
      text == DownloadText(o.openneuro.value,
        if o.includes.Some? then o.includes.value else [],
        if o.excludes.Some? then o.excludes.value else [])
  {
    if o.openneuro.None? {
      return "";
    }
    var includes := if o.includes.Some? then o.includes.value else [];
    var excludes := if o.excludes.Some? then o.excludes.value else [];
    text := WriteFlags(DownloadHead(o.openneuro.value), includes, excludes, Flags(includes, excludes));
    text := text + DownloadTail;
    if excludes != [] {
      text := text + ExcludeNote;
    }
  }

  /** The two flag loops: their text after `head` is the flags joined by line continuations. */
  method WriteFlags(head: string, includes: seq<string>, excludes: seq<string>, ghost flags: seq<string>)
    returns (text: string)
    requires FlagsOf(flags, includes, excludes)
    ensures text == head + Join(Continuation, flags)
  {
    text := head;
    var i := 0;
    while i < |includes|
      invariant 0 <= i <= |includes|
      invariant text == head + Emitted(flags, i)
    {
      text := IncludePass(head, includes, excludes, flags, i, text);
      i := i + 1;
    }
    var j := 0;
    ghost var n := |includes|;
    while j < |excludes|
      invariant 0 <= j <= |excludes| && n == |includes| + j
      invariant text == head + Emitted(flags, n)
    {
      text := ExcludePass(head, includes, excludes, flags, j, text);
      j, n := j + 1, n + 1;
    }
    EmittedAll(flags);
  }

  /** One pass of the includes loop: the flag of `includes[i]`, and a continuation unless it is the last flag. */
  method IncludePass(head: string, includes: seq<string>, excludes: seq<string>, ghost flags: seq<string>,
                     i: nat, text: string) returns (next: string)
    requires FlagsOf(flags, includes, excludes) && i < |includes|
    requires text == head + Emitted(flags, i)
    ensures next == head + Emitted(flags, i + 1)
  {
    FlagAt(flags, includes, excludes, i);
    var count := i + 1;
    next := text + IncludeFlag(includes[i]);
    if count < |includes| || |excludes| > 0 {
      next := next + Continuation;
    }
    EmitFlag(head, flags, i, text, IncludeFlag(includes[i]), count < |includes| || |excludes| > 0, next);
  }

  /** One pass of the excludes loop: the flag of `excludes[j]`, and a continuation unless it is the last. */
  method ExcludePass(head: string, includes: seq<string>, excludes: seq<string>, ghost flags: seq<string>,
                     j: nat, text: string) returns (next: string)
    requires FlagsOf(flags, includes, excludes) && j < |excludes|
    requires text == head + Emitted(flags, |includes| + j)
    ensures next == head + Emitted(flags, |includes| + j + 1)
  {
    FlagAt(flags, includes, excludes, |includes| + j);
    var count := j + 1;
    next := text + ExcludeFlag(excludes[j]);
    if count < |excludes| {
      next := next + Continuation;
    }
    EmitFlag(head, flags, |includes| + j, text, ExcludeFlag(excludes[j]), count < |excludes|, next);
  }

  /** The exclusion note closes the download text exactly when there are exclusions. */
  lemma DownloadNote(id: string, includes: seq<string>, excludes: seq<string>)
    ensures EndsWith(DownloadText(id, includes, excludes), ExcludeNote) <==> excludes != []
  {
    var t := DownloadText(id, includes, excludes);
    if excludes == [] {
      var body := DownloadHead(id) + Join(Continuation, Flags(includes, excludes));
      assert t == body + DownloadTail;
      assert t[|t| - 2] == '`' && ExcludeNote[|ExcludeNote| - 2] == '.';
    }
  }

  /** The config file of a dataset: `config_` and the dataset name with every `-` made `_`. */
  function ConfigStem(datasetName: string): (r: string)
    ensures StartsWith(r, "config_")
    ensures |r| == |"config_"| + |datasetName|
    ensures forall i :: 0 <= i < |datasetName| ==>
      r[|"config_"| + i] == (if datasetName[i] == '-' then '_' else datasetName[i])
  {
    "config_" + ReplaceChar(datasetName, '-', '_')
  }

  /** One page of the gallery, in the order its parts are written; the config parts are not modelled. */
  datatype Page = Page(
    name: string,
    features: FeatureDict,
    featureText: string,
    sourceText: string,
    downloadText: string,
    reportText: string)

  /** What the page `p` of dataset `p.name` holds, given its options and its gallery directory. */
  predicate PageOk(p: Page, key: string, o: DatasetOptions, dir: seq<string>,
                   configFor: string -> string -> DemoConfig) {
    && DatasetUrl(key, o).Ok?
    && p.sourceText == SourceStr(DatasetUrl(key, o).value)
    && (o.openneuro.None? ==> p.downloadText == "")
    && (o.openneuro.Some? ==> p.downloadText == DownloadText(o.openneuro.value,
          if o.includes.Some? then o.includes.value else [],
          if o.excludes.Some? then o.excludes.value else []))
    && Demonstrates(p.features, ConfigStem(p.name), configFor(ConfigStem(p.name)))
    && p.featureText == Join("\n", FeatureLines(p.features)) + "\n\n"
    && p.reportText == OutputHead + Render(OutputBlocks(p.name, dir))
  }

  /** The body of the page loop once a dataset is neither a duplicate nor without reports. */
  method BuildPage(name: string, key: string, o: DatasetOptions, dir: seq<string>,
                   configFor: string -> string -> DemoConfig) returns (r: Result<Page, GalleryError>)
    ensures r.Err? <==> SourceCount(o) != 1
    ensures r.Err? ==> r.error == NotOneSource(key)
    ensures r.Ok? ==> r.value.name == name
    ensures r.Ok? ==> PageOk(r.value, key, o, dir, configFor)
  {
    var reportStr := GeneratedOutputStr(name, dir);
    var url := DatasetUrl(key, o);
    if url.Err? {
      return Err(url.error);
    }
    var sourceStr := SourceStr(url.value);
    var downloadStr := DownloadStr(o);
    var stem := ConfigStem(name);
    var funcs := GenDemonstratedFuncs(stem, configFor(stem));
    var lines, funcsStr := DemonstratedFuncsStr(funcs);
    return Ok(Page(name, funcs, funcsStr, sourceStr, downloadStr, reportStr));
  }

  function PageNames(pages: seq<Page>): (r: seq<string>)
    ensures |r| == |pages|
    ensures forall k {:trigger r[k]} :: 0 <= k < |pages| ==> r[k] == pages[k].name
  {
    seq(|pages|, k requires 0 <= k < |pages| => pages[k].name)
  }

  /** `all_demonstrated`, the rows of the summary table: each page's name and features. */
  function Demonstrated(pages: seq<Page>): (r: seq<(string, FeatureDict)>)
    ensures |r| == |pages|
    ensures forall k {:trigger r[k]} :: 0 <= k < |pages| ==> r[k] == (pages[k].name, pages[k].features)
  {
    seq(|pages|, k requires 0 <= k < |pages| => (pages[k].name, pages[k].features))
  }

  /**
    What the page loop reads: the test suite in order, the datasets the copy loop
    found without reports, the dataset options by key, the gallery directory of
    each dataset and the config of each task of each config file.
  */
  datatype Gallery = Gallery(
    suite: seq<(string, TestOptions)>,
    withoutHtml: seq<string>,
    datasetOptions: map<string, DatasetOptions>,
    listingFor: string -> seq<string>,
    configFor: string -> string -> DemoConfig)

  /** Test `t` gave page `p`: its dataset has reports and known options, and `p` is that dataset's page. */
  predicate PageFrom(g: Gallery, t: (string, TestOptions), p: Page) {
    var key := DatasetOptionsKey(t.0, t.1);
    && DatasetNameOf(t.0, t.1) == Ok(p.name)
    && p.name !in g.withoutHtml
    && key in g.datasetOptions
    && PageOk(p, key, g.datasetOptions[key], g.listingFor(p.name), g.configFor)
  }

  /** The name of test `j`, which `Progress` guarantees to exist for every test already passed. */
  function NameAt(g: Gallery, j: nat): Result<string, GalleryError>
    requires j < |g.suite|
  {
    DatasetNameOf(g.suite[j].0, g.suite[j].1)
  }

  /** `kept` gives, in increasing order, one test before `i` for each page. */
  predicate Kept(g: Gallery, pages: seq<Page>, kept: seq<nat>, i: nat) {
    && i <= |g.suite|
    && |kept| == |pages|
    && (forall k, l :: 0 <= k < l < |kept| ==> kept[k] < kept[l])
    && (forall k :: 0 <= k < |kept| ==> kept[k] < i)
  }

  /** Test `kept[k]` gave page `k`. */
  predicate PagesFrom(g: Gallery, pages: seq<Page>, kept: seq<nat>, i: nat)
    requires Kept(g, pages, kept, i)
  {
    Pairwise(GivesPage(g), kept, pages)
  }

  /** Test `j` of the suite gives page `q`. */
  function GivesPage(g: Gallery): (nat, Page) -> bool {
    (j: nat, q: Page) => j < |g.suite| && PageFrom(g, g.suite[j], q)
  }

  /** `rel` holds between the elements at each position of two sequences of one length. */
  predicate Pairwise<A, B>(rel: (A, B) -> bool, xs: seq<A>, ys: seq<B>)
    requires |xs| == |ys|
  {
    forall k :: 0 <= k < |xs| ==> rel(xs[k], ys[k])
  }

  /** The page at position `k` comes from test `kept[k]`. */
  lemma PageAt(g: Gallery, pages: seq<Page>, kept: seq<nat>, i: nat, k: nat)
    requires Kept(g, pages, kept, i) && PagesFrom(g, pages, kept, i) && k < |pages|
    ensures kept[k] < |g.suite| && PageFrom(g, g.suite[kept[k]], pages[k])
  {
    assert GivesPage(g)(kept[k], pages[k]);
  }

  /** No test before `kept[k]` names the dataset of page `k`. */
  predicate FirstSeen(g: Gallery, pages: seq<Page>, kept: seq<nat>, i: nat)
    requires Kept(g, pages, kept, i)
  {
    forall k, j :: 0 <= k < |pages| && 0 <= j < kept[k] ==> NameAt(g, j) != Ok(pages[k].name)
  }

  /** Every test before `i` has a dataset name. */
  predicate Named(g: Gallery, i: nat)
    requires i <= |g.suite|
  {
    forall j :: 0 <= j < i ==> NameAt(g, j).Ok?
  }

  /** Every dataset with reports named by a test before `i` has a page. */
  predicate Covered(g: Gallery, pages: seq<Page>, i: nat)
    requires i <= |g.suite| && Named(g, i)
  {
    forall j :: 0 <= j < i && NameAt(g, j).value !in g.withoutHtml ==> NameAt(g, j).value in PageNames(pages)
  }

  /** The page loop after the first `i` tests. */
  predicate Progress(g: Gallery, pages: seq<Page>, kept: seq<nat>, i: nat) {
    && Kept(g, pages, kept, i)
    && PagesFrom(g, pages, kept, i)
    && FirstSeen(g, pages, kept, i)
    && Named(g, i)
    && Covered(g, pages, i)
  }

  /** A duplicate dataset or one without reports is skipped and changes nothing. */
  lemma ProgressSkip(g: Gallery, pages: seq<Page>, kept: seq<nat>, i: nat)
    requires Progress(g, pages, kept, i) && i < |g.suite|
    requires NameAt(g, i).Ok?
    requires NameAt(g, i).value in PageNames(pages) || NameAt(g, i).value in g.withoutHtml
    ensures Progress(g, pages, kept, i + 1)
  {
  }

  /** A dataset seen for the first time, with reports, gets the next page. */
  lemma ProgressKeep(g: Gallery, pages: seq<Page>, kept: seq<nat>, i: nat, p: Page)
    requires Progress(g, pages, kept, i) && i < |g.suite|
    requires PageFrom(g, g.suite[i], p)
    requires p.name !in PageNames(pages)
    ensures Progress(g, pages + [p], kept + [i], i + 1)
  {
    FirstSeenAppend(g, pages, kept, i, p);
    PagesFromAppend(g, pages, kept, i, p);
    CoveredAppend(g, pages, i, p);
  }

  lemma PagesFromAppend(g: Gallery, pages: seq<Page>, kept: seq<nat>, i: nat, p: Page)
    requires Kept(g, pages, kept, i) && PagesFrom(g, pages, kept, i)
    requires Kept(g, pages + [p], kept + [i], i + 1)
    requires i < |g.suite| && PageFrom(g, g.suite[i], p)
    ensures PagesFrom(g, pages + [p], kept + [i], i + 1)
  {
    assert GivesPage(g)(i, p);
    PairwiseAppend(GivesPage(g), kept, pages, i, p);
  }

  /** A relation that holds position by position keeps holding when both sequences grow by a related pair. */
  lemma PairwiseAppend<A, B>(rel: (A, B) -> bool, xs: seq<A>, ys: seq<B>, x: A, y: B)
    requires |xs| == |ys| && Pairwise(rel, xs, ys)
    requires rel(x, y)
    ensures Pairwise(rel, xs + [x], ys + [y])
  {
    forall k | 0 <= k < |xs| + 1
      ensures rel((xs + [x])[k], (ys + [y])[k])
    {
      if k < |xs| {
        assert (xs + [x])[k] == xs[k] && (ys + [y])[k] == ys[k];
      }
    }
  }

  lemma FirstSeenAppend(g: Gallery, pages: seq<Page>, kept: seq<nat>, i: nat, p: Page)
    requires Kept(g, pages, kept, i) && FirstSeen(g, pages, kept, i) && i < |g.suite|
    requires Named(g, i) && Covered(g, pages, i)
    requires NameAt(g, i) == Ok(p.name) && p.name !in g.withoutHtml && p.name !in PageNames(pages)
    ensures Kept(g, pages + [p], kept + [i], i + 1) && FirstSeen(g, pages + [p], kept + [i], i + 1)
  {
    var pages', kept' := pages + [p], kept + [i];
    forall k, j | 0 <= k < |pages'| && 0 <= j < kept'[k]
      ensures NameAt(g, j) != Ok(pages'[k].name)
    {
      if k < |pages| {
        assert pages'[k] == pages[k] && kept'[k] == kept[k];
      }
    }
  }

  lemma CoveredAppend(g: Gallery, pages: seq<Page>, i: nat, p: Page)
    requires i < |g.suite| && Named(g, i) && Covered(g, pages, i)
    requires NameAt(g, i) == Ok(p.name)
    ensures Named(g, i + 1) && Covered(g, pages + [p], i + 1)
  {
    PageNamesAppend(pages, p);
  }

  lemma PageNamesAppend(pages: seq<Page>, p: Page)
    ensures PageNames(pages + [p]) == PageNames(pages) + [p.name]
  {
  }

  /** The pages have distinct dataset names: a page's dataset is not named by any earlier test. */
  lemma ProgressDistinct(g: Gallery, pages: seq<Page>, kept: seq<nat>, i: nat)
    requires Progress(g, pages, kept, i)
    ensures forall k, l :: 0 <= k < l < |pages| ==> pages[k].name != pages[l].name
  {
    forall k, l | 0 <= k < l < |pages|
      ensures pages[k].name != pages[l].name
    {
      PageAt(g, pages, kept, i, k);
      assert NameAt(g, kept[k]) == Ok(pages[k].name);
    }
  }

  /**
    The rows of the summary table, one per page, all have the feature keys in the
    same order, so every row has as many cells as the header.
  */
  lemma SummaryRowsAligned(g: Gallery, pages: seq<Page>, kept: seq<nat>, i: nat)
    requires Progress(g, pages, kept, i)
    ensures forall k :: 0 <= k < |pages| ==> Keys(Demonstrated(pages)[k].1) == FeatureOrder
    ensures |pages| > 0 && (forall k :: 0 <= k < |pages| ==> '|' !in pages[k].name) ==>
      CountChar(HeaderLine(pages[0].features), '|') == |FeatureOrder| &&
      CountChar(SeparatorLine(pages[0].features), '|') == |FeatureOrder| &&
      forall k :: 0 <= k < |pages| ==> CountChar(RowLine(pages[k].name, pages[k].features), '|') == |FeatureOrder|
  {
    var all := Demonstrated(pages);
    forall k | 0 <= k < |pages|
      ensures Keys(all[k].1) == FeatureOrder
    {
      PageAt(g, pages, kept, i, k);
    }
    if |pages| > 0 && (forall k :: 0 <= k < |pages| ==> '|' !in pages[k].name) {
      forall k | 0 <= k < |all| ensures '|' !in all[k].0 {
        assert all[k].0 == pages[k].name;
      }
      TableCellsAligned(all);
      forall k | 0 <= k < |pages|
        ensures CountChar(RowLine(pages[k].name, pages[k].features), '|') == |FeatureOrder|
      {
        assert all[k] == (pages[k].name, pages[k].features);
      }
    }
  }

  /**
    The page loop over the test suite. The first test of each dataset that has
    reports gives that dataset's page; later tests of the same dataset and datasets
    without reports are skipped. `kept` gives the test each page comes from. The
    loop stops at the first test whose dataset name is missing, whose dataset options
    are unknown or name no single source; `stop` is that test.
  */
  method GeneratePages(g: Gallery)
    returns (pages: seq<Page>, err: Option<GalleryError>, kept: seq<nat>, stop: nat)
    ensures Progress(g, pages, kept, stop)
    ensures err.None? <==> stop == |g.suite|
    ensures err.Some? ==> stop < |g.suite| && StopsAt(g, pages, stop, err.value)
  {
    pages := [];
    err := None;
    kept := [];
    var i := 0;
    while i < |g.suite|
      invariant Progress(g, pages, kept, i)
    {
      var e;
      pages, kept, e := PageStep(g, pages, kept, i);
      if e.Some? {
        return pages, e, kept, i;
      }
      i := i + 1;
    }
    stop := |g.suite|;
  }

  /** One pass of the page loop, on test `i`: skip it, give it a page, or stop there. */
  method PageStep(g: Gallery, pages: seq<Page>, kept: seq<nat>, i: nat)
    returns (next: seq<Page>, nextKept: seq<nat>, err: Option<GalleryError>)
    requires Progress(g, pages, kept, i) && i < |g.suite|
    ensures err.None? ==> Progress(g, next, nextKept, i + 1)
    ensures err.Some? ==> next == pages && nextKept == kept && StopsAt(g, pages, i, err.value)
  {
    next, nextKept, err := pages, kept, None;
    var testName := g.suite[i].0;
    var opts := g.suite[i].1;
    var nameOf := DatasetNameOf(testName, opts);
    if nameOf.Err? {
      return pages, kept, Some(nameOf.error);
    }
    var name := nameOf.value;
    var key := DatasetOptionsKey(testName, opts);
    if name in PageNames(pages) || name in g.withoutHtml {
      ProgressSkip(g, pages, kept, i);
      return;
    }
    if key !in g.datasetOptions {
      return pages, kept, Some(UnknownDatasetOptions(key));
    }
    var page := BuildPage(name, key, g.datasetOptions[key], g.listingFor(name), g.configFor);
    if page.Err? {
      return pages, kept, Some(page.error);
    }
    ProgressKeep(g, pages, kept, i, page.value);
    next, nextKept := pages + [page.value], kept + [i];
  }

  /**
    Why the loop stopped at test `stop`: its dataset name is missing, or it names a
    new dataset with reports whose options are unknown or name no single source.
  */
  predicate StopsAt(g: Gallery, pages: seq<Page>, stop: nat, e: GalleryError)
    requires stop < |g.suite|
  {
    var t := g.suite[stop];
    var key := DatasetOptionsKey(t.0, t.1);
    || (DatasetNameOf(t.0, t.1).Err? && e == DatasetNameOf(t.0, t.1).error)
    || (&& DatasetNameOf(t.0, t.1).Ok?
        && DatasetNameOf(t.0, t.1).value !in PageNames(pages)
        && DatasetNameOf(t.0, t.1).value !in g.withoutHtml
        && (if key !in g.datasetOptions then e == UnknownDatasetOptions(key)
            else e == NotOneSource(key) && SourceCount(g.datasetOptions[key]) != 1))
  }
}
