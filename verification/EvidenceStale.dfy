/**
  Exactly when a receipt can be saved as succeeded that cites the record of a stage which has not succeeded:
  `verify_stages` reads a record twice, once to check it and once for its digest (scripts/validation_plan.py).
  */
module EvidenceStale {
  import opened Options
  import opened EvidenceModel
  import opened EvidenceFinish
  import opened EvidenceRuns
  import opened EvidenceSafety
  import opened EvidenceExclusion
  import opened EvidenceRace

  /** The digest cited for stage `k` is of a record that says: this run, this stage, as planned, succeeded, exit 0. */
  predicate CitesSuccess(receipt: Receipt, k: nat) {
    && receipt.outcome.Some?
    && k < |receipt.plan.stages| == |receipt.outcome.value.stageEvidence|
    && var cited := receipt.outcome.value.stageEvidence[k].sha256.of;
       cited.RecordFile? && GoodRecord(receipt.run, receipt.plan.stages[k], cited.record)
  }

  /** The receipt on disk is succeeded, and cites for some stage what is no record of its success. */
  predicate SavedUnfounded(w: World) {
    var saved := ReceiptAt(w.files, ReceiptPath);
    && saved.Some? && saved.value.status == Succeeded
    && exists k :: 0 <= k < |saved.value.plan.stages| && !CitesSuccess(saved.value, k)
  }

  // ----- A scene with two contenders, in which the second waits before its first record -----

  /** Everything a stage needs is granted: a clean tree as begun with. */
  function Calm(receipt: Receipt): Tree {
    Tree(true, receipt.inputs, map[receipt.plan.mcpApp := receipt.plan])
  }

  const PASSED: Content := JunitFile(1, 0, 0)

  const WHEEL: Content := Bytes("")

  function Built(receipt: Receipt): Content {
    ManifestFile("", receipt.inputs.commit, "", Sha256(WHEEL))
  }

  function GoodReport(receipt: Receipt, stage: Stage): Content {
    if stage.junit then PASSED else Built(receipt)
  }

  function GoodSummary(stage: Stage): Summary {
    if stage.junit then Cases(1, 0, 0) else Schema("")
  }

  function GoodEvidence(receipt: Receipt, stage: Stage): Option<ReportEvidence> {
    if stage.report.None? then None
    else
      Some(ReportEvidence(
        Resolve(stage.report.value, receipt.run), Sha256(GoodReport(receipt, stage)), GoodSummary(stage)))
  }

  function FinalRecord(receipt: Receipt, stage: Stage): Record {
    Record(receipt.run, stage, PlannedCommand(stage, receipt.run), Succeeded, Some(0), GoodEvidence(receipt, stage), 0)
  }

  function RunningRecord(receipt: Receipt, stage: Stage): Record {
    Record(receipt.run, stage, PlannedCommand(stage, receipt.run), Running, None, None, 0)
  }

  predicate Holds(x: Runner, receipt: Receipt, phase: Phase) {
    x.mine.Some? && x.mine.value.run == receipt.run && x.mine.value.plan == receipt.plan && x.phase == phase
  }

  predicate Scene(w: World, i: nat, j: nat, receipt: Receipt, phase: Phase, other: Phase) {
    && i != j && i < |w.runners| && j < |w.runners|
    && Holds(w.runners[i], receipt, phase) && Holds(w.runners[j], receipt, other)
    && ReceiptAt(w.files, ReceiptPath) == Some(receipt)
    && receipt.status == Running && receipt.version == EVIDENCE_VERSION && receipt.run != ""
    && w.tree == Calm(receipt)
  }

  /** One act; a process that exits does so with 0. */
  function Go(i: nat): Move {
    Act(i, Oracle("", Some(0), 0))
  }

  function EffectOf(w: World, i: nat): Effect
    requires i < |w.runners|
  {
    RunnerStep(w, w.runners[i], Oracle("", Some(0), 0))
  }

  lemma SceneMoves(w: World, i: nat, j: nat, receipt: Receipt, phase: Phase, other: Phase)
    requires Scene(w, i, j, receipt, phase, other)
    requires EffectOf(w, i).runner.mine == w.runners[i].mine && !EffectOf(w, i).write.Publish?
    requires EffectOf(w, i).write.Put? ==> EffectOf(w, i).write.path != ReceiptPath
    requires EffectOf(w, i).write.Drop? ==> EffectOf(w, i).write.path != ReceiptPath
    ensures Scene(Next(w, Go(i)), i, j, receipt, EffectOf(w, i).runner.phase, other)
    ensures Next(w, Go(i)).files == FilesAfter(w.files, EffectOf(w, i).write)
  {
  }

  lemma SceneProduces(
      w: World, i: nat, j: nat, receipt: Receipt, phase: Phase, other: Phase, path: Path, content: Content)
    requires Scene(w, i, j, receipt, phase, other) && (path.ReportPath? || path.WheelPath?)
    ensures Scene(Next(w, Produce(path, Some(content))), i, j, receipt, phase, other)
    ensures Next(w, Produce(path, Some(content))).files == w.files[path := content]
  {
  }

  // ----- The first contender executes one stage -----

  function PathOf(receipt: Receipt, m: nat): Path
    requires m < |receipt.plan.stages|
  {
    RecordPath(receipt.run, receipt.plan.stages[m].id)
  }

  /** Stage `m` has succeeded. */
  predicate GoodAt(files: Files, receipt: Receipt, m: nat) {
    && m < |receipt.plan.stages|
    && PathOf(receipt, m) in files
    && files[PathOf(receipt, m)] == RecordFile(FinalRecord(receipt, receipt.plan.stages[m]))
  }

  /** Stage `m` has no record. */
  predicate BlankAt(files: Files, receipt: Receipt, m: nat) {
    m < |receipt.plan.stages| && PathOf(receipt, m) !in files
  }

  predicate GoodBelow(files: Files, receipt: Receipt, k: nat) {
    forall m {:trigger GoodAt(files, receipt, m)} :: 0 <= m < k ==> GoodAt(files, receipt, m)
  }

  predicate BlankFrom(files: Files, receipt: Receipt, k: nat) {
    forall m {:trigger BlankAt(files, receipt, m)} :: k <= m < |receipt.plan.stages| ==> BlankAt(files, receipt, m)
  }

  /** The stages below `k` have succeeded; no later one has a record. */
  predicate Progress(files: Files, receipt: Receipt, k: nat) {
    k <= |receipt.plan.stages| && GoodBelow(files, receipt, k) && BlankFrom(files, receipt, k)
  }

  lemma StagesStay(files: Files, files1: Files, receipt: Receipt, low: nat, high: nat)
    requires GoodBelow(files, receipt, low) && BlankFrom(files, receipt, high)
    requires SameRecords(files, files1, receipt.run)
    ensures GoodBelow(files1, receipt, low) && BlankFrom(files1, receipt, high)
  {
    forall m | 0 <= m < low ensures GoodAt(files1, receipt, m) {
      assert GoodAt(files, receipt, m);
    }
    forall m | high <= m < |receipt.plan.stages| ensures BlankAt(files1, receipt, m) {
      assert BlankAt(files, receipt, m);
    }
  }

  lemma BlanksLater(files: Files, receipt: Receipt, k: nat)
    requires BlankFrom(files, receipt, k)
    ensures BlankFrom(files, receipt, k + 1)
  {
  }

  /** Writing the record of one stage leaves those of all others. */
  lemma OthersStay(files: Files, receipt: Receipt, k: nat, content: Content)
    requires WellPlanned(receipt.plan) && k < |receipt.plan.stages|
    requires GoodBelow(files, receipt, k) && BlankFrom(files, receipt, k + 1)
    ensures var files1 := files[PathOf(receipt, k) := content];
            && GoodBelow(files1, receipt, k) && BlankFrom(files1, receipt, k + 1)
            && (content == RecordFile(FinalRecord(receipt, receipt.plan.stages[k])) ==>
                  GoodBelow(files1, receipt, k + 1))
  {
    var files1 := files[PathOf(receipt, k) := content];
    forall m | 0 <= m < k ensures GoodAt(files1, receipt, m) {
      assert GoodAt(files, receipt, m);
    }
    forall m | k < m < |receipt.plan.stages| ensures BlankAt(files1, receipt, m) {
      assert BlankAt(files, receipt, m);
    }
  }

  lemma StagePrepares(w: World, i: nat, j: nat, receipt: Receipt, k: nat, point: Point, other: Phase)
    requires k < |receipt.plan.stages| && Scene(w, i, j, receipt, Stages(k, point), other)
    requires point.Ready? || point.Admitted? || point.Unrecorded?
    requires Progress(w.files, receipt, k)
    ensures Scene(Next(w, Go(i)), i, j, receipt, Stages(k, After(point)), other)
    ensures Progress(Next(w, Go(i)).files, receipt, k)
    ensures point.Ready? ==> Next(w, Go(i)).runners[i].engaged
  {
    var stage, o := receipt.plan.stages[k], Oracle("", Some(0), 0);
    assert stage in receipt.plan.stages && BlankAt(w.files, receipt, k);
    assert EffectOf(w, i) == PrepareStep(w.files, w.runners[i], w.runners[i].mine.value, k, stage, o);
    SceneMoves(w, i, j, receipt, Stages(k, point), other);
    StagesStay(w.files, Next(w, Go(i)).files, receipt, k, k);
  }

  /** The stage's own record is there, of whatever status; earlier stages have succeeded, later ones have none. */
  predicate Within(files: Files, receipt: Receipt, k: nat) {
    k < |receipt.plan.stages| && GoodBelow(files, receipt, k) && BlankFrom(files, receipt, k + 1)
  }

  lemma StageRecords(w: World, i: nat, j: nat, receipt: Receipt, k: nat, other: Phase)
    requires k < |receipt.plan.stages| && WellPlanned(receipt.plan)
    requires Scene(w, i, j, receipt, Stages(k, Cleared), other) && Progress(w.files, receipt, k)
    ensures Scene(Next(w, Go(i)), i, j, receipt, Stages(k, Recorded), other)
    ensures Within(Next(w, Go(i)).files, receipt, k)
  {
    var stage, o := receipt.plan.stages[k], Oracle("", Some(0), 0);
    assert EffectOf(w, i) == PrepareStep(w.files, w.runners[i], w.runners[i].mine.value, k, stage, o);
    SceneMoves(w, i, j, receipt, Stages(k, Cleared), other);
    BlanksLater(w.files, receipt, k);
    OthersStay(w.files, receipt, k, RecordFile(RunningRecord(receipt, stage)));
  }

  /** The command starts and, its report in place, exits with 0 and is found good. */
  lemma StageRuns(w: World, i: nat, j: nat, receipt: Receipt, k: nat, point: Point, other: Phase)
    requires k < |receipt.plan.stages| && Scene(w, i, j, receipt, Stages(k, point), other)
    requires Within(w.files, receipt, k)
    requires point.Recorded? || point.Launched? || point == Exited(Some(0))
             || point == Summarized(0, if receipt.plan.stages[k].report.Some?
                                       then Some(GoodSummary(receipt.plan.stages[k])) else None)
    requires point.Exited? || point.Summarized? ==>
               ReportFile(w.files, receipt, receipt.plan.stages[k])
               == (if receipt.plan.stages[k].report.Some?
                   then Some(GoodReport(receipt, receipt.plan.stages[k])) else None)
    ensures var stage := receipt.plan.stages[k];
            var next := match point
                        case Recorded => Launched
                        case Launched => Exited(Some(0))
                        case Exited(_) => Summarized(0, if stage.report.Some? then Some(GoodSummary(stage)) else None)
                        case _ => Judged(FinalRecord(receipt, stage));
            && Scene(Next(w, Go(i)), i, j, receipt, Stages(k, next), other)
            && Next(w, Go(i)).files == w.files
  {
    var stage, o, x := receipt.plan.stages[k], Oracle("", Some(0), 0), w.runners[i];
    if point.Recorded? {
      assert EffectOf(w, i) == PrepareStep(w.files, x, x.mine.value, k, stage, o);
    } else {
      assert EffectOf(w, i) == RecordStep(w.files, x, x.mine.value, k, stage, o);
      assert ReportFile(w.files, x.mine.value, stage) == ReportFile(w.files, receipt, stage);
    }
    SceneMoves(w, i, j, receipt, Stages(k, point), other);
  }

  lemma StageSucceeds(w: World, i: nat, j: nat, receipt: Receipt, k: nat, other: Phase)
    requires k < |receipt.plan.stages| && WellPlanned(receipt.plan)
    requires Scene(w, i, j, receipt, Stages(k, Judged(FinalRecord(receipt, receipt.plan.stages[k]))), other)
    requires Within(w.files, receipt, k)
    ensures Scene(Next(w, Go(i)), i, j, receipt, Stages(k + 1, Ready), other)
    ensures Progress(Next(w, Go(i)).files, receipt, k + 1)
  {
    var stage, o, x := receipt.plan.stages[k], Oracle("", Some(0), 0), w.runners[i];
    assert EffectOf(w, i) == RecordStep(w.files, x, x.mine.value, k, stage, o);
    SceneMoves(w, i, j, receipt, Stages(k, Judged(FinalRecord(receipt, stage))), other);
    OthersStay(w.files, receipt, k, RecordFile(FinalRecord(receipt, stage)));
  }

  lemma StageIsPrepared(start: World, w: World, i: nat, j: nat, receipt: Receipt, k: nat, other: Phase)
    returns (v: World)
    requires Reaches(start, w)
    requires k < |receipt.plan.stages| && Scene(w, i, j, receipt, Stages(k, Ready), other)
    requires Progress(w.files, receipt, k)
    ensures Reaches(start, v)
    ensures Scene(v, i, j, receipt, Stages(k, Cleared), other)
    ensures Progress(v.files, receipt, k)
  {
    StagePrepares(w, i, j, receipt, k, Ready, other);
    v := More(start, w, Go(i));
    StagePrepares(v, i, j, receipt, k, Admitted, other);
    v := More(start, v, Go(i));
    StagePrepares(v, i, j, receipt, k, Unrecorded, other);
    v := More(start, v, Go(i));
  }

  /** Whatever writes reports puts the good one of this stage in place. */
  lemma ReportAppears(start: World, w: World, i: nat, j: nat, receipt: Receipt, stage: Stage,
                      phase: Phase, other: Phase)
    returns (v: World)
    requires Reaches(start, w) && Scene(w, i, j, receipt, phase, other)
    ensures Reaches(start, v)
    ensures Scene(v, i, j, receipt, phase, other)
    ensures SameRecords(w.files, v.files, receipt.run)
    ensures ReportFile(v.files, receipt, stage)
            == if stage.report.Some? then Some(GoodReport(receipt, stage)) else None
  {
    v := w;
    if stage.report.Some? {
      var path := ReportPath(Resolve(stage.report.value, receipt.run));
      SceneProduces(w, i, j, receipt, phase, other, path, GoodReport(receipt, stage));
      v := More(start, w, Produce(path, Some(GoodReport(receipt, stage))));
    }
  }

  lemma StageIsRecorded(start: World, w: World, i: nat, j: nat, receipt: Receipt, k: nat, other: Phase)
    returns (v: World)
    requires Reaches(start, w) && k < |receipt.plan.stages| && WellPlanned(receipt.plan)
    requires Scene(w, i, j, receipt, Stages(k, Cleared), other) && Progress(w.files, receipt, k)
    ensures Reaches(start, v)
    ensures Scene(v, i, j, receipt, Stages(k, Recorded), other) && Within(v.files, receipt, k)
  {
    StageRecords(w, i, j, receipt, k, other);
    v := More(start, w, Go(i));
  }

  lemma StageIsRun(start: World, w: World, i: nat, j: nat, receipt: Receipt, k: nat, other: Phase)
    returns (v: World)
    requires Reaches(start, w)
    requires k < |receipt.plan.stages| && WellPlanned(receipt.plan)
    requires Scene(w, i, j, receipt, Stages(k, Recorded), other)
    requires Within(w.files, receipt, k)
    ensures Reaches(start, v)
    ensures Scene(v, i, j, receipt, Stages(k + 1, Ready), other)
    ensures Progress(v.files, receipt, k + 1)
  {
    var stage := receipt.plan.stages[k];
    StageRuns(w, i, j, receipt, k, Recorded, other);
    v := More(start, w, Go(i));
    StageRuns(v, i, j, receipt, k, Launched, other);
    v := More(start, v, Go(i));
    var files := v.files;
    v := ReportAppears(start, v, i, j, receipt, stage, Stages(k, Exited(Some(0))), other);
    StagesStay(files, v.files, receipt, k, k + 1);
    StageRuns(v, i, j, receipt, k, Exited(Some(0)), other);
    v := More(start, v, Go(i));
    var summary := if stage.report.Some? then Some(GoodSummary(stage)) else None;
    StageRuns(v, i, j, receipt, k, Summarized(0, summary), other);
    v := More(start, v, Go(i));
    StageSucceeds(v, i, j, receipt, k, other);
    v := More(start, v, Go(i));
  }

  lemma StageIsDone(start: World, w: World, i: nat, j: nat, receipt: Receipt, k: nat, other: Phase)
    returns (v: World)
    requires Reaches(start, w) && k < |receipt.plan.stages| && WellPlanned(receipt.plan)
    requires Scene(w, i, j, receipt, Stages(k, Ready), other) && Progress(w.files, receipt, k)
    ensures Reaches(start, v)
    ensures Scene(v, i, j, receipt, Stages(k + 1, Ready), other) && Progress(v.files, receipt, k + 1)
  {
    v := StageIsPrepared(start, w, i, j, receipt, k, other);
    v := StageIsRecorded(start, v, i, j, receipt, k, other);
    v := StageIsRun(start, v, i, j, receipt, k, other);
  }

  /** All stages from the `k`-th succeed, while the other run waits. */
  lemma {:induction false} StagesAreRun(start: World, w: World, i: nat, j: nat, receipt: Receipt, k: nat,
                                        other: Phase)
    returns (v: World)
    requires Reaches(start, w)
    requires k <= |receipt.plan.stages| && WellPlanned(receipt.plan)
    requires Scene(w, i, j, receipt, Stages(k, Ready), other)
    requires Progress(w.files, receipt, k)
    ensures Reaches(start, v)
    ensures Scene(v, i, j, receipt, Stages(|receipt.plan.stages|, Ready), other)
    ensures Progress(v.files, receipt, |receipt.plan.stages|)
    decreases |receipt.plan.stages| - k
  {
    v := w;
    if k < |receipt.plan.stages| {
      v := StageIsDone(start, w, i, j, receipt, k, other);
      v := StagesAreRun(start, v, i, j, receipt, k + 1, other);
    }
  }

  // ----- It verifies its stages -----

  predicate GoodFrom(files: Files, receipt: Receipt, n: nat) {
    forall m {:trigger GoodAt(files, receipt, m)} :: n <= m < |receipt.plan.stages| ==> GoodAt(files, receipt, m)
  }

  lemma GoodStays(files: Files, files1: Files, receipt: Receipt, n: nat)
    requires GoodFrom(files, receipt, n) && SameRecords(files, files1, receipt.run)
    ensures GoodFrom(files1, receipt, n) && GoodFrom(files1, receipt, n + 1)
  {
    forall m | n <= m < |receipt.plan.stages| ensures GoodAt(files1, receipt, m) {
      assert GoodAt(files, receipt, m);
    }
  }

  /** Writing over the first stage's record leaves the others. */
  lemma OthersStayGood(files: Files, receipt: Receipt, content: Content)
    requires WellPlanned(receipt.plan) && receipt.plan.stages != [] && GoodFrom(files, receipt, 0)
    ensures GoodFrom(files[PathOf(receipt, 0) := content], receipt, 1)
  {
    var files1 := files[PathOf(receipt, 0) := content];
    forall m | 1 <= m < |receipt.plan.stages| ensures GoodAt(files1, receipt, m) {
      assert GoodAt(files, receipt, m);
    }
  }

  lemma FinishOpens(w: World, i: nat, j: nat, receipt: Receipt, phase: Phase, other: Phase)
    requires Scene(w, i, j, receipt, phase, other)
    requires phase == Stages(|receipt.plan.stages|, Ready) || phase.Finishing? || phase == Reread(receipt)
             || phase == Compared(receipt)
    ensures Scene(Next(w, Go(i)), i, j, receipt,
                  match phase
                  case Stages(_, _) => Finishing
                  case Finishing => Reread(receipt)
                  case Reread(_) => Compared(receipt)
                  case _ => Checking(receipt, [], Unread),
                  other)
    ensures Next(w, Go(i)).files == w.files
  {
    SceneMoves(w, i, j, receipt, phase, other);
  }

  lemma StageIsRead(w: World, i: nat, j: nat, receipt: Receipt, cited: seq<Citation>, other: Phase)
    requires Scene(w, i, j, receipt, Checking(receipt, cited, Unread), other)
    requires |cited| < |receipt.plan.stages| && GoodAt(w.files, receipt, |cited|)
    ensures Scene(Next(w, Go(i)), i, j, receipt,
                  Checking(receipt, cited, Read(FinalRecord(receipt, receipt.plan.stages[|cited|]))), other)
    ensures Next(w, Go(i)).files == w.files
  {
    assert EffectOf(w, i) == CheckStep(w.files, w.runners[i]);
    SceneMoves(w, i, j, receipt, Checking(receipt, cited, Unread), other);
  }

  lemma StageMatches(w: World, i: nat, j: nat, receipt: Receipt, cited: seq<Citation>, check: Check, other: Phase)
    requires |cited| < |receipt.plan.stages| && Scene(w, i, j, receipt, Checking(receipt, cited, check), other)
    requires var record := FinalRecord(receipt, receipt.plan.stages[|cited|]);
             check == Read(record) || check == Hashed(record)
    requires ReportFile(w.files, receipt, receipt.plan.stages[|cited|])
             == if receipt.plan.stages[|cited|].report.Some?
                then Some(GoodReport(receipt, receipt.plan.stages[|cited|])) else None
    ensures Scene(Next(w, Go(i)), i, j, receipt,
                  Checking(receipt, cited, if check.Read? then Hashed(check.record) else Matched), other)
    ensures Next(w, Go(i)).files == w.files
  {
    assert EffectOf(w, i) == CheckStep(w.files, w.runners[i]);
    SceneMoves(w, i, j, receipt, Checking(receipt, cited, check), other);
  }

  lemma StageIsCited(w: World, i: nat, j: nat, receipt: Receipt, cited: seq<Citation>, other: Phase)
    requires |cited| < |receipt.plan.stages| && Scene(w, i, j, receipt, Checking(receipt, cited, Matched), other)
    requires PathOf(receipt, |cited|) in w.files
    ensures Scene(Next(w, Go(i)), i, j, receipt,
                  Checking(receipt, cited + [CitationOf(w.files, receipt.run, receipt.plan.stages[|cited|])], Unread),
                  other)
    ensures Next(w, Go(i)).files == w.files
  {
    assert EffectOf(w, i) == CheckStep(w.files, w.runners[i]);
    SceneMoves(w, i, j, receipt, Checking(receipt, cited, Matched), other);
  }

  /** A good record is read, and its report is found to match; the citation is still to come. */
  lemma StageIsMatched(start: World, w: World, i: nat, j: nat, receipt: Receipt, cited: seq<Citation>,
                       other: Phase)
    returns (v: World)
    requires Reaches(start, w)
    requires |cited| < |receipt.plan.stages| && GoodAt(w.files, receipt, |cited|)
    requires Scene(w, i, j, receipt, Checking(receipt, cited, Unread), other)
    ensures Reaches(start, v)
    ensures Scene(v, i, j, receipt, Checking(receipt, cited, Matched), other)
    ensures SameRecords(w.files, v.files, receipt.run)
  {
    var stage := receipt.plan.stages[|cited|];
    var record := FinalRecord(receipt, stage);
    StageIsRead(w, i, j, receipt, cited, other);
    v := More(start, w, Go(i));
    v := ReportAppears(start, v, i, j, receipt, stage, Checking(receipt, cited, Read(record)), other);
    StageMatches(v, i, j, receipt, cited, Read(record), other);
    v := More(start, v, Go(i));
    StageMatches(v, i, j, receipt, cited, Hashed(record), other);
    v := More(start, v, Go(i));
  }

  lemma StageIsAdded(start: World, w: World, i: nat, j: nat, receipt: Receipt, cited: seq<Citation>, other: Phase)
    returns (v: World)
    requires Reaches(start, w) && |cited| < |receipt.plan.stages| && PathOf(receipt, |cited|) in w.files
    requires Scene(w, i, j, receipt, Checking(receipt, cited, Matched), other)
    ensures Reaches(start, v) && v.files == w.files
    ensures var citation := CitationOf(w.files, receipt.run, receipt.plan.stages[|cited|]);
            Scene(v, i, j, receipt, Checking(receipt, cited + [citation], Unread), other)
  {
    StageIsCited(w, i, j, receipt, cited, other);
    v := More(start, w, Go(i));
  }

  lemma NextIsCited(start: World, w: World, i: nat, j: nat, receipt: Receipt, cited: seq<Citation>, other: Phase)
    returns (v: World, citation: Citation)
    requires Reaches(start, w) && |cited| < |receipt.plan.stages| && GoodFrom(w.files, receipt, |cited|)
    requires Scene(w, i, j, receipt, Checking(receipt, cited, Unread), other)
    ensures Reaches(start, v) && GoodFrom(v.files, receipt, |cited| + 1)
    ensures Scene(v, i, j, receipt, Checking(receipt, cited + [citation], Unread), other)
  {
    assert GoodAt(w.files, receipt, |cited|);
    v := StageIsMatched(start, w, i, j, receipt, cited, other);
    GoodStays(w.files, v.files, receipt, |cited|);
    citation := CitationOf(v.files, receipt.run, receipt.plan.stages[|cited|]);
    v := StageIsAdded(start, v, i, j, receipt, cited, other);
  }

  lemma {:induction false} StagesAreCited(start: World, w: World, i: nat, j: nat, receipt: Receipt,
                                          cited: seq<Citation>, other: Phase)
    returns (v: World, all: seq<Citation>)
    requires Reaches(start, w)
    requires |cited| <= |receipt.plan.stages|
    requires Scene(w, i, j, receipt, Checking(receipt, cited, Unread), other)
    requires GoodFrom(w.files, receipt, |cited|)
    ensures Reaches(start, v)
    ensures Scene(v, i, j, receipt, Checking(receipt, all, Unread), other)
    ensures cited <= all && |all| == |receipt.plan.stages|
    decreases |receipt.plan.stages| - |cited|
  {
    v, all := w, cited;
    if |cited| < |receipt.plan.stages| {
      var citation;
      v, citation := NextIsCited(start, w, i, j, receipt, cited, other);
      v, all := StagesAreCited(start, v, i, j, receipt, cited + [citation], other);
    }
  }

  // ----- It saves its receipt -----

  lemma {:induction false} ManifestIsNamed(stages: seq<Stage>, run: string, i: nat)
    requires i < |stages| && stages[i].id == "installed-wheel" && stages[i].report.Some?
    requires forall j, k :: 0 <= j < k < |stages| ==> stages[j].id != stages[k].id
    ensures ManifestName(stages, run).Some?
  {
    if i > 0 {
      assert stages[0].id != stages[i].id;
      ManifestIsNamed(stages[1..], run, i - 1);
    }
  }

  function SucceededReceipt(receipt: Receipt, cited: seq<Citation>, manifest: string): Receipt {
    receipt.(status := Succeeded, outcome := Some(Outcome(
      StageIds(receipt.plan.stages), [], cited, Cases(1, 0, 0), manifest, Sha256(Built(receipt)))))
  }

  /** What the next step of `finish` looks for is in place. */
  predicate InPlace(files: Files, receipt: Receipt, manifest: string, last: Last) {
    match last
    case Verified => PYTEST_REPORT in files && files[PYTEST_REPORT] == PASSED
    case Tested(tests) =>
      && tests == Cases(1, 0, 0)
      && ReportPath(manifest) in files && files[ReportPath(manifest)] == Built(receipt)
    case Opened(tests, name, content) =>
      && tests == Cases(1, 0, 0) && name == manifest && content == Built(receipt)
      && WheelPath("") in files && files[WheelPath("")] == WHEEL
    case Weighed(tests, name) => tests == Cases(1, 0, 0) && name == manifest
    case Rechecked(tests, name) =>
      && tests == Cases(1, 0, 0) && name == manifest
      && ReportPath(manifest) in files && files[ReportPath(manifest)] == Built(receipt)
  }

  function PhaseAfter(receipt: Receipt, cited: seq<Citation>, manifest: string, last: Last): Phase {
    var tests := Cases(1, 0, 0);
    match last
    case Verified => Closing(receipt, cited, Tested(tests))
    case Tested(_) => Closing(receipt, cited, Opened(tests, manifest, Built(receipt)))
    case Opened(_, _, _) => Closing(receipt, cited, Weighed(tests, manifest))
    case Weighed(_, _) => Closing(receipt, cited, Rechecked(tests, manifest))
    case Rechecked(_, _) => Sealed(SucceededReceipt(receipt, cited, manifest))
  }

  lemma FinishCloses(w: World, i: nat, j: nat, receipt: Receipt, cited: seq<Citation>, manifest: string,
                     last: Last, other: Phase)
    requires Scene(w, i, j, receipt, Closing(receipt, cited, last), other)
    requires ManifestName(receipt.plan.stages, receipt.run) == Some(manifest)
    requires InPlace(w.files, receipt, manifest, last)
    ensures Scene(Next(w, Go(i)), i, j, receipt, PhaseAfter(receipt, cited, manifest, last), other)
  {
    assert EffectOf(w, i) == CloseStep(w, w.runners[i], receipt, cited, last);
    SceneMoves(w, i, j, receipt, Closing(receipt, cited, last), other);
  }

  /** From the last citation to the sealed receipt. */
  lemma ReceiptIsSealed(start: World, w: World, i: nat, j: nat, receipt: Receipt, cited: seq<Citation>,
                        manifest: string, other: Phase)
    returns (v: World)
    requires Reaches(start, w)
    requires |cited| == |receipt.plan.stages|
    requires Scene(w, i, j, receipt, Checking(receipt, cited, Unread), other)
    requires ManifestName(receipt.plan.stages, receipt.run) == Some(manifest)
    ensures Reaches(start, v)
    ensures Scene(v, i, j, receipt, Sealed(SucceededReceipt(receipt, cited, manifest)), other)
  {
    SceneMoves(w, i, j, receipt, Checking(receipt, cited, Unread), other);
    v := More(start, w, Go(i));
    var tests := Cases(1, 0, 0);
    v := Closes(start, v, i, j, receipt, cited, manifest, Verified, PYTEST_REPORT, PASSED, other);
    v := Closes(start, v, i, j, receipt, cited, manifest, Tested(tests), ReportPath(manifest), Built(receipt),
                    other);
    v := Closes(start, v, i, j, receipt, cited, manifest, Opened(tests, manifest, Built(receipt)),
                    WheelPath(""), WHEEL, other);
    v := Closes(start, v, i, j, receipt, cited, manifest, Weighed(tests, manifest), WheelPath(""), WHEEL,
                    other);
    v := Closes(start, v, i, j, receipt, cited, manifest, Rechecked(tests, manifest), ReportPath(manifest),
                    Built(receipt), other);
  }

  /** A file appears, and `finish` takes the step that looks for it. */
  lemma Closes(start: World, w: World, i: nat, j: nat, receipt: Receipt, cited: seq<Citation>,
               manifest: string, last: Last, path: Path, content: Content, other: Phase)
    returns (v: World)
    requires Reaches(start, w) && Scene(w, i, j, receipt, Closing(receipt, cited, last), other)
    requires ManifestName(receipt.plan.stages, receipt.run) == Some(manifest) && (path.ReportPath? || path.WheelPath?)
    requires InPlace(map[path := content], receipt, manifest, last)
    ensures Reaches(start, v)
    ensures Scene(v, i, j, receipt, PhaseAfter(receipt, cited, manifest, last), other)
  {
    SceneProduces(w, i, j, receipt, Closing(receipt, cited, last), other, path, content);
    v := More(start, w, Produce(path, Some(content)));
    FinishCloses(v, i, j, receipt, cited, manifest, last, other);
    v := More(start, v, Go(i));
  }

  // ----- The whole failing run -----

  /** The waiting run writes its running record over the first stage's, between the check and the citation. */
  lemma OtherRecords(w: World, i: nat, j: nat, receipt: Receipt, phase: Phase)
    requires receipt.plan.stages != [] && Scene(w, i, j, receipt, phase, Stages(0, Cleared))
    ensures Scene(Next(w, Go(j)), i, j, receipt, phase, Stages(0, Recorded))
    ensures Next(w, Go(j)).files
            == w.files[PathOf(receipt, 0) := RecordFile(RunningRecord(receipt, receipt.plan.stages[0]))]
  {
    var x := w.runners[j];
    assert EffectOf(w, j) == PrepareStep(w.files, x, x.mine.value, 0, receipt.plan.stages[0], Oracle("", Some(0), 0));
    SceneMoves(w, j, i, receipt, Stages(0, Cleared), phase);
  }

  /** From two contenders: the second waits past its attempt check while the first executes every stage. */
  lemma ContendersStage(w: World, i: nat, j: nat, receipt: Receipt) returns (v: World)
    requires Basics(w) && Assembled(w) && i != j && Contends(w, i) && Contends(w, j)
    requires ReceiptAt(w.files, ReceiptPath) == Some(receipt)
    ensures Reaches(w, v)
    ensures WellPlanned(receipt.plan) && receipt.plan.stages != []
    ensures Scene(v, i, j, receipt, Stages(|receipt.plan.stages|, Ready), Stages(0, Cleared))
    ensures Progress(v.files, receipt, |receipt.plan.stages|)
  {
    assert FineRunner(w.begun, w.log, w.runners[i]) && FineRunner(w.begun, w.log, w.runners[j]);
    forall m | 0 <= m < |receipt.plan.stages| ensures PathOf(receipt, m) !in w.files {
    }
    ReachesItself(w);
    v := More(w, w, Edit(Calm(receipt)));
    FirstScene(w, i, j, receipt);
    SwapScene(v, i, j, receipt, Stages(0, Ready), Stages(0, Ready));
    v := StageIsPrepared(w, v, j, i, receipt, 0, Stages(0, Ready));
    SwapScene(v, j, i, receipt, Stages(0, Cleared), Stages(0, Ready));
    v := StagesAreRun(w, v, i, j, receipt, 0, Stages(0, Cleared));
  }

  lemma FirstScene(w: World, i: nat, j: nat, receipt: Receipt)
    requires Basics(w) && i != j && Contends(w, i) && Contends(w, j)
    requires ReceiptAt(w.files, ReceiptPath) == Some(receipt)
    ensures Scene(Next(w, Edit(Calm(receipt))), i, j, receipt, Stages(0, Ready), Stages(0, Ready))
    ensures Next(w, Edit(Calm(receipt))).files == w.files
    ensures WellPlanned(receipt.plan) && receipt.plan.stages != []
  {
    assert FineRunner(w.begun, w.log, w.runners[i]) && FineRunner(w.begun, w.log, w.runners[j]);
  }

  lemma SwapScene(w: World, i: nat, j: nat, receipt: Receipt, phase: Phase, other: Phase)
    requires Scene(w, i, j, receipt, phase, other)
    ensures Scene(w, j, i, receipt, other, phase)
  {
  }

  lemma FinishIsOpened(start: World, w: World, i: nat, j: nat, receipt: Receipt, other: Phase)
    returns (v: World)
    requires Reaches(start, w) && Scene(w, i, j, receipt, Stages(|receipt.plan.stages|, Ready), other)
    ensures Reaches(start, v)
    ensures Scene(v, i, j, receipt, Checking(receipt, [], Unread), other)
    ensures v.files == w.files
  {
    FinishOpens(w, i, j, receipt, Stages(|receipt.plan.stages|, Ready), other);
    v := More(start, w, Go(i));
    FinishOpens(v, i, j, receipt, Finishing, other);
    v := More(start, v, Go(i));
    FinishOpens(v, i, j, receipt, Reread(receipt), other);
    v := More(start, v, Go(i));
    FinishOpens(v, i, j, receipt, Compared(receipt), other);
    v := More(start, v, Go(i));
  }

  /** The first stage is found good, and then cited with the other run's running record. */
  lemma FirstIsStale(start: World, w: World, i: nat, j: nat, receipt: Receipt) returns (v: World, citation: Citation)
    requires Reaches(start, w) && Scene(w, i, j, receipt, Checking(receipt, [], Unread), Stages(0, Cleared))
    requires WellPlanned(receipt.plan) && receipt.plan.stages != [] && GoodFrom(w.files, receipt, 0)
    ensures Reaches(start, v)
    ensures Scene(v, i, j, receipt, Checking(receipt, [citation], Unread), Stages(0, Recorded))
    ensures GoodFrom(v.files, receipt, 1)
    ensures citation.sha256 == Sha256(RecordFile(RunningRecord(receipt, receipt.plan.stages[0])))
  {
    v := StageIsMatched(start, w, i, j, receipt, [], Stages(0, Cleared));
    GoodStays(w.files, v.files, receipt, 0);
    OthersStayGood(v.files, receipt, RecordFile(RunningRecord(receipt, receipt.plan.stages[0])));
    OtherRecords(v, i, j, receipt, Checking(receipt, [], Matched));
    v := More(start, v, Go(j));
    citation := CitationOf(v.files, receipt.run, receipt.plan.stages[0]);
    assert [] + [citation] == [citation];
    v := StageIsAdded(start, v, i, j, receipt, [], Stages(0, Recorded));
  }

  /** All stages have succeeded, and the other run has still to record its first one. */
  lemma StaleIsCited(start: World, w: World, i: nat, j: nat, receipt: Receipt)
    returns (v: World, cited: seq<Citation>)
    requires Reaches(start, w) && WellPlanned(receipt.plan) && receipt.plan.stages != []
    requires Scene(w, i, j, receipt, Stages(|receipt.plan.stages|, Ready), Stages(0, Cleared))
    requires Progress(w.files, receipt, |receipt.plan.stages|)
    ensures Reaches(start, v)
    ensures Scene(v, i, j, receipt, Checking(receipt, cited, Unread), Stages(0, Recorded))
    ensures |cited| == |receipt.plan.stages|
    ensures cited[0].sha256 == Sha256(RecordFile(RunningRecord(receipt, receipt.plan.stages[0])))
  {
    ProgressIsGood(w.files, receipt);
    v := FinishIsOpened(start, w, i, j, receipt, Stages(0, Cleared));
    var citation;
    v, citation := FirstIsStale(start, v, i, j, receipt);
    v, cited := StagesAreCited(start, v, i, j, receipt, [citation], Stages(0, Recorded));
  }

  lemma ProgressIsGood(files: Files, receipt: Receipt)
    requires Progress(files, receipt, |receipt.plan.stages|)
    ensures GoodFrom(files, receipt, 0)
  {
  }

  lemma ReceiptIsSaved(w: World, i: nat, j: nat, receipt: Receipt, sealed: Receipt, other: Phase)
    requires Scene(w, i, j, receipt, Sealed(sealed), other)
    ensures ReceiptAt(Next(Next(w, Go(i)), Go(i)).files, ReceiptPath) == Some(sealed)
  {
    SceneMoves(w, i, j, receipt, Sealed(sealed), other);
  }

  lemma ContendersSaveUnfounded(w: World, i: nat, j: nat) returns (moves: seq<Move>)
    requires Basics(w) && Assembled(w) && i != j && Contends(w, i) && Contends(w, j)
    ensures SavedUnfounded(Play(w, moves))
  {
    var receipt, cited := ReceiptAt(w.files, ReceiptPath).value, [];
    var v: World;
    v := ContendersStage(w, i, j, receipt);
    v, cited := StaleIsCited(w, v, i, j, receipt);
    var wheel :| 0 <= wheel < |receipt.plan.stages| && receipt.plan.stages[wheel].id == "installed-wheel"
                 && receipt.plan.stages[wheel].report.Some?;
    ManifestIsNamed(receipt.plan.stages, receipt.run, wheel);
    var manifest := ManifestName(receipt.plan.stages, receipt.run).value;
    v := ReceiptIsSealed(w, v, i, j, receipt, cited, manifest, Stages(0, Recorded));
    var sealed := SucceededReceipt(receipt, cited, manifest);
    ReceiptIsSaved(v, i, j, receipt, sealed, Stages(0, Recorded));
    v := More(w, v, Go(i));
    v := More(w, v, Go(i));
    assert !CitesSuccess(sealed, 0);
    moves :| Play(w, moves) == v;
  }

  // ----- Otherwise every citation is founded -----

  lemma {:induction false} SettledRunsAreFounded(w: World, lead: nat, moves: seq<Move>)
    requires Kept(w) && Settled(w, lead)
    ensures !SavedUnfounded(Play(w, moves))
    decreases |moves|
  {
    if moves == [] {
      assert Apart(w);
      BackedIsFounded(w);
    } else {
      MoveKeeps(w, moves[0]);
      MoveKeepsSettled(w, lead, moves[0]);
      SettledRunsAreFounded(Next(w, moves[0]), lead, moves[1..]);
    }
  }

  lemma BackedIsFounded(w: World)
    requires Basics(w) && Exclusive(w)
    ensures !SavedUnfounded(w)
  {
    var saved := ReceiptAt(w.files, ReceiptPath);
    if saved.Some? && saved.value.status == Succeeded {
      assert Sealing(saved.value) in w.log;
      forall k | 0 <= k < |saved.value.plan.stages| ensures CitesSuccess(saved.value, k) {
        assert BackedStage(w.files, saved.value.run, saved.value.plan.stages[k],
                           saved.value.outcome.value.stageEvidence[k]);
      }
    }
  }

  /** Some continuation from `w` saves a succeeded receipt that is unfounded. */
  ghost predicate MaySaveUnfounded(w: World) {
    exists moves :: SavedUnfounded(Play(w, moves))
  }

  lemma UnfoundedFrom(w: World)
    requires Kept(w) && Assembled(w)
    ensures MaySaveUnfounded(w) <==> TwoContend(w)
  {
    if TwoContend(w) {
      var i, j :| 0 <= i < j < |w.runners| && Contends(w, i) && Contends(w, j);
      var moves := ContendersSaveUnfounded(w, i, j);
      assert SavedUnfounded(Play(w, moves));
    } else {
      var lead := LeadOf(w);
      forall moves ensures !SavedUnfounded(Play(w, moves)) {
        SettledRunsAreFounded(w, lead, moves);
      }
    }
  }

  /**
    Once every run has read its receipt back or has broken off, some continuation saves a succeeded receipt that
    cites what is no record of a success, if and only if two of them hold the run id of the running receipt on disk.
    */
  lemma UnfoundedIffTwoContend(start: World, before: seq<Move>)
    requires Initial(start) && Assembled(Play(start, before))
    ensures MaySaveUnfounded(Play(start, before)) <==> TwoContend(Play(start, before))
  {
    InitiallyKept(start);
    PlayKeeps(start, before);
    UnfoundedFrom(Play(start, before));
  }
}
