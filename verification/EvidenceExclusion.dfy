/**
  What holds while no two admitted validations share a run id: no stage is launched twice, and a succeeded
  receipt cites good records that no longer change.
  */
module EvidenceExclusion {
  import opened Options
  import opened EvidenceModel
  import opened EvidenceFinish
  import opened EvidenceRuns
  import opened EvidenceSafety

  /** No two runs whose stages were admitted hold the same run id. */
  ghost predicate Apart(w: World) {
    forall i, j, run :: 0 <= i < j < |w.runners| && Engages(w.runners[i], run) ==> !Engages(w.runners[j], run)
  }

  predicate SameStage(a: Entry, b: Entry) {
    a.Launch? && b.Launch? && a.run == b.run && a.stage == b.stage
  }

  predicate NoSecondLaunch(log: seq<Entry>) {
    forall a, b :: 0 <= a < b < |log| ==> !SameStage(log[a], log[b])
  }

  predicate LaunchedIn(log: seq<Entry>, run: string, stage: string) {
    exists a :: 0 <= a < |log| && log[a].Launch? && log[a].run == run && log[a].stage == stage
  }

  /** Each citation is of the record that is there now, and that record is of a success as planned. */
  predicate Backed(files: Files, run: string, stages: seq<Stage>, cited: seq<Citation>) {
    && |cited| <= |stages|
    && forall k :: 0 <= k < |cited| ==> BackedStage(files, run, stages[k], cited[k])
  }

  predicate BackedStage(files: Files, run: string, stage: Stage, citation: Citation) {
    var path := RecordPath(run, stage.id);
    && path in files
    && files[path].RecordFile?
    && GoodRecord(run, stage, files[path].record)
    && citation == CitationOf(files, run, stage)
  }

  predicate SoleCheck(files: Files, original: Receipt, cited: seq<Citation>, check: Check) {
    && Backed(files, original.run, original.plan.stages, cited)
    && (!check.Unread? ==>
          && |cited| < |original.plan.stages|
          && var stage := original.plan.stages[|cited|];
             var path := RecordPath(original.run, stage.id);
             && path in files
             && files[path].RecordFile?
             && GoodRecord(original.run, stage, files[path].record))
  }

  /** What a run knows that shares its run id with nobody. */
  predicate Sole(files: Files, log: seq<Entry>, x: Runner) {
    x.mine.Some? && x.engaged ==>
      var mine := x.mine.value;
      match x.phase
      case Stages(k, point) =>
        k < |mine.plan.stages| ==>
          && (point.Unrecorded? || point.Cleared? ==> RecordPath(mine.run, mine.plan.stages[k].id) !in files)
          && (point.Recorded? ==>
                && RecordPath(mine.run, mine.plan.stages[k].id) in files
                && !LaunchedIn(log, mine.run, mine.plan.stages[k].id))
      case Checking(original, cited, check) => SoleCheck(files, original, cited, check)
      case Closing(original, cited, _) => Backed(files, original.run, original.plan.stages, cited)
      case Sealed(receipt) => BackedReceipt(files, receipt)
      case _ => true
  }

  predicate BackedReceipt(files: Files, receipt: Receipt) {
    && receipt.outcome.Some?
    && Backed(files, receipt.run, receipt.plan.stages, receipt.outcome.value.stageEvidence)
  }

  /** The run has no stage and no check left to do. */
  predicate Closed(x: Runner) {
    x.phase.Written? || x.phase.Done? || x.phase.Stopped?
  }

  predicate ClosedRun(x: Runner, run: string) {
    Engages(x, run) && Closed(x)
  }

  ghost predicate Exclusive(w: World) {
    && NoSecondLaunch(w.log)
    && (forall entry <- w.log :: entry.Launch? ==> RecordPath(entry.run, entry.stage) in w.files)
    && (forall i :: 0 <= i < |w.runners| ==> Sole(w.files, w.log, w.runners[i]))
    && (forall receipt :: Sealing(receipt) in w.log ==>
          && BackedReceipt(w.files, receipt)
          && exists i :: 0 <= i < |w.runners| && ClosedRun(w.runners[i], receipt.run))
  }

  // ----- One step of a run that is alone -----

  /** The step writes no record but the next one of its own run, launches no launched stage, and stays `Sole`. */
  predicate SoleEffect(files: Files, log: seq<Entry>, x: Runner, e: Effect) {
    && Sole(FilesAfter(files, e.write), Logged(log, e.entry), e.runner)
    && (e.write.Put? && e.write.path.RecordPath? ==>
          x.phase.Stages? && Engages(x, e.write.path.run) && Engages(e.runner, e.write.path.run))
    && (e.write.Drop? ==> e.write.path.ReportPath?)
    && (e.entry.Some? && e.entry.value.Launch? ==>
          && x.phase.Stages? && Engages(x, e.entry.value.run)
          && !LaunchedIn(log, e.entry.value.run, e.entry.value.stage)
          && RecordPath(e.entry.value.run, e.entry.value.stage) in files)
    && (e.entry.Some? && e.entry.value.Sealing? ==>
          && BackedReceipt(FilesAfter(files, e.write), e.entry.value.receipt)
          && ClosedRun(e.runner, e.entry.value.receipt.run))
    && (Closed(x) ==> Closed(e.runner))
    && (x.engaged ==> e.runner.engaged && e.runner.mine == x.mine)
  }

  lemma PrepareIsSole(w: World, x: Runner, o: Oracle)
    requires FineRunner(w.begun, w.log, x) && Sole(w.files, w.log, x)
    requires x.mine.Some? && x.phase.Stages? && Preparing(x.phase.point)
    requires forall entry <- w.log :: entry.Launch? ==> RecordPath(entry.run, entry.stage) in w.files
    ensures SoleEffect(w.files, w.log, x, StageStep(w.files, x, o))
  {
  }

  lemma RecordIsSole(w: World, x: Runner, o: Oracle)
    requires FineRunner(w.begun, w.log, x) && Sole(w.files, w.log, x)
    requires x.mine.Some? && x.phase.Stages? && !Preparing(x.phase.point)
    ensures SoleEffect(w.files, w.log, x, StageStep(w.files, x, o))
  {
  }

  lemma ReadIsSole(w: World, x: Runner)
    requires FineRunner(w.begun, w.log, x) && Sole(w.files, w.log, x)
    requires x.mine.Some? && x.phase.Checking? && x.phase.check.Unread?
    ensures SoleEffect(w.files, w.log, x, CheckStep(w.files, x))
  {
  }

  lemma CheckIsSole(w: World, x: Runner)
    requires FineRunner(w.begun, w.log, x) && Sole(w.files, w.log, x)
    requires x.mine.Some? && x.phase.Checking?
    ensures SoleEffect(w.files, w.log, x, CheckStep(w.files, x))
  {
    if x.phase.check.Unread? {
      ReadIsSole(w, x);
    }
  }

  lemma CloseIsSole(w: World, x: Runner)
    requires FineRunner(w.begun, w.log, x) && Sole(w.files, w.log, x)
    requires x.mine.Some? && x.phase.Closing?
    ensures SoleEffect(w.files, w.log, x, CloseStep(w, x, x.phase.original, x.phase.cited, x.phase.last))
  {
  }

  lemma BackedStays(files: Files, files1: Files, run: string, stages: seq<Stage>, cited: seq<Citation>)
    requires Backed(files, run, stages, cited)
    requires forall id :: RecordPath(run, id) in files ==>
               RecordPath(run, id) in files1 && files1[RecordPath(run, id)] == files[RecordPath(run, id)]
    ensures Backed(files1, run, stages, cited)
  {
    forall k | 0 <= k < |cited| ensures BackedStage(files1, run, stages[k], cited[k]) {
      assert BackedStage(files, run, stages[k], cited[k]);
    }
  }

  lemma SaveIsSole(w: World, x: Runner)
    requires FineRunner(w.begun, w.log, x) && Sole(w.files, w.log, x)
    requires x.mine.Some? && (x.phase.Sealed? || x.phase.Written?)
    ensures SoleEffect(w.files, w.log, x, SaveStep(w, x))
  {
    if x.phase.Sealed? {
      var receipt := x.phase.receipt;
      BackedStays(w.files, FilesAfter(w.files, SaveStep(w, x).write), receipt.run, receipt.plan.stages,
                  receipt.outcome.value.stageEvidence);
    }
  }

  lemma RunnerStepIsSole(w: World, x: Runner, o: Oracle)
    requires FineRunner(w.begun, w.log, x) && Sole(w.files, w.log, x)
    requires forall entry <- w.log :: entry.Launch? ==> RecordPath(entry.run, entry.stage) in w.files
    ensures SoleEffect(w.files, w.log, x, RunnerStep(w, x, o))
  {
    if x.mine.None? {
    } else if x.phase.Stages? {
      if Preparing(x.phase.point) {
        PrepareIsSole(w, x, o);
      } else {
        RecordIsSole(w, x, o);
      }
    } else if x.phase.Checking? {
      CheckIsSole(w, x);
    } else if x.phase.Closing? {
      CloseIsSole(w, x);
    } else if x.phase.Sealed? || x.phase.Written? {
      SaveIsSole(w, x);
    }
  }

  // ----- Runs beside each other -----

  ghost predicate SameRecords(files: Files, files1: Files, run: string) {
    forall id :: (RecordPath(run, id) in files <==> RecordPath(run, id) in files1)
                 && (RecordPath(run, id) in files ==> files1[RecordPath(run, id)] == files[RecordPath(run, id)])
  }

  lemma OtherRecordsStay(files: Files, log: seq<Entry>, x: Runner, e: Effect, run: string)
    requires SoleEffect(files, log, x, e) && !Engages(x, run)
    ensures SameRecords(files, FilesAfter(files, e.write), run)
  {
  }

  lemma UnlaunchedStays(log: seq<Entry>, entry: Option<Entry>, run: string, stage: string)
    requires !LaunchedIn(log, run, stage)
    requires entry.Some? && entry.value.Launch? ==> entry.value.run != run
    ensures !LaunchedIn(Logged(log, entry), run, stage)
  {
    var log1 := Logged(log, entry);
    forall a | 0 <= a < |log1| ensures !(log1[a].Launch? && log1[a].run == run && log1[a].stage == stage) {
      if a < |log| {
        assert log1[a] == log[a];
      }
    }
  }

  lemma OtherStaysSole(w: World, x: Runner, e: Effect, y: Runner)
    requires SoleEffect(w.files, w.log, x, e) && FineRunner(w.begun, w.log, y) && Sole(w.files, w.log, y)
    requires y.mine.Some? && y.engaged && !Engages(x, y.mine.value.run)
    ensures Sole(FilesAfter(w.files, e.write), Logged(w.log, e.entry), y)
  {
    var run, files1, log1 := y.mine.value.run, FilesAfter(w.files, e.write), Logged(w.log, e.entry);
    OtherRecordsStay(w.files, w.log, x, e, run);
    match y.phase
    case Stages(k, point) =>
      if point.Recorded? && k < |y.mine.value.plan.stages| {
        UnlaunchedStays(w.log, e.entry, run, y.mine.value.plan.stages[k].id);
      }
    case Checking(original, cited, check) => BackedStays(w.files, files1, run, original.plan.stages, cited);
    case Closing(original, cited, _) => BackedStays(w.files, files1, run, original.plan.stages, cited);
    case Sealed(receipt) =>
      BackedStays(w.files, files1, run, receipt.plan.stages, receipt.outcome.value.stageEvidence);
    case _ =>
  }

  lemma LaunchesStaySingle(files: Files, log: seq<Entry>, x: Runner, e: Effect)
    requires NoSecondLaunch(log) && SoleEffect(files, log, x, e)
    ensures NoSecondLaunch(Logged(log, e.entry))
  {
    var log1 := Logged(log, e.entry);
    forall a, b | 0 <= a < b < |log1| ensures !SameStage(log1[a], log1[b]) {
      assert log1[a] == log[a];
      if b < |log| {
        assert !SameStage(log[a], log[b]);
      } else {
        assert log1[b].Launch? ==> !LaunchedIn(log, log1[b].run, log1[b].stage);
      }
    }
  }

  lemma SealedStayBacked(w: World, i: nat, e: Effect, receipt: Receipt)
    requires i < |w.runners| && Apart(w) && SoleEffect(w.files, w.log, w.runners[i], e)
    requires BackedReceipt(w.files, receipt)
    requires exists h :: 0 <= h < |w.runners| && ClosedRun(w.runners[h], receipt.run)
    ensures var v := Apply(w, i, e);
            && BackedReceipt(v.files, receipt)
            && exists h :: 0 <= h < |v.runners| && ClosedRun(v.runners[h], receipt.run)
  {
    var v := Apply(w, i, e);
    var h :| 0 <= h < |w.runners| && ClosedRun(w.runners[h], receipt.run);
    assert ClosedRun(v.runners[h], receipt.run);
    assert i == h || !Engages(w.runners[i], receipt.run);
    BackedStays(w.files, v.files, receipt.run, receipt.plan.stages, receipt.outcome.value.stageEvidence);
  }

  lemma AllStaySole(w: World, i: nat, e: Effect, j: nat)
    requires Basics(w) && Exclusive(w) && Apart(w) && i < |w.runners| && j < |w.runners|
    requires SoleEffect(w.files, w.log, w.runners[i], e)
    ensures var v := Apply(w, i, e); Sole(v.files, v.log, v.runners[j])
  {
    if j != i && w.runners[j].mine.Some? && w.runners[j].engaged {
      assert Engages(w.runners[j], w.runners[j].mine.value.run);
      assert FineRunner(w.begun, w.log, w.runners[j]);
      OtherStaysSole(w, w.runners[i], e, w.runners[j]);
    }
  }

  lemma EffectKeepsExclusive(w: World, i: nat, e: Effect)
    requires Basics(w) && Exclusive(w) && Apart(w) && i < |w.runners|
    requires SoleEffect(w.files, w.log, w.runners[i], e)
    ensures Exclusive(Apply(w, i, e))
  {
    var v := Apply(w, i, e);
    LaunchesStaySingle(w.files, w.log, w.runners[i], e);
    forall j | 0 <= j < |v.runners| ensures Sole(v.files, v.log, v.runners[j]) {
      AllStaySole(w, i, e, j);
    }
    forall receipt | Sealing(receipt) in v.log
      ensures BackedReceipt(v.files, receipt)
      ensures exists h :: 0 <= h < |v.runners| && ClosedRun(v.runners[h], receipt.run)
    {
      AllSealedBacked(w, i, e, receipt);
    }
  }

  lemma AllSealedBacked(w: World, i: nat, e: Effect, receipt: Receipt)
    requires Exclusive(w) && Apart(w) && i < |w.runners|
    requires SoleEffect(w.files, w.log, w.runners[i], e) && Sealing(receipt) in Logged(w.log, e.entry)
    ensures var v := Apply(w, i, e);
            && BackedReceipt(v.files, receipt)
            && exists h :: 0 <= h < |v.runners| && ClosedRun(v.runners[h], receipt.run)
  {
    if Sealing(receipt) in w.log {
      SealedStayBacked(w, i, e, receipt);
    } else {
      assert ClosedRun(Apply(w, i, e).runners[i], receipt.run);
    }
  }

  /** Once two admitted runs share a run id, they always do. */
  lemma ApartBefore(w: World, i: nat, e: Effect)
    requires i < |w.runners| && Apart(Apply(w, i, e))
    requires FineEffect(w.begun, w.log, w.runners[i], e)
    ensures Apart(w)
  {
    var v := Apply(w, i, e);
    forall j, run | 0 <= j < |w.runners| && Engages(w.runners[j], run) ensures Engages(v.runners[j], run) {
    }
  }

  ghost predicate Kept(w: World) {
    Basics(w) && (Apart(w) ==> Exclusive(w))
  }

  lemma MoveKeeps(w: World, move: Move)
    requires Kept(w)
    ensures Kept(Next(w, move))
  {
    MoveKeepsBasics(w, move);
    if Apart(Next(w, move)) {
      match move
      case Act(i, oracle) =>
        if i < |w.runners| {
          RunnerStepIsFine(w, w.runners[i], oracle);
          ApartBefore(w, i, RunnerStep(w, w.runners[i], oracle));
          RunnerStepIsSole(w, w.runners[i], oracle);
          EffectKeepsExclusive(w, i, RunnerStep(w, w.runners[i], oracle));
        }
      case Break(i) =>
        if i < |w.runners| {
          ApartBefore(w, i, To(w.runners[i], Stopped));
          EffectKeepsExclusive(w, i, To(w.runners[i], Stopped));
        }
      case Edit(tree) =>
        assert Next(w, move).runners == w.runners;
      case Produce(path, content) =>
        ProduceKeepsExclusive(w, path, content);
    }
  }

  lemma ProduceKeepsExclusive(w: World, path: Path, content: Option<Content>)
    requires Exclusive(w) && forall i :: 0 <= i < |w.runners| ==> FineRunner(w.begun, w.log, w.runners[i])
    ensures Exclusive(Next(w, Produce(path, content)))
  {
    var v := Next(w, Produce(path, content));
    forall i | 0 <= i < |w.runners| ensures Sole(v.files, v.log, v.runners[i]) {
      ProduceKeepsSole(w, path, content, w.runners[i]);
    }
    forall receipt | Sealing(receipt) in w.log ensures BackedReceipt(v.files, receipt) {
      ProduceKeepsBacked(w, path, content, receipt);
    }
  }

  lemma ProduceKeepsBacked(w: World, path: Path, content: Option<Content>, receipt: Receipt)
    requires BackedReceipt(w.files, receipt)
    ensures BackedReceipt(Next(w, Produce(path, content)).files, receipt)
  {
    var v := Next(w, Produce(path, content));
    BackedStays(w.files, v.files, receipt.run, receipt.plan.stages, receipt.outcome.value.stageEvidence);
  }

  lemma ProduceKeepsSole(w: World, path: Path, content: Option<Content>, y: Runner)
    requires FineRunner(w.begun, w.log, y) && Sole(w.files, w.log, y)
    ensures Sole(Next(w, Produce(path, content)).files, w.log, y)
  {
    var v := Next(w, Produce(path, content));
    if y.mine.Some? {
      assert SameRecords(w.files, v.files, y.mine.value.run);
    }
    SameRecordsKeepSole(w, v.files, y);
  }

  lemma SameRecordsKeepSole(w: World, files1: Files, y: Runner)
    requires FineRunner(w.begun, w.log, y) && Sole(w.files, w.log, y)
    requires y.mine.Some? ==> SameRecords(w.files, files1, y.mine.value.run)
    ensures Sole(files1, w.log, y)
  {
    if y.mine.Some? && y.engaged {
      match y.phase
      case Checking(original, cited, check) =>
        BackedStays(w.files, files1, original.run, original.plan.stages, cited);
      case Closing(original, cited, _) => BackedStays(w.files, files1, original.run, original.plan.stages, cited);
      case Sealed(receipt) =>
        BackedStays(w.files, files1, receipt.run, receipt.plan.stages, receipt.outcome.value.stageEvidence);
      case _ =>
    }
  }

  lemma InitiallyKept(w: World)
    requires Initial(w)
    ensures Kept(w)
  {
  }

  lemma {:induction false} PlayKeeps(w: World, moves: seq<Move>)
    requires Kept(w)
    ensures Kept(Play(w, moves))
    decreases |moves|
  {
    if moves != [] {
      MoveKeeps(w, moves[0]);
      PlayKeeps(Next(w, moves[0]), moves[1..]);
    }
  }

  // ----- Over whole runs -----

  /** While no two admitted runs share a run id, no stage of any run is launched twice. */
  lemma NoStageIsLaunchedTwice(start: World, moves: seq<Move>)
    requires Initial(start) && Apart(Play(start, moves))
    ensures NoSecondLaunch(Play(start, moves).log)
  {
    InitiallyKept(start);
    PlayKeeps(start, moves);
  }

  /**
    A receipt saved as succeeded cites only records of its own run, one for every stage of the plan begun
    with; each stage was launched with its planned command, and a record of it with exit 0 was read; and the
    inputs of `begin` were seen again by `finish`, before and after its checks.  This holds under any
    interleaving.
    */
  lemma SucceededCitesItsRun(start: World, moves: seq<Move>)
    requires Initial(start)
    ensures var w := Play(start, moves);
            var saved := ReceiptAt(w.files, ReceiptPath);
            saved.Some? && saved.value.status == Succeeded ==>
              && CitesItsRun(w.begun, w.log, saved.value)
              && saved.value.inputs == w.begun[saved.value.run].inputs
              && saved.value.plan == w.begun[saved.value.run].plan
  {
    InitiallyKept(start);
    PlayKeeps(start, moves);
  }

  /**
    While no two admitted runs share a run id, each record that a succeeded receipt cites is still there as
    cited: of its own run and stage, the planned command, exit 0, launched exactly once.
    */
  lemma SucceededIsBacked(start: World, moves: seq<Move>, k: nat)
    requires Initial(start) && Apart(Play(start, moves))
    ensures var w := Play(start, moves);
            var saved := ReceiptAt(w.files, ReceiptPath);
            saved.Some? && saved.value.status == Succeeded && k < |saved.value.plan.stages| ==>
              && saved.value.outcome.Some?
              && |saved.value.outcome.value.stageEvidence| == |saved.value.plan.stages|
              && BackedStage(w.files, saved.value.run, saved.value.plan.stages[k],
                             saved.value.outcome.value.stageEvidence[k])
              && var launch := Launch(saved.value.run, saved.value.plan.stages[k].id,
                                      PlannedCommand(saved.value.plan.stages[k], saved.value.run));
                 launch in w.log && multiset(w.log)[launch] == 1
  {
    InitiallyKept(start);
    PlayKeeps(start, moves);
    var w := Play(start, moves);
    var saved := ReceiptAt(w.files, ReceiptPath);
    if saved.Some? && saved.value.status == Succeeded && k < |saved.value.plan.stages| {
      var stage := saved.value.plan.stages[k];
      assert Sealing(saved.value) in w.log;
      assert BackedStage(w.files, saved.value.run, stage, saved.value.outcome.value.stageEvidence[k]);
      var launch := Launch(saved.value.run, stage.id, PlannedCommand(stage, saved.value.run));
      assert FineRecord(w.log, saved.value.run, stage.id, w.files[RecordPath(saved.value.run, stage.id)]);
      LaunchedExactlyOnce(w.log, launch);
    }
  }

  lemma {:induction false} LaunchedExactlyOnce(log: seq<Entry>, launch: Entry)
    requires NoSecondLaunch(log) && launch.Launch? && launch in log
    ensures multiset(log)[launch] == 1
  {
    var a :| 0 <= a < |log| && log[a] == launch;
    assert log == log[..a] + [launch] + log[a + 1..];
    forall b | 0 <= b < |log| && b != a ensures log[b] != launch {
      assert !SameStage(log[a], log[b]) || !SameStage(log[b], log[a]);
    }
  }
}
