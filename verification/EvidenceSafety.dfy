/** What side-by-side validations keep: no stage launched twice, and what a succeeded receipt stands for. */
module EvidenceSafety {
  import opened Options
  import opened EvidenceModel
  import opened EvidenceFinish
  import opened EvidenceRuns

  // ----- Facts that hold whatever the runs do -----

  predicate Genuine(begun: map<string, Receipt>, receipt: Receipt) {
    && receipt.run in begun
    && receipt.version == EVIDENCE_VERSION
    && receipt.plan == begun[receipt.run].plan
    && receipt.inputs == begun[receipt.run].inputs
    && receipt.plan.stages != []
  }

  /** The stage was launched with its planned command, and a record of its success with exit 0 was read. */
  predicate Proven(log: seq<Entry>, run: string, stage: Stage) {
    && Launch(run, stage.id, PlannedCommand(stage, run)) in log
    && exists a :: 0 <= a < |log| && log[a].Examined? && GoodRecord(run, stage, log[a].record)
  }

  /**
    The receipt cites its own run's records, one for each stage, each stage was launched as planned and a
    record of its success was read, and the receipt's inputs were seen again twice.
    */
  predicate CitesItsRun(begun: map<string, Receipt>, log: seq<Entry>, receipt: Receipt) {
    && Genuine(begun, receipt)
    && receipt.status == Succeeded
    && receipt.outcome.Some?
    && var cited := receipt.outcome.value.stageEvidence;
       && |cited| == |receipt.plan.stages|
       && Saw(receipt.run, receipt.inputs, false) in log
       && Saw(receipt.run, receipt.inputs, true) in log
       && forall k :: 0 <= k < |cited| ==>
            CitesStage(receipt, k, cited[k]) && Proven(log, receipt.run, receipt.plan.stages[k])
  }

  predicate CitesStage(receipt: Receipt, k: nat, citation: Citation) {
    && k < |receipt.plan.stages|
    && citation.id == receipt.plan.stages[k].id
    && citation.path == RecordPath(receipt.run, receipt.plan.stages[k].id)
  }

  predicate Fine(begun: map<string, Receipt>, log: seq<Entry>, receipt: Receipt) {
    && Genuine(begun, receipt)
    && (receipt.status == Running || (receipt.status == Succeeded && Sealing(receipt) in log))
  }

  predicate FineRecord(log: seq<Entry>, run: string, id: string, content: Content) {
    && content.RecordFile?
    && content.record.run == run
    && content.record.stage.id == id
    && (content.record.status == Succeeded ==>
          content.record.exitCode == Some(0) && Launch(run, id, content.record.command) in log)
  }

  ghost predicate FineFiles(w: World) {
    && (forall path <- w.files :: path == ReceiptPath || path == TemporaryReceipt ==>
          w.files[path].ReceiptFile? && Fine(w.begun, w.log, w.files[path].receipt))
    && (forall run, id :: RecordPath(run, id) in w.files ==> FineRecord(w.log, run, id, w.files[RecordPath(run, id)]))
  }

  predicate FinePoint(log: seq<Entry>, mine: Receipt, stage: Stage, point: Point) {
    && (point.Launched? || point.Exited? || point.Summarized? || point.Judged? ==>
          Launch(mine.run, stage.id, PlannedCommand(stage, mine.run)) in log)
    && (point.Judged? ==>
          && point.record.run == mine.run && point.record.stage == stage
          && point.record.command == PlannedCommand(stage, mine.run)
          && (point.record.status == Succeeded ==> point.record.exitCode == Some(0)))
  }

  predicate FineCheck(
      begun: map<string, Receipt>, log: seq<Entry>, mine: Receipt, original: Receipt, cited: seq<Citation>)
  {
    && Genuine(begun, original)
    && original.run == mine.run
    && original.status == Running
    && |cited| <= |original.plan.stages|
    && Saw(mine.run, original.inputs, false) in log
    && forall k :: 0 <= k < |cited| ==>
         CitesStage(original, k, cited[k]) && Proven(log, original.run, original.plan.stages[k])
  }

  /** Past reading a stage's record, the stage is proven. */
  predicate FineReading(log: seq<Entry>, original: Receipt, cited: seq<Citation>, check: Check) {
    !check.Unread? ==>
      |cited| < |original.plan.stages| && Proven(log, original.run, original.plan.stages[|cited|])
  }

  predicate FineRunner(begun: map<string, Receipt>, log: seq<Entry>, x: Runner) {
    if x.mine.None? then
      && !x.engaged
      && match x.phase
         case Start(_) => true
         case Planned(plan) => WellPlanned(plan)
         case Unlinked(plan) => WellPlanned(plan)
         case Drafted(receipt) => Fine(begun, log, receipt)
         case Staged => true
         case Begun => true
         case Stopped => true
         case _ => false
    else
      var mine := x.mine.value;
      && Fine(begun, log, mine)
      && match x.phase
         case Stages(k, point) =>
           && k <= |mine.plan.stages|
           && (k > 0 || point != Ready ==> x.engaged)
           && (point != Ready ==> k < |mine.plan.stages| && FinePoint(log, mine, mine.plan.stages[k], point))
         case Finishing => x.engaged
         case Reread(original) => x.engaged && Fine(begun, log, original) && original.run == mine.run
         case Compared(original) => x.engaged && FineCheck(begun, log, mine, original, [])
         case Checking(original, cited, check) =>
           x.engaged && FineCheck(begun, log, mine, original, cited) && FineReading(log, original, cited, check)
         case Closing(original, cited, last) =>
           && x.engaged && FineCheck(begun, log, mine, original, cited) && |cited| == |original.plan.stages|
           && (last.Rechecked? ==> Saw(mine.run, original.inputs, true) in log)
         case Sealed(receipt) => x.engaged && CitesItsRun(begun, log, receipt) && receipt.run == mine.run
         case Written => x.engaged
         case Done => x.engaged
         case Stopped => true
         case _ => false
  }

  predicate Engages(x: Runner, run: string) {
    x.engaged && x.mine.Some? && x.mine.value.run == run
  }

  /** Records are written only by runs whose stages were admitted. */
  ghost predicate Accounted(w: World) {
    forall run, id :: RecordPath(run, id) in w.files ==>
      exists i :: 0 <= i < |w.runners| && Engages(w.runners[i], run)
  }

  ghost predicate Basics(w: World) {
    && FineFiles(w)
    && Accounted(w)
    && (forall run <- w.begun :: w.begun[run].run == run != "" && WellPlanned(w.begun[run].plan))
    && (forall i :: 0 <= i < |w.runners| ==> FineRunner(w.begun, w.log, w.runners[i]))
    && (forall receipt :: Sealing(receipt) in w.log ==> CitesItsRun(w.begun, w.log, receipt))
  }

  // ----- Growth of what was begun and logged -----

  predicate Grows(begun: map<string, Receipt>, log: seq<Entry>, begun1: map<string, Receipt>, log1: seq<Entry>) {
    && (forall run <- begun :: run in begun1 && begun1[run] == begun[run])
    && log <= log1
  }

  lemma LogKeeps(log: seq<Entry>, log1: seq<Entry>, entry: Entry)
    requires log <= log1 && entry in log
    ensures entry in log1
  {
    var a :| 0 <= a < |log| && log[a] == entry;
    assert log1[a] == entry;
  }

  lemma ProvenStays(log: seq<Entry>, log1: seq<Entry>, run: string, stage: Stage)
    requires log <= log1 && Proven(log, run, stage)
    ensures Proven(log1, run, stage)
  {
    LogKeeps(log, log1, Launch(run, stage.id, PlannedCommand(stage, run)));
    var a :| 0 <= a < |log| && log[a].Examined? && GoodRecord(run, stage, log[a].record);
    assert log1[a] == log[a];
  }

  lemma CheckStaysFine(begun: map<string, Receipt>, log: seq<Entry>, log1: seq<Entry>, mine: Receipt,
                       original: Receipt, cited: seq<Citation>)
    requires log <= log1 && FineCheck(begun, log, mine, original, cited)
    ensures FineCheck(begun, log1, mine, original, cited)
  {
    LogKeeps(log, log1, Saw(mine.run, original.inputs, false));
    forall k | 0 <= k < |cited| ensures Proven(log1, original.run, original.plan.stages[k]) {
      ProvenStays(log, log1, original.run, original.plan.stages[k]);
    }
  }

  /** A good record that is read proves its stage: records of success are written only after the launch. */
  lemma ExaminedIsProven(log: seq<Entry>, run: string, stage: Stage, content: Content)
    requires FineRecord(log, run, stage.id, content) && GoodRecord(run, stage, content.record)
    ensures Proven(log + [Examined(content.record)], run, stage)
  {
    var log1 := log + [Examined(content.record)];
    LogKeeps(log, log1, Launch(run, stage.id, PlannedCommand(stage, run)));
    assert log1[|log|] == Examined(content.record);
  }

  lemma RunnerStaysFine(
      begun: map<string, Receipt>, log: seq<Entry>, begun1: map<string, Receipt>, log1: seq<Entry>, x: Runner)
    requires FineRunner(begun, log, x) && Grows(begun, log, begun1, log1)
    ensures FineRunner(begun1, log1, x)
  {
    forall entry | entry in log ensures entry in log1 {
      LogKeeps(log, log1, entry);
    }
  }

  predicate FineWrite(begun: map<string, Receipt>, log: seq<Entry>, x: Runner, write: Write) {
    write.Put? ==>
      && write.path != ReceiptPath
      && (write.path == TemporaryReceipt ==> write.content.ReceiptFile? && Fine(begun, log, write.content.receipt))
      && (write.path.RecordPath? ==>
            FineRecord(log, write.path.run, write.path.stage, write.content) && Engages(x, write.path.run))
  }

  /** What run `x` does next is fine: what it writes, what it logs and where it goes. */
  predicate FineEffect(begun: map<string, Receipt>, log: seq<Entry>, x: Runner, e: Effect) {
    var begun1, log1 := Drafting(begun, e.drafted), Logged(log, e.entry);
    && FineRunner(begun1, log1, e.runner)
    && (x.engaged ==> e.runner.engaged && e.runner.mine == x.mine)
    && (e.drafted.Some? ==>
          e.drafted.value.run !in begun && e.drafted.value.run != "" && WellPlanned(e.drafted.value.plan))
    && FineWrite(begun1, log1, e.runner, e.write)
    && (e.entry.Some? && e.entry.value.Sealing? ==> CitesItsRun(begun1, log1, e.entry.value.receipt))
  }

  lemma BeginIsFine(w: World, x: Runner, o: Oracle)
    requires FineFiles(w) && FineRunner(w.begun, w.log, x) && x.mine.None?
    ensures FineEffect(w.begun, w.log, x, BeginStep(w, x, o))
  {
  }

  lemma PrepareIsFine(w: World, x: Runner, o: Oracle)
    requires FineRunner(w.begun, w.log, x) && x.mine.Some? && x.phase.Stages? && Preparing(x.phase.point)
    ensures FineEffect(w.begun, w.log, x, StageStep(w.files, x, o))
  {
  }

  lemma RecordIsFine(w: World, x: Runner, o: Oracle)
    requires FineRunner(w.begun, w.log, x) && x.mine.Some? && x.phase.Stages? && !Preparing(x.phase.point)
    ensures FineEffect(w.begun, w.log, x, StageStep(w.files, x, o))
  {
  }

  lemma ReadIsFine(w: World, x: Runner)
    requires FineFiles(w) && FineRunner(w.begun, w.log, x) && x.mine.Some?
    requires x.phase.Checking? && x.phase.check.Unread?
    ensures FineEffect(w.begun, w.log, x, CheckStep(w.files, x))
  {
    var Checking(original, cited, _) := x.phase;
    var e := CheckStep(w.files, x);
    if e.entry.Some? {
      var path := RecordPath(original.run, original.plan.stages[|cited|].id);
      assert FineRecord(w.log, path.run, path.stage, w.files[path]);
      ExaminedIsProven(w.log, original.run, original.plan.stages[|cited|], w.files[path]);
      CheckStaysFine(w.begun, w.log, w.log + [e.entry.value], x.mine.value, original, cited);
      LogKeepsMine(w, e.entry.value, x.mine.value);
    }
  }

  lemma LogKeepsMine(w: World, entry: Entry, mine: Receipt)
    requires Fine(w.begun, w.log, mine)
    ensures Fine(w.begun, w.log + [entry], mine)
  {
  }

  lemma OneMoreIsCited(begun: map<string, Receipt>, log: seq<Entry>, mine: Receipt, original: Receipt,
                       cited: seq<Citation>, citation: Citation)
    requires FineCheck(begun, log, mine, original, cited) && |cited| < |original.plan.stages|
    requires CitesStage(original, |cited|, citation) && Proven(log, original.run, original.plan.stages[|cited|])
    ensures FineCheck(begun, log, mine, original, cited + [citation])
  {
  }

  lemma MatchIsFine(w: World, x: Runner)
    requires FineRunner(w.begun, w.log, x) && x.mine.Some?
    requires x.phase.Checking? && !x.phase.check.Unread?
    ensures FineEffect(w.begun, w.log, x, CheckStep(w.files, x))
  {
    var Checking(original, cited, check) := x.phase;
    var path := RecordPath(original.run, original.plan.stages[|cited|].id);
    if check.Matched? && path in w.files {
      OneMoreIsCited(w.begun, w.log, x.mine.value, original, cited,
                     CitationOf(w.files, original.run, original.plan.stages[|cited|]));
    }
  }

  lemma CheckIsFine(w: World, x: Runner)
    requires FineFiles(w) && FineRunner(w.begun, w.log, x) && x.mine.Some? && x.phase.Checking?
    ensures FineEffect(w.begun, w.log, x, CheckStep(w.files, x))
  {
    if x.phase.check.Unread? {
      ReadIsFine(w, x);
    } else {
      MatchIsFine(w, x);
    }
  }

  lemma FinishIsFine(w: World, x: Runner)
    requires FineFiles(w) && FineRunner(w.begun, w.log, x)
    requires x.mine.Some? && (x.phase.Finishing? || x.phase.Reread? || x.phase.Compared?)
    ensures FineEffect(w.begun, w.log, x, FinishStep(w, x, x.mine.value.run))
  {
  }

  lemma RecheckIsFine(w: World, x: Runner)
    requires FineRunner(w.begun, w.log, x) && x.mine.Some? && x.phase.Closing? && x.phase.last.Weighed?
    ensures FineEffect(w.begun, w.log, x, CloseStep(w, x, x.phase.original, x.phase.cited, x.phase.last))
  {
    var Closing(original, cited, last) := x.phase;
    var e := CloseStep(w, x, original, cited, last);
    if e.entry.Some? {
      CheckStaysFine(w.begun, w.log, w.log + [e.entry.value], x.mine.value, original, cited);
    }
  }

  lemma CloseIsFine(w: World, x: Runner)
    requires FineRunner(w.begun, w.log, x) && x.mine.Some? && x.phase.Closing?
    ensures FineEffect(w.begun, w.log, x, CloseStep(w, x, x.phase.original, x.phase.cited, x.phase.last))
  {
    if x.phase.last.Weighed? {
      RecheckIsFine(w, x);
    }
  }

  lemma SaveIsFine(w: World, x: Runner)
    requires FineRunner(w.begun, w.log, x) && x.mine.Some? && (x.phase.Sealed? || x.phase.Written?)
    ensures FineEffect(w.begun, w.log, x, SaveStep(w, x))
  {
    if x.phase.Sealed? {
      CitationsStay(w.begun, w.log, w.begun, w.log + [Sealing(x.phase.receipt)], x.phase.receipt);
    }
  }

  lemma RunnerStepIsFine(w: World, x: Runner, o: Oracle)
    requires FineFiles(w) && FineRunner(w.begun, w.log, x)
    ensures FineEffect(w.begun, w.log, x, RunnerStep(w, x, o))
  {
    if x.mine.None? {
      BeginIsFine(w, x, o);
    } else if x.phase.Stages? {
      if Preparing(x.phase.point) {
        PrepareIsFine(w, x, o);
      } else {
        RecordIsFine(w, x, o);
      }
    } else if x.phase.Checking? {
      CheckIsFine(w, x);
    } else if x.phase.Closing? {
      CloseIsFine(w, x);
    } else if x.phase.Sealed? || x.phase.Written? {
      SaveIsFine(w, x);
    } else if x.phase.Finishing? || x.phase.Reread? || x.phase.Compared? {
      FinishIsFine(w, x);
    }
  }

  lemma RecordStaysFine(w: World, i: nat, e: Effect, run: string, id: string)
    requires FineFiles(w) && i < |w.runners| && FineEffect(w.begun, w.log, w.runners[i], e)
    requires RecordPath(run, id) in FilesAfter(w.files, e.write)
    ensures FineRecord(Logged(w.log, e.entry), run, id, FilesAfter(w.files, e.write)[RecordPath(run, id)])
  {
    var path := RecordPath(run, id);
    if path in w.files && FilesAfter(w.files, e.write)[path] == w.files[path] {
      assert FineRecord(w.log, run, id, w.files[path]);
    }
  }

  lemma FilesStayFine(w: World, i: nat, e: Effect)
    requires FineFiles(w) && i < |w.runners| && FineEffect(w.begun, w.log, w.runners[i], e)
    ensures FineFiles(Apply(w, i, e))
  {
    var v := Apply(w, i, e);
    forall run, id | RecordPath(run, id) in v.files ensures FineRecord(v.log, run, id, v.files[RecordPath(run, id)]) {
      RecordStaysFine(w, i, e, run, id);
    }
  }

  lemma RecordsStayAccounted(w: World, i: nat, e: Effect)
    requires Accounted(w) && i < |w.runners| && FineEffect(w.begun, w.log, w.runners[i], e)
    ensures Accounted(Apply(w, i, e))
  {
    var v := Apply(w, i, e);
    forall run, id | RecordPath(run, id) in v.files
      ensures exists j :: 0 <= j < |v.runners| && Engages(v.runners[j], run)
    {
      if RecordPath(run, id) in w.files {
        var j :| 0 <= j < |w.runners| && Engages(w.runners[j], run);
        assert Engages(v.runners[j], run);
      } else {
        assert Engages(v.runners[i], run);
      }
    }
  }

  lemma EffectKeepsBasics(w: World, i: nat, e: Effect)
    requires Basics(w) && i < |w.runners| && FineEffect(w.begun, w.log, w.runners[i], e)
    ensures Basics(Apply(w, i, e))
  {
    var v := Apply(w, i, e);
    FilesStayFine(w, i, e);
    RecordsStayAccounted(w, i, e);
    forall j | 0 <= j < |v.runners| ensures FineRunner(v.begun, v.log, v.runners[j]) {
      if j != i {
        RunnerStaysFine(w.begun, w.log, v.begun, v.log, w.runners[j]);
      }
    }
    forall receipt | Sealing(receipt) in v.log ensures CitesItsRun(v.begun, v.log, receipt) {
      if Sealing(receipt) in w.log {
        CitationsStay(w.begun, w.log, v.begun, v.log, receipt);
      }
    }
  }

  lemma CitationsStay(begun: map<string, Receipt>, log: seq<Entry>, begun1: map<string, Receipt>, log1: seq<Entry>,
                      receipt: Receipt)
    requires CitesItsRun(begun, log, receipt) && Grows(begun, log, begun1, log1)
    ensures CitesItsRun(begun1, log1, receipt)
  {
    LogKeeps(log, log1, Saw(receipt.run, receipt.inputs, false));
    LogKeeps(log, log1, Saw(receipt.run, receipt.inputs, true));
    forall k | 0 <= k < |receipt.plan.stages| ensures Proven(log1, receipt.run, receipt.plan.stages[k]) {
      ProvenStays(log, log1, receipt.run, receipt.plan.stages[k]);
    }
  }

  lemma MoveKeepsBasics(w: World, move: Move)
    requires Basics(w)
    ensures Basics(Next(w, move))
  {
    match move
    case Act(i, oracle) =>
      if i < |w.runners| {
        RunnerStepIsFine(w, w.runners[i], oracle);
        EffectKeepsBasics(w, i, RunnerStep(w, w.runners[i], oracle));
      }
    case Break(i) =>
      if i < |w.runners| {
        EffectKeepsBasics(w, i, To(w.runners[i], Stopped));
      }
    case Edit(tree) =>
    case Produce(path, content) =>
      var v := Next(w, move);
      assert forall run, id :: RecordPath(run, id) in v.files ==>
               RecordPath(run, id) in w.files && v.files[RecordPath(run, id)] == w.files[RecordPath(run, id)];
  }
}
