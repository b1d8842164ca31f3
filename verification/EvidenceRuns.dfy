/**
  Full validations that run side by side over the same files (`run_full`, `execute_stage` and
  `verify_stages` of scripts/validation_plan.py; `begin` and `finish` of scripts/agentbridge_artifact.py).

  Every file read, file write, look at the tree and process start of every run is a step of its own, and
  the steps of the runs interleave in any order, between edits of the tree and arbitrary writes of report
  and wheel files.  Any run may break off before any step.
  */
module EvidenceRuns {
  import opened Options
  import opened EvidenceModel
  import opened EvidenceFinish

  // ----- States -----

  /** Where `execute_stage` stands. */
  datatype Point =
    | Ready
    | Admitted
    | Unrecorded
    | Cleared
    | Recorded
    | Launched
    | Exited(exit: Option<int>)
    | Summarized(code: int, summary: Option<Summary>)
    | Judged(record: Record)

  /** Where `verify_stages` stands with one stage. */
  datatype Check =
    | Unread
    | Read(record: Record)
    | Hashed(record: Record)
    | Matched

  /** Where `finish` stands once all stages are verified. */
  datatype Last =
    | Verified
    | Tested(tests: Summary)
    | Opened(tests: Summary, manifest: string, content: Content)
    | Weighed(tests: Summary, manifest: string)
    | Rechecked(tests: Summary, manifest: string)

  datatype Phase =
    | Start(mcpApp: bool)
    | Planned(plan: Plan)
    | Unlinked(plan: Plan)
    | Drafted(receipt: Receipt)
    | Staged
    | Begun
    | Stages(k: nat, point: Point)
    | Finishing
    | Reread(original: Receipt)
    | Compared(original: Receipt)
    | Checking(original: Receipt, cited: seq<Citation>, check: Check)
    | Closing(original: Receipt, cited: seq<Citation>, last: Last)
    | Sealed(receipt: Receipt)
    | Written
    | Done
    | Stopped

  /** One `run_full`: `mine` is the receipt it read back after `begin`; `engaged` once a stage was admitted. */
  datatype Runner = Runner(phase: Phase, mine: Option<Receipt>, engaged: bool)

  datatype Entry =
    | Launch(run: string, stage: string, command: seq<string>)
    | Saw(run: string, inputs: Inputs, last: bool)
    | Examined(record: Record)
    | Sealing(receipt: Receipt)

  datatype World = World(
    files: Files, tree: Tree, runners: seq<Runner>,
    begun: map<string, Receipt>,   // every receipt that `begin` ever drafted
    log: seq<Entry>)

  /** What a step is told from outside: a fresh run id, the exit of a process, the clock. */
  datatype Oracle = Oracle(run: string, exit: Option<int>, times: nat)

  datatype Move =
    | Act(i: nat, oracle: Oracle)
    | Break(i: nat)
    | Edit(tree: Tree)
    | Produce(path: Path, content: Option<Content>)

  // ----- One step of one run -----

  datatype Write =
    | Keep
    | Put(path: Path, content: Content)
    | Drop(path: Path)
    | Publish   // rename the temporary receipt over the receipt

  /** What a step does: where its run goes, the one file it touches, and what is begun or logged. */
  datatype Effect = Effect(runner: Runner, write: Write, drafted: Option<Receipt>, entry: Option<Entry>)

  function To(x: Runner, phase: Phase): Effect {
    Effect(x.(phase := phase), Keep, None, None)
  }

  function Writing(x: Runner, phase: Phase, write: Write): Effect {
    Effect(x.(phase := phase), write, None, None)
  }

  function Logging(x: Runner, phase: Phase, entry: Entry): Effect {
    Effect(x.(phase := phase), Keep, None, Some(entry))
  }

  function ReceiptAt(files: Files, path: Path): Option<Receipt> {
    if path in files && files[path].ReceiptFile? then Some(files[path].receipt) else None
  }

  /** `begin`, and reading the receipt back. */
  function BeginStep(w: World, x: Runner, o: Oracle): Effect {
    match x.phase
    case Start(mcpApp) =>
      if w.tree.clean && mcpApp in w.tree.plans && WellPlanned(w.tree.plans[mcpApp])
      then To(x, Planned(w.tree.plans[mcpApp]))
      else To(x, Stopped)
    case Planned(plan) => Writing(x, Unlinked(plan), Drop(PYTEST_REPORT))
    case Unlinked(plan) =>
      if o.run == "" || o.run in w.begun then To(x, x.phase)
      else
        var receipt := Receipt(EVIDENCE_VERSION, o.run, Running, w.tree.inputs, plan, None);
        Effect(x.(phase := Drafted(receipt)), Keep, Some(receipt), None)
    case Drafted(receipt) => Writing(x, Staged, Put(TemporaryReceipt, ReceiptFile(receipt)))
    case Staged => if TemporaryReceipt in w.files then Writing(x, Begun, Publish) else To(x, Stopped)
    case Begun =>
      if ReceiptAt(w.files, ReceiptPath).Some?
      then To(Runner(x.phase, ReceiptAt(w.files, ReceiptPath), false), Stages(0, Ready))
      else To(x, Stopped)
    case _ => To(x, x.phase)
  }

  /** The record of a command that ran. */
  function Judgement(mine: Receipt, stage: Stage, exit: Option<int>, report: Option<ReportEvidence>, good: bool,
                     times: nat): Record {
    Record(mine.run, stage, PlannedCommand(stage, mine.run), if good then Succeeded else Failed, exit, report, times)
  }

  /** The report a stage has to leave, once its command has exited. */
  function ReportFile(files: Files, mine: Receipt, stage: Stage): Option<Content> {
    if stage.report.None? then None
    else
      var path := ReportPath(Resolve(stage.report.value, mine.run));
      if path in files then Some(files[path]) else None
  }

  /** Before the command: admission, the attempt check, the stale report, the running record. */
  function PrepareStep(files: Files, x: Runner, mine: Receipt, k: nat, stage: Stage, o: Oracle): Effect
    requires x.phase.Stages?
  {
    var path := RecordPath(mine.run, stage.id);
    match x.phase.point
    case Ready =>
      var current := ReceiptAt(files, ReceiptPath);
      if current.Some? && current.value.run == mine.run && current.value.status == Running
         && stage in current.value.plan.stages
      then To(x.(engaged := true), Stages(k, Admitted))
      else To(x, Stopped)
    case Admitted =>
      if path in files then To(x, Stopped) else To(x, Stages(k, Unrecorded))
    case Unrecorded =>
      if stage.report.Some?
      then Writing(x, Stages(k, Cleared), Drop(ReportPath(Resolve(stage.report.value, mine.run))))
      else To(x, Stages(k, Cleared))
    case Cleared =>
      var record := Record(mine.run, stage, PlannedCommand(stage, mine.run), Running, None, None, o.times);
      Writing(x, Stages(k, Recorded), Put(path, RecordFile(record)))
    case Recorded =>
      Logging(x, Stages(k, Launched), Launch(mine.run, stage.id, PlannedCommand(stage, mine.run)))
    case _ => To(x, x.phase)
  }

  /** The command and after: its exit, its report read twice, and the final record. */
  function RecordStep(files: Files, x: Runner, mine: Receipt, k: nat, stage: Stage, o: Oracle): Effect
    requires x.phase.Stages?
  {
    match x.phase.point
    case Launched => To(x, Stages(k, Exited(o.exit)))
    case Exited(exit) =>
      var report := ReportFile(files, mine, stage);
      if exit.None? || (report.Some? && SummaryOf(stage, report.value).None?)
      then To(x, Stages(k, Judged(Judgement(mine, stage, exit, None, false, o.times))))
      else To(x, Stages(k, Summarized(exit.value, if report.Some? then SummaryOf(stage, report.value) else None)))
    case Summarized(code, summary) =>
      var report := ReportFile(files, mine, stage);
      var evidence := if summary.Some? && report.Some? && stage.report.Some?
                      then Some(ReportEvidence(
                                   Resolve(stage.report.value, mine.run), Sha256(report.value), summary.value))
                      else None;
      var good := code == 0 && (stage.report.Some? ==> evidence.Some? && !BadTests(stage, evidence.value.summary));
      To(x, Stages(k, Judged(Judgement(mine, stage, Some(code), evidence, good, o.times))))
    case Judged(record) =>
      Writing(x, if record.status == Succeeded then Stages(k + 1, Ready) else Stopped,
              Put(RecordPath(mine.run, stage.id), RecordFile(record)))
    case _ => To(x, x.phase)
  }

  predicate Preparing(point: Point) {
    point.Ready? || point.Admitted? || point.Unrecorded? || point.Cleared? || point.Recorded?
  }

  /** `execute_stage` for the next stage of the receipt read back. */
  function StageStep(files: Files, x: Runner, o: Oracle): Effect
    requires x.mine.Some? && x.phase.Stages?
  {
    var mine, k := x.mine.value, x.phase.k;
    if k >= |mine.plan.stages| then To(x, Finishing)
    else if Preparing(x.phase.point) then PrepareStep(files, x, mine, k, mine.plan.stages[k], o)
    else RecordStep(files, x, mine, k, mine.plan.stages[k], o)
  }

  /** One step of `verify_stages`. */
  function CheckStep(files: Files, x: Runner): Effect
    requires x.phase.Checking?
  {
    var Checking(original, cited, check) := x.phase;
    if |cited| >= |original.plan.stages| then To(x, Closing(original, cited, Verified))
    else
      var stage := original.plan.stages[|cited|];
      var path := RecordPath(original.run, stage.id);
      match check
      case Unread =>
        if path in files && files[path].RecordFile? && GoodRecord(original.run, stage, files[path].record)
        then Logging(x, Checking(original, cited, Read(files[path].record)), Examined(files[path].record))
        else To(x, Stopped)
      case Read(record) =>
        if DigestMatches(files, original.run, stage, record)
        then To(x, Checking(original, cited, Hashed(record)))
        else To(x, Stopped)
      case Hashed(record) =>
        if SummaryMatches(files, original.run, stage, record)
        then To(x, Checking(original, cited, Matched))
        else To(x, Stopped)
      case Matched =>
        if path in files
        then To(x, Checking(original, cited + [CitationOf(files, original.run, stage)], Unread))
        else To(x, Stopped)
  }

  /** `finish`, up to the stages. */
  function FinishStep(w: World, x: Runner, run: string): Effect {
    match x.phase
    case Finishing =>
      var original := ReceiptAt(w.files, ReceiptPath);
      if w.tree.clean && original.Some? && original.value.run == run
      then To(x, Reread(original.value))
      else To(x, Stopped)
    case Reread(original) =>
      if original.status == Running && original.inputs == w.tree.inputs
      then Logging(x, Compared(original), Saw(run, w.tree.inputs, false))
      else To(x, Stopped)
    case Compared(original) =>
      if PlanHolds(Snapshot(w.files, w.tree), original)
      then To(x, Checking(original, [], Unread))
      else To(x, Stopped)
    case _ => To(x, x.phase)
  }

  /** `finish` once all stages are verified: tests, manifest, wheel, and the inputs once more. */
  function CloseStep(w: World, x: Runner, original: Receipt, cited: seq<Citation>, last: Last): Effect {
    match last
    case Verified =>
      if PYTEST_REPORT in w.files && TestReport(w.files[PYTEST_REPORT]).Some?
      then To(x, Closing(original, cited, Tested(TestReport(w.files[PYTEST_REPORT]).value)))
      else To(x, Stopped)
    case Tested(tests) =>
      var manifest := ManifestName(original.plan.stages, original.run);
      if && manifest.Some? && ReportPath(manifest.value) in w.files
         && w.files[ReportPath(manifest.value)].ManifestFile?
         && w.files[ReportPath(manifest.value)].commit == original.inputs.commit
      then To(x, Closing(original, cited, Opened(tests, manifest.value, w.files[ReportPath(manifest.value)])))
      else To(x, Stopped)
    case Opened(tests, manifest, content) =>
      if && content.ManifestFile? && WheelPath(content.wheel) in w.files
         && Sha256(w.files[WheelPath(content.wheel)]) == content.sha256
      then To(x, Closing(original, cited, Weighed(tests, manifest)))
      else To(x, Stopped)
    case Weighed(tests, manifest) =>
      if w.tree.clean && original.inputs == w.tree.inputs
      then Logging(x, Closing(original, cited, Rechecked(tests, manifest)), Saw(original.run, w.tree.inputs, true))
      else To(x, Stopped)
    case Rechecked(tests, manifest) =>
      if ReportPath(manifest) in w.files
      then
        To(x, Sealed(original.(status := Succeeded, outcome := Some(Outcome(
          StageIds(original.plan.stages), [], cited, tests, manifest, Sha256(w.files[ReportPath(manifest)]))))))
      else To(x, Stopped)
  }

  /** Saving the succeeded receipt. */
  function SaveStep(w: World, x: Runner): Effect {
    match x.phase
    case Sealed(receipt) =>
      Effect(x.(phase := Written), Put(TemporaryReceipt, ReceiptFile(receipt)), None, Some(Sealing(receipt)))
    case Written => if TemporaryReceipt in w.files then Writing(x, Done, Publish) else To(x, Stopped)
    case _ => To(x, x.phase)
  }

  function RunnerStep(w: World, x: Runner, o: Oracle): Effect {
    if x.mine.None? then BeginStep(w, x, o)
    else if x.phase.Stages? then StageStep(w.files, x, o)
    else if x.phase.Checking? then CheckStep(w.files, x)
    else if x.phase.Closing? then CloseStep(w, x, x.phase.original, x.phase.cited, x.phase.last)
    else if x.phase.Sealed? || x.phase.Written? then SaveStep(w, x)
    else FinishStep(w, x, x.mine.value.run)
  }

  function FilesAfter(files: Files, write: Write): Files {
    match write
    case Keep => files
    case Put(path, content) => files[path := content]
    case Drop(path) => files - {path}
    case Publish =>
      if TemporaryReceipt in files
      then files[ReceiptPath := files[TemporaryReceipt]] - {TemporaryReceipt}
      else files
  }

  function Logged(log: seq<Entry>, entry: Option<Entry>): seq<Entry> {
    if entry.Some? then log + [entry.value] else log
  }

  function Drafting(begun: map<string, Receipt>, drafted: Option<Receipt>): map<string, Receipt> {
    if drafted.Some? then begun[drafted.value.run := drafted.value] else begun
  }

  function Apply(w: World, i: nat, e: Effect): World
    requires i < |w.runners|
  {
    World(
      FilesAfter(w.files, e.write), w.tree, w.runners[i := e.runner], Drafting(w.begun, e.drafted),
      Logged(w.log, e.entry))
  }

  /** A move.  Nobody but the runs writes the receipt or the records. */
  function Next(w: World, move: Move): World {
    match move
    case Act(i, oracle) => if i < |w.runners| then Apply(w, i, RunnerStep(w, w.runners[i], oracle)) else w
    case Break(i) => if i < |w.runners| then Apply(w, i, To(w.runners[i], Stopped)) else w
    case Edit(tree) => w.(tree := tree)
    case Produce(path, content) =>
      if !path.ReportPath? && !path.WheelPath? then w
      else w.(files := FilesAfter(w.files, if content.Some? then Put(path, content.value) else Drop(path)))
  }

  function Play(w: World, moves: seq<Move>): World
    decreases |moves|
  {
    if moves == [] then w else Play(Next(w, moves[0]), moves[1..])
  }

  /** Before any run: no receipt, no records. */
  predicate Initial(w: World) {
    && (forall i :: 0 <= i < |w.runners| ==>
          w.runners[i].phase.Start? && w.runners[i].mine.None? && !w.runners[i].engaged)
    && (forall path <- w.files :: path.ReportPath? || path.WheelPath?)
    && w.begun == map[] && w.log == []
  }
}
