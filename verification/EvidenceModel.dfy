/**
  The files of a Full validation: the receipt, one record per stage, the reports and the built wheel
  (scripts/validation_plan.py, scripts/agentbridge_artifact.py).
  */
module EvidenceModel {
  import opened Options

  const EVIDENCE_VERSION := 2

  // ----- The plan -----

  /** A text of the plan, which may hold the place `{runId}`. */
  datatype Template = Template(before: string, hole: bool, after: string)

  function Resolve(value: Template, run: string): string {
    if value.hole then value.before + run + value.after else value.before
  }

  datatype Stage = Stage(id: string, command: seq<Template>, report: Option<Template>, junit: bool)

  datatype Plan = Plan(mcpApp: bool, stages: seq<Stage>)

  function PlannedCommand(stage: Stage, run: string): seq<string> {
    seq(|stage.command|, i requires 0 <= i < |stage.command| => Resolve(stage.command[i], run))
  }

  /** What `plan` always returns: stages, each under its own name, one of them reporting the wheel. */
  predicate WellPlanned(plan: Plan) {
    && (forall i, j :: 0 <= i < j < |plan.stages| ==> plan.stages[i].id != plan.stages[j].id)
    && (exists i :: 0 <= i < |plan.stages| && plan.stages[i].id == "installed-wheel" && plan.stages[i].report.Some?)
  }

  /** The tracked bytes, packages and tool versions, of which only the commit is ever looked into. */
  datatype Inputs = Inputs(commit: string, rest: string)

  /** What git, the installed packages and the test inventory say; `plans` lacks an option whose plan is refused. */
  datatype Tree = Tree(clean: bool, inputs: Inputs, plans: map<bool, Plan>)

  // ----- Files -----

  datatype Path =
    | ReceiptPath
    | TemporaryReceipt
    | RecordPath(run: string, stage: string)
    | ReportPath(name: string)
    | WheelPath(name: string)

  datatype Content =
    | ReceiptFile(receipt: Receipt)
    | RecordFile(record: Record)
    | JunitFile(cases: nat, failed: nat, skipped: nat)
    | ManifestFile(schema: string, commit: string, wheel: string, sha256: Digest)
    | Bytes(bytes: string)

  /** SHA-256, taken as injective. */
  datatype Digest = Sha256(of: Content)

  datatype Status = Running | Succeeded | Failed

  datatype Summary = Cases(cases: nat, failed: nat, skipped: nat) | Schema(name: string)

  datatype ReportEvidence = ReportEvidence(path: string, sha256: Digest, summary: Summary)

  datatype Record = Record(
    run: string, stage: Stage, command: seq<string>, status: Status, exitCode: Option<int>,
    report: Option<ReportEvidence>, times: nat)

  datatype Citation = Citation(id: string, path: Path, sha256: Digest)

  datatype Outcome = Outcome(
    checks: seq<string>, skipped: seq<string>, stageEvidence: seq<Citation>, pythonTests: Summary,
    manifest: string, manifestSha256: Digest)

  datatype Receipt = Receipt(
    version: nat, run: string, status: Status, inputs: Inputs, plan: Plan, outcome: Option<Outcome>)

  type Files = map<Path, Content>

  const PYTEST_REPORT := ReportPath("output/release-validation/pytest.xml")

  // ----- Reports -----

  /** `test_report`: no cases, or no JUnit file, is an error. */
  function TestReport(content: Content): Option<Summary> {
    if content.JunitFile? && content.cases > 0 then Some(Cases(content.cases, content.failed, content.skipped))
    else None
  }

  function SummaryOf(stage: Stage, content: Content): Option<Summary> {
    if stage.junit then TestReport(content)
    else if content.ManifestFile? then Some(Schema(content.schema))
    else None
  }

  /** Failures, or nothing that passed. */
  predicate BadTests(stage: Stage, summary: Summary) {
    stage.junit && summary.Cases? && (summary.failed > 0 || summary.cases - summary.failed - summary.skipped == 0)
  }

  // ----- What a receipt is checked against -----

  predicate GoodRecord(run: string, stage: Stage, record: Record) {
    && record.run == run
    && record.stage == stage
    && record.command == PlannedCommand(stage, run)
    && record.status == Succeeded
    && record.exitCode == Some(0)
  }

  predicate DigestMatches(files: Files, run: string, stage: Stage, record: Record) {
    stage.report.Some? ==>
      var name := Resolve(stage.report.value, run);
      && ReportPath(name) in files
      && record.report.Some?
      && record.report.value.path == name
      && record.report.value.sha256 == Sha256(files[ReportPath(name)])
  }

  predicate SummaryMatches(files: Files, run: string, stage: Stage, record: Record) {
    stage.report.Some? ==>
      var name := Resolve(stage.report.value, run);
      && ReportPath(name) in files
      && record.report.Some?
      && Some(record.report.value.summary) == SummaryOf(stage, files[ReportPath(name)])
      && !BadTests(stage, record.report.value.summary)
  }

  predicate GoodStage(files: Files, run: string, stage: Stage) {
    var path := RecordPath(run, stage.id);
    && path in files
    && files[path].RecordFile?
    && GoodRecord(run, stage, files[path].record)
    && DigestMatches(files, run, stage, files[path].record)
    && SummaryMatches(files, run, stage, files[path].record)
  }

  function CitationOf(files: Files, run: string, stage: Stage): Citation
    requires RecordPath(run, stage.id) in files
  {
    Citation(stage.id, RecordPath(run, stage.id), Sha256(files[RecordPath(run, stage.id)]))
  }

  function StageIds(stages: seq<Stage>): seq<string> {
    seq(|stages|, i requires 0 <= i < |stages| => stages[i].id)
  }
}
