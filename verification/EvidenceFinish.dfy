/**
  Closing a validation and verifying it later, one caller at a time
  (scripts/agentbridge_artifact.py, `verify_stages` of scripts/validation_plan.py).
  */
module EvidenceFinish {
  import opened Options
  import opened EvidenceModel

  datatype Snapshot = Snapshot(files: Files, tree: Tree)

  // ----- What the checks accept -----

  function Citations(files: Files, run: string, stages: seq<Stage>): seq<Citation>
    requires forall k :: 0 <= k < |stages| ==> RecordPath(run, stages[k].id) in files
  {
    seq(|stages|, k requires 0 <= k < |stages| => CitationOf(files, run, stages[k]))
  }

  predicate PlanHolds(s: Snapshot, data: Receipt) {
    && data.version == EVIDENCE_VERSION
    && data.run != ""
    && data.plan.mcpApp in s.tree.plans
    && s.tree.plans[data.plan.mcpApp] == data.plan
  }

  predicate StagesHold(s: Snapshot, data: Receipt) {
    && PlanHolds(s, data)
    && (forall k :: 0 <= k < |data.plan.stages| ==> GoodStage(s.files, data.run, data.plan.stages[k]))
    && (data.status == Succeeded ==>
          && data.outcome.Some?
          && data.outcome.value.stageEvidence == Citations(s.files, data.run, data.plan.stages))
  }

  /** The artifact built from this commit, with its wheel still in place. */
  predicate ArtifactHolds(files: Files, manifest: string, commit: string) {
    && ReportPath(manifest) in files
    && var content := files[ReportPath(manifest)];
       && content.ManifestFile?
       && content.commit == commit
       && WheelPath(content.wheel) in files
       && Sha256(files[WheelPath(content.wheel)]) == content.sha256
  }

  /** The place of the installed-wheel report, if the plan has one. */
  function ManifestName(stages: seq<Stage>, run: string): Option<string> {
    if stages == [] then None
    else if stages[0].id != "installed-wheel" then ManifestName(stages[1..], run)
    else if stages[0].report.None? then None
    else Some(Resolve(stages[0].report.value, run))
  }

  predicate FinishHolds(s: Snapshot, expected: Option<string>) {
    && s.tree.clean
    && ReceiptPath in s.files
    && s.files[ReceiptPath].ReceiptFile?
    && var original := s.files[ReceiptPath].receipt;
       && (expected.Some? ==> original.run == expected.value)
       && original.status == Running
       && original.inputs == s.tree.inputs
       && StagesHold(s, original)
       && PYTEST_REPORT in s.files
       && TestReport(s.files[PYTEST_REPORT]).Some?
       && ManifestName(original.plan.stages, original.run).Some?
       && ArtifactHolds(s.files, ManifestName(original.plan.stages, original.run).value, s.tree.inputs.commit)
  }

  function Finished(s: Snapshot, expected: Option<string>): Receipt
    requires FinishHolds(s, expected)
  {
    var original := s.files[ReceiptPath].receipt;
    var manifest := ManifestName(original.plan.stages, original.run).value;
    original.(status := Succeeded, outcome := Some(Outcome(
      StageIds(original.plan.stages), [], Citations(s.files, original.run, original.plan.stages),
      TestReport(s.files[PYTEST_REPORT]).value, manifest, Sha256(s.files[ReportPath(manifest)]))))
  }

  predicate VerifyHolds(s: Snapshot) {
    && s.tree.clean
    && ReceiptPath in s.files
    && s.files[ReceiptPath].ReceiptFile?
    && var data := s.files[ReceiptPath].receipt;
       && StagesHold(s, data)
       && data.status == Succeeded
       && data.outcome.value.checks == StageIds(data.plan.stages)
       && data.outcome.value.skipped == []
       && data.inputs == s.tree.inputs
       && ReportPath(data.outcome.value.manifest) in s.files
       && Sha256(s.files[ReportPath(data.outcome.value.manifest)]) == data.outcome.value.manifestSha256
       && ArtifactHolds(s.files, data.outcome.value.manifest, data.inputs.commit)
  }

  // ----- The maintenance entry points -----

  class Workspace {
    var files: Files
    var tree: Tree

    ghost function Now(): Snapshot
      reads this
    {
      Snapshot(files, tree)
    }

    method VerifyStages(data: Receipt) returns (records: Option<seq<Citation>>)
      ensures records.Some? <==> StagesHold(Now(), data)
      ensures records.Some? ==> records.value == Citations(files, data.run, data.plan.stages)
    {
      records := None;
      if && data.version == EVIDENCE_VERSION && data.run != ""
         && data.plan.mcpApp in tree.plans && tree.plans[data.plan.mcpApp] == data.plan
      {
        var cited: seq<Citation> := [];
        for k := 0 to |data.plan.stages|
          invariant forall j :: 0 <= j < k ==> GoodStage(files, data.run, data.plan.stages[j])
          invariant |cited| == k
          invariant forall j :: 0 <= j < k ==> cited[j] == CitationOf(files, data.run, data.plan.stages[j])
        {
          if !GoodStage(files, data.run, data.plan.stages[k]) {
            return;
          }
          cited := cited + [CitationOf(files, data.run, data.plan.stages[k])];
        }
        assert cited == Citations(files, data.run, data.plan.stages);
        if data.status != Succeeded || (data.outcome.Some? && data.outcome.value.stageEvidence == cited) {
          records := Some(cited);
        }
      }
    }

    /** Saves the succeeded receipt exactly when every check holds, and otherwise changes nothing. */
    method Finish(expected: Option<string>) returns (ok: bool)
      modifies this`files
      ensures ok <==> FinishHolds(old(Now()), expected)
      ensures ok ==> files == old(files)[ReceiptPath := ReceiptFile(Finished(old(Now()), expected))]
      ensures !ok ==> files == old(files)
    {
      ok := false;
      if tree.clean && ReceiptPath in files && files[ReceiptPath].ReceiptFile? {
        var original := files[ReceiptPath].receipt;
        if (expected.Some? ==> original.run == expected.value) && original.status == Running
           && original.inputs == tree.inputs
        {
          var stages := VerifyStages(original);
          var manifest := ManifestName(original.plan.stages, original.run);
          if && stages.Some?
             && PYTEST_REPORT in files && TestReport(files[PYTEST_REPORT]).Some?
             && manifest.Some? && ArtifactHolds(files, manifest.value, tree.inputs.commit)
          {
            var outcome := Outcome(
              StageIds(original.plan.stages), [], stages.value, TestReport(files[PYTEST_REPORT]).value,
              manifest.value, Sha256(files[ReportPath(manifest.value)]));
            files := files[ReceiptPath := ReceiptFile(original.(status := Succeeded, outcome := Some(outcome)))];
            ok := true;
          }
        }
      }
    }

    method Verify() returns (ok: bool)
      ensures ok <==> VerifyHolds(Now())
    {
      ok := false;
      if tree.clean && ReceiptPath in files && files[ReceiptPath].ReceiptFile? {
        var data := files[ReceiptPath].receipt;
        var stages := VerifyStages(data);
        if && stages.Some? && data.status == Succeeded
           && data.outcome.value.checks == StageIds(data.plan.stages) && data.outcome.value.skipped == []
           && data.inputs == tree.inputs
           && ReportPath(data.outcome.value.manifest) in files
           && Sha256(files[ReportPath(data.outcome.value.manifest)]) == data.outcome.value.manifestSha256
        {
          ok := ArtifactHolds(files, data.outcome.value.manifest, data.inputs.commit);
        }
      }
    }
  }

  // ----- Verification after finish -----

  predicate Same(path: Path, a: Files, b: Files) {
    path in a && path in b && a[path] == b[path]
  }

  /** Every file that stands behind the receipt is what it was when the validation finished. */
  predicate NothingChanged(now: Snapshot, closed: Snapshot, data: Receipt, manifest: string)
    requires ReportPath(manifest) in closed.files && closed.files[ReportPath(manifest)].ManifestFile?
  {
    && data.plan.mcpApp in now.tree.plans && now.tree.plans[data.plan.mcpApp] == data.plan
    && now.tree.inputs == closed.tree.inputs
    && (forall k :: 0 <= k < |data.plan.stages| ==>
          Same(RecordPath(data.run, data.plan.stages[k].id), now.files, closed.files))
    && (forall k :: 0 <= k < |data.plan.stages| && data.plan.stages[k].report.Some? ==>
          Same(ReportPath(Resolve(data.plan.stages[k].report.value, data.run)), now.files, closed.files))
    && Same(ReportPath(manifest), now.files, closed.files)
    && Same(WheelPath(closed.files[ReportPath(manifest)].wheel), now.files, closed.files)
  }

  lemma GoodStageIsPinned(files: Files, before: Files, run: string, stage: Stage)
    requires GoodStage(before, run, stage)
    requires Same(RecordPath(run, stage.id), files, before)
    ensures GoodStage(files, run, stage) <==>
              (stage.report.Some? ==> Same(ReportPath(Resolve(stage.report.value, run)), files, before))
  {
  }

  /**
    As long as the receipt of a finished validation stands, `verify` succeeds if and only if the tree is
    clean and the plan, the inputs, every stage record, every report, the manifest and the wheel are what
    they were at `finish`.
    */
  lemma VerifyMeansNothingChanged(closed: Snapshot, expected: Option<string>, now: Snapshot)
    requires FinishHolds(closed, expected)
    requires ReceiptPath in now.files && now.files[ReceiptPath] == ReceiptFile(Finished(closed, expected))
    ensures var data := Finished(closed, expected);
            VerifyHolds(now) <==> now.tree.clean && NothingChanged(now, closed, data, data.outcome.value.manifest)
  {
    var data := Finished(closed, expected);
    var stages := data.plan.stages;
    assert data.outcome.value.stageEvidence == Citations(closed.files, data.run, stages);
    forall k | 0 <= k < |stages|
      ensures RecordPath(data.run, stages[k].id) in now.files ==>
                (CitationOf(now.files, data.run, stages[k]) == CitationOf(closed.files, data.run, stages[k])
                 <==> Same(RecordPath(data.run, stages[k].id), now.files, closed.files))
      ensures Same(RecordPath(data.run, stages[k].id), now.files, closed.files) ==>
                (GoodStage(now.files, data.run, stages[k]) <==>
                 (stages[k].report.Some? ==>
                    Same(ReportPath(Resolve(stages[k].report.value, data.run)), now.files, closed.files)))
    {
      assert GoodStage(closed.files, data.run, stages[k]);
      if Same(RecordPath(data.run, stages[k].id), now.files, closed.files) {
        GoodStageIsPinned(now.files, closed.files, data.run, stages[k]);
      }
    }
    if VerifyHolds(now) {
      var there := Citations(closed.files, data.run, stages);
      var here := Citations(now.files, data.run, stages);
      forall k | 0 <= k < |stages| ensures CitationOf(now.files, data.run, stages[k]) == there[k] {
        assert here[k] == there[k];
      }
    }
    if now.tree.clean && NothingChanged(now, closed, data, data.outcome.value.manifest) {
      assert forall k :: 0 <= k < |stages| ==> GoodStage(now.files, data.run, stages[k]);
      assert Citations(now.files, data.run, stages) == Citations(closed.files, data.run, stages);
    }
  }

  /** With nothing written since `finish`, `verify` succeeds. */
  lemma FinishedVerifies(closed: Snapshot, expected: Option<string>)
    requires FinishHolds(closed, expected)
    ensures VerifyHolds(closed.(files := closed.files[ReceiptPath := ReceiptFile(Finished(closed, expected))]))
  {
    VerifyMeansNothingChanged(
      closed, expected, closed.(files := closed.files[ReceiptPath := ReceiptFile(Finished(closed, expected))]));
  }
}
