/**
  What holds over whole runs.  `ReleaseProcess.Operate` shows that every sequence of processes, killed
  and failing anywhere, produces a `Lawful` sequence of states; these are its consequences.
  */
module ReleaseRuns {
  import opened Options
  import opened ReleaseWorld

  // ----- One step -----

  /** One step keeps every receipt, how it may change, and where each release started from. */
  lemma StepKeepsReceipts(configs: Configs, w: World, w': World, id: ReleaseId)
    requires Step(configs, w, w') && id in w.disk.receipts
    ensures id in w'.disk.receipts && ReceiptStep(w.disk.receipts[id], w'.disk.receipts[id])
    ensures id in w.disk.before ==> id in w'.disk.before && w'.disk.before[id] == w.disk.before[id]
    ensures w.disk.candidateRan <= w'.disk.candidateRan
  {
    if !Drifts(w, w') {
      var e: Event :| Happens(configs, w, w', e);
      Frame(w, e);
    }
  }

  lemma StepOpens(configs: Configs, w: World, w': World, id: ReleaseId)
    requires Step(configs, w, w') && id !in w.disk.receipts && id in w'.disk.receipts
    ensures id in w'.disk.before && w'.disk.before[id] == w.disk.live && w'.disk.live == w.disk.live
    ensures w'.disk.candidateRan == w.disk.candidateRan
    ensures w'.disk.receipts[id].status == Preparing || w'.disk.receipts[id].status == PreparationFailed
    ensures w'.disk.receipts[id].schemaBefore.None? && w'.timer == w.timer
    ensures forall other <- w.disk.receipts.Keys :: Terminal(w.disk.receipts[other].status)
  {
    var e: Event :| Happens(configs, w, w', e);
    Frame(w, e);
    assert e.Persist? && e.id == id;
  }

  lemma StepChangesStatus(configs: Configs, w: World, w': World, id: ReleaseId)
    requires Step(configs, w, w') && id in w.disk.receipts && id in w'.disk.receipts
    requires w'.disk.receipts[id].status != w.disk.receipts[id].status
    ensures NewReceipt(configs, w, id, w'.disk.receipts[id])
    ensures w'.disk.live == w.disk.live && w'.disk.candidateRan == w.disk.candidateRan
  {
    var e: Event :| Happens(configs, w, w', e);
    Frame(w, e);
    assert e.Persist? && e.id == id;
  }

  lemma StepRewrites(configs: Configs, w: World, w': World)
    requires Step(configs, w, w') && w'.disk.live != w.disk.live
    ensures RewriteAllowed(w)
  {
    var e: Event :| Happens(configs, w, w', e);
    Frame(w, e);
    assert e.Point? || e.WriteUnit? || e.WriteEnv?;
  }

  lemma StepStartsCandidate(configs: Configs, w: World, w': World, id: ReleaseId)
    requires Step(configs, w, w') && id !in w.disk.candidateRan && id in w'.disk.candidateRan
    ensures id in w.disk.receipts && w.disk.receipts[id].schemaBefore.Some?
  {
    var e: Event :| Happens(configs, w, w', e);
    Frame(w, e);
    assert e.StartService?;
  }

  lemma StepRunsPhase(configs: Configs, w: World, w': World, id: ReleaseId, phase: Phase)
    requires Step(configs, w, w')
    ensures w'.runs[(id, phase)] == w.runs[(id, phase)]
            || (PhaseAllowed(w, id, phase) && w'.runs[(id, phase)] == w.runs[(id, phase)] + 1)
  {
    if !Drifts(w, w') {
      var e: Event :| Happens(configs, w, w', e);
      Frame(w, e);
      if e.RunPhase? {
        assert e.phase == BackupTimer || e.phase == PostReleaseBackup;
      } else {
        assert w'.runs == w.runs;
      }
    }
  }

  /** A schema reading gets onto a receipt only while it is true, nothing runs and the old deployment is live. */
  lemma StepRecordsSchema(configs: Configs, w: World, w': World, id: ReleaseId)
    requires Step(configs, w, w') && id in w.disk.receipts && id in w'.disk.receipts
    requires w'.disk.receipts[id].schemaBefore != w.disk.receipts[id].schemaBefore
    ensures w.disk.receipts[id].schemaBefore.None? && w'.disk.receipts[id].schemaBefore == Some(w.schema)
    ensures w.running.None? && id !in w.disk.candidateRan
    ensures id in w.disk.before && w.disk.live == w.disk.before[id]
  {
    var e: Event :| Happens(configs, w, w', e);
    Frame(w, e);
    assert e.Persist? && e.id == id;
  }

  /** The service is started from what is live. */
  predicate Starts(w: World, w': World) {
    && w.running.None?
    && w'.running == Some(w.disk.live)
    && w'.disk.live == w.disk.live
    && w'.lastStart == Some(w.disk.live)
    && w'.lastSeen.None?
  }

  /** From state `m`, at which the service is started, to state `k` exactly `live` is live. */
  predicate StartedWith(t: seq<World>, m: nat, k: nat, live: Deployment) {
    m < k < |t| && Starts(t[m], t[m + 1]) && forall n :: m <= n <= k ==> t[n].disk.live == live
  }

  /** Unless a step starts the service, it keeps a start that still counts, and what is live with it. */
  lemma StepKeepsStart(configs: Configs, w: World, w': World)
    requires Step(configs, w, w') && w'.lastStart.Some? && !Starts(w, w')
    ensures w.lastStart == w'.lastStart && w'.disk.live == w.disk.live
  {
    if !Drifts(w, w') {
      var e: Event :| Happens(configs, w, w', e);
      Frame(w, e);
      match e
      case RunPhase(_, phase) => assert phase == BackupTimer || phase == PostReleaseBackup;
      case _ =>
    }
  }

  /** A reading that still counts was taken in the step itself or before it. */
  lemma StepKeepsReading(configs: Configs, w: World, w': World)
    requires Step(configs, w, w') && w'.lastSeen.Some? && w.lastSeen != w'.lastSeen
    ensures w'.lastSeen == Some(w.schema)
  {
    var e: Event :| Happens(configs, w, w', e);
    Frame(w, e);
  }

  /** A switch or a recovery that begins makes earlier starts count no more. */
  lemma StepBegins(configs: Configs, w: World, w': World, id: ReleaseId)
    requires Step(configs, w, w') && id in w.disk.receipts && id in w'.disk.receipts
    requires w'.disk.receipts[id].status != w.disk.receipts[id].status
    requires w'.disk.receipts[id].status == Switching || w'.disk.receipts[id].status == Recovering
    ensures w'.lastStart.None?
  {
    var e: Event :| Happens(configs, w, w', e);
    Frame(w, e);
    assert e.Persist? && e.id == id;
  }

  /** An active timer stays active, or the open release has on record that it was. */
  lemma StepKeepsTimer(configs: Configs, w: World, w': World, id: ReleaseId)
    requires Step(configs, w, w') && Unfinished(w.disk, id) && id in w'.disk.receipts
    requires w.timer || w.disk.receipts[id].timerWasActive
    ensures w'.timer || w'.disk.receipts[id].timerWasActive
  {
    StepKeepsReceipts(configs, w, w', id);
    if !Drifts(w, w') {
      var e: Event :| Happens(configs, w, w', e);
      Frame(w, e);
      match e
      case RunPhase(_, phase) => assert phase == BackupTimer || phase == PostReleaseBackup;
      case _ =>
    }
  }

  lemma StepAfterHandOver(configs: Configs, w: World, w': World, id: ReleaseId)
    requires Inv(configs, w.disk) && Step(configs, w, w')
    requires id in w.disk.receipts && w.disk.receipts[id].status == ManualRecoveryRequired
    ensures id in w'.disk.receipts && w'.disk.receipts[id].status == ManualRecoveryRequired
    ensures w'.disk.receipts.Keys == w.disk.receipts.Keys && w'.disk.live == w.disk.live
  {
    StepKeepsReceipts(configs, w, w', id);
    forall other | other in w'.disk.receipts ensures other in w.disk.receipts {
      if other !in w.disk.receipts {
        StepOpens(configs, w, w', other);
      }
    }
    forall other | other in w.disk.receipts ensures other in w'.disk.receipts {
      StepKeepsReceipts(configs, w, w', other);
    }
    if w'.disk.live != w.disk.live {
      StepRewrites(configs, w, w');
      var open :| open in w.disk.receipts && RewriteAllowedFor(w, open);
      assert Unfinished(w.disk, open) && Unfinished(w.disk, id);
    }
  }

  // ----- Whole runs -----

  lemma ReceiptsAt(configs: Configs, t: seq<World>, i: nat, id: ReleaseId)
    requires Lawful(configs, t) && i < |t| && id in t[i].disk.receipts
    ensures id in t[i].disk.before
    ensures i + 1 < |t| ==>
              && id in t[i + 1].disk.receipts
              && ReceiptStep(t[i].disk.receipts[id], t[i + 1].disk.receipts[id])
              && id in t[i + 1].disk.before && t[i + 1].disk.before[id] == t[i].disk.before[id]
              && t[i].disk.candidateRan <= t[i + 1].disk.candidateRan
  {
    LawfulAt(configs, t, i);
    assert GoodReceipt(configs, t[i].disk, id);
    if i + 1 < |t| {
      StepKeepsReceipts(configs, t[i], t[i + 1], id);
    }
  }

  lemma {:induction false} ReceiptsPersist(configs: Configs, t: seq<World>, i: nat, j: nat, id: ReleaseId)
    requires Lawful(configs, t) && i <= j < |t| && id in t[i].disk.receipts
    ensures id in t[j].disk.receipts && id in t[i].disk.before && id in t[j].disk.before
    ensures t[j].disk.before[id] == t[i].disk.before[id]
    ensures t[i].disk.receipts[id].schemaBefore.Some? ==>
              t[j].disk.receipts[id].schemaBefore == t[i].disk.receipts[id].schemaBefore
    ensures forall p: Phase :: Succeeded(t[i].disk.receipts[id], p) ==> Succeeded(t[j].disk.receipts[id], p)
    ensures t[i].disk.candidateRan <= t[j].disk.candidateRan
    decreases j - i
  {
    ReceiptsAt(configs, t, i, id);
    if i < j {
      ReceiptsPersist(configs, t, i + 1, j, id);
    }
  }

  /**
    `confirmed`, `rolled_back` and `preparation_failed` are final, and no entry point leaves
    `manual_recovery_required`; only the completion record of a confirmed release is still written.
    */
  lemma {:induction false} ClosedStaysClosed(configs: Configs, t: seq<World>, i: nat, j: nat, id: ReleaseId)
    requires Lawful(configs, t) && i <= j < |t|
    requires id in t[i].disk.receipts && Closed(t[i].disk.receipts[id].status)
    ensures id in t[j].disk.receipts && t[j].disk.receipts[id].status == t[i].disk.receipts[id].status
    ensures t[i].disk.receipts[id].status != Confirmed ==> t[j].disk.receipts[id] == t[i].disk.receipts[id]
    ensures t[j].disk.receipts[id] == t[i].disk.receipts[id].(completion := t[j].disk.receipts[id].completion)
    decreases j - i
  {
    if i < j {
      ReceiptsAt(configs, t, i, id);
      ClosedStaysClosed(configs, t, i + 1, j, id);
    }
  }

  /** In every reachable state at most one release is unfinished. */
  lemma AtMostOneUnfinished(configs: Configs, t: seq<World>, i: nat, a: ReleaseId, b: ReleaseId)
    requires Lawful(configs, t) && i < |t| && Unfinished(t[i].disk, a) && Unfinished(t[i].disk, b)
    ensures a == b
  {
    LawfulAt(configs, t, i);
  }

  lemma AfterHandOverAt(configs: Configs, t: seq<World>, i: nat, id: ReleaseId)
    requires Lawful(configs, t) && i + 1 < |t|
    requires id in t[i].disk.receipts && t[i].disk.receipts[id].status == ManualRecoveryRequired
    ensures id in t[i + 1].disk.receipts && t[i + 1].disk.receipts[id].status == ManualRecoveryRequired
    ensures t[i + 1].disk.receipts.Keys == t[i].disk.receipts.Keys && t[i + 1].disk.live == t[i].disk.live
  {
    LawfulAt(configs, t, i);
    StepAfterHandOver(configs, t[i], t[i + 1], id);
  }

  /** After a hand-over to an operator no release is ever opened and nothing live is rewritten by any entry point. */
  lemma {:induction false} HandOverBlocksEveryRelease(configs: Configs, t: seq<World>, i: nat, j: nat, id: ReleaseId)
    requires Lawful(configs, t) && i <= j < |t|
    requires id in t[i].disk.receipts && t[i].disk.receipts[id].status == ManualRecoveryRequired
    ensures t[j].disk.receipts.Keys == t[i].disk.receipts.Keys
    ensures t[j].disk.live == t[i].disk.live
    decreases j - i
  {
    if i < j {
      AfterHandOverAt(configs, t, i, id);
      HandOverBlocksEveryRelease(configs, t, i + 1, j, id);
    }
  }

  // ----- Rollback exactness -----

  lemma OpensAt(configs: Configs, t: seq<World>, p: nat, id: ReleaseId)
    requires Lawful(configs, t) && p + 1 < |t| && id !in t[p].disk.receipts && id in t[p + 1].disk.receipts
    ensures id in t[p + 1].disk.before && t[p + 1].disk.before[id] == t[p].disk.live == t[p + 1].disk.live
    ensures t[p + 1].disk.receipts[id].status == Preparing || t[p + 1].disk.receipts[id].status == PreparationFailed
    ensures t[p + 1].disk.receipts[id].schemaBefore.None? && t[p + 1].timer == t[p].timer
    ensures id !in t[p + 1].disk.candidateRan
  {
    LawfulAt(configs, t, p);
    StepOpens(configs, t[p], t[p + 1], id);
  }

  lemma StartsAt(configs: Configs, t: seq<World>, i: nat)
    requires Lawful(configs, t) && i + 1 < |t| && t[i + 1].lastStart.Some?
    ensures Starts(t[i], t[i + 1]) || (t[i].lastStart == t[i + 1].lastStart && t[i + 1].disk.live == t[i].disk.live)
  {
    LawfulAt(configs, t, i);
    if !Starts(t[i], t[i + 1]) {
      StepKeepsStart(configs, t[i], t[i + 1]);
    }
  }

  lemma ReadsAt(configs: Configs, t: seq<World>, i: nat)
    requires Lawful(configs, t) && i + 1 < |t| && t[i + 1].lastSeen.Some? && t[i].lastSeen != t[i + 1].lastSeen
    ensures t[i + 1].lastSeen == Some(t[i].schema)
  {
    LawfulAt(configs, t, i);
    StepKeepsReading(configs, t[i], t[i + 1]);
  }

  lemma BeginsAt(configs: Configs, t: seq<World>, i: nat, id: ReleaseId)
    requires Lawful(configs, t) && i + 1 < |t| && id in t[i].disk.receipts && id in t[i + 1].disk.receipts
    requires t[i + 1].disk.receipts[id].status != t[i].disk.receipts[id].status
    requires t[i + 1].disk.receipts[id].status == Switching || t[i + 1].disk.receipts[id].status == Recovering
    ensures t[i + 1].lastStart.None?
    ensures t[i + 1].disk.receipts[id].status == Switching ==> t[i + 1].disk.receipts[id].schemaBefore.Some?
  {
    LawfulAt(configs, t, i);
    LawfulAt(configs, t, i + 1);
    StepBegins(configs, t[i], t[i + 1], id);
    assert GoodReceipt(configs, t[i + 1].disk, id);
  }

  lemma RecordsSchemaAt(configs: Configs, t: seq<World>, i: nat, id: ReleaseId)
    requires Lawful(configs, t) && i + 1 < |t| && id in t[i].disk.receipts && id in t[i + 1].disk.receipts
    requires t[i].disk.receipts[id].schemaBefore.None? && t[i + 1].disk.receipts[id].schemaBefore.Some?
    ensures RecordedAt(t, i, id)
  {
    LawfulAt(configs, t, i);
    StepRecordsSchema(configs, t[i], t[i + 1], id);
  }

  lemma TimerAt(configs: Configs, t: seq<World>, i: nat, id: ReleaseId)
    requires Lawful(configs, t) && i + 1 < |t| && Unfinished(t[i].disk, id) && id in t[i + 1].disk.receipts
    requires t[i].timer || t[i].disk.receipts[id].timerWasActive
    ensures t[i + 1].timer || t[i + 1].disk.receipts[id].timerWasActive
  {
    LawfulAt(configs, t, i);
    StepKeepsTimer(configs, t[i], t[i + 1], id);
  }

  /** A candidate that ran has a schema on record. */
  lemma CandidateHasSchema(configs: Configs, t: seq<World>, i: nat, id: ReleaseId)
    requires Lawful(configs, t) && i < |t| && id in t[i].disk.receipts && id in t[i].disk.candidateRan
    ensures t[i].disk.receipts[id].schemaBefore.Some?
  {
    LawfulAt(configs, t, i);
    assert GoodReceipt(configs, t[i].disk, id);
  }

  lemma ClosesAt(configs: Configs, t: seq<World>, k: nat, id: ReleaseId)
    requires Lawful(configs, t) && k + 1 < |t| && id in t[k].disk.receipts && id in t[k + 1].disk.receipts
    requires t[k].disk.receipts[id].status != t[k + 1].disk.receipts[id].status
    ensures NewReceipt(configs, t[k], id, t[k + 1].disk.receipts[id])
    ensures t[k + 1].disk.live == t[k].disk.live && t[k + 1].disk.candidateRan == t[k].disk.candidateRan
  {
    LawfulAt(configs, t, k);
    StepChangesStatus(configs, t[k], t[k + 1], id);
  }

  lemma {:induction false} FirstReceipt(t: seq<World>, i: nat, j: nat, id: ReleaseId) returns (p: nat)
    requires i <= j < |t|
    requires id !in t[i].disk.receipts && id in t[j].disk.receipts
    ensures i <= p < j && id !in t[p].disk.receipts && id in t[p + 1].disk.receipts
    decreases j - i
  {
    if id in t[i + 1].disk.receipts {
      p := i;
    } else {
      p := FirstReceipt(t, i + 1, j, id);
    }
  }

  /** The step at which a release first has a receipt, if it has none in state `i`. */
  lemma Opening(configs: Configs, t: seq<World>, i: nat, j: nat, id: ReleaseId) returns (p: nat)
    requires Lawful(configs, t) && i <= j < |t|
    requires id !in t[i].disk.receipts && id in t[j].disk.receipts
    ensures i <= p < j && id !in t[p].disk.receipts && id in t[p + 1].disk.receipts
    ensures id in t[j].disk.before && t[j].disk.before[id] == t[p].disk.live
  {
    p := FirstReceipt(t, i, j, id);
    OpensAt(configs, t, p, id);
    ReceiptsPersist(configs, t, p + 1, j, id);
  }

  lemma {:induction false} FirstStatus(t: seq<World>, i: nat, j: nat, id: ReleaseId) returns (k: nat)
    requires i <= j < |t| && forall m :: i <= m <= j ==> id in t[m].disk.receipts
    requires t[i].disk.receipts[id].status != t[j].disk.receipts[id].status
    ensures i <= k < j
    ensures t[k].disk.receipts[id].status != t[k + 1].disk.receipts[id].status == t[j].disk.receipts[id].status
    decreases j - i
  {
    if t[i + 1].disk.receipts[id].status == t[j].disk.receipts[id].status {
      k := i;
    } else {
      k := FirstStatus(t, i + 1, j, id);
    }
  }

  /** The step at which a release's status becomes the one it has in state `j`. */
  lemma Closing(configs: Configs, t: seq<World>, i: nat, j: nat, id: ReleaseId) returns (k: nat)
    requires Lawful(configs, t) && i <= j < |t|
    requires id in t[i].disk.receipts && id in t[j].disk.receipts
    requires t[i].disk.receipts[id].status != t[j].disk.receipts[id].status
    ensures i <= k < j && id in t[k].disk.receipts && id in t[k + 1].disk.receipts
    ensures t[k].disk.receipts[id].status != t[k + 1].disk.receipts[id].status == t[j].disk.receipts[id].status
  {
    forall m | i <= m <= j ensures id in t[m].disk.receipts {
      ReceiptsPersist(configs, t, i, m, id);
    }
    k := FirstStatus(t, i, j, id);
  }

  /** The start that still counts in state `k`, made after state `i`, with nothing live rewritten since. */
  lemma {:induction false} StartOf(configs: Configs, t: seq<World>, i: nat, k: nat) returns (m: nat)
    requires Lawful(configs, t) && i <= k < |t| && t[i].lastStart.None? && t[k].lastStart.Some?
    ensures i <= m < k && StartedWith(t, m, k, t[k].lastStart.value)
    decreases k
  {
    StartsAt(configs, t, k - 1);
    if Starts(t[k - 1], t[k]) {
      m := k - 1;
    } else {
      m := StartOf(configs, t, i, k - 1);
    }
  }

  /** The state in which the reading that still counts in state `k` was taken. */
  lemma {:induction false} ReadingOf(configs: Configs, t: seq<World>, i: nat, k: nat) returns (n: nat)
    requires Lawful(configs, t) && i <= k < |t| && t[i].lastSeen.None? && t[k].lastSeen.Some?
    ensures i <= n < k && t[k].lastSeen == Some(t[n].schema)
    decreases k
  {
    if t[k - 1].lastSeen == t[k].lastSeen {
      n := ReadingOf(configs, t, i, k - 1);
    } else {
      ReadsAt(configs, t, k - 1);
      n := k - 1;
    }
  }

  lemma {:induction false} TimerSince(configs: Configs, t: seq<World>, i: nat, k: nat, id: ReleaseId)
    requires Lawful(configs, t) && i <= k < |t|
    requires id in t[i].disk.receipts && id in t[k].disk.receipts && Unfinished(t[k].disk, id)
    requires t[i].timer || t[i].disk.receipts[id].timerWasActive
    ensures t[k].timer || t[k].disk.receipts[id].timerWasActive
    decreases k - i
  {
    if i < k {
      ReceiptsAt(configs, t, i, id);
      if Terminal(t[i].disk.receipts[id].status) {
        ClosedStaysClosed(configs, t, i, k, id);
      }
      TimerAt(configs, t, i, id);
      TimerSince(configs, t, i + 1, k, id);
    }
  }

  /**
    A release that is rolled back in any state was opened at some step `p`, durably began a recovery at `q`,
    and was recorded as rolled back at a later step `k`.  Between, the link, every unit and the env file may
    have changed any number of times, but at `k` they are what they were at `p`; the service, which did not
    run, was started from exactly that at a step `m` after the recovery began, and nothing live has been
    rewritten since.  A timer that was active at `p` is active again.
    */
  lemma RollbackIsExact(configs: Configs, t: seq<World>, j: nat, id: ReleaseId)
    returns (p: nat, q: nat, m: nat, k: nat)
    requires Lawful(configs, t) && j < |t| && id !in t[0].disk.receipts
    requires id in t[j].disk.receipts && t[j].disk.receipts[id].status == RolledBack
    ensures p < q < m < k < j
    ensures id !in t[p].disk.receipts && id in t[q + 1].disk.receipts && id in t[k].disk.receipts
    ensures id in t[k + 1].disk.receipts
    ensures t[q + 1].disk.receipts[id].status == Recovering == t[k].disk.receipts[id].status
    ensures t[k + 1].disk.receipts[id].status == RolledBack
    ensures t[k + 1].disk.live == t[k].disk.live == t[p].disk.live
    ensures StartedWith(t, m, k, t[p].disk.live)
    ensures t[p].timer ==> t[k].timer
  {
    p := Opening(configs, t, 0, j, id);
    OpensAt(configs, t, p, id);
    k := Closing(configs, t, p + 1, j, id);
    ClosesAt(configs, t, k, id);
    ReceiptsPersist(configs, t, k, j, id);
    q, m := WayBack(configs, t, p + 1, k, id);
    if t[p].timer {
      TimerSince(configs, t, p + 1, k, id);
    }
  }

  lemma WayBack(configs: Configs, t: seq<World>, i: nat, k: nat, id: ReleaseId) returns (q: nat, m: nat)
    requires Lawful(configs, t) && i <= k < |t| && id in t[i].disk.receipts && id in t[k].disk.receipts
    requires t[i].disk.receipts[id].status != Recovering == t[k].disk.receipts[id].status && t[k].lastStart.Some?
    ensures i <= q < m < k && id in t[q + 1].disk.receipts && t[q + 1].disk.receipts[id].status == Recovering
    ensures StartedWith(t, m, k, t[k].lastStart.value)
  {
    q := Closing(configs, t, i, k, id);
    BeginsAt(configs, t, q, id);
    m := StartOf(configs, t, q + 1, k);
  }

  /**
    A release whose preparation failed was opened at a step `p` and was recorded as failed at a step `k`,
    where what is live is as it was at `p` and the candidate has never been started.
    */
  lemma FailedPreparationTouchesNothing(configs: Configs, t: seq<World>, j: nat, id: ReleaseId)
    returns (p: nat, k: nat)
    requires Lawful(configs, t) && j < |t| && id !in t[0].disk.receipts
    requires id in t[j].disk.receipts && t[j].disk.receipts[id].status == PreparationFailed
    ensures p <= k < j && id !in t[p].disk.receipts && id in t[k + 1].disk.receipts
    ensures t[k + 1].disk.receipts[id].status == PreparationFailed
    ensures t[k + 1].disk.live == t[p].disk.live && id !in t[k + 1].disk.candidateRan
  {
    p := Opening(configs, t, 0, j, id);
    OpensAt(configs, t, p, id);
    if t[p + 1].disk.receipts[id].status == PreparationFailed {
      k := p;
    } else {
      k := Closing(configs, t, p + 1, j, id);
      ClosesAt(configs, t, k, id);
      ReceiptsPersist(configs, t, k, j, id);
    }
  }

  /**
    A confirmed release replaced exactly its own units, the env file and the link.  The service was started
    from exactly that at a step `m` after the switch began, and the schema change was authorized: from the
    schema of a state `r` before the switch to the schema of a state `n` after that start.
    */
  lemma ConfirmationIsExact(configs: Configs, t: seq<World>, j: nat, id: ReleaseId)
    returns (p: nat, r: nat, m: nat, n: nat, k: nat)
    requires Lawful(configs, t) && j < |t| && id !in t[0].disk.receipts
    requires id in t[j].disk.receipts && t[j].disk.receipts[id].status == Confirmed
    ensures p < r < m < n < k < j && id !in t[p].disk.receipts && id in t[k + 1].disk.receipts
    ensures t[k + 1].disk.receipts[id].status == Confirmed
    ensures t[k + 1].disk.live == CandidateOf(t[p].disk.live, id, configs(id))
    ensures RecordedAt(t, r, id) && t[r].disk.live == t[p].disk.live
    ensures StartedWith(t, m, k, t[k + 1].disk.live)
    ensures AuthorizedTransition(configs(id).compatibility, t[r].schema, t[n].schema)
  {
    p := Opening(configs, t, 0, j, id);
    OpensAt(configs, t, p, id);
    k := Closing(configs, t, p + 1, j, id);
    ClosesAt(configs, t, k, id);
    ReceiptsPersist(configs, t, k, j, id);
    r, m, n := WayToConfirmed(configs, t, p, k, id);
  }

  lemma WayToConfirmed(configs: Configs, t: seq<World>, p: nat, k: nat, id: ReleaseId)
    returns (r: nat, m: nat, n: nat)
    requires Lawful(configs, t) && p + 1 < k < |t| && id !in t[p].disk.receipts && id in t[p + 1].disk.receipts
    requires id in t[k].disk.receipts && t[k].disk.receipts[id].status == Checking
    requires t[k].lastStart.Some? && t[k].lastSeen.Some?
    ensures p < r < m < n < k && RecordedAt(t, r, id) && t[r].disk.live == t[p].disk.live
    ensures t[k].disk.receipts[id].schemaBefore == Some(t[r].schema) && t[k].lastSeen == Some(t[n].schema)
    ensures StartedWith(t, m, k, t[k].lastStart.value)
  {
    OpensAt(configs, t, p, id);
    ReceiptsPersist(configs, t, p + 1, k, id);
    PreparingFirst(configs, t, p, k, id);
    var q := SwitchBegins(configs, t, p + 1, k, id);
    m := StartOf(configs, t, q + 1, k);
    n := ReadingOf(configs, t, m + 1, k);
    r := SchemaWasRead(configs, t, p + 1, q + 1, id);
    ReceiptsPersist(configs, t, q + 1, k, id);
    ReceiptsPersist(configs, t, p + 1, r, id);
  }

  lemma PreparingFirst(configs: Configs, t: seq<World>, p: nat, k: nat, id: ReleaseId)
    requires Lawful(configs, t) && p + 1 <= k < |t| && id !in t[p].disk.receipts && id in t[p + 1].disk.receipts
    requires id in t[k].disk.receipts && t[k].disk.receipts[id].status != PreparationFailed
    ensures t[p + 1].disk.receipts[id].status == Preparing
  {
    OpensAt(configs, t, p, id);
    if t[p + 1].disk.receipts[id].status == PreparationFailed {
      ClosedStaysClosed(configs, t, p + 1, k, id);
    }
  }

  /** A transaction that is checking went through `switching`, with the schema on record. */
  lemma SwitchBegins(configs: Configs, t: seq<World>, i: nat, k: nat, id: ReleaseId) returns (q: nat)
    requires Lawful(configs, t) && i < k < |t| && id in t[i].disk.receipts && id in t[k].disk.receipts
    requires t[i].disk.receipts[id].status == Preparing && t[k].disk.receipts[id].status == Checking
    ensures i <= q < k && id in t[q + 1].disk.receipts && t[q + 1].disk.receipts[id].schemaBefore.Some?
    ensures t[q + 1].lastStart.None?
  {
    var c := Closing(configs, t, i, k, id);
    ClosesAt(configs, t, c, id);
    q := Closing(configs, t, i, c, id);
    BeginsAt(configs, t, q, id);
  }

  // ----- Schema guard -----

  /**
    From state `r` to the next the schema of state `r` went on record: nothing ran, the old deployment was
    live, and the candidate had never been started.
    */
  predicate RecordedAt(t: seq<World>, r: nat, id: ReleaseId) {
    && r + 1 < |t|
    && id in t[r].disk.receipts && id in t[r + 1].disk.receipts
    && t[r].disk.receipts[id].schemaBefore.None?
    && t[r + 1].disk.receipts[id].schemaBefore == Some(t[r].schema)
    && t[r].running.None? && id !in t[r].disk.candidateRan
    && id in t[r].disk.before && t[r].disk.live == t[r].disk.before[id]
  }

  lemma {:induction false} SchemaWasRead(configs: Configs, t: seq<World>, i: nat, j: nat, id: ReleaseId)
    returns (r: nat)
    requires Lawful(configs, t) && i <= j < |t| && id in t[i].disk.receipts && id in t[j].disk.receipts
    requires t[i].disk.receipts[id].schemaBefore.None? && t[j].disk.receipts[id].schemaBefore.Some?
    ensures i <= r < j && RecordedAt(t, r, id) && t[j].disk.receipts[id].schemaBefore == Some(t[r].schema)
    decreases j - i
  {
    ReceiptsAt(configs, t, i, id);
    if t[i + 1].disk.receipts[id].schemaBefore.Some? {
      r := i;
      RecordsSchemaAt(configs, t, i, id);
      ReceiptsPersist(configs, t, i + 1, j, id);
    } else {
      r := SchemaWasRead(configs, t, i + 1, j, id);
    }
  }

  /** Every schema on a receipt is the real one of a state in which only the old deployment was live and nothing ran. */
  lemma RecordedSchemaIsReal(configs: Configs, t: seq<World>, j: nat, id: ReleaseId) returns (r: nat)
    requires Lawful(configs, t) && j < |t| && id !in t[0].disk.receipts
    requires id in t[j].disk.receipts && t[j].disk.receipts[id].schemaBefore.Some?
    ensures r < j && RecordedAt(t, r, id) && t[j].disk.receipts[id].schemaBefore == Some(t[r].schema)
  {
    var p := Opening(configs, t, 0, j, id);
    OpensAt(configs, t, p, id);
    r := SchemaWasRead(configs, t, p + 1, j, id);
  }

  /** A candidate is first started only when the schema from before the switch, read at `r`, is already on disk. */
  lemma CandidateStartsAfterSchemaIsDurable(configs: Configs, t: seq<World>, i: nat, id: ReleaseId) returns (r: nat)
    requires Lawful(configs, t) && i + 1 < |t| && id !in t[0].disk.receipts
    requires id in t[i + 1].disk.candidateRan && id !in t[i].disk.candidateRan
    ensures r < i && RecordedAt(t, r, id)
    ensures id in t[i].disk.receipts && t[i].disk.receipts[id].schemaBefore == Some(t[r].schema)
  {
    LawfulAt(configs, t, i);
    StepStartsCandidate(configs, t[i], t[i + 1], id);
    r := RecordedSchemaIsReal(configs, t, i, id);
  }

  /** Only the one unfinished release rewrites what is live, with the service stopped. */
  lemma RewriteAt(configs: Configs, t: seq<World>, j: nat) returns (open: ReleaseId)
    requires Lawful(configs, t) && j + 1 < |t| && t[j + 1].disk.live != t[j].disk.live
    ensures open in t[j].disk.receipts && RewriteAllowedFor(t[j], open)
  {
    LawfulAt(configs, t, j);
    StepRewrites(configs, t[j], t[j + 1]);
    open :| open in t[j].disk.receipts && RewriteAllowedFor(t[j], open);
  }

  /**
    From the moment a candidate has been started, the link, units and env file are rewritten only while
    nothing runs and the schema is what it was at a state `r` before any start of the candidate: an
    authorized migration too forbids the rollback.
    */
  lemma RewriteNeedsUnchangedSchema(configs: Configs, t: seq<World>, i: nat, j: nat, id: ReleaseId) returns (r: nat)
    requires Lawful(configs, t) && i <= j && j + 1 < |t| && id !in t[0].disk.receipts
    requires id in t[i].disk.receipts && id in t[i].disk.candidateRan
    requires Unfinished(t[j].disk, id) && t[j + 1].disk.live != t[j].disk.live
    ensures t[j].disk.receipts[id].status == Recovering && t[j].running.None?
    ensures r < i && RecordedAt(t, r, id) && t[j].schema == t[r].schema
  {
    ReceiptsPersist(configs, t, i, j, id);
    var open := RewriteAt(configs, t, j);
    AtMostOneUnfinished(configs, t, j, id, open);
    CandidateHasSchema(configs, t, i, id);
    r := RecordedSchemaIsReal(configs, t, i, id);
  }

  /**
    End to end: a release whose candidate ran from other files than before and that was still rolled
    back went through a state `k`, after that start, in which nothing ran and the schema was what it had
    been at a state `r` before any start of the candidate.
    */
  lemma {:induction false} RollbackAfterStartSawTheOldSchema(
      configs: Configs, t: seq<World>, i: nat, j: nat, id: ReleaseId)
    returns (r: nat, k: nat)
    requires Lawful(configs, t) && i <= j < |t| && id !in t[0].disk.receipts
    requires id in t[i].disk.candidateRan && Unfinished(t[i].disk, id)
    requires id in t[j].disk.receipts && t[j].disk.receipts[id].status == RolledBack
    requires id in t[i].disk.before && t[i].disk.live != t[i].disk.before[id]
    ensures r < i <= k < j && RecordedAt(t, r, id)
    ensures t[k].running.None? && t[k].schema == t[r].schema
    decreases j - i
  {
    CandidateHasSchema(configs, t, i, id);
    r := RecordedSchemaIsReal(configs, t, i, id);
    k := OldSchemaSeen(configs, t, i, j, id);
  }

  lemma {:induction false} OldSchemaSeen(configs: Configs, t: seq<World>, i: nat, j: nat, id: ReleaseId)
    returns (k: nat)
    requires Lawful(configs, t) && i <= j < |t|
    requires id in t[i].disk.candidateRan && Unfinished(t[i].disk, id)
    requires id in t[j].disk.receipts && t[j].disk.receipts[id].status == RolledBack
    requires id in t[i].disk.before && t[i].disk.live != t[i].disk.before[id]
    ensures i <= k < j && t[k].running.None? && t[i].disk.receipts[id].schemaBefore == Some(t[k].schema)
    decreases j - i
  {
    ReceiptsAt(configs, t, i, id);
    if t[i + 1].disk.live != t[i].disk.live {
      k := i;
      RewriteSeesOldSchema(configs, t, i, id);
    } else {
      StaysUnfinished(configs, t, i, j, id);
      CandidateHasSchema(configs, t, i, id);
      ReceiptsPersist(configs, t, i, i + 1, id);
      k := OldSchemaSeen(configs, t, i + 1, j, id);
    }
  }

  lemma RewriteSeesOldSchema(configs: Configs, t: seq<World>, i: nat, id: ReleaseId)
    requires Lawful(configs, t) && i + 1 < |t| && t[i + 1].disk.live != t[i].disk.live
    requires id in t[i].disk.candidateRan && Unfinished(t[i].disk, id)
    ensures t[i].running.None? && t[i].disk.receipts[id].schemaBefore == Some(t[i].schema)
  {
    var open := RewriteAt(configs, t, i);
    AtMostOneUnfinished(configs, t, i, id, open);
  }

  /**
    A release that will be rolled back, and is not what it started from yet, is still unfinished after a
    step that rewrites nothing.
    */
  lemma StaysUnfinished(configs: Configs, t: seq<World>, i: nat, j: nat, id: ReleaseId)
    requires Lawful(configs, t) && i < j < |t| && Unfinished(t[i].disk, id) && id in t[i + 1].disk.receipts
    requires id in t[j].disk.receipts && t[j].disk.receipts[id].status == RolledBack
    requires id in t[i].disk.before && t[i].disk.live != t[i].disk.before[id]
    ensures Unfinished(t[i + 1].disk, id)
  {
    if t[i + 1].disk.receipts[id].status == RolledBack {
      ClosesAt(configs, t, i, id);
    } else if Terminal(t[i + 1].disk.receipts[id].status) {
      ClosedStaysClosed(configs, t, i + 1, j, id);
    }
  }

  // ----- Completion -----

  lemma RunsPhaseAt(configs: Configs, t: seq<World>, i: nat, id: ReleaseId, phase: Phase)
    requires Lawful(configs, t) && i + 1 < |t|
    ensures t[i + 1].runs[(id, phase)] == t[i].runs[(id, phase)]
            || (PhaseAllowed(t[i], id, phase) && t[i + 1].runs[(id, phase)] == t[i].runs[(id, phase)] + 1)
  {
    LawfulAt(configs, t, i);
    StepRunsPhase(configs, t[i], t[i + 1], id, phase);
  }

  /** A completion phase recorded as succeeded is never run again, through any crashes and repetitions. */
  lemma {:induction false} SucceededPhaseIsNeverRunAgain(configs: Configs, t: seq<World>, i: nat, j: nat,
                                                        id: ReleaseId, phase: Phase)
    requires Lawful(configs, t) && i <= j < |t|
    requires id in t[i].disk.receipts && Succeeded(t[i].disk.receipts[id], phase)
    ensures t[j].runs[(id, phase)] == t[i].runs[(id, phase)]
    decreases j - i
  {
    if i < j {
      ReceiptsAt(configs, t, i, id);
      RunsPhaseAt(configs, t, i, id, phase);
      SucceededPhaseIsNeverRunAgain(configs, t, i + 1, j, id, phase);
    }
  }

  /** The post-release backup never runs before the timer phase is on record as succeeded. */
  lemma {:induction false} BackupWaitsForTheTimer(configs: Configs, t: seq<World>, i: nat, j: nat, id: ReleaseId)
    requires Lawful(configs, t) && i <= j < |t|
    requires t[j].runs[(id, PostReleaseBackup)] > t[i].runs[(id, PostReleaseBackup)]
    ensures id in t[j].disk.receipts && Succeeded(t[j].disk.receipts[id], BackupTimer)
    ensures t[j].disk.receipts[id].status == Confirmed
    decreases j - i
  {
    RunsPhaseAt(configs, t, i, id, PostReleaseBackup);
    if t[i + 1].runs[(id, PostReleaseBackup)] > t[i].runs[(id, PostReleaseBackup)] {
      ReceiptsPersist(configs, t, i, j, id);
      ClosedStaysClosed(configs, t, i, j, id);
    } else {
      BackupWaitsForTheTimer(configs, t, i + 1, j, id);
    }
  }
}
