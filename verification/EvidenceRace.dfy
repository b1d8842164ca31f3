/**
  Exactly when a stage can be launched twice: a run may read back a receipt that another run began, and the
  attempt check of `execute_stage` looks before it writes (scripts/validation_plan.py).
  */
module EvidenceRace {
  import opened Options
  import opened EvidenceModel
  import opened EvidenceFinish
  import opened EvidenceRuns
  import opened EvidenceSafety
  import opened EvidenceExclusion

  /** Every run has just read its receipt back, or broken off at any time; no stage has been admitted. */
  predicate Assembled(w: World) {
    forall i :: 0 <= i < |w.runners| ==>
      && !w.runners[i].engaged
      && (w.runners[i].phase == Stopped || (w.runners[i].phase == Stages(0, Ready) && w.runners[i].mine.Some?))
  }

  /** The run is about to execute its first stage, and holds the run id of the running receipt on disk. */
  predicate Contends(w: World, i: nat) {
    && i < |w.runners|
    && w.runners[i].phase == Stages(0, Ready)
    && w.runners[i].mine.Some?
    && ReceiptAt(w.files, ReceiptPath).Some?
    && w.runners[i].mine.value.run == ReceiptAt(w.files, ReceiptPath).value.run
    && ReceiptAt(w.files, ReceiptPath).value.status == Running
  }

  predicate TwoContend(w: World) {
    exists i, j :: 0 <= i < j < |w.runners| && Contends(w, i) && Contends(w, j)
  }

  // ----- Two contenders launch the first stage twice -----

  predicate Racing(w: World, i: nat, receipt: Receipt, point: Point) {
    && i < |w.runners|
    && w.runners[i].mine.Some?
    && w.runners[i].mine.value.run == receipt.run
    && w.runners[i].mine.value.plan == receipt.plan
    && w.runners[i].phase == Stages(0, point)
  }

  function After(point: Point): Point {
    match point
    case Ready => Admitted
    case Admitted => Unrecorded
    case Unrecorded => Cleared
    case Cleared => Recorded
    case _ => Launched
  }

  function ActOf(i: nat): Move {
    Act(i, Oracle("", None, 0))
  }

  function FirstLaunch(receipt: Receipt): Entry
    requires receipt.plan.stages != []
  {
    Launch(receipt.run, receipt.plan.stages[0].id, PlannedCommand(receipt.plan.stages[0], receipt.run))
  }

  lemma RacerAdvances(w: World, i: nat, j: nat, receipt: Receipt, point: Point, other: Point)
    requires i != j && Racing(w, i, receipt, point) && Racing(w, j, receipt, other)
    requires receipt.plan.stages != [] && Preparing(point)
    requires ReceiptAt(w.files, ReceiptPath) == Some(receipt) && receipt.status == Running
    requires point == Admitted ==> RecordPath(receipt.run, receipt.plan.stages[0].id) !in w.files
    ensures var v := Next(w, ActOf(i));
            && Racing(v, i, receipt, After(point)) && Racing(v, j, receipt, other)
            && ReceiptAt(v.files, ReceiptPath) == Some(receipt)
            && v.log == (if point == Recorded then w.log + [FirstLaunch(receipt)] else w.log)
            && (point != Cleared && RecordPath(receipt.run, receipt.plan.stages[0].id) !in w.files ==>
                  RecordPath(receipt.run, receipt.plan.stages[0].id) !in v.files)
  {
    var x, v := w.runners[i], Next(w, ActOf(i));
    var e := RunnerStep(w, x, Oracle("", None, 0));
    assert e == PrepareStep(w.files, x, x.mine.value, 0, receipt.plan.stages[0], Oracle("", None, 0));
    assert v == Apply(w, i, e);
  }

  lemma {:induction false} PlayOneMore(w: World, moves: seq<Move>, move: Move)
    ensures Play(w, moves + [move]) == Next(Play(w, moves), move)
    decreases |moves|
  {
    if moves == [] {
      assert moves + [move] == [move];
      assert Play(Next(w, move), []) == Next(w, move);
    } else {
      assert (moves + [move])[1..] == moves[1..] + [move];
      PlayOneMore(Next(w, moves[0]), moves[1..], move);
    }
  }

  /** Some moves lead from one world to the other. */
  ghost predicate Reaches(start: World, w: World) {
    exists moves :: Play(start, moves) == w
  }

  lemma ReachesItself(w: World)
    ensures Reaches(w, w)
  {
    assert Play(w, []) == w;
  }

  lemma More(start: World, w: World, move: Move) returns (v: World)
    requires Reaches(start, w)
    ensures Reaches(start, v) && v == Next(w, move)
  {
    var moves :| Play(start, moves) == w;
    PlayOneMore(start, moves, move);
    v := Next(w, move);
  }

  /** From the check for an earlier attempt to the launch. */
  lemma RacerLaunches(start: World, w: World, i: nat, j: nat, receipt: Receipt, other: Point) returns (v: World)
    requires Reaches(start, w) && i != j && Racing(w, i, receipt, Unrecorded) && Racing(w, j, receipt, other)
    requires ReceiptAt(w.files, ReceiptPath) == Some(receipt) && receipt.status == Running
    requires receipt.plan.stages != []
    ensures Reaches(start, v) && Racing(v, i, receipt, Launched) && Racing(v, j, receipt, other)
    ensures ReceiptAt(v.files, ReceiptPath) == Some(receipt)
    ensures v.log == w.log + [FirstLaunch(receipt)]
  {
    RacerAdvances(w, i, j, receipt, Unrecorded, other);
    v := More(start, w, ActOf(i));
    RacerAdvances(v, i, j, receipt, Cleared, other);
    v := More(start, v, ActOf(i));
    RacerAdvances(v, i, j, receipt, Recorded, other);
    v := More(start, v, ActOf(i));
  }

  /** From the first stage to just past the check for an earlier attempt. */
  lemma RacerFindsNoAttempt(start: World, w: World, i: nat, j: nat, receipt: Receipt, other: Point)
    returns (v: World)
    requires Reaches(start, w) && i != j && Racing(w, i, receipt, Ready) && Racing(w, j, receipt, other)
    requires ReceiptAt(w.files, ReceiptPath) == Some(receipt) && receipt.status == Running
    requires receipt.plan.stages != [] && RecordPath(receipt.run, receipt.plan.stages[0].id) !in w.files
    ensures Reaches(start, v) && Racing(v, i, receipt, Unrecorded) && Racing(v, j, receipt, other)
    ensures ReceiptAt(v.files, ReceiptPath) == Some(receipt)
    ensures RecordPath(receipt.run, receipt.plan.stages[0].id) !in v.files
    ensures v.log == w.log
  {
    RacerAdvances(w, i, j, receipt, Ready, other);
    v := More(start, w, ActOf(i));
    RacerAdvances(v, i, j, receipt, Admitted, other);
    v := More(start, v, ActOf(i));
  }

  lemma ContendersRace(w: World, i: nat, j: nat) returns (moves: seq<Move>)
    requires Basics(w) && Assembled(w) && i != j && Contends(w, i) && Contends(w, j)
    ensures !NoSecondLaunch(Play(w, moves).log)
  {
    var receipt := ReceiptAt(w.files, ReceiptPath).value;
    assert FineRunner(w.begun, w.log, w.runners[i]) && FineRunner(w.begun, w.log, w.runners[j]);
    assert RecordPath(receipt.run, receipt.plan.stages[0].id) !in w.files;
    ReachesItself(w);
    var v := RacerFindsNoAttempt(w, w, i, j, receipt, Ready);
    v := RacerFindsNoAttempt(w, v, j, i, receipt, Unrecorded);
    v := RacerLaunches(w, v, i, j, receipt, Unrecorded);
    v := RacerLaunches(w, v, j, i, receipt, Launched);
    var log, n := v.log, |w.log|;
    assert log == w.log + [FirstLaunch(receipt)] + [FirstLaunch(receipt)];
    assert SameStage(log[n], log[n + 1]);
    moves :| Play(w, moves) == v;
  }

  // ----- Without two contenders, one run at most moves on -----

  predicate Parked(files: Files, x: Runner) {
    && !x.engaged
    && (x.phase == Stopped
        || (x.phase == Stages(0, Ready) && x.mine.Some?
            && !(&& ReceiptAt(files, ReceiptPath).Some?
                 && ReceiptAt(files, ReceiptPath).value.run == x.mine.value.run
                 && ReceiptAt(files, ReceiptPath).value.status == Running)))
  }

  /** All runs but the `lead` are parked for good. */
  predicate Settled(w: World, lead: nat) {
    && (forall i :: 0 <= i < |w.runners| && i != lead ==> Parked(w.files, w.runners[i]))
    && (lead < |w.runners| ==>
          && w.runners[lead].mine.Some?
          && (w.runners[lead].phase.Sealed? ==> w.runners[lead].phase.receipt.status == Succeeded)
          && (w.runners[lead].phase.Written? ==>
                ReceiptAt(w.files, TemporaryReceipt).Some?
                && ReceiptAt(w.files, TemporaryReceipt).value.status == Succeeded))
  }

  predicate SavesOnlySuccess(x: Runner) {
    && x.mine.Some?
    && (x.phase.Sealed? ==> x.phase.receipt.status == Succeeded)
  }

  /** A run that has read its receipt back writes only succeeded receipts. */
  predicate SaveEffect(x: Runner, e: Effect) {
    && SavesOnlySuccess(e.runner)
    && (e.write.Put? ==> e.write.path != ReceiptPath)
    && (e.write.Put? && e.write.path == TemporaryReceipt ==>
          e.write.content.ReceiptFile? && e.write.content.receipt.status == Succeeded)
    && (e.write.Drop? ==> e.write.path.ReportPath?)
    && (e.write.Publish? ==> x.phase.Written? && !e.runner.phase.Written?)
    && (e.runner.phase.Written? && !x.phase.Written? ==> e.write.Put? && e.write.path == TemporaryReceipt)
  }

  lemma StageSaves(w: World, x: Runner, o: Oracle)
    requires SavesOnlySuccess(x) && x.phase.Stages?
    ensures SaveEffect(x, StageStep(w.files, x, o))
  {
  }

  lemma RunnerSaves(w: World, x: Runner, o: Oracle)
    requires SavesOnlySuccess(x)
    ensures SaveEffect(x, RunnerStep(w, x, o))
  {
    if x.phase.Stages? {
      StageSaves(w, x, o);
    }
  }

  lemma EffectKeepsSettled(w: World, lead: nat, e: Effect)
    requires Settled(w, lead) && lead < |w.runners| && SaveEffect(w.runners[lead], e)
    ensures Settled(Apply(w, lead, e), lead)
  {
  }

  lemma ParkedMoves(w: World, lead: nat, i: nat, o: Oracle)
    requires Settled(w, lead) && Basics(w) && i < |w.runners| && i != lead
    ensures Settled(Apply(w, i, RunnerStep(w, w.runners[i], o)), lead)
  {
    var x := w.runners[i];
    assert Parked(w.files, x) && FineRunner(w.begun, w.log, x);
    var e := RunnerStep(w, x, o);
    assert e == To(x, Stopped) || e == To(x, x.phase);
  }

  lemma MoveKeepsSettled(w: World, lead: nat, move: Move)
    requires Settled(w, lead) && Basics(w)
    ensures Settled(Next(w, move), lead)
  {
    match move
    case Act(i, oracle) =>
      if i == lead < |w.runners| {
        RunnerSaves(w, w.runners[i], oracle);
        EffectKeepsSettled(w, lead, RunnerStep(w, w.runners[i], oracle));
      } else if i < |w.runners| {
        ParkedMoves(w, lead, i, oracle);
      }
    case Break(i) =>
    case Edit(tree) =>
    case Produce(path, content) =>
  }

  lemma {:induction false} SettledRunsAreSafe(w: World, lead: nat, moves: seq<Move>)
    requires Kept(w) && Settled(w, lead)
    ensures NoSecondLaunch(Play(w, moves).log)
    decreases |moves|
  {
    if moves == [] {
      assert Apart(w);
    } else {
      MoveKeeps(w, moves[0]);
      MoveKeepsSettled(w, lead, moves[0]);
      SettledRunsAreSafe(Next(w, moves[0]), lead, moves[1..]);
    }
  }

  /** Without two contenders, all runs but one at most are parked. */
  lemma LeadOf(w: World) returns (lead: nat)
    requires Assembled(w) && !TwoContend(w)
    ensures Settled(w, lead)
  {
    lead := if exists i :: 0 <= i < |w.runners| && Contends(w, i)
            then var i :| 0 <= i < |w.runners| && Contends(w, i); i
            else |w.runners|;
    forall i | 0 <= i < |w.runners| && i != lead ensures Parked(w.files, w.runners[i]) {
      assert !Contends(w, i);
    }
  }

  /**
    Once every run has read its receipt back or has broken off, some continuation launches a stage twice if and
    only if two of them hold the run id of the running receipt on disk.
    */
  lemma LaunchedTwiceIffTwoContend(start: World, before: seq<Move>)
    requires Initial(start) && Assembled(Play(start, before))
    ensures var w := Play(start, before);
            (exists moves :: !NoSecondLaunch(Play(w, moves).log)) <==> TwoContend(w)
  {
    var w := Play(start, before);
    InitiallyKept(start);
    PlayKeeps(start, before);
    if TwoContend(w) {
      var i, j :| 0 <= i < j < |w.runners| && Contends(w, i) && Contends(w, j);
      var moves := ContendersRace(w, i, j);
    } else {
      var lead := LeadOf(w);
      forall moves ensures NoSecondLaunch(Play(w, moves).log) {
        SettledRunsAreSafe(w, lead, moves);
      }
    }
  }

  // ----- Two runs can come to contend -----

  predicate CanBegin(w: World, i: nat) {
    && i < |w.runners|
    && w.runners[i].phase.Start?
    && w.runners[i].mine.None?
    && w.tree.clean
    && w.runners[i].phase.mcpApp in w.tree.plans
    && WellPlanned(w.tree.plans[w.runners[i].phase.mcpApp])
  }

  function Acts(w: World, act: Move, n: nat): World {
    if n == 0 then w else Next(Acts(w, act, n - 1), act)
  }

  lemma {:induction false} PlayActs(start: World, moves: seq<Move>, act: Move, n: nat) returns (moves1: seq<Move>)
    ensures Play(start, moves1) == Acts(Play(start, moves), act, n)
  {
    if n == 0 {
      moves1 := moves;
    } else {
      moves1 := PlayActs(start, moves, act, n - 1);
      PlayOneMore(start, moves1, act);
      moves1 := moves1 + [act];
    }
  }

  /** A run that has begun: its receipt is on disk, and it is about to read it back. */
  predicate HasBegun(w: World, v: World, i: nat, run: string) {
    && i < |w.runners| == |v.runners|
    && v.tree == w.tree
    && v.runners == w.runners[i := w.runners[i].(phase := Begun)]
    && ReceiptAt(v.files, ReceiptPath).Some?
    && ReceiptAt(v.files, ReceiptPath).value.run == run
    && ReceiptAt(v.files, ReceiptPath).value.status == Running
    && v.begun.Keys == w.begun.Keys + {run}
  }

  lemma FiveActsBegin(w: World, i: nat, run: string)
    requires CanBegin(w, i) && run != "" && run !in w.begun
    ensures HasBegun(w, Acts(w, Act(i, Oracle(run, None, 0)), 5), i, run)
  {
    var act := Act(i, Oracle(run, None, 0));
    var w1 := Next(w, act);
    var w2 := Next(w1, act);
    var w3 := Next(w2, act);
    var w4 := Next(w3, act);
    assert w3.runners[i].phase.Drafted?;
    assert w4.runners[i].phase.Staged? && TemporaryReceipt in w4.files;
    assert w1 == Acts(w, act, 1);
    assert w2 == Acts(w, act, 2);
    assert w3 == Acts(w, act, 3);
    assert w4 == Acts(w, act, 4);
  }

  lemma RunBegins(start: World, moves: seq<Move>, i: nat, run: string) returns (moves1: seq<Move>)
    requires CanBegin(Play(start, moves), i) && run != "" && run !in Play(start, moves).begun
    ensures HasBegun(Play(start, moves), Play(start, moves1), i, run)
  {
    FiveActsBegin(Play(start, moves), i, run);
    moves1 := PlayActs(start, moves, Act(i, Oracle(run, None, 0)), 5);
  }

  /** Two begun runs that now read back one after the other hold the same receipt. */
  lemma BothReadBack(w: World, i: nat, j: nat)
    requires i != j && i < |w.runners| && j < |w.runners|
    requires w.runners[i].phase == Begun && w.runners[j].phase == Begun
    requires w.runners[i].mine.None? && w.runners[j].mine.None?
    requires ReceiptAt(w.files, ReceiptPath).Some? && ReceiptAt(w.files, ReceiptPath).value.status == Running
    ensures var v := Next(Next(w, ActOf(i)), ActOf(j));
            && Contends(v, i) && Contends(v, j) && !v.runners[i].engaged && !v.runners[j].engaged
            && |v.runners| == |w.runners| && v.files == w.files
  {
    var v := Next(w, ActOf(i));
    assert v.files == w.files && v.runners[j] == w.runners[j];
  }

  /** All runs below `n` but these two break off, whatever they were doing. */
  lemma {:induction false} OthersBreakOff(start: World, before: seq<Move>, i: nat, j: nat, n: nat)
    returns (moves: seq<Move>)
    requires n <= |Play(start, before).runners| && i != j
    ensures var w, v := Play(start, before), Play(start, moves);
            && |v.runners| == |w.runners| && v.files == w.files
            && (forall k :: 0 <= k < n && k != i && k != j ==>
                  v.runners[k] == w.runners[k].(phase := Stopped))
            && (forall k :: 0 <= k < |w.runners| && (k >= n || k == i || k == j) ==> v.runners[k] == w.runners[k])
  {
    if n == 0 {
      moves := before;
    } else {
      moves := OthersBreakOff(start, before, i, j, n - 1);
      if n - 1 != i && n - 1 != j {
        PlayOneMore(start, moves, Break(n - 1));
        moves := moves + [Break(n - 1)];
      }
    }
  }

  /**
    Among any number of runs, any two that can begin can both come to read back the receipt of the later one;
    when all others break off, they contend in an assembled state.
    */
  lemma ContentionIsReachable(start: World, i: nat, j: nat) returns (moves: seq<Move>)
    requires Initial(start) && i < j && CanBegin(start, i) && CanBegin(start, j)
    ensures Assembled(Play(start, moves)) && Contends(Play(start, moves), i) && Contends(Play(start, moves), j)
  {
    moves := RunBegins(start, [], i, "first");
    moves := RunBegins(start, moves, j, "second");
    moves := OthersBreakOff(start, moves, i, j, |Play(start, moves).runners|);
    BothReadBack(Play(start, moves), i, j);
    PlayOneMore(start, moves, ActOf(i));
    PlayOneMore(start, moves + [ActOf(i)], ActOf(j));
    moves := moves + [ActOf(i)] + [ActOf(j)];
  }
}
