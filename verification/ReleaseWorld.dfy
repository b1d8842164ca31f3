/**
  The durable world of a program release on one host, the atomic steps a release process can take
  on it, and what every single step must respect.  `Release` (ReleaseProcess.dfy) is the process.
  */
module ReleaseWorld {
  import opened Options

  type ReleaseId = string
  type UnitName = string
  type Content = string
  type Target = string

  /** One entry per SQLite file; a value stands for the file's schema and user version. */
  type Schema = map<string, string>

  datatype EnvFile = EnvFile(release: Option<ReleaseId>, rest: Content)

  /** What decides which program runs: the `current` link, the systemd units, the env file. */
  datatype Deployment = Deployment(current: Option<Target>, units: map<UnitName, Content>, env: EnvFile)

  datatype Transition = Transition(before: string, after: string)

  datatype Compatibility = NoMigration | ReviewedTransition(transitions: map<string, Transition>) | OtherPolicy

  datatype Config = Config(units: map<UnitName, Content>, compatibleFrom: set<ReleaseId>, compatibility: Compatibility)

  type Configs = ReleaseId -> Config

  datatype Status =
    | Unrecorded // in memory only, before the first stage
    | Preparing | Prepared | Stopping | Stopped | RecoveryPointCreated | Switching | Checking
    | Recovering | Confirmed | RolledBack | PreparationFailed | ManualRecoveryRequired

  datatype Phase = BackupTimer | PostReleaseBackup

  datatype PhaseStatus = PhaseRunning | PhaseFailed | PhaseSucceeded

  datatype Receipt = Receipt(
    status: Status,
    previousCurrent: Option<Target>,
    timerWasActive: bool,
    schemaBefore: Option<Schema>,
    completion: map<Phase, PhaseStatus>)

  /** The copies `prepare` makes under `previous/`. */
  datatype Saved = Saved(units: map<UnitName, Content>, env: EnvFile)

  /** Everything on disk; `before` and `candidateRan` are history, which no process reads. */
  datatype Disk = Disk(
    receipts: map<ReleaseId, Receipt>,
    staged: map<ReleaseId, map<UnitName, Content>>,
    saved: map<ReleaseId, Saved>,
    live: Deployment,
    before: map<ReleaseId, Deployment>, // `live` when the release's first receipt was written
    candidateRan: set<ReleaseId>)       // the service was started from something else than `before`

  datatype World = World(
    disk: Disk,
    running: Option<Deployment>, // what the service was started from, if it runs
    timer: bool,
    schema: Schema,
    // History again.
    lastStart: Option<Deployment>,      // the last start since a stop, a rewrite, or the begin of a switch or recovery
    lastSeen: Option<Schema>,           // the last schema reading since the last start
    runs: multiset<(ReleaseId, Phase)>) // completion commands launched

  const FRESH := Receipt(Unrecorded, None, false, None, map[])

  predicate Terminal(s: Status) {
    s == Confirmed || s == RolledBack || s == PreparationFailed
  }

  /** The four statuses `--recover` and a new run refuse to leave. */
  predicate Closed(s: Status) {
    Terminal(s) || s == ManualRecoveryRequired
  }

  predicate Unfinished(d: Disk, id: ReleaseId) {
    id in d.receipts && !Terminal(d.receipts[id].status)
  }

  function DirectoryOf(id: ReleaseId): Target {
    "releases/" + id
  }

  function CandidateEnv(id: ReleaseId): EnvFile {
    EnvFile(Some(id), "")
  }

  function CandidateOf(before: Deployment, id: ReleaseId, config: Config): Deployment {
    Deployment(Some(DirectoryOf(id)), before.units + config.units, CandidateEnv(id))
  }

  /** Schema digests are taken as injective, so a digest comparison is a comparison of values. */
  predicate AuthorizedTransition(policy: Compatibility, before: Schema, after: Schema) {
    match policy
    case NoMigration => before == after
    case OtherPolicy => false
    case ReviewedTransition(transitions) =>
      && transitions != map[]
      && before.Keys == after.Keys
      && transitions.Keys <= before.Keys
      && forall name <- before.Keys ::
           if name in transitions
           then before[name] == transitions[name].before && after[name] == transitions[name].after
           else before[name] == after[name]
  }

  // ----- Atomic steps -----

  datatype Event =
    | Persist(id: ReleaseId, receipt: Receipt)
    | StageUnit(id: ReleaseId, name: UnitName, content: Content)
    | SaveEnv(id: ReleaseId, env: EnvFile)
    | SaveUnit(id: ReleaseId, name: UnitName, content: Content)
    | Point(target: Option<Target>)
    | WriteUnit(name: UnitName, content: Content)
    | WriteEnv(env: EnvFile)
    | StartService
    | StopService
    | SetTimer(active: bool)
    | ReadSchema
    | RunPhase(id: ReleaseId, phase: Phase)
    | Command // a command that leaves the modelled world alone

  function SavedOf(d: Disk, id: ReleaseId): Saved {
    if id in d.saved then d.saved[id] else Saved(map[], EnvFile(None, ""))
  }

  function StagedOf(d: Disk, id: ReleaseId): map<UnitName, Content> {
    if id in d.staged then d.staged[id] else map[]
  }

  function Write(d: Disk, e: Event): Disk {
    match e
    case Persist(id, r) =>
      d.(receipts := d.receipts[id := r], before := if id in d.receipts then d.before else d.before[id := d.live])
    case StageUnit(id, n, c) => d.(staged := d.staged[id := StagedOf(d, id)[n := c]])
    case SaveEnv(id, env) => d.(saved := d.saved[id := SavedOf(d, id).(env := env)])
    case SaveUnit(id, n, c) => d.(saved := d.saved[id := SavedOf(d, id).(units := SavedOf(d, id).units[n := c])])
    case Point(t) => d.(live := d.live.(current := t))
    case WriteUnit(n, c) => d.(live := d.live.(units := d.live.units[n := c]))
    case WriteEnv(env) => d.(live := d.live.(env := env))
    case _ => d
  }

  function Launched(d: Disk): Disk {
    d.(candidateRan := d.candidateRan + Candidates(d))
  }

  /** The open release, if what is live is not what it started from. */
  function Candidates(d: Disk): set<ReleaseId> {
    set id | id in d.receipts && Unfinished(d, id) && id in d.before && d.before[id] != d.live
  }

  function Apply(w: World, e: Event): World {
    match e
    case StartService =>
      if w.running.Some? then w
      else
        w.(disk := Launched(w.disk), running := Some(w.disk.live), lastStart := Some(w.disk.live), lastSeen := None)
    case StopService => w.(running := None, lastStart := None)
    case SetTimer(active) => w.(timer := active)
    case ReadSchema => w.(lastSeen := Some(w.schema))
    case RunPhase(id, BackupTimer) => w.(timer := true, runs := w.runs + multiset{(id, BackupTimer)})
    case RunPhase(id, PostReleaseBackup) => w.(runs := w.runs + multiset{(id, PostReleaseBackup)})
    case Command => w
    case _ => w.(disk := Write(w.disk, e), lastStart := if Unsettles(e) then None else w.lastStart)
  }

  /** After these a start that was made before no longer counts. */
  predicate Unsettles(e: Event) {
    || e.Point? || e.WriteUnit? || e.WriteEnv?
    || (e.Persist? && (e.receipt.status == Switching || e.receipt.status == Recovering))
  }

  /** While the service runs it may change the data's schema or die; nothing else moves by itself. */
  predicate Drifts(w: World, w': World) {
    && w'.disk == w.disk && w'.timer == w.timer
    && w'.lastStart == w.lastStart && w'.lastSeen == w.lastSeen && w'.runs == w.runs
    && (w.running.None? ==> w' == w)
    && (w'.running == w.running || w'.running.None?)
  }

  /** Only the preparation copies may differ. */
  predicate SameStory(d: Disk, d': Disk) {
    d' == d.(staged := d'.staged, saved := d'.saved)
  }

  /**
    What recovery needs of a process whose memory may be ahead of its receipt: the receipt on disk is
    open and past preparation, and the process remembers at least what it says.  What it remembers beyond
    that is still true.
    */
  predicate Resumable(w: World, id: ReleaseId, memory: Receipt) {
    && Unfinished(w.disk, id)
    && var r := w.disk.receipts[id];
       && r.status != Preparing && r.status != ManualRecoveryRequired
       && memory.previousCurrent == r.previousCurrent && memory.completion == r.completion
       && SchemaIsReal(w, id, r, memory) && TimerIsReal(w, r, memory)
  }

  /** A schema reading that the receipt lacks is of now, while nothing runs and the old deployment is live. */
  predicate SchemaIsReal(w: World, id: ReleaseId, r: Receipt, r': Receipt) {
    r'.schemaBefore != r.schemaBefore ==>
      && r.schemaBefore.None?
      && r'.schemaBefore == Some(w.schema)
      && w.running.None?
      && id in w.disk.before && w.disk.live == w.disk.before[id] && id !in w.disk.candidateRan
  }

  /** A timer reading that the receipt lacks is of an active timer that is still active. */
  predicate TimerIsReal(w: World, r: Receipt, r': Receipt) {
    r'.timerWasActive != r.timerWasActive ==> r'.timerWasActive && w.timer
  }

  // ----- What one step must respect -----

  predicate NextStatus(s: Status, t: Status) {
    match s
    case Preparing => t == Prepared || t == PreparationFailed
    case Prepared => t == Stopping || t == Recovering || t == PreparationFailed || t == ManualRecoveryRequired
    case Stopping => t == Stopped || t == Recovering || t == ManualRecoveryRequired
    case Stopped => t == RecoveryPointCreated || t == Recovering || t == ManualRecoveryRequired
    case RecoveryPointCreated => t == Switching || t == Recovering || t == ManualRecoveryRequired
    case Switching => t == Checking || t == Recovering || t == ManualRecoveryRequired
    case Checking => t == Confirmed || t == Recovering || t == ManualRecoveryRequired
    case Recovering => t == Recovering || t == RolledBack || t == ManualRecoveryRequired
    case _ => t == s
  }

  predicate Succeeded(r: Receipt, phase: Phase) {
    phase in r.completion && r.completion[phase] == PhaseSucceeded
  }

  /** How one release's receipt may change in one step. */
  predicate ReceiptStep(r: Receipt, r': Receipt) {
    r' == r
    || (&& NextStatus(r.status, r'.status)
        && r'.previousCurrent == r.previousCurrent
        && (r.schemaBefore.Some? ==> r'.schemaBefore == r.schemaBefore)
        && (r.timerWasActive ==> r'.timerWasActive)
        && (Closed(r.status) ==> r.status == Confirmed && r' == r.(completion := r'.completion))
        && (forall p: Phase :: Succeeded(r, p) ==> Succeeded(r', p)))
  }

  /** A release enters `rolled_back` only from exactly the deployment it started from, restarted from it. */
  predicate RollbackJustified(w: World, id: ReleaseId) {
    && id in w.disk.before
    && w.disk.live == w.disk.before[id]
    && w.lastStart == Some(w.disk.before[id])
    && (id in w.disk.receipts && w.disk.receipts[id].timerWasActive ==> w.timer)
  }

  /** A release enters `confirmed` only with exactly its own files live, started, schema authorized. */
  predicate ConfirmationJustified(configs: Configs, w: World, id: ReleaseId) {
    && id in w.disk.before && id in w.disk.receipts
    && w.disk.live == CandidateOf(w.disk.before[id], id, configs(id))
    && w.lastStart == Some(w.disk.live)
    && w.disk.receipts[id].schemaBefore.Some? && w.lastSeen.Some?
    && AuthorizedTransition(configs(id).compatibility, w.disk.receipts[id].schemaBefore.value, w.lastSeen.value)
  }

  predicate NewReceipt(configs: Configs, w: World, id: ReleaseId, r: Receipt) {
    if id in w.disk.receipts then
      && ReceiptStep(w.disk.receipts[id], r)
      && SchemaIsReal(w, id, w.disk.receipts[id], r) && TimerIsReal(w, w.disk.receipts[id], r)
      && (w.disk.receipts[id].status != r.status ==>
            && (r.status == RolledBack ==> RollbackJustified(w, id))
            && (r.status == Confirmed ==> ConfirmationJustified(configs, w, id))
            && (r.status == PreparationFailed ==>
                  id in w.disk.before && w.disk.live == w.disk.before[id] && id !in w.disk.candidateRan))
    else
      && (r.status == Preparing || r.status == PreparationFailed)
      && r.schemaBefore.None? && !r.timerWasActive
      && (forall other <- w.disk.receipts.Keys :: Terminal(w.disk.receipts[other].status))
  }

  /** The link, a unit or the env file may be rewritten only by the one unfinished release. */
  predicate RewriteAllowed(w: World) {
    exists id <- w.disk.receipts.Keys :: RewriteAllowedFor(w, id)
  }

  predicate RewriteAllowedFor(w: World, id: ReleaseId)
    requires id in w.disk.receipts
  {
    var r := w.disk.receipts[id];
    && w.running.None?
    && (r.status == Switching || r.status == Recovering)
    && (id in w.disk.candidateRan ==> r.status == Recovering && r.schemaBefore == Some(w.schema))
  }

  /** A completion command runs only for the confirmed current release, in order, and not once recorded done. */
  predicate PhaseAllowed(w: World, id: ReleaseId, phase: Phase) {
    && id in w.disk.receipts
    && w.disk.receipts[id].status == Confirmed
    && w.disk.live.current == Some(DirectoryOf(id)) && w.disk.live.env.release == Some(id)
    && !Succeeded(w.disk.receipts[id], phase)
    && (phase == PostReleaseBackup ==> Succeeded(w.disk.receipts[id], BackupTimer))
  }

  /** An active timer may be stopped only once the open release has on record that it was active. */
  predicate TimerOnRecord(w: World) {
    forall id <- w.disk.receipts.Keys :: Unfinished(w.disk, id) && w.timer ==> w.disk.receipts[id].timerWasActive
  }

  predicate Allowed(configs: Configs, w: World, e: Event) {
    match e
    case Persist(id, r) => NewReceipt(configs, w, id, r)
    case Point(_) => RewriteAllowed(w)
    case WriteUnit(_, _) => RewriteAllowed(w)
    case WriteEnv(_) => RewriteAllowed(w)
    case StartService =>
      forall id <- w.disk.receipts.Keys ::
        Unfinished(w.disk, id) && id in w.disk.before && w.disk.before[id] != w.disk.live
        ==> w.disk.receipts[id].schemaBefore.Some?
    case SetTimer(active) => active || TimerOnRecord(w)
    case RunPhase(id, phase) => PhaseAllowed(w, id, phase)
    case _ => true
  }

  predicate Happens(configs: Configs, w: World, w': World, e: Event) {
    Allowed(configs, w, e) && w' == Apply(w, e)
  }

  /** What an event leaves alone. */
  lemma Frame(w: World, e: Event)
    ensures !e.Persist? ==> Apply(w, e).disk.receipts == w.disk.receipts && Apply(w, e).disk.before == w.disk.before
    ensures !e.Point? && !e.WriteUnit? && !e.WriteEnv? ==> Apply(w, e).disk.live == w.disk.live
    ensures !e.StartService? ==> Apply(w, e).disk.candidateRan == w.disk.candidateRan
    ensures w.disk.candidateRan <= Apply(w, e).disk.candidateRan <= w.disk.candidateRan + Candidates(w.disk)
    ensures !e.RunPhase? ==> Apply(w, e).runs == w.runs
    ensures !e.ReadSchema? && !e.StartService? ==> Apply(w, e).lastSeen == w.lastSeen
    ensures !e.SetTimer? && !e.RunPhase? ==> Apply(w, e).timer == w.timer
  {
    match e
    case RunPhase(_, phase) => assert phase == BackupTimer || phase == PostReleaseBackup;
    case StartService =>
    case _ =>
  }

  /** One step of a run: an allowed event, or the running service drifting. */
  ghost predicate Step(configs: Configs, w: World, w': World) {
    Drifts(w, w') || exists e: Event :: Happens(configs, w, w', e)
  }

  // ----- The inductive invariant -----

  predicate SavedExactly(configs: Configs, d: Disk, id: ReleaseId)
    requires id in d.before
  {
    && id in d.saved
    && d.saved[id].env == d.before[id].env
    && (forall n <- configs(id).units.Keys ::
          && n in d.before[id].units
          && n in d.saved[id].units && d.saved[id].units[n] == d.before[id].units[n]
          && n in StagedOf(d, id) && StagedOf(d, id)[n] == configs(id).units[n])
  }

  predicate GoodReceipt(configs: Configs, d: Disk, id: ReleaseId)
    requires id in d.receipts
  {
    var r := d.receipts[id];
    && id in d.before
    && r.status != Unrecorded
    && r.previousCurrent == d.before[id].current
    && (id in d.candidateRan ==> r.schemaBefore.Some?)
    && (Unfinished(d, id) ==>
          && (r.status != Preparing ==> SavedExactly(configs, d, id))
          && (r.status == Preparing || r.status == Prepared ==> !r.timerWasActive)
          && (r.status == Preparing || r.status == Prepared || r.status == Stopping || r.status == Stopped ==>
                r.schemaBefore.None?)
          && (r.status == RecoveryPointCreated || r.status == Switching || r.status == Checking ==>
                r.schemaBefore.Some?)
          && (r.status != Switching && r.status != Checking && r.status != Recovering
              && r.status != ManualRecoveryRequired ==>
                d.live == d.before[id] && id !in d.candidateRan)
          && (r.schemaBefore.None? ==> d.live == d.before[id] && id !in d.candidateRan)
          && d.live.units.Keys == d.before[id].units.Keys
          && (forall n <- d.live.units.Keys :: n in configs(id).units || d.live.units[n] == d.before[id].units[n]))
  }

  ghost predicate Inv(configs: Configs, d: Disk) {
    && (forall id {:trigger GoodReceipt(configs, d, id)} :: id in d.receipts ==> GoodReceipt(configs, d, id))
    && (forall a, b {:trigger Unfinished(d, a), Unfinished(d, b)}
          | a in d.receipts && b in d.receipts && Unfinished(d, a) && Unfinished(d, b) :: a == b)
    && d.candidateRan <= d.receipts.Keys
  }

  /** A run of the host: good states, each a step from the one before. */
  ghost predicate Lawful(configs: Configs, trace: seq<World>) {
    && trace != []
    && trace[0].lastSeen.None?
    && forall i: nat {:trigger LawfulIn(configs, trace, i)} :: i < |trace| ==> LawfulIn(configs, trace, i)
  }

  /** State `i` is good, and the step that led to it, if any, is one that the processes may take. */
  ghost predicate LawfulIn(configs: Configs, trace: seq<World>, i: nat)
    requires i < |trace|
  {
    Inv(configs, trace[i].disk) && (i > 0 ==> Step(configs, trace[i - 1], trace[i]))
  }

  lemma LawfulSnoc(configs: Configs, trace: seq<World>, w: World)
    requires Lawful(configs, trace)
    requires Inv(configs, w.disk) && Step(configs, trace[|trace| - 1], w)
    ensures Lawful(configs, trace + [w])
  {
    forall i: nat | i < |trace| + 1 ensures LawfulIn(configs, trace + [w], i) {
      if i < |trace| {
        assert LawfulIn(configs, trace, i);
      }
    }
  }

  lemma LawfulAt(configs: Configs, trace: seq<World>, i: nat)
    requires Lawful(configs, trace) && i < |trace|
    ensures Inv(configs, trace[i].disk)
    ensures i + 1 < |trace| ==> Step(configs, trace[i], trace[i + 1])
  {
    assert LawfulIn(configs, trace, i);
    if i + 1 < |trace| {
      assert LawfulIn(configs, trace, i + 1);
    }
  }

  /** Writing one release's receipt leaves every other release's receipt good. */
  lemma PersistKeepsInv(configs: Configs, d: Disk, id: ReleaseId, r: Receipt)
    requires Inv(configs, d)
    requires GoodReceipt(configs, Write(d, Persist(id, r)), id)
    requires id in d.receipts ==> Terminal(d.receipts[id].status) ==> Terminal(r.status)
    requires id !in d.receipts ==> forall other <- d.receipts.Keys :: Terminal(d.receipts[other].status)
    ensures Inv(configs, Write(d, Persist(id, r)))
  {
    var d' := Write(d, Persist(id, r));
    forall other | other in d'.receipts ensures GoodReceipt(configs, d', other) {
      if other != id {
        assert GoodReceipt(configs, d, other);
      }
    }
    forall a, b | a in d'.receipts && b in d'.receipts && Unfinished(d', a) && Unfinished(d', b) ensures a == b {
      assert a != id ==> Unfinished(d, a);
      assert b != id ==> Unfinished(d, b);
      assert id in d.receipts && Unfinished(d', id) ==> Unfinished(d, id);
    }
  }

  /** A write that keeps the receipts keeps the invariant if it keeps the one unfinished receipt good. */
  lemma RewriteKeepsInv(configs: Configs, d: Disk, d': Disk, id: ReleaseId)
    requires Inv(configs, d)
    requires Unfinished(d, id)
    requires d'.receipts == d.receipts && d'.before == d.before && d'.candidateRan == d.candidateRan
    requires GoodReceipt(configs, d', id)
    ensures Inv(configs, d')
  {
    forall other | other in d'.receipts ensures GoodReceipt(configs, d', other) {
      assert GoodReceipt(configs, d, other);
      assert other != id ==> !Unfinished(d, other);
    }
    forall a, b | a in d'.receipts && b in d'.receipts && Unfinished(d', a) && Unfinished(d', b) ensures a == b {
      assert Unfinished(d, a) && Unfinished(d, b);
    }
  }

  /** The invariant alone makes any start safe: nothing but `before` is live until `schemaBefore` is durable. */
  lemma StartIsSafe(configs: Configs, w: World)
    requires Inv(configs, w.disk)
    ensures Allowed(configs, w, StartService)
    ensures Inv(configs, Apply(w, StartService).disk)
  {
    var d, d' := w.disk, Launched(w.disk);
    forall id | id in d.receipts && Unfinished(d, id) && id in d.before && d.before[id] != d.live
      ensures d.receipts[id].schemaBefore.Some?
    {
      assert GoodReceipt(configs, d, id);
    }
    forall id | id in d'.receipts ensures GoodReceipt(configs, d', id) {
      assert GoodReceipt(configs, d, id);
    }
    forall a, b | a in d'.receipts && b in d'.receipts && Unfinished(d', a) && Unfinished(d', b) ensures a == b {
      assert Unfinished(d, a) && Unfinished(d, b);
    }
  }

  /** While a release is preparing nothing of it is live, so its preparation may be closed as failed. */
  lemma PreparationMayFail(configs: Configs, w: World, id: ReleaseId, r: Receipt)
    requires Inv(configs, w.disk) && (r.status == Preparing || r.status == Prepared)
    requires id in w.disk.receipts ==> w.disk.receipts[id] == r
    requires id !in w.disk.receipts ==>
               && r == FRESH.(status := Preparing, previousCurrent := w.disk.live.current)
               && forall other <- w.disk.receipts.Keys :: Terminal(w.disk.receipts[other].status)
    ensures Allowed(configs, w, Persist(id, r.(status := PreparationFailed)))
    ensures GoodReceipt(configs, Write(w.disk, Persist(id, r.(status := PreparationFailed))), id)
  {
    if id in w.disk.receipts {
      assert GoodReceipt(configs, w.disk, id);
    }
  }

  /** Copies of what is live are copies of `before` as long as the release is only preparing. */
  lemma CopiesAreExact(configs: Configs, d: Disk, id: ReleaseId)
    requires id in d.receipts && GoodReceipt(configs, d, id) && d.receipts[id].status == Preparing
    requires id in d.saved && d.saved[id].env == d.live.env
    requires forall n <- configs(id).units.Keys :: n in StagedOf(d, id) && StagedOf(d, id)[n] == configs(id).units[n]
    requires forall n <- configs(id).units.Keys ::
               n in d.live.units && n in d.saved[id].units && d.saved[id].units[n] == d.live.units[n]
    ensures SavedExactly(configs, d, id)
  {
    assert d.live == d.before[id];
  }

  lemma PreparationMayBegin(configs: Configs, w: World, id: ReleaseId, r: Receipt)
    requires Inv(configs, w.disk) && id !in w.disk.receipts
    requires forall other <- w.disk.receipts.Keys :: Terminal(w.disk.receipts[other].status)
    requires r == FRESH.(status := Preparing, previousCurrent := w.disk.live.current)
    ensures Allowed(configs, w, Persist(id, r))
    ensures GoodReceipt(configs, Write(w.disk, Persist(id, r)), id)
  {
    assert id !in w.disk.candidateRan;
  }

  /** A forward stage of the open transaction keeps its receipt good. */
  lemma StageMayAdvance(configs: Configs, d: Disk, id: ReleaseId, r: Receipt)
    requires Inv(configs, d) && Unfinished(d, id)
    requires ReceiptStep(d.receipts[id], r) && r.status != Unrecorded
    requires id in d.before && (!Terminal(r.status) && r.status != Preparing ==> SavedExactly(configs, d, id))
    requires r.status == RecoveryPointCreated || r.status == Switching || r.status == Checking ==> r.schemaBefore.Some?
    requires r.status == Prepared || r.status == Stopping || r.status == Stopped ==> r.schemaBefore.None?
    requires r.status == Prepared ==> !r.timerWasActive
    requires r.status != Preparing
    ensures GoodReceipt(configs, Write(d, Persist(id, r)), id)
  {
    assert GoodReceipt(configs, d, id);
    var d' := Write(d, Persist(id, r));
    assert d'.live == d.live && d'.before == d.before && d'.candidateRan == d.candidateRan;
    assert StagedOf(d', id) == StagedOf(d, id) && d'.saved == d.saved;
    assert SavedExactly(configs, d, id) ==> SavedExactly(configs, d', id);
  }

  /** The next forward stage of a switch may be written. */
  lemma AdvanceIsAllowed(configs: Configs, w: World, id: ReleaseId, memory: Receipt, name: Status)
    requires Inv(configs, w.disk) && Resumable(w, id, memory) && memory.status == w.disk.receipts[id].status
    requires name == Stopping || name == Stopped || name == RecoveryPointCreated || name == Switching
             || name == Checking
    requires NextStatus(memory.status, name)
    requires memory.schemaBefore.Some? <==> name != Stopping && name != Stopped
    ensures Allowed(configs, w, Persist(id, memory.(status := name)))
    ensures GoodReceipt(configs, Write(w.disk, Persist(id, memory.(status := name))), id)
  {
    assert GoodReceipt(configs, w.disk, id);
    StageMayAdvance(configs, w.disk, id, memory.(status := name));
  }

  /** Neither a stage that was not written nor one that was takes recovery away. */
  lemma ResumableStays(w: World, w': World, id: ReleaseId, memory: Receipt, name: Status)
    requires Resumable(w, id, memory)
    requires Drifts(w, w')
             || (Drifts(Apply(w, Persist(id, memory.(status := name))), w')
                 && !Terminal(name) && name != Preparing && name != ManualRecoveryRequired)
    ensures Resumable(w', id, memory.(status := name))
  {
  }

  /** A rewrite of one of the release's own files; `restoring` when it writes what was there before. */
  predicate OwnRewrite(configs: Configs, d: Disk, id: ReleaseId, e: Event, restoring: bool)
    requires id in d.before
  {
    match e
    case Point(t) => restoring ==> t == d.before[id].current
    case WriteUnit(n, c) =>
      n in configs(id).units && n in d.before[id].units && (restoring ==> c == d.before[id].units[n])
    case WriteEnv(env) => restoring ==> env == d.before[id].env
    case _ => false
  }

  lemma RewriteStaysGood(configs: Configs, d: Disk, id: ReleaseId, e: Event, restoring: bool)
    requires id in d.receipts && GoodReceipt(configs, d, id) && OwnRewrite(configs, d, id, e, restoring)
    requires d.receipts[id].status == if restoring then Recovering else Switching
    ensures GoodReceipt(configs, Write(d, e), id)
  {
    var d' := Write(d, e);
    assert d'.live.units.Keys == d.before[id].units.Keys;
    assert d.receipts[id].schemaBefore.None? ==> d'.live == d.live;
  }

  lemma RewriteIsSafe(configs: Configs, w: World, id: ReleaseId, e: Event, restoring: bool)
    requires Inv(configs, w.disk) && id in w.disk.receipts && id in w.disk.before
    requires RewriteAllowedFor(w, id) && OwnRewrite(configs, w.disk, id, e, restoring)
    requires w.disk.receipts[id].status == if restoring then Recovering else Switching
    ensures Allowed(configs, w, e)
    ensures Inv(configs, Write(w.disk, e))
  {
    RewriteStaysGood(configs, w.disk, id, e, restoring);
    RewriteKeepsInv(configs, w.disk, Write(w.disk, e), id);
  }

  /** From `w` to `w'` only what is live was rewritten. */
  predicate OnlyLive(w: World, w': World) {
    w' == w.(disk := w.disk.(live := w'.disk.live), lastStart := w'.lastStart)
  }

  /** `now` is `was` with the files outside `todo` installed. */
  predicate Replaced(now: map<UnitName, Content>, files: map<UnitName, Content>, todo: set<UnitName>,
                     was: map<UnitName, Content>) {
    && now.Keys == was.Keys
    && forall n <- was.Keys :: now[n] == if n in files && n !in todo then files[n] else was[n]
  }

  lemma ReplacedOne(now: map<UnitName, Content>, files: map<UnitName, Content>, todo: set<UnitName>,
                    was: map<UnitName, Content>, n: UnitName)
    requires Replaced(now, files, todo, was) && n in todo && n in files && n in was
    ensures Replaced(now[n := files[n]], files, todo - {n}, was)
  {
  }

  /** The copies of the named units. */
  function Copies(names: set<UnitName>, files: map<UnitName, Content>): map<UnitName, Content> {
    map n | n in names && n in files :: files[n]
  }

  /**
    Whatever mixture of units is live, installing the candidate's own gives the candidate.  They are staged,
    and each of them replaces a unit that was there before.
    */
  lemma InstalledUnits(configs: Configs, d: Disk, id: ReleaseId)
    requires Inv(configs, d) && id in d.receipts && d.receipts[id].status == Switching
    ensures id in d.before
    ensures Copies(configs(id).units.Keys, StagedOf(d, id)) == configs(id).units
    ensures configs(id).units.Keys <= d.live.units.Keys == d.before[id].units.Keys
    ensures d.live.units + configs(id).units == d.before[id].units + configs(id).units
  {
    assert GoodReceipt(configs, d, id);
  }

  /** Whatever mixture of units is live, putting the saved ones back gives the old ones. */
  lemma RestoredUnits(configs: Configs, d: Disk, id: ReleaseId, files: map<UnitName, Content>)
    requires Inv(configs, d) && id in d.receipts && d.receipts[id].status == Recovering
    requires files == Copies(configs(id).units.Keys, SavedOf(d, id).units)
    ensures id in d.before && SavedOf(d, id).env == d.before[id].env
    ensures d.receipts[id].previousCurrent == d.before[id].current
    ensures files.Keys == configs(id).units.Keys && files.Keys <= d.live.units.Keys == d.before[id].units.Keys
    ensures forall n <- files.Keys :: files[n] == d.before[id].units[n]
    ensures d.live.units + files == d.before[id].units
  {
    assert GoodReceipt(configs, d, id);
  }

  lemma ReplacedAll(now: map<UnitName, Content>, files: map<UnitName, Content>, was: map<UnitName, Content>)
    requires Replaced(now, files, {}, was) && files.Keys <= was.Keys
    ensures now == was + files
  {
  }
}
