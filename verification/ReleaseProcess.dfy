/**
  The release process itself, step by step: `Host` executes atomic steps that may work, fail or be
  cut short by a crash; `Release` is the transaction object; `Operate` is any sequence of runs,
  recoveries and completions, each of which may be killed anywhere.
  */
module ReleaseProcess {
  import opened Options
  import opened ReleaseWorld

  /** `Raised` is an exception the code can catch; `Killed` ends the process where it stands. */
  datatype Outcome = Done | Raised | Killed

  class Host {
    const configs: Configs
    const steady: bool // nothing goes wrong: no step raises or is cut short, and the service stays up
    const becomes: Deployment -> Option<Schema> // on a steady host: the schema a service brings about, if it sets one
    var w: World
    ghost const first: World
    ghost var trace: seq<World> // every state from `first` on

    ghost predicate Valid()
      reads this
    {
      trace != [] && trace[0] == first && trace[|trace| - 1] == w && Inv(configs, w.disk) && Lawful(configs, trace)
    }

    /** A host in a good state, perhaps with a release transaction left open, and with no process at work. */
    constructor (configs: Configs, w: World, steady: bool, becomes: Deployment -> Option<Schema>)
      requires Inv(configs, w.disk) && w.lastSeen.None?
      ensures Valid() && this.w == w && first == w
      ensures this.configs == configs && this.steady == steady && this.becomes == becomes
    {
      this.configs, this.steady, this.becomes := configs, steady, becomes;
      this.w := w;
      first := w;
      trace := [w];
    }

    /** The schema once a service that runs from `d` has done what it does to `schema`. */
    function After(d: Deployment, schema: Schema): Schema {
      if becomes(d).Some? then becomes(d).value else schema
    }

    function Rested(w: World): Schema {
      if w.running.Some? then After(w.running.value, w.schema) else w.schema
    }

    /** From `w` to `w'` no service was started or stopped, and one that runs has had its time. */
    predicate Quiet(w: World, w': World) {
      w'.running == w.running && w'.schema == Rested(w)
    }

    /** The running service changes the schema, dies, or does nothing. */
    method Drift()
      requires Valid()
      modifies this
      ensures Valid() && Drifts(old(w), w)
      ensures steady ==> Quiet(old(w), w)
    {
      var running := w.running;
      if running.Some? {
        var schema: Schema := *;
        var dies: bool := *;
        if steady {
          schema, dies := Rested(w), false;
        }
        var next := w.(schema := schema, running := if dies then None else running);
        LawfulSnoc(configs, trace, next);
        w := next;
        trace := trace + [next];
      }
    }

    /** While no process holds the lock the service may be restarted, as by a reboot, on whatever is live. */
    method Idle()
      requires Valid()
      modifies this
      ensures Valid()
    {
      var moves: int := *;
      while moves > 0
        invariant Valid()
      {
        var restart: bool := *;
        if restart {
          StartIsSafe(configs, w);
          Take(StartService);
        }
        Drift();
        moves := moves - 1;
      }
    }

    method Take(e: Event)
      requires Valid() && Allowed(configs, w, e) && Inv(configs, Apply(w, e).disk)
      modifies this
      ensures Valid() && w == Apply(old(w), e)
    {
      assert Happens(configs, w, Apply(w, e), e);
      w := Apply(w, e);
      LawfulSnoc(configs, trace, w);
      trace := trace + [w];
    }

    /**
      One atomic step.  A receipt or file write that raises has not happened (`clean`); a command may
      raise after it took effect; a crash may come before or after the effect.
      */
    method Commit(e: Event, clean: bool) returns (r: Outcome)
      requires Valid() && Allowed(configs, w, e) && Inv(configs, Apply(w, e).disk)
      modifies this
      ensures Valid()
      ensures r == Done ==> Drifts(Apply(old(w), e), w)
      ensures r == Raised ==> Drifts(old(w), w) || (!clean && Drifts(Apply(old(w), e), w))
      ensures steady ==> r == Done && Quiet(Apply(old(w), e), w)
    {
      r := *;
      var happens: bool := *;
      if steady {
        r := Done;
      }
      if r == Done || (happens && !(clean && r == Raised)) {
        Take(e);
      }
      Drift();
    }
  }

  /** A run that completes, that refuses to begin, or that closes its transaction with this status and raises. */
  datatype Ending = Completes | Refuses | Closes(status: Status)

  class Release {
    const host: Host
    const id: ReleaseId
    const config: Config
    var state: Receipt

    constructor (host: Host, id: ReleaseId)
      ensures this.host == host && this.id == id && config == host.configs(id) && state == FRESH
    {
      this.host := host;
      this.id := id;
      config := host.configs(id);
      state := FRESH;
    }

    ghost predicate Ours()
      reads this, host
    {
      host.Valid() && config == host.configs(id)
    }

    /** The process's state is what its receipt on disk says. */
    ghost predicate Synced()
      reads this, host
    {
      Ours() && id in host.w.disk.receipts && state == host.w.disk.receipts[id]
    }

    ghost predicate CanPersist(r: Receipt)
      reads this, host
    {
      && Allowed(host.configs, host.w, Persist(id, r))
      && GoodReceipt(host.configs, Write(host.w.disk, Persist(id, r)), id)
    }

    method Stage(name: Status) returns (r: Outcome)
      requires Ours() && CanPersist(state.(status := name))
      modifies this, host
      ensures Ours() && state == old(state).(status := name)
      ensures r == Done ==> Drifts(Apply(old(host.w), Persist(id, state)), host.w)
      ensures r == Raised ==> Drifts(old(host.w), host.w)
      ensures host.steady ==> r == Done && host.Quiet(old(host.w), host.w)
    {
      state := state.(status := name);
      PersistKeepsInv(host.configs, host.w.disk, id, state);
      r := host.Commit(Persist(id, state), true);
    }

    /** A command, or anything else that may fail without touching the modelled world. */
    method Run() returns (r: Outcome)
      requires Ours()
      modifies host
      ensures Ours() && (r != Killed ==> host.w.disk == old(host.w.disk) && Drifts(old(host.w), host.w))
      ensures host.steady ==> r == Done && host.Quiet(old(host.w), host.w)
    {
      r := host.Commit(Command, false);
    }

    method ReadSchemas() returns (r: Outcome, found: Schema)
      requires Ours()
      modifies host
      ensures Ours()
      ensures r == Done ==> found == old(host.w.schema) && Drifts(old(host.w).(lastSeen := Some(found)), host.w)
      ensures r == Raised ==>
                Drifts(old(host.w), host.w) || Drifts(old(host.w).(lastSeen := Some(old(host.w.schema))), host.w)
      ensures host.steady ==> r == Done && host.Quiet(old(host.w), host.w)
    {
      found := host.w.schema;
      r := host.Commit(ReadSchema, false);
    }

    /** `systemctl` on the service or the timers; it may raise after it took effect. */
    method Systemctl(e: Event) returns (r: Outcome)
      requires Ours() && (e == StopService || e == StartService || e.SetTimer?)
      requires e == SetTimer(false) ==> TimerOnRecord(host.w)
      modifies host
      ensures Ours()
      ensures r == Done ==> Drifts(Apply(old(host.w), e), host.w)
      ensures r == Raised ==> Drifts(old(host.w), host.w) || Drifts(Apply(old(host.w), e), host.w)
      ensures r != Killed && e != StartService ==> host.w.disk == old(host.w.disk)
      ensures host.steady ==> r == Done && host.Quiet(Apply(old(host.w), e), host.w)
    {
      StartIsSafe(host.configs, host.w);
      r := host.Commit(e, false);
    }

    /** Up to 45 looks at the service; gives up with an exception. */
    method AwaitReady() returns (r: Outcome)
      requires Ours()
      modifies host
      ensures Ours() && (r != Killed ==> host.w.disk == old(host.w.disk) && Drifts(old(host.w), host.w))
      ensures host.steady ==> r == Done && host.Quiet(old(host.w), host.w)
    {
      for attempt := 0 to 45
        invariant Ours() && Drifts(old(host.w), host.w)
        invariant host.steady ==> attempt == 0 && host.w == old(host.w)
      {
        r := Run();
        if r != Raised { return; }
      }
      return Raised;
    }

    /** One preparation copy into the release's own directory. */
    method Copy(e: Event) returns (r: Outcome)
      requires Synced() && state.status == Preparing
      requires (e.StageUnit? || e.SaveEnv? || e.SaveUnit?) && e.id == id
      modifies host
      ensures Ours()
      ensures r != Killed ==> SameStory(old(host.w.disk), host.w.disk)
      ensures r == Done ==>
                && host.w.disk.saved == Write(old(host.w.disk), e).saved
                && host.w.disk.staged == Write(old(host.w.disk), e).staged
      ensures host.steady ==> r == Done && host.Quiet(old(host.w), host.w)
    {
      assert GoodReceipt(host.configs, host.w.disk, id);
      RewriteKeepsInv(host.configs, host.w.disk, Write(host.w.disk, e), id);
      r := host.Commit(e, true);
    }

    ghost predicate StagedCopy(names: set<UnitName>)
      requires names <= config.units.Keys
      reads this, host
    {
      forall n <- names :: n in StagedOf(host.w.disk, id) && StagedOf(host.w.disk, id)[n] == config.units[n]
    }

    /** The copies of these units, and of the env file, are what is live. */
    ghost predicate SavedCopy(names: set<UnitName>)
      reads this, host
    {
      && id in host.w.disk.saved && host.w.disk.saved[id].env == host.w.disk.live.env
      && forall n <- names ::
           && n in host.w.disk.live.units
           && n in host.w.disk.saved[id].units && host.w.disk.saved[id].units[n] == host.w.disk.live.units[n]
    }

    /** No service was started or stopped, and one that runs has brought about no other schema than it does. */
    predicate Unmoved(w: World, w': World) {
      w'.running == w.running && host.Rested(w') == host.Rested(w) && w'.disk.live == w.disk.live
    }

    /** Every unit of the candidate has one to replace. */
    predicate HasUnits(w: World) {
      config.units.Keys <= w.disk.live.units.Keys
    }

    /** Writes the candidate's units into its own directory. */
    method StageUnits() returns (r: Outcome)
      requires Synced() && state.status == Preparing
      modifies host
      ensures Ours()
      ensures r != Killed ==> SameStory(old(host.w.disk), host.w.disk)
      ensures r == Done ==> StagedCopy(config.units.Keys)
      ensures host.steady ==> r == Done && Unmoved(old(host.w), host.w)
    {
      var todo := config.units.Keys;
      while todo != {}
        invariant Synced() && SameStory(old(host.w.disk), host.w.disk)
        invariant todo <= config.units.Keys && StagedCopy(config.units.Keys - todo)
        invariant host.steady ==> Unmoved(old(host.w), host.w)
        decreases |todo|
      {
        var n :| n in todo;
        r := Copy(StageUnit(id, n, config.units[n]));
        if r != Done { return; }
        todo := todo - {n};
      }
      r := Done;
    }

    /** Copies the env file and the units in use under `previous/`; a unit that is not there is an error. */
    method SavePrevious() returns (r: Outcome)
      requires Synced() && state.status == Preparing
      modifies host
      ensures Ours()
      ensures r != Killed ==> SameStory(old(host.w.disk), host.w.disk)
      ensures r == Done ==> SavedCopy(config.units.Keys) && host.w.disk.staged == old(host.w.disk.staged)
      ensures host.steady ==>
                Unmoved(old(host.w), host.w) && r == if HasUnits(old(host.w)) then Done else Raised
    {
      r := Copy(SaveEnv(id, host.w.disk.live.env));
      if r != Done { return; }
      var todo := config.units.Keys;
      while todo != {}
        invariant Synced() && SameStory(old(host.w.disk), host.w.disk) && host.w.disk.staged == old(host.w.disk.staged)
        invariant todo <= config.units.Keys && SavedCopy(config.units.Keys - todo)
        invariant host.steady ==> Unmoved(old(host.w), host.w)
        decreases |todo|
      {
        var n :| n in todo;
        if n !in host.w.disk.live.units { return Raised; }
        r := Copy(SaveUnit(id, n, host.w.disk.live.units[n]));
        if r != Done { return; }
        todo := todo - {n};
      }
      r := Done;
    }

    predicate PolicyAccepts(previous: ReleaseId) {
      previous in config.compatibleFrom && !config.compatibility.OtherPolicy?
    }

    predicate BaselineMatches(found: Schema)
      requires config.compatibility.ReviewedTransition?
    {
      var transitions := config.compatibility.transitions;
      transitions != map[] &&
      forall n <- transitions.Keys :: n in found && found[n] == transitions[n].before
    }

    /** The part of `prepare` after the stage `preparing` is durable. */
    method Build() returns (r: Outcome)
      requires Synced() && state.status == Preparing
      modifies host
      ensures Ours()
      ensures r != Killed ==> SameStory(old(host.w.disk), host.w.disk)
      ensures r == Done ==> id in host.w.disk.before && SavedExactly(host.configs, host.w.disk, id)
      ensures host.steady ==>
                Unmoved(old(host.w), host.w) && r == if HasUnits(old(host.w)) then Done else Raised
    {
      r := Run(); // previous CLI, wheel, virtual environment
      if r != Done { return; }
      r := StageUnits();
      if r != Done { return; }
      r := Run(); // unit verification
      if r != Done { return; }
      r := SavePrevious();
      if r != Done { return; }
      r := Run(); // package listing
      if r == Done {
        assert GoodReceipt(host.configs, host.w.disk, id);
        CopiesAreExact(host.configs, host.w.disk, id);
      }
    }

    /** The release may follow the one that runs. */
    predicate Admits(w: World) {
      && w.disk.live.env.release.Some? && PolicyAccepts(w.disk.live.env.release.value)
      && (config.compatibility.ReviewedTransition? ==> BaselineMatches(host.Rested(w)))
    }

    /** The gates before the first stage: running predecessor, policy, reviewed schema baseline, link. */
    method CheckPredecessor() returns (r: Outcome)
      requires Ours()
      modifies host
      ensures Ours() && (r != Killed ==> host.w.disk == old(host.w.disk))
      ensures host.steady ==>
                Unmoved(old(host.w), host.w) && r == if Admits(old(host.w)) then Done else Raised
    {
      var previous := host.w.disk.live.env.release;
      if previous.None? { return Raised; }
      r := Run();
      if r != Done { return; }
      if !PolicyAccepts(previous.value) { return Raised; }
      if config.compatibility.ReviewedTransition? {
        var found;
        r, found := ReadSchemas();
        if r != Done { return; }
        if !BaselineMatches(found) { return Raised; }
      }
      r := Run(); // `current` is a symlink into the releases directory
    }

    /** The release is on record as confirmed, and is what is live. */
    predicate IsCurrent(w: World) {
      && id in w.disk.receipts && w.disk.receipts[id].status == Confirmed
      && w.disk.live.env.release == Some(id) && w.disk.live.current == Some(DirectoryOf(id))
    }

    /** The release gets its first receipt. */
    predicate Opens(w: World) {
      id !in w.disk.receipts && Admits(w)
    }

    predicate Prepares(w: World) {
      Opens(w) && HasUnits(w)
    }

    method StagePrepared() returns (r: Outcome)
      requires Synced() && state.status == Preparing && id in host.w.disk.before
      requires SavedExactly(host.configs, host.w.disk, id)
      modifies this, host
      ensures Ours() && state.status == Prepared
      ensures r == Done ==> Synced()
      ensures host.steady ==>
                r == Done && host.Quiet(old(host.w), host.w) && host.w.disk.live == old(host.w.disk.live)
    {
      assert GoodReceipt(host.configs, host.w.disk, id);
      StageMayAdvance(host.configs, host.w.disk, id, state.(status := Prepared));
      r := Stage(Prepared);
    }

    /** From the durable stage `preparing` to the durable stage `prepared`. */
    method BeginPreparation() returns (r: Outcome)
      requires Ours() && state == FRESH && id !in host.w.disk.receipts
      requires forall other <- host.w.disk.receipts.Keys :: Terminal(host.w.disk.receipts[other].status)
      modifies this, host
      ensures Ours()
      ensures r == Done ==> Synced() && state.status == Prepared
      ensures r == Raised && state.status == Preparing ==> CanPersist(state.(status := PreparationFailed))
      ensures host.steady ==>
                && Unmoved(old(host.w), host.w) && r == (if HasUnits(old(host.w)) then Done else Raised)
                && (r == Raised ==> state.status == Preparing)
    {
      state := state.(previousCurrent := host.w.disk.live.current);
      PreparationMayBegin(host.configs, host.w, id, state.(status := Preparing));
      r := Stage(Preparing);
      if r == Done {
        r := Build();
      }
      if r == Raised {
        PreparationMayFail(host.configs, host.w, id, state);
      }
      if r == Done {
        r := StagePrepared();
      }
    }

    /**
      Everything up to the durable stage `prepared`.  `proceed` is false when the release is already
      the confirmed current one.
      */
    method Prepare() returns (r: Outcome, proceed: bool)
      requires Ours() && state == FRESH
      requires forall other <- host.w.disk.receipts.Keys :: Terminal(host.w.disk.receipts[other].status)
      modifies this, host
      ensures Ours()
      ensures r == Done ==> Synced() && state.status == if proceed then Prepared else Confirmed
      ensures r == Raised && state.status == Preparing ==> CanPersist(state.(status := PreparationFailed))
      ensures host.steady ==>
                && Unmoved(old(host.w), host.w) && proceed == (r == Done && id !in old(host.w.disk.receipts))
                && r == (if IsCurrent(old(host.w)) || Prepares(old(host.w)) then Done else Raised)
                && (r == Raised ==>
                      if Opens(old(host.w)) then state.status == Preparing
                      else state == FRESH && host.w.disk == old(host.w.disk))
    {
      proceed := false;
      r := Run();
      if r != Done { return; }
      if id in host.w.disk.receipts {
        var recorded := host.w.disk.receipts[id];
        if recorded.status == Confirmed
           && host.w.disk.live.env.release == Some(id) && host.w.disk.live.current == Some(DirectoryOf(id)) {
          state := recorded;
          r := AwaitReady();
          return;
        }
        return Raised, false;
      }
      r := CheckPredecessor();
      if r != Done { return; }
      r := BeginPreparation();
      proceed := r == Done;
    }

    /** After any failure of the switch. */
    ghost predicate Recoverable()
      reads this, host
    {
      Ours() && Resumable(host.w, id, state)
    }

    /** Since `start`, only what is live has been rewritten, for this release's own open transaction. */
    ghost predicate Rewriting(start: World, restoring: bool)
      reads this, host
    {
      && Ours()
      && OnlyLive(start, host.w)
      && id in start.disk.receipts && state == start.disk.receipts[id] && id in start.disk.before
      && RewriteAllowedFor(start, id)
      && state.status == if restoring then Recovering else Switching
    }

    /** One replacement of the link, a unit or the env file. */
    method Rewrite(e: Event, restoring: bool, ghost start: World) returns (r: Outcome)
      requires Rewriting(start, restoring) && OwnRewrite(host.configs, start.disk, id, e, restoring)
      modifies host
      ensures Ours()
      ensures r != Killed ==> Rewriting(start, restoring)
      ensures r == Done ==> host.w.disk.live == Write(old(host.w.disk), e).live
      ensures r == Raised ==> host.w == old(host.w)
      ensures host.steady ==> r == Done
    {
      RewriteIsSafe(host.configs, host.w, id, e, restoring);
      r := host.Commit(e, true);
    }

    /** The next forward stage of a switch; whatever happens, the transaction stays recoverable. */
    method Advance(name: Status) returns (r: Outcome)
      requires Recoverable() && state.status == host.w.disk.receipts[id].status
      requires name == Stopping || name == Stopped || name == RecoveryPointCreated || name == Switching
               || name == Checking
      requires NextStatus(state.status, name)
      requires state.schemaBefore.Some? <==> name != Stopping && name != Stopped
      modifies this, host
      ensures Ours() && state == old(state).(status := name)
      ensures r == Done ==> Synced() && Drifts(Apply(old(host.w), Persist(id, state)), host.w)
      ensures r == Raised ==> Drifts(old(host.w), host.w)
      ensures r != Killed ==> Recoverable()
      ensures host.steady ==> r == Done && host.Quiet(old(host.w), host.w)
    {
      AdvanceIsAllowed(host.configs, host.w, id, state, name);
      ghost var before, memory := host.w, state;
      r := Stage(name);
      if r != Killed {
        ResumableStays(before, host.w, id, memory, name);
      }
    }

    /** What is live, and what was when each release began, is the same. */
    predicate SameLive(w: World, w': World) {
      w'.disk.live == w.disk.live && w'.disk.before == w.disk.before
    }

    /** Pauses the timer and lets a running backup finish. */
    method PauseBackups() returns (r: Outcome)
      requires Synced() && state.status == Prepared
      modifies this, host
      ensures Ours()
      ensures r == Done ==> Synced() && state.status == Stopping && SameLive(old(host.w), host.w)
      ensures r == Raised ==> Recoverable()
      ensures host.steady ==> r == Done && host.Quiet(old(host.w), host.w)
    {
      assert GoodReceipt(host.configs, host.w.disk, id);
      r := Run();
      if r == Done {
        state := state.(timerWasActive := host.w.timer);
        r := Advance(Stopping);
        if r == Done {
          r := Systemctl(SetTimer(false));
          if r == Done {
            r := AwaitBackup();
          }
        }
      }
    }

    method StopLive() returns (r: Outcome)
      requires Synced() && state.status == Stopping
      modifies this, host
      ensures Ours()
      ensures r == Done ==>
                Synced() && state.status == Stopped && host.w.running.None? && SameLive(old(host.w), host.w)
      ensures r == Raised ==> Recoverable()
      ensures host.steady ==> r == Done && host.w.schema == old(host.w.schema)
    {
      assert GoodReceipt(host.configs, host.w.disk, id);
      r := Systemctl(StopService);
      if r == Done {
        r := Advance(Stopped);
      }
    }

    /** Up to 180 looks at the backup service. */
    method AwaitBackup() returns (r: Outcome)
      requires Ours()
      modifies host
      ensures Ours() && (r != Killed ==> host.w.disk == old(host.w.disk) && Drifts(old(host.w), host.w))
      ensures host.steady ==> r == Done && host.Quiet(old(host.w), host.w)
    {
      for attempt := 0 to 180
        invariant Ours() && Drifts(old(host.w), host.w)
        invariant host.steady ==> attempt == 0 && host.w == old(host.w)
      {
        var finished: bool := *;
        if host.steady {
          finished := true;
        }
        r := Run();
        if r != Done || finished { return; }
      }
      return Raised;
    }

    /** What was read, and the start of the switch, become durable. */
    method StageRecoveryPoint() returns (r: Outcome)
      requires Recoverable() && host.w.running.None? && host.w.disk.receipts[id].status == state.status == Stopped
      requires state.schemaBefore.Some?
      modifies this, host
      ensures Ours() && state.schemaBefore == old(state.schemaBefore)
      ensures r == Done ==>
                && Synced() && state.status == Switching && host.w.running.None? && SameLive(old(host.w), host.w)
                && host.w.schema == old(host.w.schema)
                && host.w.disk.candidateRan == old(host.w.disk.candidateRan)
      ensures r == Raised ==> Recoverable()
      ensures host.steady ==> r == Done
    {
      r := Advance(RecoveryPointCreated);
      if r == Done {
        r := Advance(Switching);
      }
    }

    /** Reads the schema while nothing runs, creates the recovery point, and makes both durable. */
    method CreateRecoveryPoint() returns (r: Outcome)
      requires Synced() && state.status == Stopped && host.w.running.None?
      modifies this, host
      ensures Ours()
      ensures r == Done ==> Synced() && state.status == Switching && host.w.running.None?
      ensures r == Done ==>
                && id !in host.w.disk.candidateRan && id in host.w.disk.before
                && host.w.disk.live == host.w.disk.before[id]
                && state.schemaBefore == Some(old(host.w.schema)) == Some(host.w.schema)
                && SameLive(old(host.w), host.w)
      ensures r == Raised ==> Recoverable()
      ensures host.steady ==> r == Done
    {
      assert GoodReceipt(host.configs, host.w.disk, id);
      var found;
      r, found := ReadSchemas();
      if r == Done {
        state := state.(schemaBefore := Some(found));
        r := Run();
        if r == Done {
          r := StageRecoveryPoint();
        }
      }
    }

    /** Replaces every unit of the release by the given content, one file at a time. */
    method RewriteUnits(files: map<UnitName, Content>, restoring: bool, ghost start: World) returns (r: Outcome)
      requires Rewriting(start, restoring)
      requires files.Keys == config.units.Keys && files.Keys <= host.w.disk.live.units.Keys
      requires forall n <- files.Keys :: OwnRewrite(host.configs, start.disk, id, WriteUnit(n, files[n]), restoring)
      modifies host
      ensures Ours()
      ensures r != Killed ==> Rewriting(start, restoring)
      ensures r == Done ==> host.w.disk.live == old(host.w.disk.live).(units := old(host.w.disk.live.units) + files)
      ensures host.steady ==> r == Done
    {
      ghost var was := host.w.disk.live;
      var todo := files.Keys;
      while todo != {}
        invariant Rewriting(start, restoring) && todo <= files.Keys
        invariant host.w.disk.live == was.(units := host.w.disk.live.units)
        invariant Replaced(host.w.disk.live.units, files, todo, was.units)
        decreases |todo|
      {
        var n :| n in todo;
        ghost var now := host.w.disk.live.units;
        r := Rewrite(WriteUnit(n, files[n]), restoring, start);
        if r != Done { return; }
        ReplacedOne(now, files, todo, was.units, n);
        todo := todo - {n};
      }
      ReplacedAll(host.w.disk.live.units, files, was.units);
      r := Done;
    }

    /** The link first, then the units, then the env file. */
    method InstallFiles(files: map<UnitName, Content>, ghost start: World) returns (r: Outcome)
      requires Rewriting(start, false) && host.w == start
      requires files.Keys == config.units.Keys && files.Keys <= start.disk.live.units.Keys
      requires forall n <- files.Keys :: n in start.disk.before[id].units
      modifies host
      ensures Ours()
      ensures r != Killed ==> Rewriting(start, false)
      ensures r == Done ==>
                host.w.disk.live == Deployment(Some(DirectoryOf(id)), start.disk.live.units + files, CandidateEnv(id))
      ensures host.steady ==> r == Done
    {
      r := Rewrite(Point(Some(DirectoryOf(id))), false, start);
      if r == Done {
        r := RewriteUnits(files, false, start);
        if r == Done {
          r := Rewrite(WriteEnv(CandidateEnv(id)), false, start);
        }
      }
    }

    /** Points `current` at the candidate and installs its units and env file. */
    method InstallCandidate() returns (r: Outcome)
      requires Synced() && state.status == Switching && host.w.running.None?
      requires id !in host.w.disk.candidateRan
      modifies host
      ensures Ours()
      ensures r == Raised ==> Recoverable()
      ensures r == Done ==> Synced() && host.w.running.None? && id in host.w.disk.before
      ensures r == Done ==> host.w.disk.live == CandidateOf(host.w.disk.before[id], id, config)
      ensures r == Done ==> host.w.schema == old(host.w.schema) && host.w.disk.before == old(host.w.disk.before)
      ensures host.steady ==> r == Done
    {
      ghost var start := host.w;
      InstalledUnits(host.configs, start.disk, id);
      r := InstallFiles(Copies(config.units.Keys, StagedOf(host.w.disk, id)), start);
    }

    /** Starts the service on whatever is live; the receipts stay as they are. */
    method Start() returns (r: Outcome)
      requires Ours() && host.w.running.None?
      modifies host
      ensures Ours()
      ensures r != Killed ==> host.w.disk == old(host.w.disk).(candidateRan := host.w.disk.candidateRan)
      ensures r == Done ==> host.w.lastStart == Some(host.w.disk.live) && host.w.timer == old(host.w.timer)
      ensures host.steady ==>
                && r == Done && host.w.running == Some(host.w.disk.live)
                && host.w.schema == host.After(host.w.disk.live, old(host.w.schema))
    {
      r := Run(); // ownership of the env file
      if r == Done {
        r := Run(); // daemon-reload
        if r == Done {
          r := Systemctl(StartService);
        }
      }
    }

    /** On a steady host the comparison of `before` with the schema `after` alone decides. */
    ghost predicate Compared(r: Outcome, before: Option<Schema>, after: Schema)
      reads this, host
    {
      && before.Some? && state.schemaBefore == before && host.Rested(host.w) == after
      && r == if AuthorizedTransition(config.compatibility, before.value, after) then Done else Raised
    }

    /** Starts the candidate, waits for it, compares schemas, and confirms. */
    method Activate() returns (r: Outcome)
      requires Synced() && state.status == Switching && host.w.running.None? && id in host.w.disk.before
      requires host.w.disk.live == CandidateOf(host.w.disk.before[id], id, config)
      modifies this, host
      ensures Ours()
      ensures r == Done ==> Synced() && state.status == Confirmed && host.w.disk.live == old(host.w.disk.live)
      ensures r == Raised ==> Recoverable()
      ensures host.steady ==>
                Compared(r, old(state.schemaBefore), host.After(old(host.w.disk.live), old(host.w.schema)))
    {
      assert GoodReceipt(host.configs, host.w.disk, id);
      r := Start();
      if r == Done {
        r := Advance(Checking);
        if r == Done {
          r := Confirm();
        }
      }
    }

    method Confirm() returns (r: Outcome)
      requires Synced() && state.status == Checking && id in host.w.disk.before
      requires host.w.disk.live == CandidateOf(host.w.disk.before[id], id, config)
      requires host.w.lastStart == Some(host.w.disk.live)
      modifies this, host
      ensures Ours()
      ensures r == Done ==>
                && Synced() && state.status == Confirmed
                && state.schemaBefore == old(state.schemaBefore) && state.schemaBefore.Some?
                && host.w.disk.live == old(host.w.disk.live) && host.w.lastStart == Some(host.w.disk.live)
                && host.w.lastSeen.Some?
                && AuthorizedTransition(config.compatibility, state.schemaBefore.value, host.w.lastSeen.value)
      ensures r == Raised ==> Recoverable()
      ensures host.steady ==> Compared(r, old(state.schemaBefore), host.Rested(old(host.w)))
    {
      assert GoodReceipt(host.configs, host.w.disk, id);
      r := AwaitReady();
      if r == Done {
        var after;
        r, after := ReadSchemas();
        if r == Done {
          if AuthorizedTransition(config.compatibility, state.schemaBefore.value, after) {
            r := StageConfirmed();
          } else {
            r := Raised;
          }
        }
      }
    }

    /** The durable end of a switch whose last schema reading is authorized. */
    method StageConfirmed() returns (r: Outcome)
      requires Synced() && state.status == Checking && ConfirmationJustified(host.configs, host.w, id)
      modifies this, host
      ensures Ours()
      ensures r == Done ==>
                && Synced() && state == old(state).(status := Confirmed)
                && host.w.disk.live == old(host.w.disk.live)
                && host.w.lastStart == old(host.w.lastStart) && host.w.lastSeen == old(host.w.lastSeen)
      ensures r == Raised ==> Recoverable()
      ensures host.steady ==> r == Done && host.Quiet(old(host.w), host.w)
    {
      assert GoodReceipt(host.configs, host.w.disk, id);
      StageMayAdvance(host.configs, host.w.disk, id, state.(status := Confirmed));
      r := Stage(Confirmed);
    }

    /** The schema after a switch on a steady host. */
    ghost function Switched(w: World): Schema
      reads this
    {
      host.After(CandidateOf(w.disk.live, id, config), host.Rested(w))
    }

    method Switch() returns (r: Outcome)
      requires Synced() && state.status == Prepared
      modifies this, host
      ensures Ours()
      ensures r == Done ==>
                && Synced() && state.status == Confirmed
                && host.w.disk.live == CandidateOf(old(host.w.disk.live), id, config)
      ensures r == Raised ==> Recoverable()
      ensures host.steady ==> Compared(r, Some(host.Rested(old(host.w))), Switched(old(host.w)))
    {
      assert GoodReceipt(host.configs, host.w.disk, id);
      r := PauseBackups();
      if r != Done { return; }
      r := StopLive();
      if r != Done { return; }
      r := CreateRecoveryPoint();
      if r != Done { return; }
      r := InstallCandidate();
      if r != Done { return; }
      r := Activate();
    }

    /** Closes the transaction by hand-over to an operator. */
    method RequireManualRecovery() returns (r: Outcome)
      requires Recoverable()
      modifies this, host
      ensures Ours()
      ensures r == Done ==> Synced() && state.status == ManualRecoveryRequired
      ensures r == Raised ==> Recoverable()
      ensures host.steady ==> r == Done
    {
      assert GoodReceipt(host.configs, host.w.disk, id);
      StageMayAdvance(host.configs, host.w.disk, id, state.(status := ManualRecoveryRequired));
      r := Stage(ManualRecoveryRequired);
    }

    /** The units first, then the env file, then the link. */
    method RestoreFiles(files: map<UnitName, Content>, env: EnvFile, ghost start: World) returns (r: Outcome)
      requires Rewriting(start, true) && host.w == start
      requires files.Keys == config.units.Keys && files.Keys <= start.disk.live.units.Keys
      requires forall n <- files.Keys :: n in start.disk.before[id].units && files[n] == start.disk.before[id].units[n]
      requires env == start.disk.before[id].env && state.previousCurrent == start.disk.before[id].current
      modifies host
      ensures Ours()
      ensures r != Killed ==> Rewriting(start, true)
      ensures r == Done ==>
                host.w.disk.live == Deployment(state.previousCurrent, start.disk.live.units + files, env)
      ensures host.steady ==> r == Done
    {
      r := RewriteUnits(files, true, start);
      if r == Done {
        r := Rewrite(WriteEnv(env), true, start);
        if r == Done {
          r := Rewrite(Point(state.previousCurrent), true, start);
        }
      }
    }

    /** Puts back the units, the env file and the link that `prepare` found. */
    method RestorePrevious() returns (r: Outcome)
      requires Synced() && state.status == Recovering && host.w.running.None? && id in host.w.disk.before
      requires id in host.w.disk.candidateRan ==> state.schemaBefore == Some(host.w.schema)
      modifies host
      ensures Ours()
      ensures r == Raised ==> Synced()
      ensures r == Done ==> Synced() && OnlyLive(old(host.w), host.w)
      ensures r == Done ==> host.w.disk == old(host.w.disk).(live := old(host.w.disk).before[id])
      ensures host.steady ==> r == Done
    {
      ghost var start := host.w;
      var saved := SavedOf(host.w.disk, id);
      var files := Copies(config.units.Keys, saved.units);
      RestoredUnits(host.configs, start.disk, id, files);
      r := RestoreFiles(files, saved.env, start);
    }

    /** The durable end of a rollback. */
    method StageRolledBack() returns (r: Outcome)
      requires Synced() && state.status == Recovering && RollbackJustified(host.w, id)
      modifies this, host
      ensures Ours()
      ensures r == Done ==> Synced() && state.status == RolledBack
      ensures r == Raised ==> Recoverable()
      ensures host.steady ==> r == Done
    {
      assert GoodReceipt(host.configs, host.w.disk, id);
      StageMayAdvance(host.configs, host.w.disk, id, state.(status := RolledBack));
      ghost var before, memory := host.w, state;
      r := Stage(RolledBack);
      if r == Raised {
        ResumableStays(before, host.w, id, memory, RolledBack);
      }
    }

    /** Restarts the previous program, waits for it, resumes the timer, and records the rollback. */
    method FinishRollback() returns (r: Outcome)
      requires Synced() && state.status == Recovering && host.w.running.None? && id in host.w.disk.before
      requires host.w.disk.live == host.w.disk.before[id]
      modifies this, host
      ensures Ours()
      ensures r == Done ==> Synced() && state.status == RolledBack
      ensures r == Raised ==> Recoverable()
      ensures host.steady ==> r == Done
    {
      assert GoodReceipt(host.configs, host.w.disk, id);
      r := Start();
      if r == Done {
        r := AwaitReady();
        if r == Done {
          if state.timerWasActive {
            r := Systemctl(SetTimer(true));
          }
          if r == Done {
            r := StageRolledBack();
          }
        }
      }
    }

    /** The durable start of a recovery: stage first, then the service is stopped. */
    method BeginRecovery() returns (r: Outcome)
      requires Recoverable()
      modifies this, host
      ensures Ours()
      ensures r == Done ==> Synced() && state.status == Recovering && host.w.running.None?
      ensures r == Raised ==> Recoverable()
      ensures host.steady ==>
                && r == Done && host.w.schema == host.Rested(old(host.w))
                && state.schemaBefore == old(state.schemaBefore)
    {
      assert GoodReceipt(host.configs, host.w.disk, id);
      StageMayAdvance(host.configs, host.w.disk, id, state.(status := Recovering));
      r := Stage(Recovering);
      if r == Done {
        r := Systemctl(StopService);
      }
    }

    /** What a recovery on a steady host ends with: a rollback, unless the schema is no longer the recorded one. */
    function RecoveredTo(recorded: Option<Schema>, found: Schema): Status {
      if recorded.None? || recorded.value == found then RolledBack else ManualRecoveryRequired
    }

    /** Rolls the program back, or hands over to an operator if the schema is no longer the recorded one. */
    method Recover() returns (r: Outcome)
      requires Recoverable()
      modifies this, host
      ensures Ours()
      ensures r == Done ==> Synced() && (state.status == RolledBack || state.status == ManualRecoveryRequired)
      ensures r == Raised ==> Recoverable()
      ensures host.steady ==>
                r == Done && state.status == RecoveredTo(old(state.schemaBefore), host.Rested(old(host.w)))
    {
      r := BeginRecovery();
      if r != Done { return; }
      if state.schemaBefore.Some? {
        var found;
        r, found := ReadSchemas();
        if r != Done { return; }
        if found != state.schemaBefore.value {
          r := RequireManualRecovery();
          return;
        }
      }
      assert GoodReceipt(host.configs, host.w.disk, id);
      r := RestorePrevious();
      if r != Done { return; }
      r := FinishRollback();
    }

    /** The post-switch work of a confirmed release, each phase recorded before and after it runs. */
    method CompletePhase(phase: Phase) returns (r: Outcome)
      requires Synced() && state.status == Confirmed
      requires host.w.disk.live.env.release == Some(id) && host.w.disk.live.current == Some(DirectoryOf(id))
      requires phase == PostReleaseBackup ==> Succeeded(state, BackupTimer)
      modifies this, host
      ensures Ours()
      ensures r == Done ==>
                && Synced() && state.status == Confirmed && Succeeded(state, phase)
                && host.w.disk.live == old(host.w.disk.live)
                && (old(Succeeded(state, BackupTimer)) ==> Succeeded(state, BackupTimer))
      ensures host.steady ==> r == Done
    {
      r := Done;
      if !Succeeded(state, phase) {
        r := Record(phase, PhaseRunning);
        if r == Done {
          r := host.Commit(RunPhase(id, phase), false);
          if r == Done {
            r := Record(phase, PhaseSucceeded);
          } else if r == Raised {
            r := Record(phase, PhaseFailed);
            if r == Done { r := Raised; }
          }
        }
      }
    }

    method Record(phase: Phase, status: PhaseStatus) returns (r: Outcome)
      requires Synced() && state.status == Confirmed && !Succeeded(state, phase)
      modifies this, host
      ensures Ours() && state == old(state).(completion := old(state.completion)[phase := status])
      ensures r == Done ==>
                Synced() && host.w.disk == old(host.w.disk).(receipts := host.w.disk.receipts)
      ensures host.steady ==> r == Done
    {
      state := state.(completion := state.completion[phase := status]);
      assert GoodReceipt(host.configs, host.w.disk, id);
      r := Stage(Confirmed);
    }

    /** The release is confirmed and its post-switch work is on record as done. */
    ghost predicate Completed()
      reads this, host
    {
      Synced() && state.status == Confirmed && Succeeded(state, BackupTimer) && Succeeded(state, PostReleaseBackup)
    }

    method Complete() returns (r: Outcome)
      requires Synced()
      modifies this, host
      ensures Ours()
      ensures r == Done ==> Completed()
      ensures host.steady ==> r == if IsCurrent(old(host.w)) then Done else Raised
    {
      if state.status != Confirmed || host.w.disk.live.env.release != Some(id)
         || host.w.disk.live.current != Some(DirectoryOf(id)) {
        return Raised;
      }
      r := CompletePhase(BackupTimer);
      if r == Done {
        r := CompletePhase(PostReleaseBackup);
      }
    }

    /** An operator closes an interrupted preparation; nothing live was touched. */
    method ClosePreparation() returns (r: Outcome)
      requires Synced() && (state.status == Preparing || state.status == Prepared)
      modifies this, host
      ensures Ours()
      ensures r == Done ==> Synced() && state.status == PreparationFailed
      ensures host.steady ==> r == Done
    {
      PreparationMayFail(host.configs, host.w, id, state);
      r := Stage(PreparationFailed);
    }

    /** `--recover`: what an interrupted transaction's receipt allows. */
    method RecoverInterrupted() returns (r: Outcome)
      requires Synced()
      modifies this, host
      ensures Ours()
      ensures r == Done ==> Synced() && old(!Closed(state.status)) && Closed(state.status) && state.status != Confirmed
      ensures host.steady ==>
                && r == (if old(Closed(state.status)) then Raised else Done)
                && (r == Done ==>
                      state.status == if old(state.status == Preparing || state.status == Prepared)
                                      then PreparationFailed
                                      else RecoveredTo(old(state.schemaBefore), host.Rested(old(host.w))))
    {
      if state.status == Preparing || state.status == Prepared {
        r := ClosePreparation();
      } else if Closed(state.status) {
        r := Raised;
      } else {
        r := Recover();
      }
    }

    /** A failed switch: recover, hand over if that fails too, and raise in any case. */
    method RecoverAndRaise() returns (r: Outcome)
      requires Recoverable()
      modifies this, host
      ensures Ours() && r != Done
      ensures host.steady ==>
                && r == Raised && Synced()
                && state.status == RecoveredTo(old(state.schemaBefore), host.Rested(old(host.w)))
    {
      r := Recover();
      if r == Raised {
        r := RequireManualRecovery();
      }
      if r == Done {
        r := Raised;
      }
    }

    /** How a run ends on a steady host. */
    ghost function EndingOf(w: World): Ending
      reads this
    {
      if IsCurrent(w) then Completes
      else if !Opens(w) then Refuses
      else if !HasUnits(w) then Closes(PreparationFailed)
      else if AuthorizedTransition(config.compatibility, host.Rested(w), Switched(w)) then Completes
      else Closes(RecoveredTo(Some(host.Rested(w)), Switched(w)))
    }

    /** A run: prepare, switch, recover what fails, complete what succeeds. */
    method Execute() returns (r: Outcome)
      requires Ours() && state == FRESH
      requires forall other <- host.w.disk.receipts.Keys :: Terminal(host.w.disk.receipts[other].status)
      modifies this, host
      ensures Ours()
      ensures r == Done ==> Completed()
      ensures host.steady ==>
                match EndingOf(old(host.w))
                case Completes => r == Done
                case Refuses => r == Raised && host.w.disk == old(host.w.disk)
                case Closes(status) => r == Raised && Synced() && state.status == status
    {
      var proceed;
      r, proceed := Prepare();
      if r == Raised && state.status == Preparing {
        r := Stage(PreparationFailed);
        if r == Done { r := Raised; }
      } else if r == Done {
        if proceed {
          r := Switch();
          if r == Raised {
            r := RecoverAndRaise();
          } else if r == Done {
            r := Complete();
          }
        } else {
          r := Complete();
        }
      }
    }
  }

  datatype Call = Publish(id: ReleaseId) | RecoverOne(id: ReleaseId) | CompleteOne(id: ReleaseId)

  /** One process: it takes the lock, reads the receipts, and does what it was called for. */
  method Serve(host: Host, call: Call) returns (r: Outcome)
    requires host.Valid()
    modifies host
    ensures host.Valid()
    ensures r == Done ==>
              && call.id in host.w.disk.receipts
              && var receipt := host.w.disk.receipts[call.id];
                 if call.RecoverOne? then Closed(receipt.status) && receipt.status != Confirmed
                 else
                   && receipt.status == Confirmed
                   && Succeeded(receipt, BackupTimer) && Succeeded(receipt, PostReleaseBackup)
  {
    var transaction := new Release(host, call.id);
    match call
    case Publish(id) =>
      if exists other <- host.w.disk.receipts.Keys :: !Terminal(host.w.disk.receipts[other].status) {
        return Raised;
      }
      r := transaction.Execute();
    case RecoverOne(id) =>
      if id !in host.w.disk.receipts { return Raised; }
      transaction.state := host.w.disk.receipts[id];
      r := transaction.RecoverInterrupted();
    case CompleteOne(id) =>
      if id !in host.w.disk.receipts { return Raised; }
      transaction.state := host.w.disk.receipts[id];
      r := transaction.Complete();
      if r == Done {
        r := transaction.AwaitReady();
      }
  }

  /**
    Any sequence of processes on one host, each possibly killed at any step.  Everything that
    happens is a lawful run from the first state; ReleaseRuns.dfy says what that means.
    */
  method Operate(host: Host, calls: seq<Call>)
    requires host.Valid()
    modifies host
    ensures host.Valid()
  {
    for i := 0 to |calls|
      invariant host.Valid()
    {
      host.Idle();
      var _ := Serve(host, calls[i]);
    }
    host.Idle();
  }
}
