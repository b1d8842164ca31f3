/** The pull collector of the backup host (scripts/agentbridge_backup_pull.py). */
module BackupStore {
  import opened Options
  import opened PythonText

  const SIZE_LIMIT: int := 4 * 1024 * 1024 * 1024
  const MANIFEST_LIMIT: int := 8 * 1024 * 1024
  const SCHEMA := "agentbridge.recovery-bundle.v2"
  const KEPT: nat := 7
  const RETENTION_DAYS: int := 90
  const DAY: int := 86400

  datatype Manifest = Manifest(schema: string, archiveFile: string, sha256: string)

  /** SHA-256 of a file, the JSON of a manifest, and the time in a generation's name. */
  datatype Tools = Tools(hash: string -> string, parse: string -> Option<Manifest>, time: string -> Option<int>)

  /** A directory entry of the store; `Other` is a link or a plain file. */
  datatype Node = Directory(archive: Option<string>, manifest: Option<string>, modified: int) | Other

  type Store = map<string, Node>

  /** A line of the source's inventory. */
  datatype Entry = Entry(
    generation: string, archiveBytes: int, archiveSha256: string, manifestBytes: int, manifestSha256: string)

  /** What a remote command writes before its end, chunk by chunk, and its exit status. */
  datatype Transfer = Transfer(chunks: seq<string>, exit: int)

  // ----- Names -----

  predicate IsHex(c: char) {
    IsDigit(c) || 'a' <= c <= 'f'
  }

  /** `agentbridge-YYYYMMDDTHHMMSSZ-xxxxxxxx`. */
  predicate IsGeneration(name: string) {
    && |name| == 37
    && name[..12] == "agentbridge-"
    && (forall k :: 12 <= k < 20 ==> IsDigit(name[k]))
    && name[20] == 'T'
    && (forall k :: 21 <= k < 27 ==> IsDigit(name[k]))
    && name[27] == 'Z' && name[28] == '-'
    && (forall k :: 29 <= k < 37 ==> IsHex(name[k]))
  }

  /** The order of names: character by character. */
  predicate Less(a: string, b: string) {
    b != "" && (a == "" || a[0] < b[0] || (a[0] == b[0] && Less(a[1..], b[1..])))
  }

  lemma {:induction false} LessIsTotal(a: string, b: string)
    ensures (Less(a, b) || Less(b, a)) <==> a != b
    ensures !(Less(a, b) && Less(b, a))
  {
    if a != "" && b != "" {
      LessIsTotal(a[1..], b[1..]);
      assert a == [a[0]] + a[1..] && b == [b[0]] + b[1..];
    }
  }

  lemma {:induction false} LessIsTransitive(a: string, b: string, c: string)
    requires Less(a, b) && Less(b, c)
    ensures Less(a, c)
  {
    if a != "" && a[0] == b[0] == c[0] {
      LessIsTransitive(a[1..], b[1..], c[1..]);
    }
  }

  predicate Ascending(names: seq<string>) {
    forall j, k :: 0 <= j < k < |names| ==> Less(names[j], names[k])
  }

  // ----- Fetching -----

  /** The bytes up to the first empty read. */
  function Received(chunks: seq<string>): string {
    if chunks == [] || chunks[0] == "" then "" else chunks[0] + Received(chunks[1..])
  }

  predicate Delivers(tools: Tools, transfer: Transfer, size: int, expected: string) {
    && 0 <= size <= SIZE_LIMIT
    && transfer.exit == 0
    && |Received(transfer.chunks)| == size
    && tools.hash(Received(transfer.chunks)) == expected
  }

  /** Gives the transferred file exactly when it has the announced size and hash. */
  method Fetch(tools: Tools, transfer: Transfer, size: int, expected: string) returns (data: Option<string>)
    ensures data == if Delivers(tools, transfer, size, expected) then Some(Received(transfer.chunks)) else None
  {
    data := None;
    if size < 0 || size > SIZE_LIMIT {
      return;
    }
    var file, i := "", 0;
    while i < |transfer.chunks| && transfer.chunks[i] != ""
      invariant 0 <= i <= |transfer.chunks|
      invariant Received(transfer.chunks) == file + Received(transfer.chunks[i..])
    {
      assert Received(transfer.chunks[i..]) == transfer.chunks[i] + Received(transfer.chunks[i..][1..]);
      if |file| + |transfer.chunks[i]| > size {
        assert |Received(transfer.chunks)| > size;
        return;
      }
      ghost var rest := Received(transfer.chunks[i..][1..]);
      assert file + (transfer.chunks[i] + rest) == (file + transfer.chunks[i]) + rest;
      file := file + transfer.chunks[i];
      i := i + 1;
    }
    assert Received(transfer.chunks[i..]) == "";
    assert Received(transfer.chunks) == file;
    if transfer.exit == 0 && |file| == size && tools.hash(file) == expected {
      data := Some(file);
    }
  }

  // ----- What a store keeps -----

  predicate SoundNode(tools: Tools, name: string, node: Node) {
    node.Directory? ==>
      && node.archive.Some? && node.manifest.Some?
      && tools.parse(node.manifest.value).Some?
      && var manifest := tools.parse(node.manifest.value).value;
         manifest.schema == SCHEMA && manifest.archiveFile == name + ".zip"
         && manifest.sha256 == tools.hash(node.archive.value)
  }

  predicate Sound(tools: Tools, store: Store) {
    forall name <- store :: IsGeneration(name) ==> SoundNode(tools, name, store[name])
  }

  /** The generation is there with the archive and manifest the inventory announces. */
  predicate Holds(tools: Tools, store: Store, entry: Entry) {
    && IsGeneration(entry.generation)
    && entry.generation in store
    && var node := store[entry.generation];
       && node.Directory? && node.archive.Some? && node.manifest.Some?
       && tools.hash(node.archive.value) == entry.archiveSha256
       && tools.hash(node.manifest.value) == entry.manifestSha256
  }

  /** `later` has everything that is in `store`, as it is there. */
  predicate Extends(store: Store, later: Store) {
    forall name <- store :: name in later && later[name] == store[name]
  }

  /** What the source sends for an entry fits the inventory and the manifest. */
  predicate Fits(tools: Tools, entry: Entry, manifest: Transfer, archive: Transfer) {
    && entry.manifestBytes <= MANIFEST_LIMIT
    && Delivers(tools, manifest, entry.manifestBytes, entry.manifestSha256)
    && tools.parse(Received(manifest.chunks)) == Some(Manifest(SCHEMA, entry.generation + ".zip", entry.archiveSha256))
    && Delivers(tools, archive, entry.archiveBytes, entry.archiveSha256)
  }

  /**
    Everything a run meets: what is sent, the clock at the freshness check and later at the pruning, and
    before which change it is interrupted.
    */
  datatype Setting = Setting(
    listing: seq<Entry>, manifests: nat -> Transfer, archives: nat -> Transfer, modified: nat -> int,
    now: int, later: int, dies: nat -> bool)
  {
    /** What was last modified before this moment may be pruned. */
    function Cutoff(): int {
      later - RETENTION_DAYS * DAY
    }
  }

  predicate Collected(tools: Tools, listing: seq<Entry>, store: Store) {
    forall k :: 0 <= k < |listing| ==> Holds(tools, store, listing[k])
  }

  function Listed(listing: seq<Entry>): set<string> {
    set k | 0 <= k < |listing| :: listing[k].generation
  }

  predicate IsLatest(latest: string, listing: seq<Entry>) {
    && (exists k :: 0 <= k < |listing| && listing[k].generation == latest)
    && (forall k :: 0 <= k < |listing| ==> latest == listing[k].generation || Less(listing[k].generation, latest))
  }

  /** The newest listed generation is neither stale nor from the future. */
  ghost predicate Fresh(tools: Tools, listing: seq<Entry>, now: int) {
    exists latest :: IsLatest(latest, listing) && FreshTime(tools, latest, now)
  }

  predicate FreshTime(tools: Tools, latest: string, now: int) {
    |latest| >= 28 && tools.time(latest[12..28]).Some?
    && var time := tools.time(latest[12..28]).value;
       now - time <= 36 * 3600 && time <= now + 3600
  }

  function Generations(store: Store): set<string> {
    set name | name in store && IsGeneration(name)
  }

  /** Seven generations of the store with ascending names, all of them kept. */
  predicate Kept(tops: seq<string>, store: Store, later: Store) {
    && |tops| == KEPT
    && Ascending(tops)
    && forall k :: 0 <= k < |tops| ==> IsGeneration(tops[k]) && tops[k] in store && tops[k] in later
  }

  /** An old generation, below seven that are kept. */
  ghost predicate Prunable(name: string, store: Store, later: Store, cutoff: int) {
    && name in store && IsGeneration(name)
    && store[name].Directory? && store[name].modified < cutoff
    && exists tops :: Kept(tops, store, later) && Less(name, tops[0])
  }

  /** Every entry is of its own generation and either there already or sent as announced, without interruption. */
  predicate Obtainable(tools: Tools, setting: Setting, store: Store) {
    && (forall j, k :: 0 <= j < k < |setting.listing| ==>
          setting.listing[j].generation != setting.listing[k].generation)
    && forall k :: 0 <= k < |setting.listing| ==>
         && IsGeneration(setting.listing[k].generation)
         && if setting.listing[k].generation in store then Holds(tools, store, setting.listing[k])
            else Fits(tools, setting.listing[k], setting.manifests(k), setting.archives(k)) && !setting.dies(k)
  }

  // ----- Sorting names -----

  function Insert(names: seq<string>, name: string): seq<string> {
    if names == [] || Less(name, names[0]) then [name] + names else [names[0]] + Insert(names[1..], name)
  }

  predicate Above(names: seq<string>, name: string) {
    forall k :: 0 <= k < |names| ==> Less(name, names[k])
  }

  lemma {:induction false} InsertAscends(names: seq<string>, name: string)
    requires Ascending(names) && name !in names
    ensures Ascending(Insert(names, name))
    ensures forall n :: n in Insert(names, name) <==> n in names || n == name
    ensures forall low :: Above(names, low) && Less(low, name) ==> Above(Insert(names, name), low)
  {
    if names == [] {
    } else if Less(name, names[0]) {
      forall k | 0 <= k < |names| ensures Less(name, names[k]) {
        if k > 0 {
          LessIsTransitive(name, names[0], names[k]);
        }
      }
    } else {
      InsertAscends(names[1..], name);
      LessIsTotal(name, names[0]);
      assert Above(names[1..], names[0]);
      assert Above(Insert(names[1..], name), names[0]);
    }
  }

  method SortedNames(names: set<string>) returns (sorted: seq<string>)
    ensures Ascending(sorted)
    ensures forall n :: n in sorted <==> n in names
  {
    sorted := [];
    var left := names;
    while left != {}
      invariant left <= names && Ascending(sorted)
      invariant forall n :: n in sorted <==> n in names && n !in left
      decreases left
    {
      var name :| name in left;
      InsertAscends(sorted, name);
      sorted := Insert(sorted, name);
      left := left - {name};
    }
  }

  class Collector {
    const tools: Tools
    var store: Store

    constructor (tools: Tools, store: Store)
      ensures this.tools == tools && this.store == store
    {
      this.tools, this.store := tools, store;
    }

    /** One entry: reused as it is, or staged, verified and renamed into place, or an error. */
    method CollectEntry(entry: Entry, manifest: Transfer, archive: Transfer, modified: int, dies: bool)
      returns (ok: bool, copied: bool)
      requires Sound(tools, store)
      modifies this`store
      ensures Sound(tools, store) && Extends(old(store), store)
      ensures ok ==> Holds(tools, store, entry)
      ensures copied <==> store != old(store)
      ensures copied ==>
                && ok && |store| == |old(store)| + 1
                && store == old(store)[entry.generation :=
                     Directory(Some(Received(archive.chunks)), Some(Received(manifest.chunks)), modified)]
      ensures ok <==>
                && IsGeneration(entry.generation)
                && (if entry.generation in old(store) then Holds(tools, old(store), entry)
                    else Fits(tools, entry, manifest, archive) && !dies)
    {
      ok, copied := false, false;
      var generation := entry.generation;
      if IsGeneration(generation) {
        if generation in store {
          ok := Holds(tools, store, entry);
        } else if entry.manifestBytes <= MANIFEST_LIMIT {
          var manifestFile := Fetch(tools, manifest, entry.manifestBytes, entry.manifestSha256);
          if manifestFile.Some? {
            var parsed := tools.parse(manifestFile.value);
            if parsed == Some(Manifest(SCHEMA, generation + ".zip", entry.archiveSha256)) {
              var archiveFile := Fetch(tools, archive, entry.archiveBytes, entry.archiveSha256);
              if archiveFile.Some? && !dies {
                ghost var before := store;
                store := store[generation := Directory(archiveFile, manifestFile, modified)];
                GrownByOne(before, store, generation);
                ok, copied := true, true;
              }
            }
          }
        }
      }
    }

    /** The `i`-th entry of the inventory, for a run that started from `first`. */
    method CollectNext(setting: Setting, i: nat, ghost first: Store) returns (ok: bool, copied: bool)
      requires i < |setting.listing| && Sound(tools, store)
      requires Gathered(tools, setting.listing[..i], first, store)
      modifies this`store
      ensures Sound(tools, store) && Extends(first, store)
      ensures |store| == |old(store)| + (if copied then 1 else 0)
      ensures ok ==> Gathered(tools, setting.listing[..i + 1], first, store)
      ensures !ok ==> store == old(store) && !Obtainable(tools, setting, first)
    {
      if Obtainable(tools, setting, first) {
        NextIsObtainable(tools, setting, first, store, i);
      }
      ghost var before := store;
      ok, copied := CollectEntry(
        setting.listing[i], setting.manifests(i), setting.archives(i), setting.modified(i), setting.dies(i));
      if ok {
        GathersOne(tools, setting.listing, first, before, store, i);
      }
    }

    /** All entries of the inventory, in order, up to the first that fails. */
    method CollectAll(setting: Setting) returns (ok: bool, copied: nat, reused: nat)
      requires Sound(tools, store)
      modifies this`store
      ensures Sound(tools, store) && Extends(old(store), store)
      ensures store.Keys <= old(store).Keys + Listed(setting.listing)
      ensures ok ==> Collected(tools, setting.listing, store)
      ensures ok ==> |store| == |old(store)| + copied && copied + reused == |setting.listing|
      ensures Obtainable(tools, setting, old(store)) ==> ok
    {
      ghost var first := store;
      ok, copied, reused := true, 0, 0;
      for i := 0 to |setting.listing|
        invariant ok && Sound(tools, store) && Gathered(tools, setting.listing[..i], first, store)
        invariant |store| == |first| + copied && copied + reused == i
      {
        OneMoreListed(setting.listing, i);
        var done, new_ := CollectNext(setting, i, first);
        if !done {
          return false, copied, reused;
        }
        copied, reused := if new_ then copied + 1 else copied, if new_ then reused else reused + 1;
      }
      assert setting.listing[..|setting.listing|] == setting.listing;
    }

    /** Removes the old generations below the seven highest names, each in one step; all of them if `ok`. */
    method Prune(setting: Setting) returns (ok: bool, pruned: nat)
      modifies this`store
      ensures Extends(store, old(store)) && |store| + pruned == |old(store)|
      ensures forall name <- old(store) :: name !in store ==> Prunable(name, old(store), store, setting.Cutoff())
      ensures ok ==> forall name <- store :: !Prunable(name, old(store), old(store), setting.Cutoff())
      ensures !ok ==> exists k :: k >= |setting.listing| && setting.dies(k)
    {
      pruned := 0;
      var names := SortedNames(Generations(store));
      assert forall k :: 0 <= k < |names| ==> names[k] in names && names[k] in Generations(store);
      var i := 0;
      while i + KEPT < |names|
        invariant i == 0 || i + KEPT <= |names|
        invariant Pruning(old(store), store, names, i, setting.Cutoff())
        invariant |store| + pruned == |old(store)|
      {
        var node := store[names[i]];
        if node.Directory? && node.modified < setting.Cutoff() {
          if setting.dies(|setting.listing| + i) {
            break;
          }
          RemovesOne(old(store), store, names, i, setting.Cutoff());
          store := store - {names[i]};
          pruned := pruned + 1;
        }
        i := i + 1;
      }
      ok := i + KEPT >= |names|;
      PrunedBelowTheTop(old(store), store, names, i, setting.Cutoff());
      if ok {
        NothingLeftToPrune(old(store), store, names, i, setting.Cutoff());
      }
    }

    /** The latest name of the inventory. */
    static method Latest(listing: seq<Entry>) returns (latest: string)
      requires listing != []
      ensures IsLatest(latest, listing)
    {
      latest := listing[0].generation;
      for i := 1 to |listing|
        invariant IsLatest(latest, listing[..i])
      {
        assert listing[..i + 1] == listing[..i] + [listing[i]];
        LessIsTotal(latest, listing[i].generation);
        if Less(latest, listing[i].generation) {
          forall k | 0 <= k < i && listing[k].generation != latest
            ensures Less(listing[k].generation, listing[i].generation)
          {
            assert listing[..i][k] == listing[k];
            LessIsTransitive(listing[k].generation, latest, listing[i].generation);
          }
          latest := listing[i].generation;
          assert listing[..i + 1][i].generation == latest;
        } else {
          ghost var j :| 0 <= j < i && listing[..i][j].generation == latest;
          assert listing[..i + 1][j].generation == latest;
        }
      }
      assert listing[..|listing|] == listing;
    }

    /**
      One run, interrupted before any change of the store or not at all.  `collected` is the store after the
      inventory.  A generation is deleted only once the whole inventory is there and fresh, and never one of
      the seven highest names.
      */
    method Collect(setting: Setting) returns (report: Option<Report>, ghost collected: Store)
      requires Sound(tools, store)
      modifies this`store
      ensures Sound(tools, store)
      ensures Extends(old(store), collected) && Extends(store, collected)
      ensures collected.Keys <= old(store).Keys + Listed(setting.listing)
      ensures store != collected ==>
                Collected(tools, setting.listing, collected) && Fresh(tools, setting.listing, setting.now)
      ensures forall name <- collected :: name !in store ==> Prunable(name, collected, store, setting.Cutoff())
      ensures report.Some? ==>
                && 0 < |setting.listing| <= 2000
                && Collected(tools, setting.listing, collected)
                && IsLatest(report.value.latest, setting.listing)
                && FreshTime(tools, report.value.latest, setting.now)
                && |collected| == |old(store)| + report.value.copied
                && report.value.copied + report.value.reused == |setting.listing|
                && |store| + report.value.pruned == |collected|
                && forall name <- store :: !Prunable(name, collected, collected, setting.Cutoff())
      ensures (&& 0 < |setting.listing| <= 2000 && Obtainable(tools, setting, old(store))
               && Fresh(tools, setting.listing, setting.now)
               && (forall k :: k >= |setting.listing| ==> !setting.dies(k)))
              ==> report.Some?
    {
      report, collected := None, store;
      if 0 < |setting.listing| <= 2000 {
        var ok, copied, reused := CollectAll(setting);
        collected := store;
        if ok {
          var latest := Latest(setting.listing);
          OnlyOneIsLatest(setting.listing, latest);
          if FreshTime(tools, latest, setting.now) {
            var done, pruned := Prune(setting);
            if done {
              report := Some(Report(copied, reused, pruned, latest));
            }
          }
        }
      }
    }
  }

  datatype Report = Report(copied: int, reused: int, pruned: int, latest: string)

  // ----- Run after run -----

  /** From one run to the next: what stays is unchanged, and what goes is below seven that stay. */
  ghost predicate Succeeds(store: Store, later: Store) {
    && (forall name <- store :: name in later ==> later[name] == store[name])
    && forall name <- store :: name !in later ==>
         IsGeneration(name) && exists tops :: Kept(tops, later, later) && Less(name, tops[0])
  }

  /** What one run, interrupted or not, makes of the store. */
  ghost predicate Ran(tools: Tools, setting: Setting, store: Store, later: Store) {
    && Sound(tools, later)
    && Succeeds(store, later)
    && (!Fresh(tools, setting.listing, setting.now) ==> Extends(store, later))
  }

  method CollectOnce(collector: Collector, setting: Setting)
    requires Sound(collector.tools, collector.store)
    modifies collector
    ensures Ran(collector.tools, setting, old(collector.store), collector.store)
  {
    var report, collected := collector.Collect(setting);
    StoreSucceeds(old(collector.store), collected, collector.store, setting.Cutoff());
  }

  /** Any number of runs, each of them possibly interrupted. */
  method CollectRepeatedly(collector: Collector, settings: seq<Setting>) returns (ghost stores: seq<Store>)
    requires Sound(collector.tools, collector.store)
    modifies collector
    ensures |stores| == |settings| + 1 && stores[0] == old(collector.store) && stores[|settings|] == collector.store
    ensures forall k :: 0 <= k < |settings| ==> Ran(collector.tools, settings[k], stores[k], stores[k + 1])
  {
    stores := [collector.store];
    for i := 0 to |settings|
      invariant |stores| == i + 1 && stores[0] == old(collector.store) && stores[i] == collector.store
      invariant Sound(collector.tools, collector.store)
      invariant forall k :: 0 <= k < i ==> Ran(collector.tools, settings[k], stores[k], stores[k + 1])
    {
      CollectOnce(collector, settings[i]);
      ghost var before := stores;
      stores := stores + [collector.store];
      assert forall k :: 0 <= k <= i ==> stores[k] == before[k];
    }
  }

  lemma StoreSucceeds(before: Store, collected: Store, later: Store, cutoff: int)
    requires Extends(before, collected) && Extends(later, collected)
    requires forall name <- collected :: name !in later ==> Prunable(name, collected, later, cutoff)
    ensures Succeeds(before, later)
  {
    forall name <- before | name !in later
      ensures IsGeneration(name) && exists tops :: Kept(tops, later, later) && Less(name, tops[0])
    {
      assert Prunable(name, collected, later, cutoff);
      var tops :| Kept(tops, collected, later) && Less(name, tops[0]);
      assert Kept(tops, later, later);
    }
  }

  /** Seven ascending names above one name of an ascending sequence leave at least seven places above it. */
  lemma {:induction false} PlacesAbove(names: seq<string>, j: nat, tops: seq<string>, m: nat)
    requires Ascending(names) && j < |names| && Ascending(tops) && m < |tops|
    requires forall k :: 0 <= k < |tops| ==> tops[k] in names
    requires Less(names[j], tops[0])
    ensures forall k :: 0 <= k < |names| && names[k] == tops[m] ==> k >= j + 1 + m
  {
    forall k | 0 <= k < |names| && names[k] == tops[m] ensures k >= j + 1 + m {
      if m == 0 {
        PlaceOrder(names, j, k);
      } else {
        PlacesAbove(names, j, tops, m - 1);
        var below :| 0 <= below < |names| && names[below] == tops[m - 1];
        assert Less(tops[m - 1], tops[m]);
        PlaceOrder(names, below, k);
      }
    }
  }

  lemma PlaceOrder(names: seq<string>, j: nat, k: nat)
    requires Ascending(names) && j < |names| && k < |names| && Less(names[j], names[k])
    ensures j < k
  {
    LessIsTotal(names[j], names[k]);
  }

  lemma NothingLeftToPrune(before: Store, store: Store, names: seq<string>, i: nat, cutoff: int)
    requires Pruning(before, store, names, i, cutoff) && i + KEPT >= |names|
    requires forall name <- before :: IsGeneration(name) ==> name in names
    ensures forall name <- store :: !Prunable(name, before, before, cutoff)
  {
    forall name <- store ensures !Prunable(name, before, before, cutoff) {
      if IsGeneration(name) && store[name].Directory? && store[name].modified < cutoff {
        var j :| 0 <= j < |names| && names[j] == name;
        forall tops | Kept(tops, before, before) ensures !Less(name, tops[0]) {
          if Less(name, tops[0]) {
            PlacesAbove(names, j, tops, KEPT - 1);
          }
        }
      }
    }
  }

  lemma HoldingsStay(tools: Tools, before: Store, store: Store, listing: seq<Entry>)
    requires Extends(before, store) && Collected(tools, listing, before)
    ensures Collected(tools, listing, store)
  {
    forall k | 0 <= k < |listing| ensures Holds(tools, store, listing[k]) {
      assert Holds(tools, before, listing[k]);
    }
  }

  /** The store before, and the listed generations. */
  predicate Gathered(tools: Tools, listing: seq<Entry>, before: Store, store: Store) {
    && Extends(before, store)
    && store.Keys <= before.Keys + Listed(listing)
    && Collected(tools, listing, store)
  }

  lemma GathersOne(tools: Tools, listing: seq<Entry>, before: Store, store: Store, later: Store, i: nat)
    requires i < |listing| && Gathered(tools, listing[..i], before, store)
    requires Extends(store, later) && later.Keys <= store.Keys + {listing[i].generation}
    requires Holds(tools, later, listing[i])
    ensures Gathered(tools, listing[..i + 1], before, later)
  {
    OneMoreListed(listing, i);
    HoldingsStay(tools, store, later, listing[..i]);
  }

  lemma GrownByOne(before: Store, store: Store, name: string)
    requires name !in before && store.Keys == before.Keys + {name}
    ensures |store| == |before| + 1
  {
    assert |store| == |store.Keys| && |before| == |before.Keys|;
  }

  lemma OnlyOneIsLatest(listing: seq<Entry>, latest: string)
    requires IsLatest(latest, listing)
    ensures forall other :: IsLatest(other, listing) ==> other == latest
  {
    forall other | IsLatest(other, listing) ensures other == latest {
      LessIsTotal(other, latest);
    }
  }

  lemma OneMoreListed(listing: seq<Entry>, i: nat)
    requires i < |listing|
    ensures listing[..i + 1] == listing[..i] + [listing[i]]
    ensures Listed(listing[..i + 1]) == Listed(listing[..i]) + {listing[i].generation}
    ensures Listed(listing[..i + 1]) <= Listed(listing)
  {
    var front, more := listing[..i], listing[..i + 1];
    assert forall k :: 0 <= k < i ==> front[k] == more[k];
    assert more[i] == listing[i];
    forall name | name in Listed(more) ensures name in Listed(front) + {listing[i].generation} {
      var k :| 0 <= k < |more| && more[k].generation == name;
      if k < i {
        assert front[k].generation == name;
      }
    }
    forall name | name in Listed(more) ensures name in Listed(listing) {
      var k :| 0 <= k < |more| && more[k].generation == name;
      assert listing[k].generation == name;
    }
  }

  lemma NextIsObtainable(tools: Tools, setting: Setting, before: Store, store: Store, i: nat)
    requires i < |setting.listing| && Obtainable(tools, setting, before) && Extends(before, store)
    requires store.Keys <= before.Keys + Listed(setting.listing[..i])
    ensures var entry := setting.listing[i];
            && IsGeneration(entry.generation)
            && (if entry.generation in store then Holds(tools, store, entry)
                else Fits(tools, entry, setting.manifests(i), setting.archives(i)) && !setting.dies(i))
  {
    var name := setting.listing[i].generation;
    assert name !in Listed(setting.listing[..i]);
  }

  /** Of the ascending `names`, those before `i` have been looked at; only old generations among them are gone. */
  ghost predicate Pruning(before: Store, store: Store, names: seq<string>, i: nat, cutoff: int) {
    && Ascending(names)
    && (forall k :: 0 <= k < |names| ==> IsGeneration(names[k]) && names[k] in before)
    && Extends(store, before)
    && (forall k :: i <= k < |names| ==> names[k] in store)
    && (forall k :: 0 <= k < i && k < |names| && names[k] in store ==>
          !(store[names[k]].Directory? && store[names[k]].modified < cutoff))
    && (forall name <- before :: name !in store ==>
          && before[name].Directory? && before[name].modified < cutoff
          && exists k :: 0 <= k < i && k + KEPT < |names| && names[k] == name)
  }

  lemma RemovesOne(before: Store, store: Store, names: seq<string>, i: nat, cutoff: int)
    requires i + KEPT < |names| && Pruning(before, store, names, i, cutoff)
    requires store[names[i]].Directory? && store[names[i]].modified < cutoff
    ensures Pruning(before, store - {names[i]}, names, i + 1, cutoff)
    ensures |store - {names[i]}| + 1 == |store|
  {
    var later := store - {names[i]};
    forall k | i < k < |names| ensures names[k] != names[i] {
      LessIsTotal(names[i], names[k]);
    }
    GrownByOne(later, store, names[i]);
  }

  lemma PrunedBelowTheTop(before: Store, store: Store, names: seq<string>, i: nat, cutoff: int)
    requires Pruning(before, store, names, i, cutoff) && (i == 0 || i + KEPT <= |names|)
    ensures forall name <- before :: name !in store ==> Prunable(name, before, store, cutoff)
  {
    forall name <- before | name !in store ensures Prunable(name, before, store, cutoff) {
      var k :| 0 <= k < i && k + KEPT < |names| && names[k] == name;
      var tops := names[|names| - KEPT..];
      assert Less(names[k], names[|names| - KEPT]);
      assert Kept(tops, before, store);
    }
  }
}
