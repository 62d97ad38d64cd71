/** Theorems about whole runs of one device: any sequence of public operations, any library answers. */
module DeviceRuns {
  import opened Basics
  import opened OpenMls
  import opened ErrorKinds
  import opened Members
  import opened DeviceSpec

  datatype Op =
    | Create(name: string, secrets: nat, answer: Answer)
    | ForceCreate(name: string, deletion: Answer, secrets: nat, answer: Answer)
    | Forget(name: string, minEpoch: nat, deletion: Answer)
    | Drop(name: string, deletion: Answer)
    | Join(welcome: Welcome)
    | JoinExternally(info: GroupInfo)
    | Send(name: string, answer: Answer, serialise: Answer)
    | Skip(name: string, answers: seq<Answer>)
    | Receive(name: string, frame: Frame, processing: Processing)
    | AddMembers(name: string, packages: seq<Package>, secrets: nat, answer: Answer, serialise: Answer)
    | RemoveUsers(name: string, users: seq<string>, evictsUs: bool, secrets: nat, answer: Answer, serialise: Answer)
    | RemoveDevices(name: string, devices: seq<string>, evictsUs: bool, secrets: nat, answer: Answer, serialise: Answer)
    | Merge(name: string, answer: Answer)
    | Clear(name: string, answer: Answer)
    | Mint(hashRef: string, notAfter: nat, lastResort: bool, calls: Minting, serialise: Answer)
    | PruneAt(now: nat)
    | Save
    | Reload(snapshot: Snapshot, clock: Option<nat>)

  function Candidate(s: Snapshot, clock: Option<nat>): Device {
    match clock
    case None => Restored(s)
    case Some(now) => Prune(Restored(s), now)
  }

  function Step(d: Device, op: Op): Device {
    match op
    case Create(name, secrets, answer) => CreateGroup(d, name, secrets, answer).device
    case ForceCreate(name, deletion, secrets, answer) => ForceCreateGroup(d, name, deletion, secrets, answer).device
    case Forget(name, minEpoch, deletion) => ForgetGroup(d, name, minEpoch, deletion)
    case Drop(name, deletion) => DropGroup(d, name, deletion)
    case Join(w) => ProcessWelcome(d, w).device
    case JoinExternally(i) => JoinByExternalCommit(d, i).device
    case Send(name, answer, serialise) => SendMessage(d, name, answer, serialise).device
    case Skip(name, answers) => SkipSendGenerations(d, name, answers).device
    case Receive(name, f, p) => ProcessIncoming(d, name, f, p).device
    case AddMembers(name, packages, secrets, answer, serialise) =>
      AddMembersBulk(d, name, packages, secrets, answer, serialise).device
    case RemoveUsers(name, users, evictsUs, secrets, answer, serialise) =>
      RemoveWhere(d, name, NamesUser(users), evictsUs, secrets, answer, serialise).device
    case RemoveDevices(name, devices, evictsUs, secrets, answer, serialise) =>
      RemoveWhere(d, name, NamesDevice(devices), evictsUs, secrets, answer, serialise).device
    case Merge(name, answer) => MergePendingFor(d, name, answer).device
    case Clear(name, answer) => ClearPendingFor(d, name, answer).device
    case Mint(hashRef, notAfter, lastResort, calls, serialise) =>
      BuildKeyPackage(d, hashRef, notAfter, lastResort, calls, serialise).device
    case PruneAt(now) => Prune(d, now)
    case Save => SaveState(d).0
    case Reload(s, clock) =>
      if s.identity == d.identity && ReloadIsMonotonic(d, Candidate(s, clock)) then Candidate(s, clock) else d
  }

  function Run(d: Device, ops: seq<Op>): Device
    decreases |ops|
  {
    if ops == [] then d else Run(Step(d, ops[0]), ops[1..])
  }

  // ---- What every run keeps ----

  /** Every group record and every KeyPackage bundle sits under the key built from its own id. */
  predicate WellNamed(storage: Storage) {
    forall k :: k in storage ==>
      (storage[k].Record? ==> k == GroupKey(storage[k].group.id)) &&
      (storage[k].Bundle? ==> k == PackageKey(storage[k].hashRef))
  }

  predicate StoredAsHeld(d: Device, name: string)
    requires name in d.groups
  {
    d.groups[name].id.text == name && Load(d.storage, d.groups[name].id) == Some(d.groups[name])
  }

  predicate Synced(d: Device) {
    WellNamed(d.storage) && forall name :: name in d.groups ==> StoredAsHeld(d, name)
  }

  /** The refused external join that has already replaced the stored state of a held group. */
  predicate Overwrites(d: Device, op: Op) {
    && op.JoinExternally? && op.info.BuiltJoin?
    && op.info.id.text in d.groups
    && d.groups[op.info.id.text].id == op.info.id
    && d.groups[op.info.id.text] != ExternalInstance(op.info)
  }

  predicate GoodReload(op: Op) {
    op.Reload? ==> WellNamed(op.snapshot.storage)
  }

  lemma PutKeepsSynced(d: Device, name: string, g: Group)
    requires Synced(d) && g.id.text == name
    ensures Synced(Put(d, name, g)) && Synced(Dirtied(Put(d, name, g)))
  {
    var e := Put(d, name, g);
    forall n | n in e.groups
      ensures StoredAsHeld(e, n)
    {
      if n != name && GroupKey(d.groups[n].id) == GroupKey(g.id) {
        GroupKeyInjective(d.groups[n].id, g.id);
      }
    }
  }

  lemma DeletionKeepsSynced(d: Device, name: string, deletion: Answer, floors: map<string, nat>)
    requires Synced(d)
    ensures Synced(Dirtied(d).(groups := d.groups - {name}, floors := floors,
                               storage := DeleteStored(d.storage, name, deletion)))
  {
    var e := Dirtied(d).(groups := d.groups - {name}, floors := floors,
                         storage := DeleteStored(d.storage, name, deletion));
    forall n | n in e.groups
      ensures StoredAsHeld(e, n)
    {
      if GroupKey(d.groups[n].id) == GroupKey(NamedId(name)) {
        GroupKeyInjective(d.groups[n].id, NamedId(name));
      }
    }
  }

  lemma CreateKeepsSynced(d: Device, name: string, secrets: nat, answer: Answer)
    requires Synced(d)
    ensures Synced(CreateGroup(d, name, secrets, answer).device)
  {
    if GroupKey(NamedId(name)) in d.storage {
      var found := Load(d.storage, NamedId(name));
      if found.Some? {
        GroupKeyInjective(found.value.id, NamedId(name));
        var e := CreateGroup(d, name, secrets, answer).device;
        assert forall n :: n in e.groups && n != name ==> StoredAsHeld(d, n);
      }
    } else {
      PutKeepsSynced(d, name, FreshGroup(name, Basic(d.identity.credential), secrets));
    }
  }

  lemma WelcomeKeepsSynced(d: Device, w: Welcome)
    requires Synced(d)
    ensures Synced(ProcessWelcome(d, w).device)
  {
    if PassesGuards(d, w) && w.intoGroup.Works? {
      var e := ProcessWelcome(d, w).device;
      var key := PackageKey(w.usedPackage);
      forall n | n in e.groups
        ensures StoredAsHeld(e, n)
      {
        if n != w.id.text {
          if GroupKey(d.groups[n].id) == GroupKey(w.id) {
            GroupKeyInjective(d.groups[n].id, w.id);
          }
        }
      }
    }
  }

  lemma ExternalJoinKeepsSynced(d: Device, i: GroupInfo)
    requires Synced(d)
    ensures Synced(JoinByExternalCommit(d, i).device) <==> !Overwrites(d, JoinExternally(i))
  {
    if i.BuiltJoin? {
      var e := JoinByExternalCommit(d, i).device;
      if Overwrites(d, JoinExternally(i)) {
        assert !StoredAsHeld(e, i.id.text);
      } else {
        forall n | n in e.groups
          ensures StoredAsHeld(e, n)
        {
          if n in d.groups && GroupKey(d.groups[n].id) == GroupKey(i.id) {
            GroupKeyInjective(d.groups[n].id, i.id);
          }
        }
      }
    }
  }

  lemma DoomedAreExpired(storage: Storage, now: nat)
    requires WellNamed(storage)
    ensures DoomedKeys(storage, now) ==
            set k | k in storage && storage[k].Bundle? && storage[k].notAfter < now
  {
    forall k | k in storage && storage[k].Bundle?
      ensures Doomed(k, storage[k], now) <==> storage[k].notAfter < now
    {
      var ref := storage[k].hashRef;
      assert ref[0..|ref|] == ref;
      assert OccursAt(ref, ref, 0);
    }
  }

  lemma PruneKeepsSynced(d: Device, now: nat)
    requires Synced(d)
    ensures Synced(Prune(d, now))
  {
  }

  lemma RestoredIsSynced(s: Snapshot)
    requires WellNamed(s.storage)
    ensures Synced(Restored(s))
  {
    var d := Restored(s);
    forall n | n in d.groups
      ensures StoredAsHeld(d, n)
    {
      GroupKeyInjective(d.groups[n].id, NamedId(n));
    }
  }

  lemma MintKeepsSynced(d: Device, op: Op)
    requires Synced(d) && op.Mint?
    ensures Synced(Step(d, op))
  {
    forall n | n in d.groups
      ensures StoredAsHeld(Step(d, op), n)
    {
    }
  }

  /** The library operations on one held group: nothing else on the device moves. */
  predicate ActsOnGroup(op: Op) {
    op.Send? || op.Skip? || op.Receive? || op.AddMembers? || op.RemoveUsers? || op.RemoveDevices?
    || op.Merge? || op.Clear?
  }

  /** Unchanged up to the stale mark, or one held group replaced by its own later state. */
  predicate OneGroupMoved(d: Device, e: Device, name: string) {
    || e == d || e == Dirtied(d)
    || (&& name in d.groups && name in e.groups
        && e.groups[name].id == d.groups[name].id
        && e.groups[name].epoch >= d.groups[name].epoch
        && (e == Put(d, name, e.groups[name]) || e == Dirtied(Put(d, name, e.groups[name]))))
  }

  lemma MessagingShape(d: Device, op: Op)
    requires op.Send? || op.Skip? || op.Receive?
    ensures OneGroupMoved(d, Step(d, op), op.name)
  {
  }

  lemma StagingShape(d: Device, op: Op)
    requires op.AddMembers? || op.RemoveUsers? || op.RemoveDevices?
    ensures OneGroupMoved(d, Step(d, op), op.name)
  {
  }

  lemma ResolvingShape(d: Device, op: Op)
    requires op.Merge? || op.Clear?
    ensures OneGroupMoved(d, Step(d, op), op.name)
  {
  }

  /** A library operation moves one held group forward, in memory and in the store, or nothing. */
  lemma GroupStepShape(d: Device, op: Op)
    requires ActsOnGroup(op)
    ensures OneGroupMoved(d, Step(d, op), op.name)
  {
    if op.Send? || op.Skip? || op.Receive? {
      MessagingShape(d, op);
    } else if op.Merge? || op.Clear? {
      ResolvingShape(d, op);
    } else {
      StagingShape(d, op);
    }
  }

  /** Synchronisation of memory and store survives every operation but that one, and only that one. */
  lemma SyncedStep(d: Device, op: Op)
    requires Synced(d) && GoodReload(op)
    ensures Synced(Step(d, op)) <==> !Overwrites(d, op)
  {
    if ActsOnGroup(op) {
      GroupStepShape(d, op);
      var e := Step(d, op);
      if e == d || e == Dirtied(d) {
        assert forall n :: n in d.groups ==> StoredAsHeld(d, n);
      } else {
        PutKeepsSynced(d, op.name, e.groups[op.name]);
      }
    } else {
      match op
      case Create(name, secrets, answer) => CreateKeepsSynced(d, name, secrets, answer);
      case ForceCreate(name, deletion, secrets, answer) =>
        DeletionKeepsSynced(d, name, deletion, d.floors - {name});
        CreateKeepsSynced(Dirtied(d).(groups := d.groups - {name}, floors := d.floors - {name},
                                      storage := DeleteStored(d.storage, name, deletion)), name, secrets, answer);
      case Forget(name, minEpoch, deletion) =>
        DeletionKeepsSynced(d, name, deletion, if minEpoch > 0 then d.floors[name := minEpoch] else d.floors);
      case Drop(name, deletion) =>
        DeletionKeepsSynced(d, name, deletion, d.floors[name := U64_MAX]);
      case Join(w) => WelcomeKeepsSynced(d, w);
      case JoinExternally(i) => ExternalJoinKeepsSynced(d, i);
      case Mint(_, _, _, _, _) => MintKeepsSynced(d, op);
      case PruneAt(now) => PruneKeepsSynced(d, now);
      case Save => assert forall n :: n in d.groups ==> StoredAsHeld(d, n);
      case Reload(s, clock) =>
        RestoredIsSynced(s);
        if clock.Some? {
          PruneKeepsSynced(Restored(s), clock.value);
        }
    }
  }

  // ---- The snapshot cache ----

  /** A clean cache holds what a fresh serialisation would produce. */
  predicate Coherent(d: Device) {
    !d.cache.dirty && d.cache.cached.Some? ==> d.cache.cached.value == SnapshotOf(d)
  }

  predicate Readable(g: Group, f: Frame) {
    f.length <= MAX_MLS_MESSAGE_BYTES && f.body.Protocol? && g.active && f.body.epoch <= g.epoch
  }

  /** The four failure paths that change the state and return without marking the snapshot stale. */
  predicate Leaks(d: Device, op: Op) {
    && !d.cache.dirty && d.cache.cached.Some?
    && match op
       case Join(w) => PassesGuards(d, w) && w.intoGroup.Fails? && w.id.text in d.floors
       case JoinExternally(i) =>
         && i.BuiltJoin? && (i.id.text in d.groups || i.serialise.Fails?)
         && Load(d.storage, i.id) != Some(ExternalInstance(i))
       case AddMembers(name, packages, secrets, answer, serialise) =>
         && name in d.groups && TriageOf(d.groups[name].roster, packages).kept != []
         && d.groups[name].active && d.groups[name].pending.NoPending? && answer.Works? && serialise.Fails?
       case Receive(name, f, p) =>
         && name in d.groups && Readable(d.groups[name], f)
         && p.StagedCommit? && p.merge.Fails? && p.secrets != d.groups[name].secrets
       case _ => false
  }

  lemma SameGroupPut(d: Device, name: string)
    requires Synced(d) && name in d.groups
    ensures Put(d, name, d.groups[name]) == d
  {
  }

  lemma ReceiveCoherent(d: Device, op: Op)
    requires Synced(d) && Coherent(d) && op.Receive?
    ensures Coherent(Step(d, op)) <==> !Leaks(d, op)
  {
    if op.name in d.groups {
      var o := ProcessOnGroup(d.groups[op.name], op.name, op.frame, op.processing);
      if o.wrote && !o.invalidated {
        assert Step(d, op) == Put(d, op.name, o.group);
        PutChangesSnapshot(d, op.name, o.group);
      }
    }
  }

  lemma AddCoherent(d: Device, op: Op)
    requires Synced(d) && Coherent(d) && op.AddMembers?
    ensures Coherent(Step(d, op)) <==> !Leaks(d, op)
  {
    var e := Step(d, op);
    if op.name in d.groups && e.cache == d.cache && e != d {
      PutChangesSnapshot(d, op.name, e.groups[op.name]);
    }
  }

  lemma GroupStepCoherent(d: Device, op: Op)
    requires Synced(d) && Coherent(d) && ActsOnGroup(op)
    ensures Coherent(Step(d, op)) <==> !Leaks(d, op)
  {
    if op.Receive? {
      ReceiveCoherent(d, op);
    } else if op.AddMembers? {
      AddCoherent(d, op);
    } else {
      OtherStepsMark(d, op);
    }
  }

  /** Sending, burning, removing, merging and clearing mark the snapshot whenever they change it. */
  lemma OtherStepsMark(d: Device, op: Op)
    requires ActsOnGroup(op) && !op.Receive? && !op.AddMembers?
    ensures Step(d, op) == d || Step(d, op).cache == d.cache.(dirty := true)
  {
  }

  /** Replacing a held group by another one with its id shows in the snapshot. */
  lemma PutChangesSnapshot(d: Device, name: string, g: Group)
    requires Synced(d) && name in d.groups && g.id == d.groups[name].id
    ensures SnapshotOf(Put(d, name, g)) == SnapshotOf(d) <==> g == d.groups[name]
  {
  }

  lemma ExternalJoinCoherent(d: Device, i: GroupInfo)
    requires Synced(d) && Coherent(d)
    ensures Coherent(Step(d, JoinExternally(i))) <==> !Leaks(d, JoinExternally(i))
  {
    if i.BuiltJoin? {
      var stored := Store(d.storage, ExternalInstance(i));
      assert stored == d.storage <==> Load(d.storage, i.id) == Some(ExternalInstance(i)) by {
        assert stored[GroupKey(i.id)] == Record(ExternalInstance(i));
      }
    }
  }

  lemma WelcomeCoherent(d: Device, w: Welcome)
    requires Coherent(d)
    ensures Coherent(Step(d, Join(w))) <==> !Leaks(d, Join(w))
  {
    if PassesGuards(d, w) && w.intoGroup.Fails? {
      assert d.floors - {w.id.text} == d.floors <==> w.id.text !in d.floors;
    }
  }

  /** A clean cache stays truthful across every operation except exactly those four paths. */
  lemma CoherentStep(d: Device, op: Op)
    requires Synced(d) && Coherent(d)
    ensures Coherent(Step(d, op)) <==> !Leaks(d, op)
  {
    if ActsOnGroup(op) {
      GroupStepCoherent(d, op);
    } else if op.JoinExternally? {
      ExternalJoinCoherent(d, op.info);
    } else if op.Join? {
      WelcomeCoherent(d, op.welcome);
    }
  }

  /** A run on which neither the store nor the cache is left behind by a failure path. */
  predicate Careful(d: Device, ops: seq<Op>)
    decreases |ops|
  {
    ops == [] ||
    (GoodReload(ops[0]) && !Overwrites(d, ops[0]) && !Leaks(d, ops[0]) && Careful(Step(d, ops[0]), ops[1..]))
  }

  /**
   * The cache refines plain serialisation: after any careful run, `save_state` returns exactly the
   * current identity, store, held names and floors, whether it rebuilt them or not.
   */
  lemma {:induction false} SaveIsCurrent(d: Device, ops: seq<Op>)
    requires Synced(d) && Coherent(d) && Careful(d, ops)
    ensures var e := Run(d, ops);
            Synced(e) && Coherent(e) && SaveState(e).1 == SnapshotOf(e)
    decreases |ops|
  {
    if ops != [] {
      SyncedStep(d, ops[0]);
      CoherentStep(d, ops[0]);
      SaveIsCurrent(Step(d, ops[0]), ops[1..]);
    }
  }

  /** A new device, and a device restored from well-named bytes, start such runs. */
  lemma FreshDevicesAreSound(credential: string, keypair: nat, s: Snapshot, clock: Option<nat>)
    requires WellNamed(s.storage)
    ensures Synced(NewDevice(credential, keypair)) && Coherent(NewDevice(credential, keypair))
    ensures SnapshotOf(NewDevice(credential, keypair)) == Snapshot(Identity(credential, keypair), map[], {}, map[])
    ensures SaveState(NewDevice(credential, keypair)).1 == SnapshotOf(NewDevice(credential, keypair))
    ensures Synced(Candidate(s, clock)) && Coherent(Candidate(s, clock))
  {
    RestoredIsSynced(s);
    if clock.Some? {
      PruneKeepsSynced(Restored(s), clock.value);
    }
  }

  // ---- Save, then load ----

  predicate AllIdsAreText(d: Device) {
    forall name :: name in d.groups ==> d.groups[name].id.utf8
  }

  /**
   * Restoring what was saved brings back the identity, the floors and the store less exactly the
   * expired bundles; it brings back the held groups if and only if every held group id is text.
   */
  lemma SaveThenLoad(d: Device, user: string, device: string, now: nat)
    requires Synced(d) && Coherent(d) && d.identity.credential == user + ":" + device
    ensures var r := LoadState(user, device, Decoded(SaveState(d).1, Works), Some(now));
            && r.Ok?
            && r.value.identity == d.identity && r.value.floors == d.floors
            && r.value.storage == d.storage - (set k | k in d.storage && d.storage[k].Bundle? && d.storage[k].notAfter < now)
            && (r.value.groups == d.groups <==> AllIdsAreText(d))
            && (forall name :: name in d.groups && d.groups[name].id.utf8 ==>
                  name in r.value.groups && r.value.groups[name] == d.groups[name])
  {
    var s := SaveState(d).1;
    assert s == SnapshotOf(d);
    DoomedAreExpired(d.storage, now);
    var back := Restored(s);
    assert d.storage - {} == d.storage;
    forall name | name in d.groups
      ensures d.groups[name].id.utf8 <==> name in back.groups && back.groups[name] == d.groups[name]
    {
      assert StoredAsHeld(d, name);
      if name in back.groups {
        GroupKeyInjective(back.groups[name].id, NamedId(name));
      }
    }
  }

  // ---- Floors ----

  /** The operation leaves the recorded floor of `name` as it is. */
  predicate KeepsFloor(d: Device, op: Op, name: string)
    requires name in d.floors
  {
    var m := d.floors[name];
    match op
    case Forget(n, minEpoch, _) => n != name || minEpoch == 0 || minEpoch == m
    case Drop(n, _) => n != name || m == U64_MAX
    case ForceCreate(n, _, _, _) => n != name
    case Join(w) =>
      w.StagedWelcome? && w.id.text == name ==>
        0 < w.epoch < m || (name in d.groups && !(w.epoch == 0 && d.groups[name].epoch > 0))
    case Reload(s, clock) =>
      s.identity != d.identity || !ReloadIsMonotonic(d, Candidate(s, clock)) || (name in s.floors && s.floors[name] == m)
    case _ => true
  }

  lemma JoinFloorStep(d: Device, w: Welcome, name: string)
    requires name in d.floors
    ensures var e := Step(d, Join(w));
            (name in e.floors && e.floors[name] == d.floors[name]) <==> KeepsFloor(d, Join(w), name)
  {
  }

  lemma LifecycleFloorStep(d: Device, op: Op, name: string)
    requires !ActsOnGroup(op) && !op.Join? && name in d.floors
    ensures (name in Step(d, op).floors && Step(d, op).floors[name] == d.floors[name]) <==> KeepsFloor(d, op, name)
  {
  }

  /** A floor survives an operation exactly under that condition. */
  lemma FloorStep(d: Device, op: Op, name: string)
    requires name in d.floors
    ensures (name in Step(d, op).floors && Step(d, op).floors[name] == d.floors[name]) <==> KeepsFloor(d, op, name)
  {
    if ActsOnGroup(op) {
      GroupStepShape(d, op);
      assert Step(d, op).floors == d.floors;
    } else if op.Join? {
      JoinFloorStep(d, op.welcome, name);
    } else {
      LifecycleFloorStep(d, op, name);
    }
  }

  predicate KeepFloor(d: Device, ops: seq<Op>, name: string)
    decreases |ops|
  {
    ops == [] || (name in d.floors && KeepsFloor(d, ops[0], name) && KeepFloor(Step(d, ops[0]), ops[1..], name))
  }

  lemma {:induction false} FloorPersists(d: Device, ops: seq<Op>, name: string)
    requires name in d.floors && KeepFloor(d, ops, name)
    ensures name in Run(d, ops).floors && Run(d, ops).floors[name] == d.floors[name]
    decreases |ops|
  {
    if ops != [] {
      FloorStep(d, ops[0], name);
      FloorPersists(Step(d, ops[0]), ops[1..], name);
    }
  }

  /**
   * Floor safety over whole runs: however long after the floor was recorded, a Welcome strictly
   * between 0 and the floor changes nothing at all: no group, no stored entry, no floor, no cache.
   */
  lemma FloorSafety(d: Device, ops: seq<Op>, w: Welcome)
    requires w.StagedWelcome? && w.id.text in d.floors && 0 < w.epoch < d.floors[w.id.text]
    requires KeepFloor(d, ops, w.id.text)
    ensures Step(Run(d, ops), Join(w)) == Run(d, ops)
  {
    FloorPersists(d, ops, w.id.text);
  }

  /**
   * The reload guard looks at live groups only: forgetting a group and then reloading the snapshot
   * saved before is accepted, brings the group back and loses its floor.
   */
  lemma ReloadUndoesForget(d: Device, name: string, m: nat, deletion: Answer)
    requires Synced(d) && AllIdsAreText(d) && name in d.groups && name !in d.floors && 0 < m
    ensures var forgotten := Step(d, Forget(name, m, deletion));
            name !in forgotten.groups && name in forgotten.floors && forgotten.floors[name] == m
    ensures var e := Step(Step(d, Forget(name, m, deletion)), Reload(SnapshotOf(d), None));
            e.groups == d.groups && name !in e.floors
  {
    var back := Restored(SnapshotOf(d));
    forall n | n in d.groups
      ensures n in back.groups && back.groups[n] == d.groups[n]
    {
      assert StoredAsHeld(d, n);
    }
    assert back.groups == d.groups;
  }

  /** When exactly a Welcome installs its group. */
  lemma WelcomeInstallsExactly(d: Device, w: Welcome)
    requires w.StagedWelcome?
    ensures var e := Step(d, Join(w));
            var free := w.id.text !in d.groups || (w.epoch == 0 && d.groups[w.id.text].epoch > 0);
            var above := w.id.text !in d.floors || w.epoch == 0 || w.epoch >= d.floors[w.id.text];
            && (free && above && w.intoGroup.Works? ==>
                  e.groups == d.groups[w.id.text := JoinedGroup(w)] && e.floors == d.floors - {w.id.text}
                  && Load(e.storage, w.id) == Some(JoinedGroup(w)) && e.cache.dirty)
            && (free && above && w.intoGroup.Fails? ==>
                  e == d.(floors := d.floors - {w.id.text}))
            && (!(free && above) ==> e == d)
  {
  }

  /** After `drop_group`, two Welcome epochs still get in: 0 and the largest representable one. */
  lemma DropAdmitsOnlyTwoEpochs(d: Device, deletion: Answer, w: Welcome)
    requires w.StagedWelcome? && w.intoGroup.Works? && w.epoch <= U64_MAX
    ensures var e := Step(d, Drop(w.id.text, deletion));
            w.id.text in Step(e, Join(w)).groups <==> w.epoch == 0 || w.epoch == U64_MAX
  {
  }

  /** What a forget leaves open: Welcomes at epoch 0 and from the floor on, its own or an older one it kept. */
  lemma ForgetAdmitsExactly(d: Device, minEpoch: nat, deletion: Answer, w: Welcome)
    requires w.StagedWelcome? && w.intoGroup.Works?
    ensures var e := Step(d, Forget(w.id.text, minEpoch, deletion));
            var floor := if minEpoch > 0 then minEpoch else if w.id.text in d.floors then d.floors[w.id.text] else 0;
            && w.id.text !in e.groups
            && (w.id.text in Step(e, Join(w)).groups <==> w.epoch == 0 || w.epoch >= floor)
  {
  }

  /** A later `forget_group` lowers the lock that `drop_group` placed, to its own epoch. */
  lemma ForgetReopensADroppedGroup(d: Device, m: nat, first: Answer, second: Answer, w: Welcome)
    requires 0 < m && w.StagedWelcome? && w.intoGroup.Works?
    ensures var e := Step(Step(d, Drop(w.id.text, first)), Forget(w.id.text, m, second));
            w.id.text in Step(e, Join(w)).groups <==> w.epoch == 0 || w.epoch >= m
  {
  }

  /** The failed join that loses the floor: a Welcome it had kept out is then accepted. */
  lemma FailedJoinLosesTheFloor(d: Device, name: string, ok: Welcome, stale: Welcome)
    requires name in d.floors && name !in d.groups
    requires ok.StagedWelcome? && ok.id.text == name && ok.epoch >= d.floors[name] && ok.intoGroup.Fails?
    requires stale.StagedWelcome? && stale.id.text == name && 0 < stale.epoch < d.floors[name] && stale.intoGroup.Works?
    ensures Step(d, Join(stale)) == d
    ensures var e := Step(d, Join(ok));
            e.cache == d.cache && Step(e, Join(stale)).groups == d.groups[name := JoinedGroup(stale)]
  {
  }

  // ---- Epochs ----

  /** Records sit under their own ids and held groups under the text of theirs. */
  predicate Named(d: Device) {
    WellNamed(d.storage) && forall n :: n in d.groups ==> d.groups[n].id.text == n
  }

  /** The group is held no lower than `epoch`, and so is what `create_group` would recover for it. */
  predicate HeldFrom(d: Device, name: string, epoch: nat) {
    && name in d.groups && d.groups[name].epoch >= epoch
    && GroupKey(NamedId(name)) in d.storage
    && (Load(d.storage, NamedId(name)).Some? ==> Load(d.storage, NamedId(name)).value.epoch >= epoch)
  }

  /**
   * The operations that may lower or remove a group held from `epoch`: those that are meant to, and an
   * external join built on an older base, which is refused but leaves its instance in the store.
   */
  predicate MayLower(op: Op, name: string, epoch: nat) {
    match op
    case Forget(n, _, _) => n == name
    case Drop(n, _) => n == name
    case ForceCreate(n, _, _, _) => n == name
    case Join(w) => w.StagedWelcome? && w.id.text == name && w.epoch == 0
    case JoinExternally(i) => i.BuiltJoin? && i.id == NamedId(name) && i.base + 1 < epoch
    case _ => false
  }

  lemma PutKeepsHeld(d: Device, n: string, g: Group, name: string, epoch: nat)
    requires Named(d) && HeldFrom(d, name, epoch) && g.id.text == n && (n == name ==> g.epoch >= epoch)
    ensures Named(Put(d, n, g)) && HeldFrom(Put(d, n, g), name, epoch)
  {
    if GroupKey(g.id) == GroupKey(NamedId(name)) {
      GroupKeyInjective(g.id, NamedId(name));
    }
  }

  lemma CreateKeepsHeld(d: Device, n: string, secrets: nat, answer: Answer, name: string, epoch: nat)
    requires Named(d) && HeldFrom(d, name, epoch)
    ensures var e := CreateGroup(d, n, secrets, answer).device;
            Named(e) && HeldFrom(e, name, epoch)
  {
    if GroupKey(NamedId(n)) in d.storage {
      if Load(d.storage, NamedId(n)).Some? {
        GroupKeyInjective(Load(d.storage, NamedId(n)).value.id, NamedId(n));
      }
    } else {
      PutKeepsHeld(d, n, FreshGroup(n, Basic(d.identity.credential), secrets), name, epoch);
    }
  }

  lemma DeletionKeepsHeld(d: Device, n: string, deletion: Answer, floors: map<string, nat>, name: string, epoch: nat)
    requires Named(d) && HeldFrom(d, name, epoch) && n != name
    ensures var e := Dirtied(d).(groups := d.groups - {n}, floors := floors, storage := DeleteStored(d.storage, n, deletion));
            Named(e) && HeldFrom(e, name, epoch)
  {
    if GroupKey(NamedId(n)) == GroupKey(NamedId(name)) {
      GroupKeyInjective(NamedId(n), NamedId(name));
    }
  }

  lemma WelcomeKeepsHeld(d: Device, w: Welcome, name: string, epoch: nat)
    requires Named(d) && HeldFrom(d, name, epoch) && !MayLower(Join(w), name, epoch)
    ensures Named(ProcessWelcome(d, w).device) && HeldFrom(ProcessWelcome(d, w).device, name, epoch)
  {
    if PassesGuards(d, w) && w.intoGroup.Works? {
      var key := PackageKey(w.usedPackage);
      var kept := d.(storage := if key in d.storage && d.storage[key].Bundle? && !d.storage[key].lastResort
                                then d.storage - {key} else d.storage);
      PutKeepsHeld(kept, w.id.text, JoinedGroup(w), name, epoch);
    }
  }

  lemma ExternalJoinKeepsHeld(d: Device, i: GroupInfo, name: string, epoch: nat)
    requires Named(d) && HeldFrom(d, name, epoch) && !MayLower(JoinExternally(i), name, epoch)
    ensures Named(JoinByExternalCommit(d, i).device) && HeldFrom(JoinByExternalCommit(d, i).device, name, epoch)
  {
    if i.BuiltJoin? && GroupKey(i.id) == GroupKey(NamedId(name)) {
      GroupKeyInjective(i.id, NamedId(name));
    }
  }

  lemma PruneKeepsHeld(d: Device, now: nat, name: string, epoch: nat)
    requires Named(d) && HeldFrom(d, name, epoch)
    ensures Named(Prune(d, now)) && HeldFrom(Prune(d, now), name, epoch)
  {
  }

  lemma ReloadKeepsHeld(d: Device, s: Snapshot, clock: Option<nat>, name: string, epoch: nat)
    requires WellNamed(s.storage) && Named(d) && HeldFrom(d, name, epoch)
    ensures Named(Step(d, Reload(s, clock))) && HeldFrom(Step(d, Reload(s, clock)), name, epoch)
  {
    var back := Restored(s);
    if ReloadIsMonotonic(d, Candidate(s, clock)) {
      forall n | n in back.groups
        ensures back.groups[n].id.text == n
      {
        GroupKeyInjective(back.groups[n].id, NamedId(n));
      }
      if clock.Some? {
        PruneKeepsHeld(back, clock.value, name, epoch);
      }
    }
  }

  lemma GroupMoveKeepsHeld(d: Device, op: Op, name: string, epoch: nat)
    requires ActsOnGroup(op) && Named(d) && HeldFrom(d, name, epoch)
    ensures Named(Step(d, op)) && HeldFrom(Step(d, op), name, epoch)
  {
    GroupStepShape(d, op);
    var e := Step(d, op);
    if e != d && e != Dirtied(d) {
      PutKeepsHeld(d, op.name, e.groups[op.name], name, epoch);
    }
  }

  lemma MintKeepsHeld(d: Device, op: Op, name: string, epoch: nat)
    requires op.Mint? && Named(d) && HeldFrom(d, name, epoch)
    ensures Named(Step(d, op)) && HeldFrom(Step(d, op), name, epoch)
  {
  }

  lemma EpochStep(d: Device, op: Op, name: string, epoch: nat)
    requires Named(d) && HeldFrom(d, name, epoch) && GoodReload(op) && !MayLower(op, name, epoch)
    ensures Named(Step(d, op)) && HeldFrom(Step(d, op), name, epoch)
  {
    if ActsOnGroup(op) {
      GroupMoveKeepsHeld(d, op, name, epoch);
    } else {
      match op
      case Create(n, secrets, answer) => CreateKeepsHeld(d, n, secrets, answer, name, epoch);
      case ForceCreate(n, deletion, secrets, answer) =>
        DeletionKeepsHeld(d, n, deletion, d.floors - {n}, name, epoch);
        CreateKeepsHeld(Dirtied(d).(groups := d.groups - {n}, floors := d.floors - {n},
                                    storage := DeleteStored(d.storage, n, deletion)), n, secrets, answer, name, epoch);
      case Forget(n, minEpoch, deletion) =>
        DeletionKeepsHeld(d, n, deletion, if minEpoch > 0 then d.floors[n := minEpoch] else d.floors, name, epoch);
      case Drop(n, deletion) => DeletionKeepsHeld(d, n, deletion, d.floors[n := U64_MAX], name, epoch);
      case Join(w) => WelcomeKeepsHeld(d, w, name, epoch);
      case JoinExternally(i) => ExternalJoinKeepsHeld(d, i, name, epoch);
      case Mint(_, _, _, _, _) => MintKeepsHeld(d, op, name, epoch);
      case PruneAt(now) => PruneKeepsHeld(d, now, name, epoch);
      case Save =>
      case Reload(s, clock) => ReloadKeepsHeld(d, s, clock, name, epoch);
    }
  }

  /**
   * Epochs never go down: through any mix of frames, sends, burns, staging, merges, clears, joins,
   * creations, saves and accepted reloads, a held group stays held, no lower.
   */
  lemma {:induction false} EpochNeverFalls(d: Device, ops: seq<Op>, name: string, epoch: nat)
    requires Named(d) && HeldFrom(d, name, epoch)
    requires forall k :: 0 <= k < |ops| ==> GoodReload(ops[k]) && !MayLower(ops[k], name, epoch)
    ensures HeldFrom(Run(d, ops), name, epoch)
    decreases |ops|
  {
    if ops != [] {
      EpochStep(d, ops[0], name, epoch);
      EpochNeverFalls(Step(d, ops[0]), ops[1..], name, epoch);
    }
  }

  /** The group is still held, at its epoch or above. */
  predicate NotLowered(d: Device, e: Device, name: string)
    requires name in d.groups
  {
    name in e.groups && e.groups[name].epoch >= d.groups[name].epoch
  }

  /** A creation on this store finds something to recover, or builds a new group. */
  predicate CreationLowers(storage: Storage, name: string, answer: Answer, epoch: nat, whenNothing: bool) {
    if GroupKey(NamedId(name)) in storage then
      match Load(storage, NamedId(name))
      case Some(g) => g.epoch < epoch
      case None => whenNothing
    else if answer.Fails? then whenNothing
    else epoch > 0
  }

  /** When one operation lowers or removes the held group `name`. */
  predicate Lowers(d: Device, op: Op, name: string)
    requires name in d.groups
  {
    var epoch := d.groups[name].epoch;
    match op
    case Create(n, _, answer) => n == name && CreationLowers(d.storage, name, answer, epoch, false)
    case ForceCreate(n, deletion, _, answer) =>
      n == name && CreationLowers(DeleteStored(d.storage, name, deletion), name, answer, epoch, true)
    case Forget(n, _, _) => n == name
    case Drop(n, _) => n == name
    case Join(w) => w.StagedWelcome? && w.id.text == name && w.epoch == 0 < epoch && w.intoGroup.Works?
    case _ => false
  }

  lemma LifecycleLowers(d: Device, op: Op, name: string)
    requires name in d.groups && !ActsOnGroup(op)
    ensures NotLowered(d, Step(d, op), name) <==> !Lowers(d, op, name)
  {
  }

  /** Exactly when a single operation lowers or removes a held group, whatever its id and whatever is stored. */
  lemma EpochFallsExactly(d: Device, op: Op, name: string)
    requires name in d.groups
    ensures NotLowered(d, Step(d, op), name) <==> !Lowers(d, op, name)
  {
    if ActsOnGroup(op) {
      GroupStepShape(d, op);
    } else {
      LifecycleLowers(d, op, name);
    }
  }

  /**
   * Which groups that covers. A synchronised device holds a text-id group from its own epoch. For any
   * other id `create_group` looks under the wrong key: it keeps the group's epoch if and only if the
   * group is at epoch 0 or the key is taken, by nothing readable or by a record that is no lower.
   */
  lemma CreateKeepsExactly(d: Device, name: string, secrets: nat)
    requires Synced(d) && name in d.groups
    ensures d.groups[name].id.utf8 ==> HeldFrom(d, name, d.groups[name].epoch)
    ensures var e := Step(d, Create(name, secrets, Works));
            (name in e.groups && e.groups[name].epoch >= d.groups[name].epoch) <==>
              d.groups[name].epoch == 0 || HeldFrom(d, name, d.groups[name].epoch)
    ensures var e := Step(d, Create(name, secrets, Works));
            !d.groups[name].id.utf8 && GroupKey(NamedId(name)) !in d.storage ==> e.groups[name].epoch == 0
  {
    assert StoredAsHeld(d, name);
  }

  /**
   * Why a refused external join on an older base is excluded: its leftover in the store is what `create_group`
   * later recovers, so a held group can fall back to the epoch of a stale GroupInfo.
   */
  lemma RefusedJoinThenCreateRegresses(d: Device, i: GroupInfo, secrets: nat)
    requires Synced(d) && i.BuiltJoin? && i.id == NamedId(i.id.text)
    requires i.id.text in d.groups && i.base + 1 < d.groups[i.id.text].epoch
    ensures JoinByExternalCommit(d, i).result.Err? && Step(d, JoinExternally(i)).groups == d.groups
    ensures var e := Run(d, [JoinExternally(i), Create(i.id.text, secrets, Works)]);
            i.id.text in e.groups && e.groups[i.id.text].epoch == i.base + 1
  {
    var e := Step(d, JoinExternally(i));
    assert Load(e.storage, NamedId(i.id.text)) == Some(ExternalInstance(i));
    var ops := [JoinExternally(i), Create(i.id.text, secrets, Works)];
    assert ops[1..] == [ops[1]] && ops[1..][1..] == [];
    assert Run(d, ops) == Run(e, ops[1..]) == Step(e, ops[1]);
  }

  // ---- Staging, then merging or clearing ----

  predicate Idle(d: Device, name: string) {
    name in d.groups && d.groups[name].active && d.groups[name].pending.NoPending?
  }

  /** The held group is as it was but for a pending commit, or nothing moved. */
  predicate OnlyPends(d: Device, e: Device, name: string)
    requires name in d.groups
  {
    && name in e.groups && e.groups[name].(pending := d.groups[name].pending) == d.groups[name]
    && (e == d || e.(cache := d.cache) == Put(d, name, e.groups[name]))
    && (e.groups[name] != d.groups[name] ==> d.groups[name].pending.NoPending? && e.groups[name].pending.OwnCommit?)
  }

  lemma AddOnlyPends(d: Device, name: string, packages: seq<Package>, secrets: nat, answer: Answer, serialise: Answer)
    requires name in d.groups
    ensures OnlyPends(d, AddMembersBulk(d, name, packages, secrets, answer, serialise).device, name)
  {
  }

  lemma RemoveOnlyPends(d: Device, name: string, matches: string -> bool, evictsUs: bool, secrets: nat,
                        answer: Answer, serialise: Answer)
    requires name in d.groups
    ensures OnlyPends(d, RemoveWhere(d, name, matches, evictsUs, secrets, answer, serialise).device, name)
  {
  }

  lemma StagingOnlyPends(d: Device, op: Op)
    requires op.AddMembers? || op.RemoveUsers? || op.RemoveDevices?
    requires op.name in d.groups
    ensures OnlyPends(d, Step(d, op), op.name)
  {
    match op
    case AddMembers(name, packages, secrets, answer, serialise) =>
      AddOnlyPends(d, name, packages, secrets, answer, serialise);
    case RemoveUsers(name, users, evictsUs, secrets, answer, serialise) =>
      RemoveOnlyPends(d, name, NamesUser(users), evictsUs, secrets, answer, serialise);
    case RemoveDevices(name, devices, evictsUs, secrets, answer, serialise) =>
      RemoveOnlyPends(d, name, NamesDevice(devices), evictsUs, secrets, answer, serialise);
  }

  /** A staged commit changes neither the epoch nor the tree, and clearing it undoes it entirely. */
  lemma StageThenClearUndoes(d: Device, op: Op)
    requires op.AddMembers? || op.RemoveUsers? || op.RemoveDevices?
    requires Synced(d) && Idle(d, op.name)
    ensures var e := Step(d, op);
            && op.name in e.groups
            && e.groups[op.name].epoch == d.groups[op.name].epoch
            && e.groups[op.name].roster == d.groups[op.name].roster
    ensures ClearPendingFor(Step(d, op), op.name, Works).device.(cache := d.cache) == d
  {
    var g := d.groups[op.name];
    StagingOnlyPends(d, op);
    SameGroupPut(d, op.name);
    var e := Step(d, op);
    assert ClearPending(e.groups[op.name], Works) == Ok(g);
    assert ClearPendingFor(e, op.name, Works).device == Dirtied(Put(e, op.name, g));
    if e != d {
      PutTwice(d, op.name, e.groups[op.name], g);
    }
  }

  /** The leaves of everybody but the named users, in tree order. */
  function OthersLeaves(roster: seq<Leaf>, users: seq<string>): seq<Leaf> {
    if roster == [] then []
    else
      var rest := OthersLeaves(roster[1..], users);
      if roster[0].credential.Basic? && UserOf(roster[0].credential.identity) in users then rest
      else [roster[0]] + rest
  }

  lemma {:induction false} KeptAreOthers(roster: seq<Leaf>, users: seq<string>)
    requires forall k :: 0 <= k < |users| ==> ':' !in users[k]
    ensures Kept(roster, NamesUser(users)) == OthersLeaves(roster, users)
  {
    if roster != [] {
      KeptAreOthers(roster[1..], users);
      if roster[0].credential.Basic? {
        UserMatchIsExact(users, roster[0].credential.identity);
      }
    }
  }

  /** Removing users and merging leaves exactly the other users' leaves, one epoch later. */
  lemma RemoveUsersThenMerge(d: Device, op: Op)
    requires op.RemoveUsers? && op.answer.Works? && Idle(d, op.name)
    requires DistinctIndices(d.groups[op.name].roster) && AllNamed(d.groups[op.name].roster)
    requires forall k :: 0 <= k < |op.users| ==> ':' !in op.users[k]
    requires OthersLeaves(d.groups[op.name].roster, op.users) != d.groups[op.name].roster
    ensures var e := Step(Step(d, op), Merge(op.name, Works));
            && op.name in e.groups
            && e.groups[op.name].epoch == d.groups[op.name].epoch + 1
            && e.groups[op.name].roster == OthersLeaves(d.groups[op.name].roster, op.users)
  {
    var g := d.groups[op.name];
    OthersAreStaged(g.roster, op.users);
    var c := Commit(OthersLeaves(g.roster, op.users), op.evictsUs, op.secrets);
    assert Stage(g, c, op.answer) == Ok(g.(pending := OwnCommit(c)));
    var removed := RemoveWhere(d, op.name, NamesUser(op.users), op.evictsUs, op.secrets, op.answer, op.serialise);
    assert removed.device == Dirtied(Put(d, op.name, g.(pending := OwnCommit(c))));
  }

  lemma OthersAreStaged(roster: seq<Leaf>, users: seq<string>)
    requires DistinctIndices(roster)
    requires forall k :: 0 <= k < |users| ==> ':' !in users[k]
    requires OthersLeaves(roster, users) != roster
    ensures SelectedIndices(roster, NamesUser(users)) != []
    ensures Without(roster, IndexSet(SelectedIndices(roster, NamesUser(users)))) == OthersLeaves(roster, users)
  {
    RemovalOfSelected(roster, NamesUser(users));
    KeptAreOthers(roster, users);
    WithoutNothing(roster);
    assert IndexSet([]) == {};
  }

  lemma {:induction false} WithoutNothing(roster: seq<Leaf>)
    ensures Without(roster, {}) == roster
  {
    if roster != [] {
      WithoutNothing(roster[1..]);
    }
  }

  // ---- Batches ----

  lemma {:induction false} BatchSplits(d: Device, name: string, a: seq<(Frame, Processing)>, b: seq<(Frame, Processing)>)
    ensures var first := ProcessEach(d, name, a);
            var second := ProcessEach(first.device, name, b);
            ProcessEach(d, name, a + b) == Batch(second.device, first.results + second.results)
    decreases |b|
  {
    if b == [] {
      assert a + b == a;
    } else {
      var n := |b| - 1;
      BatchSplits(d, name, a, b[..n]);
      assert (a + b)[..|a + b| - 1] == a + b[..n] && (a + b)[|a + b| - 1] == b[n];
    }
  }

  /** A frame the library did not process is invisible to the frames after it. */
  lemma UnprocessedFrameIsInvisible(d: Device, name: string, a: seq<(Frame, Processing)>,
                                    f: (Frame, Processing), b: seq<(Frame, Processing)>)
    requires var e := ProcessEach(d, name, a).device;
             name in e.groups && !ProcessOnGroup(e.groups[name], name, f.0, f.1).wrote
    ensures var whole := ProcessEach(d, name, a + [f] + b);
            var without := ProcessEach(d, name, a + b);
            && whole.device == without.device && |without.results| == |a| + |b|
            && exists r :: whole.results == without.results[..|a|] + [r] + without.results[|a|..]
  {
    var first := ProcessEach(d, name, a);
    var single := ProcessEach(first.device, name, [f]);
    assert [f][..0] == [];
    assert ProcessEach(first.device, name, []) == Batch(first.device, []);
    assert single.device == first.device && |single.results| == 1;
    BatchSplits(d, name, a, [f]);
    BatchSplits(d, name, a + [f], b);
    BatchSplits(d, name, a, b);
    BatchLength(d, name, a);
    BatchLength(first.device, name, b);
    var rest := ProcessEach(first.device, name, b);
    var without := ProcessEach(d, name, a + b);
    assert without.results[..|a|] == first.results && without.results[|a|..] == rest.results;
    assert ProcessEach(d, name, a + [f] + b).results ==
           without.results[..|a|] + [single.results[0]] + without.results[|a|..];
  }

  lemma {:induction false} BatchLength(d: Device, name: string, frames: seq<(Frame, Processing)>)
    ensures |ProcessEach(d, name, frames).results| == |frames|
    decreases |frames|
  {
    if frames != [] {
      BatchLength(d, name, frames[..|frames| - 1]);
    }
  }

  // ---- Retry classification ----

  predicate Retryable(r: Result<Option<seq<int>>, MlsError>) {
    r.Err? && DecryptKind(r.error) == SenderRatchetGap
  }

  /**
   * A frame is classed as retryable exactly when the group is active and the frame is ahead of it, or
   * its merge failed with a library text that itself mentions a process error and no other marker.
   */
  lemma RetryIsExact(g: Group, name: string, f: Frame, p: Processing)
    ensures var ahead := f.length <= MAX_MLS_MESSAGE_BYTES && f.body.Protocol? && g.active && f.body.epoch > g.epoch;
            var badMerge := Readable(g, f) && p.StagedCommit? && p.merge.Fails? && ReadsAsGap(p.merge.debug);
            Retryable(ProcessOnGroup(g, name, f, p).result) <==> ahead || badMerge
  {
    if f.length <= MAX_MLS_MESSAGE_BYTES && f.body.Protocol? && g.active {
      var epoch := f.body.epoch;
      if epoch > g.epoch {
        GapIsRetryable(epoch, g.epoch);
      } else if p.Refused? {
        RefusalsAreFinal(g, epoch, f.body.content, p.debug);
      } else if p.StagedCommit? && p.merge.Fails? {
        FailedMergeKind(p.merge.debug);
      }
    }
  }

  /** The second way in is open: a frame at the group's own epoch is classed as retryable. */
  lemma FailedMergeIsRetried(g: Group, name: string, f: Frame, c: Commit, secrets: nat)
    requires Readable(g, f)
    ensures Retryable(ProcessOnGroup(g, name, f, StagedCommit(c, secrets, Fails(PROCESS))).result)
  {
    BareMarkerReadsAsGap();
    RetryIsExact(g, name, f, StagedCommit(c, secrets, Fails(PROCESS)));
  }

  /** Every refusal at the same or a past epoch gets a final verdict, and which one. */
  lemma RefusalsAreFinal(g: Group, epoch: nat, content: Content, debug: string)
    requires epoch <= g.epoch
    ensures var r := RefusalVerdict(g, epoch, content, debug);
            && (r.Err? && epoch < g.epoch ==> DecryptKind(r.error) == PastEpochApplication && content.Application?)
            && (r.Err? && epoch == g.epoch && Contains(debug, OWN_MESSAGE) ==> DecryptKind(r.error) == OwnMessage)
            && (r.Err? && epoch == g.epoch && !Contains(debug, OWN_MESSAGE) ==>
                  DecryptKind(r.error) in {SecretReuse, GenerationTooFarAhead, PastEpochApplication, OwnMessage, SameEpochRefusal})
  {
    PastEpochIsPermanent(epoch, g.epoch);
    OwnMessageIsRecognised(epoch, g.epoch);
    SameEpochIsPermanent(debug, epoch, g.epoch);
  }

  /** The reload guard is a preorder, so a chain of accepted reloads never loses or lowers a group. */
  lemma ReloadsCompose(a: Device, b: Device, c: Device)
    ensures ReloadIsMonotonic(a, a)
    ensures ReloadIsMonotonic(a, b) && ReloadIsMonotonic(b, c) ==> ReloadIsMonotonic(a, c)
  {
  }

  // ---- Burning generations ----

  /** However the burn ends, the ratchet has moved by exactly the number the answer reports. */
  lemma BurnReportsItsProgress(d: Device, name: string, answers: seq<Answer>)
    requires name in d.groups && answers != []
    ensures var o := SkipSendGenerations(d, name, answers);
            && name in o.device.groups
            && d.groups[name].sent <= o.device.groups[name].sent <= d.groups[name].sent + |answers|
            && var moved := o.device.groups[name].sent - d.groups[name].sent;
               && (o.result.Ok? <==> moved == |answers|)
               && (o.result.Ok? ==> o.result.value == moved)
               && (o.result.Err? ==>
                     o.result.error.OpenMls? && o.result.error.detail.BurnStopped?
                     && o.result.error.detail.burnt == moved && o.result.error.detail.count == |answers|)
  {
  }
}
