/** The manager object itself: every method updates its fields in place, as its specification says. */
module DeviceManager {
  import opened Basics
  import opened OpenMls
  import opened ErrorKinds
  import opened Members
  import opened DeviceSpec

  class MlsManager {
    const identity: Identity
    var storage: Storage
    var groups: map<string, Group>
    var floors: map<string, nat>
    var dirty: bool
    var cached: Option<Snapshot>

    ghost function View(): Device
      reads this
    {
      Device(identity, storage, groups, floors, Cache(dirty, cached))
    }

    constructor Create(user: string, device: string, keypair: nat)
      ensures View() == NewDevice(user + ":" + device, keypair)
    {
      identity := Identity(user + ":" + device, keypair);
      storage, groups, floors := map[], map[], map[];
      dirty, cached := true, None;
    }

    /** The restoring half of `load_or_create`, once the identity has been accepted. */
    constructor Restore(s: Snapshot)
      ensures View() == Restored(s)
    {
      identity := s.identity;
      storage := s.storage;
      floors := s.floors;
      dirty, cached := true, None;
      groups := map[];
      new;
      var pending := s.names;
      while pending != {}
        invariant pending <= s.names
        invariant identity == s.identity && storage == s.storage && floors == s.floors && dirty && cached.None?
        invariant groups == map name | name in s.names - pending && Load(s.storage, NamedId(name)).Some?
                              :: Load(s.storage, NamedId(name)).value
        decreases |pending|
      {
        var name :| name in pending;
        match Load(storage, NamedId(name)) {
          case Some(g) => groups := groups[name := g];
          case None =>
        }
        pending := pending - {name};
      }
    }

    static method LoadOrCreate(user: string, device: string, state: Option<Blobs>, keypair: nat, clock: Option<nat>)
      returns (r: Result<MlsManager, MlsError>)
      ensures r.Ok? ==> fresh(r.value)
      ensures state.None? ==> r.Ok? && r.value.View() == NewDevice(user + ":" + device, keypair)
      ensures state.Some? ==>
                var spec := LoadState(user, device, state.value, clock);
                (r.Ok? <==> spec.Ok?) && (r.Ok? ==> r.value.View() == spec.value) && (r.Err? ==> r.error == spec.error)
    {
      if state.None? {
        var created := new MlsManager.Create(user, device, keypair);
        return Ok(created);
      }
      if state.value.Undecodable? {
        return Err(Serialization(state.value.debug));
      }
      if state.value.OtherCredential? {
        return Err(InvalidData);
      }
      var s := state.value.snapshot;
      if s.identity.credential != user + ":" + device {
        return Err(MlsError.OpenMls(IdentityMismatch(user + ":" + device, s.identity.credential)));
      }
      if s.names != {} && state.value.load.Fails? {
        return Err(MlsError.OpenMls(Library(LoadingGroup, state.value.load.debug)));
      }
      var m := new MlsManager.Restore(s);
      if clock.Some? {
        var _ := m.PruneExpiredAt(clock.value);
      }
      r := Ok(m);
    }

    method MarkStateDirty()
      modifies this`dirty
      ensures View() == Dirtied(old(View()))
    {
      dirty := true;
    }

    /** Writes a group the library has just changed back into the map and the store. */
    method WriteThrough(name: string, g: Group)
      modifies this`groups, this`storage
      ensures View() == Put(old(View()), name, g)
    {
      groups := groups[name := g];
      storage := Store(storage, g);
    }

    // ---- group.rs ----

    method CreateGroup(name: string, secrets: nat, answer: Answer) returns (r: Result<(), MlsError>)
      modifies this
      ensures Outcome(View(), r) == DeviceSpec.CreateGroup(old(View()), name, secrets, answer)
    {
      if GroupKey(NamedId(name)) in storage {
        // Orphan state: recover it, then report that it was there.
        match Load(storage, NamedId(name)) {
          case Some(recovered) =>
            groups := groups[name := recovered];
            MarkStateDirty();
          case None =>
        }
        return Err(MlsError.OpenMls(Library(Creation, ALREADY_EXISTS)));
      }
      if answer.Fails? {
        return Err(MlsError.OpenMls(Library(Creation, answer.debug)));
      }
      WriteThrough(name, FreshGroup(name, Basic(identity.credential), secrets));
      MarkStateDirty();
      r := Ok(());
    }

    method DeleteGroupFromStorage(name: string, deletion: Answer)
      modifies this`storage
      ensures View() == old(View()).(storage := DeleteStored(old(storage), name, deletion))
    {
      if Load(storage, NamedId(name)).Some? && deletion.Works? {
        storage := storage - {GroupKey(NamedId(name))};
      }
    }

    method ForceCreateGroup(name: string, deletion: Answer, secrets: nat, answer: Answer)
      returns (r: Result<(), MlsError>)
      modifies this
      ensures Outcome(View(), r) == DeviceSpec.ForceCreateGroup(old(View()), name, deletion, secrets, answer)
    {
      MarkStateDirty();
      groups := groups - {name};
      floors := floors - {name};
      DeleteGroupFromStorage(name, deletion);
      r := CreateGroup(name, secrets, answer);
    }

    method ForgetGroup(name: string, minEpoch: nat, deletion: Answer)
      modifies this
      ensures View() == DeviceSpec.ForgetGroup(old(View()), name, minEpoch, deletion)
    {
      groups := groups - {name};
      if minEpoch > 0 {
        floors := floors[name := minEpoch];
      }
      DeleteGroupFromStorage(name, deletion);
      MarkStateDirty();
    }

    method DropGroup(name: string, deletion: Answer)
      modifies this
      ensures View() == DeviceSpec.DropGroup(old(View()), name, deletion)
    {
      groups := groups - {name};
      floors := floors[name := U64_MAX];
      DeleteGroupFromStorage(name, deletion);
      MarkStateDirty();
    }

    // ---- welcome.rs ----

    method ProcessWelcome(w: Welcome) returns (r: Result<string, MlsError>)
      modifies this
      ensures Outcome(View(), r) == DeviceSpec.ProcessWelcome(old(View()), w)
    {
      if w.UnreadableWelcome? {
        return Err(InvalidData);
      }
      if w.UnstageableWelcome? {
        return Err(MlsError.OpenMls(Library(StagingWelcome, w.debug)));
      }
      var name := w.id.text;
      if name in groups {
        if w.epoch == 0 && groups[name].epoch > 0 {
          floors := floors - {name};
        } else {
          return Ok(name);
        }
      }
      if name in floors {
        var minEpoch := floors[name];
        if w.epoch == 0 {
          floors := floors - {name};
        } else if w.epoch < minEpoch {
          return Err(MlsError.OpenMls(StaleWelcome(w.epoch, minEpoch)));
        } else {
          floors := floors - {name};
        }
      }
      assert floors == old(floors) - {name};
      if w.intoGroup.Fails? {
        return Err(MlsError.OpenMls(Library(IntoGroup, w.intoGroup.debug)));
      }
      storage := AfterIntoGroup(storage, w);
      groups := groups[name := JoinedGroup(w)];
      MarkStateDirty();
      r := Ok(name);
    }

    method JoinByExternalCommit(i: GroupInfo) returns (r: Result<string, MlsError>)
      modifies this
      ensures Outcome(View(), r) == DeviceSpec.JoinByExternalCommit(old(View()), i)
    {
      if i.UnreadableInfo? {
        return Err(InvalidData);
      }
      if i.UnbuildableInfo? {
        return Err(MlsError.OpenMls(Library(ExternalJoining, i.debug)));
      }
      storage := Store(storage, ExternalInstance(i));   // finalize
      var name := i.id.text;
      if name in groups {
        return Err(MlsError.OpenMls(AlreadyPresent(name)));
      }
      if i.serialise.Fails? {
        return Err(MlsError.OpenMls(Library(Serialising, i.serialise.debug)));
      }
      groups := groups[name := ExternalInstance(i)];
      MarkStateDirty();
      r := Ok(name);
    }

    method IsReloadMonotonic(candidate: MlsManager) returns (ok: bool)
      ensures ok <==> ReloadIsMonotonic(View(), candidate.View())
    {
      var known := groups.Keys;
      while known != {}
        invariant known <= groups.Keys
        invariant forall name :: name in groups.Keys - known ==>
                    name in candidate.groups && candidate.groups[name].epoch >= groups[name].epoch
        decreases |known|
      {
        var name :| name in known;
        if !(name in candidate.groups && candidate.groups[name].epoch >= groups[name].epoch) {
          return false;
        }
        known := known - {name};
      }
      ok := true;
    }

    // ---- messaging.rs ----

    method SendMessage(name: string, answer: Answer, serialise: Answer) returns (r: Result<(), MlsError>)
      modifies this
      ensures Outcome(View(), r) == DeviceSpec.SendMessage(old(View()), name, answer, serialise)
    {
      if name !in groups {
        return Err(GroupNotFound(name));
      }
      match CreateMessage(groups[name], answer) {
        case Err(UseAfterEviction) =>
          return Err(Evicted(name));
        case Err(OtherSendError(debug)) =>
          return Err(MlsError.OpenMls(Library(Encrypting, debug)));
        case Ok(g) =>
          WriteThrough(name, g);
      }
      MarkStateDirty();
      r := if serialise.Fails? then Err(Serialization(serialise.debug)) else Ok(());
    }

    method SkipSendGenerations(name: string, answers: seq<Answer>) returns (r: Result<nat, MlsError>)
      modifies this
      ensures Outcome(View(), r) == DeviceSpec.SkipSendGenerations(old(View()), name, answers)
    {
      if |answers| == 0 {
        return Ok(0);
      }
      if name !in groups {
        return Err(GroupNotFound(name));
      }
      ghost var d := View();
      var active := groups[name].active;
      ghost var total := BurnsBeforeFailure(active, answers);
      for burnt := 0 to |answers|
        invariant total == burnt + BurnsBeforeFailure(active, answers[burnt..])
        invariant View() == AfterBurns(d, name, burnt)
      {
        assert answers[burnt..][0] == answers[burnt] && answers[burnt..][1..] == answers[burnt + 1..];
        OneMoreBurn(d, name, burnt);
        var next := CreateMessage(groups[name], answers[burnt]);
        if next.Err? {
          MarkStateDirty();
          var debug := if next.error.UseAfterEviction? then USE_AFTER_EVICTION else next.error.debug;
          r := Err(MlsError.OpenMls(BurnStopped(burnt, |answers|, debug)));
          return;
        }
        WriteThrough(name, next.value);
      }
      MarkStateDirty();
      r := Ok(|answers|);
    }

    method ProcessIncomingMessage(name: string, f: Frame, p: Processing)
      returns (r: Result<Option<seq<int>>, MlsError>)
      modifies this
      ensures Outcome(View(), r) == ProcessIncoming(old(View()), name, f, p)
    {
      if name !in groups {
        return Err(GroupNotFound(name));
      }
      r := ProcessIncomingOnGroup(name, f, p);
    }

    /** The whole decision tree for one frame of a held group. */
    method ProcessIncomingOnGroup(name: string, f: Frame, p: Processing)
      returns (r: Result<Option<seq<int>>, MlsError>)
      requires name in groups
      modifies this
      ensures Outcome(View(), r) == ProcessIncoming(old(View()), name, f, p)
    {
      var group := groups[name];
      if f.length > MAX_MLS_MESSAGE_BYTES {
        return Err(InvalidData);
      }
      if !f.body.Protocol? {
        return Err(InvalidData);
      }
      var epoch := f.body.epoch;
      if !group.active {
        return Err(Evicted(name));
      }
      if epoch > group.epoch {
        return Err(MlsError.OpenMls(EpochGap(epoch, group.epoch)));
      }
      match p {
        case Refused(debug) =>
          if epoch < group.epoch {
            if !f.body.content.Application? {
              return Ok(None);
            }
            return Err(MlsError.OpenMls(PastEpochFrame(epoch, group.epoch)));
          }
          if Contains(debug, "TooDistantInThePast") || Contains(debug, "NoPastEpochData") {
            return Ok(None);
          }
          if Contains(debug, OWN_MESSAGE) {
            return Err(MlsError.OpenMls(OwnFrame(epoch, group.epoch)));
          }
          return Err(MlsError.OpenMls(Refusal(debug, epoch, group.epoch)));
        case Plaintext(bytes, secrets) =>
          WriteThrough(name, group.(secrets := secrets));
          MarkStateDirty();
          return Ok(Some(bytes));
        case StagedCommit(c, secrets, merge) =>
          if merge.Fails? {
            WriteThrough(name, group.(secrets := secrets));
            return Err(MlsError.OpenMls(MergeFailed(merge.debug)));
          }
          WriteThrough(name, Merged(group, c));
          MarkStateDirty();
          return Ok(None);
        case QueuedProposal(secrets) =>
          WriteThrough(name, group.(secrets := secrets));
          MarkStateDirty();
          return Ok(None);
      }
    }

    /** The batch: a missing group answers for every frame, a failing frame only for itself. */
    method ProcessIncomingMessages(name: string, frames: seq<(Frame, Processing)>)
      returns (results: seq<Result<Option<seq<int>>, MlsError>>)
      modifies this
      ensures Batch(View(), results) == ProcessEach(old(View()), name, frames)
    {
      if name !in groups {
        MissingGroupBatch(View(), name, frames);
        results := seq(|frames|, _ => Err(GroupNotFound(name)));
        return;
      }
      results := [];
      for i := 0 to |frames|
        invariant name in groups
        invariant Batch(View(), results) == ProcessEach(old(View()), name, frames[..i])
      {
        assert frames[..i + 1][..i] == frames[..i];
        var r := ProcessIncomingOnGroup(name, frames[i].0, frames[i].1);
        results := results + [r];
      }
      assert frames[..|frames|] == frames;
    }

    // ---- members.rs ----

    method AddMembersBulk(name: string, packages: seq<Package>, secrets: nat, answer: Answer, serialise: Answer)
      returns (r: Result<BulkResult, MlsError>)
      modifies this
      ensures Outcome(View(), r) == DeviceSpec.AddMembersBulk(old(View()), name, packages, secrets, answer, serialise)
    {
      if name !in groups {
        return Err(GroupNotFound(name));
      }
      var group := groups[name];
      var t := SelectPackages(group.roster, packages);
      if |t.kept| == 0 {
        if t.anyAlreadyMember {
          return Err(AlreadyMember);
        }
        return Err(MlsError.OpenMls(NothingToAdd));
      }
      match Stage(group, Commit(WithAdded(group.roster, t.kept), false, secrets), answer) {
        case Err(debug) =>
          return Err(MlsError.OpenMls(Library(Adding, debug)));
        case Ok(staged) =>
          WriteThrough(name, staged);
      }
      if serialise.Fails? {
        return Err(MlsError.OpenMls(Library(Serialising, serialise.debug)));
      }
      MarkStateDirty();
      r := Ok(BulkResult(t.added, t.skipped));
    }

    /** Both removal methods: they differ only in the predicate on identities. */
    method RemoveMembersWhere(name: string, matches: string -> bool, evictsUs: bool, secrets: nat,
                              answer: Answer, serialise: Answer)
      returns (r: Result<(), MlsError>)
      modifies this
      ensures Outcome(View(), r) == RemoveWhere(old(View()), name, matches, evictsUs, secrets, answer, serialise)
    {
      if name !in groups {
        return Err(GroupNotFound(name));
      }
      var group := groups[name];
      var found := LeafIndicesWhere(group.roster, matches);
      if found.Err? {
        return Err(found.error);
      }
      if |found.value| == 0 {
        return Err(NoSuchMember);
      }
      match Stage(group, Commit(Without(group.roster, IndexSet(found.value)), evictsUs, secrets), answer) {
        case Err(debug) =>
          return Err(MlsError.OpenMls(Library(Removing, debug)));
        case Ok(staged) =>
          WriteThrough(name, staged);
      }
      MarkStateDirty();
      r := if serialise.Fails? then Err(MlsError.OpenMls(Library(Serialising, serialise.debug))) else Ok(());
    }

    method MergePendingCommitFor(name: string, answer: Answer) returns (r: Result<(), MlsError>)
      modifies this
      ensures Outcome(View(), r) == MergePendingFor(old(View()), name, answer)
    {
      if name !in groups {
        return Err(GroupNotFound(name));
      }
      match MergePending(groups[name], answer) {
        case Err(debug) =>
          return Err(MlsError.OpenMls(Library(MergingPending, debug)));
        case Ok(g) =>
          WriteThrough(name, g);
      }
      MarkStateDirty();
      r := Ok(());
    }

    method ClearPendingCommitFor(name: string, answer: Answer) returns (r: Result<(), MlsError>)
      modifies this
      ensures Outcome(View(), r) == ClearPendingFor(old(View()), name, answer)
    {
      if name !in groups {
        return Err(GroupNotFound(name));
      }
      match ClearPending(groups[name], answer) {
        case Err(debug) =>
          return Err(MlsError.OpenMls(Library(ClearingPending, debug)));
        case Ok(g) =>
          WriteThrough(name, g);
      }
      MarkStateDirty();
      r := Ok(());
    }

    // ---- state.rs ----

    method BuildKeyPackage(hashRef: string, notAfter: nat, lastResort: bool, calls: Minting, serialise: Answer)
      returns (r: Result<(), MlsError>)
      modifies this
      ensures Outcome(View(), r) ==
              DeviceSpec.BuildKeyPackage(old(View()), hashRef, notAfter, lastResort, calls, serialise)
    {
      if calls.build.Fails? {
        return Err(MlsError.OpenMls(Library(MintingPackage, calls.build.debug)));
      }
      if calls.hash.Fails? {
        return Err(MlsError.OpenMls(Library(HashingPackage, calls.hash.debug)));
      }
      if calls.write.Fails? {
        return Err(MlsError.OpenMls(Library(StoringPackage, calls.write.debug)));
      }
      storage := storage[PackageKey(hashRef) := Bundle(hashRef, notAfter, lastResort)];
      MarkStateDirty();
      r := if serialise.Fails? then Err(MlsError.OpenMls(Library(Serialising, serialise.debug))) else Ok(());
    }

    method PruneExpiredAt(now: nat) returns (pruned: nat)
      modifies this`storage, this`dirty
      ensures View() == Prune(old(View()), now)
      ensures pruned == |DoomedKeys(old(storage), now)|
    {
      var doomed := FindDoomed(storage, now);
      pruned := |doomed|;
      if pruned > 0 {
        storage := storage - doomed;
        MarkStateDirty();
      }
    }

    method SaveState() returns (s: Snapshot)
      modifies this`dirty, this`cached
      ensures (View(), s) == DeviceSpec.SaveState(old(View()))
    {
      if !dirty && cached.Some? {
        return cached.value;
      }
      s := Snapshot(identity, storage, groups.Keys, floors);
      cached := Some(s);
      dirty := false;
    }
  }

  /** The scan of `prune_key_packages_expired_at`: prefix, decode, own name, then expiry. */
  method FindDoomed(storage: Storage, now: nat) returns (doomed: set<Key>)
    ensures doomed == DoomedKeys(storage, now)
  {
    doomed := {};
    var rest := storage.Keys;
    while rest != {}
      invariant rest <= storage.Keys
      invariant forall k :: k in doomed <==> k in storage && k !in rest && Doomed(k, storage[k], now)
      decreases |rest|
    {
      var k :| k in rest;
      if k.prefix.KeyPackageLabel? && storage[k].Bundle? {
        if Contains(k.body, storage[k].hashRef) && storage[k].notAfter < now {
          doomed := doomed + {k};
        }
      }
      rest := rest - {k};
    }
  }

  lemma {:induction false} MissingGroupBatch(d: Device, name: string, frames: seq<(Frame, Processing)>)
    requires name !in d.groups
    ensures ProcessEach(d, name, frames) == Batch(d, seq(|frames|, _ => Err(GroupNotFound(name))))
    decreases |frames|
  {
    if frames != [] {
      MissingGroupBatch(d, name, frames[..|frames| - 1]);
    }
  }
}
