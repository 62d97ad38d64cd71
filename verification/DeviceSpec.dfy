/**
 * The state of one device and what each public operation of the manager does to it.
 *
 * These functions are the specification of the class in `DeviceManager`; the theorems about whole
 * runs, in `DeviceRuns`, are about them.
 */
module DeviceSpec {
  import opened Basics
  import opened OpenMls
  import opened ErrorKinds
  import opened Members

  const MAX_MLS_MESSAGE_BYTES: nat := 1_048_576

  const ALREADY_EXISTS := "GroupAlreadyExists"

  datatype Identity = Identity(credential: string, keypair: nat)

  /** The decoded content of `mls.bin`. */
  datatype Snapshot = Snapshot(
    identity: Identity, storage: Storage, names: set<string>, floors: map<string, nat>)

  datatype Cache = Cache(dirty: bool, cached: Option<Snapshot>)

  datatype Device = Device(
    identity: Identity,
    storage: Storage,
    groups: map<string, Group>,
    floors: map<string, nat>,
    cache: Cache)

  datatype Outcome<T> = Outcome(device: Device, result: Result<T, MlsError>)

  function SnapshotOf(d: Device): Snapshot {
    Snapshot(d.identity, d.storage, d.groups.Keys, d.floors)
  }

  function Dirtied(d: Device): Device {
    d.(cache := d.cache.(dirty := true))
  }

  /** The library changed the group held as `name`, in memory and in the store. */
  function Put(d: Device, name: string, g: Group): Device {
    d.(groups := d.groups[name := g], storage := Store(d.storage, g))
  }

  lemma PutTwice(d: Device, name: string, g: Group, h: Group)
    requires g.id == h.id
    ensures Put(Put(d, name, g), name, h) == Put(d, name, h)
  {
  }

  // ---- group.rs ----

  function FreshGroup(name: string, self: Credential, secrets: nat): Group {
    Group(NamedId(name), 0, true, [Leaf(0, self)], NoPending, 0, secrets)
  }

  function CreateGroup(d: Device, name: string, secrets: nat, answer: Answer): Outcome<()> {
    if GroupKey(NamedId(name)) in d.storage then
      var failure := Err(MlsError.OpenMls(Library(Creation, ALREADY_EXISTS)));
      match Load(d.storage, NamedId(name))
      case Some(g) => Outcome(Dirtied(d.(groups := d.groups[name := g])), failure)
      case None => Outcome(d, failure)
    else if answer.Fails? then
      Outcome(d, Err(MlsError.OpenMls(Library(Creation, answer.debug))))
    else
      Outcome(Dirtied(Put(d, name, FreshGroup(name, Basic(d.identity.credential), secrets))), Ok(()))
  }

  /** `delete_group_from_storage`: best effort. */
  function DeleteStored(storage: Storage, name: string, answer: Answer): Storage {
    if Load(storage, NamedId(name)).Some? && answer.Works? then storage - {GroupKey(NamedId(name))}
    else storage
  }

  function ForceCreateGroup(d: Device, name: string, deletion: Answer, secrets: nat, answer: Answer): Outcome<()> {
    var wiped := Dirtied(d).(
      groups := d.groups - {name},
      floors := d.floors - {name},
      storage := DeleteStored(d.storage, name, deletion));
    CreateGroup(wiped, name, secrets, answer)
  }

  function ForgetGroup(d: Device, name: string, minEpoch: nat, deletion: Answer): Device {
    Dirtied(d).(
      groups := d.groups - {name},
      floors := if minEpoch > 0 then d.floors[name := minEpoch] else d.floors,
      storage := DeleteStored(d.storage, name, deletion))
  }

  function DropGroup(d: Device, name: string, deletion: Answer): Device {
    ForgetGroup(d, name, U64_MAX, deletion)
  }

  // ---- welcome.rs ----

  /**
   * A Welcome as the library reads it. `usedPackage` is the hash reference of the KeyPackage it was
   * built on: `into_group` deletes that bundle unless it is marked last-resort.
   */
  datatype Welcome =
    | UnreadableWelcome
    | UnstageableWelcome(debug: string)
    | StagedWelcome(id: GroupId, epoch: nat, roster: seq<Leaf>, secrets: nat,
                    usedPackage: string, intoGroup: Answer)

  function JoinedGroup(w: Welcome): Group
    requires w.StagedWelcome?
  {
    Group(w.id, w.epoch, true, w.roster, NoPending, 0, w.secrets)
  }

  /** Guard 1: a held group is replaced only by an epoch-0 Welcome, and only once it has moved. */
  predicate Ignored(d: Device, w: Welcome)
    requires w.StagedWelcome?
  {
    w.id.text in d.groups && !(w.epoch == 0 && d.groups[w.id.text].epoch > 0)
  }

  /** Guard 2: below the recorded floor. */
  predicate Stale(d: Device, w: Welcome)
    requires w.StagedWelcome?
  {
    !Ignored(d, w) && w.id.text in d.floors && 0 < w.epoch < d.floors[w.id.text]
  }

  predicate PassesGuards(d: Device, w: Welcome) {
    w.StagedWelcome? && !Ignored(d, w) && !Stale(d, w)
  }

  function AfterIntoGroup(storage: Storage, w: Welcome): Storage
    requires w.StagedWelcome?
  {
    var key := PackageKey(w.usedPackage);
    var kept := if key in storage && storage[key].Bundle? && !storage[key].lastResort
                then storage - {key} else storage;
    Store(kept, JoinedGroup(w))
  }

  function ProcessWelcome(d: Device, w: Welcome): Outcome<string> {
    match w
    case UnreadableWelcome => Outcome(d, Err(InvalidData))
    case UnstageableWelcome(debug) =>
      Outcome(d, Err(MlsError.OpenMls(Library(StagingWelcome, debug))))
    case StagedWelcome(id, epoch, _, _, _, intoGroup) =>
      if Ignored(d, w) then Outcome(d, Ok(id.text))
      else if Stale(d, w) then
        Outcome(d, Err(MlsError.OpenMls(StaleWelcome(epoch, d.floors[id.text]))))
      else
        var lifted := d.(floors := d.floors - {id.text});
        if intoGroup.Fails? then
          Outcome(lifted, Err(MlsError.OpenMls(Library(IntoGroup, intoGroup.debug))))
        else
          Outcome(
            Dirtied(lifted).(
              storage := AfterIntoGroup(d.storage, w),
              groups := d.groups[id.text := JoinedGroup(w)]),
            Ok(id.text))
  }

  /** A served GroupInfo: the joiner's instance is at `base + 1` as soon as it is built. */
  datatype GroupInfo =
    | UnreadableInfo
    | UnbuildableInfo(debug: string)
    | BuiltJoin(id: GroupId, base: nat, roster: seq<Leaf>, secrets: nat, serialise: Answer)

  function ExternalInstance(i: GroupInfo): Group
    requires i.BuiltJoin?
  {
    Group(i.id, i.base + 1, true, i.roster, ExternalJoin, 0, i.secrets)
  }

  /** `finalize` has written the store before the guard on the in-memory map is evaluated. */
  function JoinByExternalCommit(d: Device, i: GroupInfo): Outcome<string> {
    match i
    case UnreadableInfo => Outcome(d, Err(InvalidData))
    case UnbuildableInfo(debug) =>
      Outcome(d, Err(MlsError.OpenMls(Library(ExternalJoining, debug))))
    case BuiltJoin(id, _, _, _, serialise) =>
      var finalized := d.(storage := Store(d.storage, ExternalInstance(i)));
      if id.text in d.groups then
        Outcome(finalized, Err(MlsError.OpenMls(AlreadyPresent(id.text))))
      else if serialise.Fails? then
        Outcome(finalized, Err(MlsError.OpenMls(Library(Serialising, serialise.debug))))
      else
        Outcome(Dirtied(finalized).(groups := d.groups[id.text := ExternalInstance(i)]), Ok(id.text))
  }

  /** `reload_is_monotonic`: every live group is in the candidate, at no lower epoch. */
  predicate ReloadIsMonotonic(live: Device, candidate: Device) {
    forall name :: name in live.groups ==>
      name in candidate.groups && candidate.groups[name].epoch >= live.groups[name].epoch
  }

  // ---- messaging.rs ----

  function SendMessage(d: Device, name: string, answer: Answer, serialise: Answer): Outcome<()> {
    if name !in d.groups then Outcome(d, Err(GroupNotFound(name)))
    else match CreateMessage(d.groups[name], answer)
      case Err(UseAfterEviction) => Outcome(d, Err(Evicted(name)))
      case Err(OtherSendError(debug)) =>
        Outcome(d, Err(MlsError.OpenMls(Library(Encrypting, debug))))
      case Ok(g) =>
        Outcome(Dirtied(Put(d, name, g)),
                if serialise.Fails? then Err(Serialization(serialise.debug)) else Ok(()))
  }

  /** How many frames are built before the first failure, from an active or evicted group. */
  function BurnsBeforeFailure(active: bool, answers: seq<Answer>): (k: nat)
    ensures k <= |answers| && (!active ==> k == 0)
    ensures forall i :: 0 <= i < k ==> answers[i].Works?
    ensures active && k < |answers| ==> answers[k].Fails?
  {
    if answers == [] || !active || answers[0].Fails? then 0
    else 1 + BurnsBeforeFailure(active, answers[1..])
  }

  /** The device after `burnt` frames were built for `name` and dropped. */
  function AfterBurns(d: Device, name: string, burnt: nat): Device
    requires name in d.groups
  {
    if burnt == 0 then d
    else Put(d, name, d.groups[name].(sent := d.groups[name].sent + burnt))
  }

  lemma OneMoreBurn(d: Device, name: string, burnt: nat)
    requires name in d.groups
    ensures var now := AfterBurns(d, name, burnt);
            && name in now.groups && now.groups[name] == d.groups[name].(sent := d.groups[name].sent + burnt)
            && Put(now, name, now.groups[name].(sent := now.groups[name].sent + 1)) == AfterBurns(d, name, burnt + 1)
  {
    var g := d.groups[name];
    if burnt > 0 {
      PutTwice(d, name, g.(sent := g.sent + burnt), g.(sent := g.sent + burnt + 1));
    }
  }

  function BurnResult(active: bool, answers: seq<Answer>): Result<nat, MlsError> {
    var burnt := BurnsBeforeFailure(active, answers);
    if burnt == |answers| then Ok(burnt)
    else
      var debug := if active then answers[burnt].debug else USE_AFTER_EVICTION;
      Err(MlsError.OpenMls(BurnStopped(burnt, |answers|, debug)))
  }

  /** `answers[k]` is the library's answer to the k-th frame; their number is the requested count. */
  function SkipSendGenerations(d: Device, name: string, answers: seq<Answer>): Outcome<nat> {
    if answers == [] then Outcome(d, Ok(0))
    else if name !in d.groups then Outcome(d, Err(GroupNotFound(name)))
    else
      var active := d.groups[name].active;
      Outcome(Dirtied(AfterBurns(d, name, BurnsBeforeFailure(active, answers))), BurnResult(active, answers))
  }

  /** `wrote`: the library's processing succeeded; `invalidated`: the snapshot was marked stale. */
  datatype FrameOutcome = FrameOutcome(
    result: Result<Option<seq<int>>, MlsError>, group: Group, wrote: bool, invalidated: bool)

  function RefusalVerdict(g: Group, epoch: nat, content: Content, debug: string): Result<Option<seq<int>>, MlsError> {
    if epoch < g.epoch then
      if !content.Application? then Ok(None)
      else Err(MlsError.OpenMls(PastEpochFrame(epoch, g.epoch)))
    else if Contains(debug, "TooDistantInThePast") || Contains(debug, "NoPastEpochData") then Ok(None)
    else if Contains(debug, OWN_MESSAGE) then Err(MlsError.OpenMls(OwnFrame(epoch, g.epoch)))
    else Err(MlsError.OpenMls(Refusal(debug, epoch, g.epoch)))
  }

  function ProcessOnGroup(g: Group, name: string, f: Frame, p: Processing): FrameOutcome {
    if f.length > MAX_MLS_MESSAGE_BYTES || !f.body.Protocol? then
      FrameOutcome(Err(InvalidData), g, false, false)
    else if !g.active then
      FrameOutcome(Err(Evicted(name)), g, false, false)
    else if f.body.epoch > g.epoch then
      FrameOutcome(Err(MlsError.OpenMls(EpochGap(f.body.epoch, g.epoch))), g, false, false)
    else match p
      case Refused(debug) =>
        FrameOutcome(RefusalVerdict(g, f.body.epoch, f.body.content, debug), g, false, false)
      case Plaintext(bytes, secrets) =>
        FrameOutcome(Ok(Some(bytes)), g.(secrets := secrets), true, true)
      case StagedCommit(c, secrets, merge) =>
        if merge.Fails? then
          FrameOutcome(Err(MlsError.OpenMls(MergeFailed(merge.debug))), g.(secrets := secrets), true, false)
        else
          FrameOutcome(Ok(None), Merged(g, c), true, true)
      case QueuedProposal(secrets) =>
        FrameOutcome(Ok(None), g.(secrets := secrets), true, true)
  }

  function ApplyFrame(d: Device, name: string, o: FrameOutcome): Device {
    var written := if o.wrote then Put(d, name, o.group) else d;
    if o.invalidated then Dirtied(written) else written
  }

  function ProcessIncoming(d: Device, name: string, f: Frame, p: Processing): Outcome<Option<seq<int>>> {
    if name !in d.groups then Outcome(d, Err(GroupNotFound(name)))
    else
      var o := ProcessOnGroup(d.groups[name], name, f, p);
      Outcome(ApplyFrame(d, name, o), o.result)
  }

  datatype Batch = Batch(device: Device, results: seq<Result<Option<seq<int>>, MlsError>>)

  /** One frame at a time, each on the state its predecessors left. */
  function ProcessEach(d: Device, name: string, frames: seq<(Frame, Processing)>): Batch
    decreases |frames|
  {
    if frames == [] then Batch(d, [])
    else
      var n := |frames| - 1;
      var before := ProcessEach(d, name, frames[..n]);
      var o := ProcessIncoming(before.device, name, frames[n].0, frames[n].1);
      Batch(o.device, before.results + [o.result])
  }

  // ---- members.rs ----

  datatype BulkResult = BulkResult(added: seq<nat>, skipped: seq<nat>)

  function AddMembersBulk(d: Device, name: string, packages: seq<Package>, secrets: nat,
                          answer: Answer, serialise: Answer): Outcome<BulkResult> {
    if name !in d.groups then Outcome(d, Err(GroupNotFound(name)))
    else
      var g := d.groups[name];
      var t := TriageOf(g.roster, packages);
      if t.kept == [] then
        Outcome(d, Err(if t.anyAlreadyMember
                       then AlreadyMember
                       else MlsError.OpenMls(NothingToAdd)))
      else match Stage(g, Commit(WithAdded(g.roster, t.kept), false, secrets), answer)
        case Err(debug) => Outcome(d, Err(MlsError.OpenMls(Library(Adding, debug))))
        case Ok(staged) =>
          // The two serialisations come before the snapshot is marked stale.
          if serialise.Fails? then Outcome(Put(d, name, staged), Err(MlsError.OpenMls(Library(Serialising, serialise.debug))))
          else Outcome(Dirtied(Put(d, name, staged)), Ok(BulkResult(t.added, t.skipped)))
  }

  function RemoveWhere(d: Device, name: string, matches: string -> bool, evictsUs: bool, secrets: nat,
                       answer: Answer, serialise: Answer): Outcome<()> {
    if name !in d.groups then Outcome(d, Err(GroupNotFound(name)))
    else
      var g := d.groups[name];
      var bad := FirstUnnamed(g.roster);
      if bad < |g.roster| then Outcome(d, Err(LeafIdentity(g.roster[bad]).error))
      else
        var gone := SelectedIndices(g.roster, matches);
        if gone == [] then Outcome(d, Err(NoSuchMember))
        else match Stage(g, Commit(Without(g.roster, IndexSet(gone)), evictsUs, secrets), answer)
          case Err(debug) => Outcome(d, Err(MlsError.OpenMls(Library(Removing, debug))))
          case Ok(staged) =>
            Outcome(Dirtied(Put(d, name, staged)),
                    if serialise.Fails? then Err(MlsError.OpenMls(Library(Serialising, serialise.debug))) else Ok(()))
  }

  function MergePendingFor(d: Device, name: string, answer: Answer): Outcome<()> {
    if name !in d.groups then Outcome(d, Err(GroupNotFound(name)))
    else match MergePending(d.groups[name], answer)
      case Err(debug) => Outcome(d, Err(MlsError.OpenMls(Library(MergingPending, debug))))
      case Ok(g) => Outcome(Dirtied(Put(d, name, g)), Ok(()))
  }

  function ClearPendingFor(d: Device, name: string, answer: Answer): Outcome<()> {
    if name !in d.groups then Outcome(d, Err(GroupNotFound(name)))
    else match ClearPending(d.groups[name], answer)
      case Err(debug) => Outcome(d, Err(MlsError.OpenMls(Library(ClearingPending, debug))))
      case Ok(g) => Outcome(Dirtied(Put(d, name, g)), Ok(()))
  }

  // ---- state.rs ----

  /** The three library calls that mint a KeyPackage: build it, hash it, store its bundle. */
  datatype Minting = Minting(build: Answer, hash: Answer, write: Answer)

  function BuildKeyPackage(d: Device, hashRef: string, notAfter: nat, lastResort: bool,
                           calls: Minting, serialise: Answer): Outcome<()> {
    if calls.build.Fails? then Outcome(d, Err(MlsError.OpenMls(Library(MintingPackage, calls.build.debug))))
    else if calls.hash.Fails? then Outcome(d, Err(MlsError.OpenMls(Library(HashingPackage, calls.hash.debug))))
    else if calls.write.Fails? then Outcome(d, Err(MlsError.OpenMls(Library(StoringPackage, calls.write.debug))))
    else
      Outcome(
        Dirtied(d).(storage := d.storage[PackageKey(hashRef) := Bundle(hashRef, notAfter, lastResort)]),
        if serialise.Fails? then Err(MlsError.OpenMls(Library(Serialising, serialise.debug))) else Ok(()))
  }

  /** An entry is doomed when it proves to be the KeyPackage its own key names, and has expired. */
  predicate Doomed(key: Key, entry: Entry, now: nat) {
    key.prefix.KeyPackageLabel? && entry.Bundle? && Contains(key.body, entry.hashRef) && entry.notAfter < now
  }

  function DoomedKeys(storage: Storage, now: nat): set<Key> {
    set k | k in storage && Doomed(k, storage[k], now)
  }

  function Prune(d: Device, now: nat): Device {
    var doomed := DoomedKeys(d.storage, now);
    if doomed == {} then d else Dirtied(d.(storage := d.storage - doomed))
  }

  function SaveState(d: Device): (Device, Snapshot) {
    if !d.cache.dirty && d.cache.cached.Some? then (d, d.cache.cached.value)
    else (d.(cache := Cache(false, Some(SnapshotOf(d)))), SnapshotOf(d))
  }

  /**
   * The bytes handed to `load_or_create`, as far as they decode; `load` is the library's first failure
   * to load a listed group, if there is one.
   */
  datatype Blobs = Undecodable(debug: string) | OtherCredential | Decoded(snapshot: Snapshot, load: Answer)

  function NewDevice(credential: string, keypair: nat): Device {
    Device(Identity(credential, keypair), map[], map[], map[], Cache(true, None))
  }

  function Restored(s: Snapshot): Device {
    var groups := map name | name in s.names && Load(s.storage, NamedId(name)).Some?
                    :: Load(s.storage, NamedId(name)).value;
    Device(s.identity, s.storage, groups, s.floors, Cache(true, None))
  }

  /** `clock` is the time read at load, or nothing on a target that has none. */
  function LoadState(user: string, device: string, blob: Blobs, clock: Option<nat>): Result<Device, MlsError> {
    match blob
    case Undecodable(debug) => Err(Serialization(debug))
    case OtherCredential => Err(InvalidData)
    case Decoded(s, load) =>
      if s.identity.credential != user + ":" + device then
        Err(MlsError.OpenMls(IdentityMismatch(user + ":" + device, s.identity.credential)))
      else if s.names != {} && load.Fails? then
        Err(MlsError.OpenMls(Library(LoadingGroup, load.debug)))
      else match clock
        case None => Ok(Restored(s))
        case Some(now) => Ok(Prune(Restored(s), now))
  }
}
