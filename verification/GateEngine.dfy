/**
 * Engines behind one gate. Every device of the commit gate runs an engine, and an engine operation on
 * the group comes with the gate step it stands for. In every joint run the engines track the gate's
 * devices, so whenever two of them were at the same epoch they held the same roster.
 */
module GateEngine {
  import opened Basics
  import opened OpenMls
  import opened DeviceSpec
  import opened DeviceRuns
  import Gate = CommitGate

  /** The group's name, its first roster, and the roster that each commit leads to. */
  datatype Cast = Cast(name: string, first: seq<Leaf>, tree: Gate.Commit -> seq<Leaf>)

  function RosterAt(k: Cast, h: Gate.History): seq<Leaf> {
    if h == [] then k.first else k.tree(h[|h| - 1])
  }

  /** The engine's group `g` is at the end of the client's history, with the same commit pending. */
  predicate Tracks(g: Group, k: Cast, c: Gate.Client) {
    g.id == NamedId(k.name) &&
    match c
    case Absent => false
    case Member(h, p) =>
      && g.epoch == |h| && g.roster == RosterAt(k, h)
      && (if p.None? then g.pending.NoPending? else g.pending.OwnCommit? && g.pending.commit.roster == k.tree(p.value))
    case Joining(h) => h != [] && g.epoch == |h| && g.roster == RosterAt(k, h) && g.pending.ExternalJoin?
  }

  /** `g` is a state the device had at some time. */
  ghost predicate Remembered(g: Group, k: Cast, past: set<Gate.Client>) {
    exists c :: c in past && Tracks(g, k, c)
  }

  ghost predicate StoreTracks(storage: Storage, k: Cast, past: set<Gate.Client>) {
    && WellNamed(storage)
    && (Load(storage, NamedId(k.name)).Some? ==> Remembered(Load(storage, NamedId(k.name)).value, k, past))
  }

  /** Memory holds what the gate says; the store and the cached snapshot hold what it once said. */
  ghost predicate Linked(e: Device, k: Cast, c: Gate.Client, past: set<Gate.Client>) {
    && (forall n :: n in e.groups ==> e.groups[n].id.text == n)
    && (if k.name in e.groups then Tracks(e.groups[k.name], k, c) && c in past else c.Absent?)
    && StoreTracks(e.storage, k, past)
    && (e.cache.cached.Some? ==> StoreTracks(e.cache.cached.value.storage, k, past))
  }

  // ---- What goes with what ----

  /** The operation concerns another group, or no group at all. */
  predicate Elsewhere(k: Cast, op: Op) {
    match op
    case Join(w) => w.StagedWelcome? ==> w.id.text != k.name
    case JoinExternally(i) => i.BuiltJoin? ==> i.id.text != k.name
    case Mint(_, _, _, _, _) => true
    case PruneAt(_) => true
    case Save => true
    case Reload(_, _) => false
    case _ => op.name != k.name
  }

  /** The device holds its MLS mutex from submission to answer. */
  predicate Busy(s: Gate.Slot) {
    s.client.Member? && s.waiting.Some?
  }

  predicate Answered(sv: Gate.Server, s: Gate.Slot, accepted: bool) {
    s.waiting.Some? && s.waiting.value in sv.replies && sv.replies[s.waiting.value] == accepted
  }

  /** What the engine stages, on the way from `e` to `after`, is commit `Commit(d, serial, false)`. */
  predicate StageMatches(e: Device, after: Device, k: Cast, s: Gate.Slot, d: nat, step: Option<Gate.Step>) {
    if k.name !in e.groups || k.name !in after.groups || after.groups[k.name] == e.groups[k.name] then step.None?
    else
      && !Busy(s) && step.Some? && step.value.Stage?
      && (after.groups[k.name].pending.OwnCommit? ==>
            after.groups[k.name].pending.commit.roster == k.tree(Gate.Commit(d, step.value.serial, false)))
  }

  /**
   * The library stages a commit it was served, by another device, for the very tree it holds; whether
   * the merge that follows works is its own affair.
   */
  predicate ReceiveMatches(e: Device, k: Cast, sv: Gate.Server, s: Gate.Slot, d: nat, op: Op, step: Option<Gate.Step>)
    requires op.Receive?
  {
    var f, p := op.frame, op.processing;
    && !Busy(s)
    && if k.name in e.groups && Readable(e.groups[k.name], f) && p.StagedCommit? && p.merge.Works?
       then && step.Some? && step.value.Receive? && step.value.base == f.body.epoch == e.groups[k.name].epoch
            && Gate.Served(sv, step.value.base, step.value.id) && !Gate.Own(d, step.value.id)
            && (s.client.Joining? ==> Gate.OnLog(sv, s.client.history))
            && p.commit.roster == k.tree(step.value.id)
       else step.None?
  }

  /** The client merges on an accepted answer, and only then. */
  predicate MergeMatches(e: Device, k: Cast, sv: Gate.Server, s: Gate.Slot, answer: Answer, step: Option<Gate.Step>) {
    && Answered(sv, s, true)
    && if k.name !in e.groups then step.None?
       else if e.groups[k.name].active && answer.Works? then step.Some? && step.value.Answered?
       else step.Some? && (if s.client.Joining? then step.value.Restart? && step.value.saved == s.client else step.value.GaveUp?)
  }

  /** A member clears on a rejection, or at any time it awaits no answer. */
  predicate ClearMatches(sv: Gate.Server, s: Gate.Slot, answer: Answer, step: Option<Gate.Step>) {
    if !s.client.Member? then step.None?
    else if s.waiting.None? then if answer.Works? then step.Some? && step.value.Clear? else step.None?
    else && Answered(sv, s, false) && step.Some?
         && if answer.Works? then step.value.Answered? else step.value.GaveUp?
  }

  /** A Welcome for this group carries a tree for which one was sent. */
  predicate WelcomeMatches(e: Device, k: Cast, sv: Gate.Server, w: Welcome, step: Option<Gate.Step>)
    requires w.StagedWelcome?
  {
    && w.id == NamedId(k.name)
    && if PassesGuards(e, w) && w.intoGroup.Works?
       then && step.Some? && step.value.Welcome? && step.value.tree in sv.welcomes
            && w.epoch == |step.value.tree| && w.roster == RosterAt(k, step.value.tree)
       else step.None?
  }

  /** An external join is built on a base that was served; a refused one has still written its instance. */
  predicate ExternalMatches(e: Device, k: Cast, sv: Gate.Server, d: nat, i: GroupInfo, step: Option<Gate.Step>)
    requires i.BuiltJoin?
  {
    && i.id == NamedId(k.name) && i.base <= |sv.info| && step.Some?
    && (if k.name in e.groups || i.serialise.Fails? then step.value.Leftover? else step.value.JoinExternally?)
    && step.value.base == i.base && i.roster == k.tree(Gate.Commit(d, step.value.serial, true))
  }

  /** The device comes back with what `groups` says about the group. */
  predicate ReturnMatches(groups: map<string, Group>, k: Cast, past: set<Gate.Client>, step: Option<Gate.Step>) {
    if k.name in groups
    then step.Some? && step.value.Restart? && step.value.saved in past && Tracks(groups[k.name], k, step.value.saved)
    else step.Some? && step.value.Forget?
  }

  /**
   * The engine operation `op` of device `d` stands for the gate step `step`, or for none. A second
   * tree under the group's name (a creation that finds no record, a forced one) is not part of a run.
   */
  predicate Matches(e: Device, k: Cast, sv: Gate.Server, s: Gate.Slot, past: set<Gate.Client>, d: nat,
                    op: Op, step: Option<Gate.Step>) {
    if Elsewhere(k, op) then step.None?
    else match op
      case Create(_, _, _) =>
        && GroupKey(NamedId(k.name)) in e.storage
        && if Load(e.storage, NamedId(k.name)).Some?
           then ReturnMatches(map[k.name := Load(e.storage, NamedId(k.name)).value], k, past, step) else step.None?
      case ForceCreate(_, _, _, _) => false
      case Forget(_, _, _) => step.Some? && step.value.Forget?
      case Drop(_, _) => step.Some? && step.value.Forget?
      case Join(w) => WelcomeMatches(e, k, sv, w, step)
      case JoinExternally(i) => ExternalMatches(e, k, sv, d, i, step)
      case Send(_, _, _) => step.None?
      case Skip(_, _) => step.None?
      case Receive(_, _, _) => ReceiveMatches(e, k, sv, s, d, op, step)
      case AddMembers(_, _, _, _, _) => StageMatches(e, Step(e, op), k, s, d, step)
      case RemoveUsers(_, _, _, _, _, _) => StageMatches(e, Step(e, op), k, s, d, step)
      case RemoveDevices(_, _, _, _, _, _) => StageMatches(e, Step(e, op), k, s, d, step)
      case Merge(_, answer) => MergeMatches(e, k, sv, s, answer, step)
      case Clear(_, answer) => ClearMatches(sv, s, answer, step)
      case Reload(_, _) => if Step(e, op) == e then step.None? else ReturnMatches(Step(e, op).groups, k, past, step)
  }

  /** The gate steps a device takes by itself. */
  predicate Local(step: Gate.Step, d: nat) {
    !Gate.OfServer(step) && !step.Submit? && step.device == d
  }

  function ClientAfter(sv: Gate.Server, s: Gate.Slot, past: set<Gate.Client>, d: nat, step: Option<Gate.Step>): Gate.Client
    requires step.Some? ==> Local(step.value, d)
  {
    if step.None? || step.value.Leftover? then s.client else Gate.SlotAfter(sv, s, step.value, past).client
  }

  function PastAfter(sv: Gate.Server, s: Gate.Slot, past: set<Gate.Client>, d: nat, step: Option<Gate.Step>): set<Gate.Client>
    requires step.Some? ==> Local(step.value, d)
  {
    if step.None? then past
    else if step.value.Leftover? then past + {Gate.ExternalInstance(sv, d, step.value.serial, step.value.base)}
    else past + {ClientAfter(sv, s, past, d, step)}
  }

  // ---- Linked states stay linked ----

  lemma StoreRemembers(storage: Storage, k: Cast, past: set<Gate.Client>, more: set<Gate.Client>)
    requires StoreTracks(storage, k, past) && past <= more
    ensures StoreTracks(storage, k, more)
  {
    if Load(storage, NamedId(k.name)).Some? {
      var c :| c in past && Tracks(Load(storage, NamedId(k.name)).value, k, c);
      assert c in more;
    }
  }

  lemma MoreIsLinked(e: Device, k: Cast, c: Gate.Client, past: set<Gate.Client>, more: set<Gate.Client>)
    requires Linked(e, k, c, past) && past <= more
    ensures Linked(e, k, c, more) && Linked(Dirtied(e), k, c, more)
  {
    StoreRemembers(e.storage, k, past, more);
    if e.cache.cached.Some? {
      StoreRemembers(e.cache.cached.value.storage, k, past, more);
    }
  }

  lemma StoredIsTracked(storage: Storage, k: Cast, past: set<Gate.Client>, g: Group, c: Gate.Client)
    requires StoreTracks(storage, k, past)
    requires g.id.text != k.name || (Tracks(g, k, c) && c in past)
    ensures StoreTracks(Store(storage, g), k, past)
  {
    if GroupKey(g.id) == GroupKey(NamedId(k.name)) {
      GroupKeyInjective(g.id, NamedId(k.name));
    }
  }

  /** The group moved, in memory and in the store, to where client `v` is. */
  lemma PutIsLinked(e: Device, k: Cast, c: Gate.Client, past: set<Gate.Client>, g: Group, v: Gate.Client)
    requires Linked(e, k, c, past) && Tracks(g, k, v)
    ensures Linked(Put(e, k.name, g), k, v, past + {v}) && Linked(Dirtied(Put(e, k.name, g)), k, v, past + {v})
  {
    MoreIsLinked(e, k, c, past, past + {v});
    StoredIsTracked(e.storage, k, past + {v}, g, v);
  }

  lemma PutElsewhereIsLinked(e: Device, k: Cast, c: Gate.Client, past: set<Gate.Client>, n: string, g: Group)
    requires Linked(e, k, c, past) && n != k.name && g.id.text == n
    ensures Linked(Put(e, n, g), k, c, past) && Linked(Dirtied(Put(e, n, g)), k, c, past)
  {
    StoredIsTracked(e.storage, k, past, g, c);
  }

  /** Entries other than group records may go at any time; so may the group's own record. */
  lemma ShrunkTracks(storage: Storage, k: Cast, past: set<Gate.Client>, gone: set<Key>)
    requires StoreTracks(storage, k, past)
    ensures StoreTracks(storage - gone, k, past)
  {
  }

  lemma CreateElsewhere(e: Device, k: Cast, c: Gate.Client, past: set<Gate.Client>, n: string, secrets: nat, answer: Answer)
    requires Linked(e, k, c, past) && n != k.name
    ensures Linked(CreateGroup(e, n, secrets, answer).device, k, c, past)
  {
    if GroupKey(NamedId(n)) in e.storage {
      if Load(e.storage, NamedId(n)).Some? {
        GroupKeyInjective(Load(e.storage, NamedId(n)).value.id, NamedId(n));
      }
    } else {
      PutElsewhereIsLinked(e, k, c, past, n, FreshGroup(n, Basic(e.identity.credential), secrets));
    }
  }

  lemma DeleteElsewhere(e: Device, k: Cast, c: Gate.Client, past: set<Gate.Client>, n: string, deletion: Answer, floors: map<string, nat>)
    requires Linked(e, k, c, past) && n != k.name
    ensures Linked(Dirtied(e).(groups := e.groups - {n}, floors := floors, storage := DeleteStored(e.storage, n, deletion)), k, c, past)
  {
    ShrunkTracks(e.storage, k, past, {GroupKey(NamedId(n))});
  }

  lemma JoinElsewhere(e: Device, k: Cast, c: Gate.Client, past: set<Gate.Client>, w: Welcome)
    requires Linked(e, k, c, past) && (w.StagedWelcome? ==> w.id.text != k.name)
    ensures Linked(ProcessWelcome(e, w).device, k, c, past)
  {
    if PassesGuards(e, w) && w.intoGroup.Works? {
      ShrunkTracks(e.storage, k, past, {PackageKey(w.usedPackage)});
      StoredIsTracked(e.storage, k, past, JoinedGroup(w), c);
      StoredIsTracked(e.storage - {PackageKey(w.usedPackage)}, k, past, JoinedGroup(w), c);
    }
  }

  lemma ExternalElsewhere(e: Device, k: Cast, c: Gate.Client, past: set<Gate.Client>, i: GroupInfo)
    requires Linked(e, k, c, past) && (i.BuiltJoin? ==> i.id.text != k.name)
    ensures Linked(JoinByExternalCommit(e, i).device, k, c, past)
  {
    if i.BuiltJoin? {
      StoredIsTracked(e.storage, k, past, DeviceSpec.ExternalInstance(i), c);
    }
  }

  lemma GroupMoveElsewhere(e: Device, k: Cast, c: Gate.Client, past: set<Gate.Client>, op: Op)
    requires Linked(e, k, c, past) && ActsOnGroup(op) && op.name != k.name
    ensures Linked(Step(e, op), k, c, past)
  {
    GroupStepShape(e, op);
    var f := Step(e, op);
    if f != e && f != Dirtied(e) {
      PutElsewhereIsLinked(e, k, c, past, op.name, f.groups[op.name]);
    }
  }

  lemma ElsewhereIsLinked(e: Device, k: Cast, c: Gate.Client, past: set<Gate.Client>, op: Op)
    requires Linked(e, k, c, past) && Elsewhere(k, op)
    ensures Linked(Step(e, op), k, c, past)
  {
    if ActsOnGroup(op) {
      GroupMoveElsewhere(e, k, c, past, op);
    } else {
      match op
      case Create(n, secrets, answer) => CreateElsewhere(e, k, c, past, n, secrets, answer);
      case ForceCreate(n, deletion, secrets, answer) =>
        DeleteElsewhere(e, k, c, past, n, deletion, e.floors - {n});
        CreateElsewhere(Dirtied(e).(groups := e.groups - {n}, floors := e.floors - {n},
                                    storage := DeleteStored(e.storage, n, deletion)), k, c, past, n, secrets, answer);
      case Forget(n, minEpoch, deletion) =>
        DeleteElsewhere(e, k, c, past, n, deletion, if minEpoch > 0 then e.floors[n := minEpoch] else e.floors);
      case Drop(n, deletion) => DeleteElsewhere(e, k, c, past, n, deletion, e.floors[n := U64_MAX]);
      case Join(w) => JoinElsewhere(e, k, c, past, w);
      case JoinExternally(i) => ExternalElsewhere(e, k, c, past, i);
      case Mint(_, _, _, _, _) =>
      case PruneAt(now) => ShrunkTracks(e.storage, k, past, DoomedKeys(e.storage, now));
      case Save =>
    }
  }

  // ---- An operation on the group and its gate step ----

  /** After `step` the gate says of the device what `e` holds. */
  ghost predicate Follows(e: Device, k: Cast, sv: Gate.Server, s: Gate.Slot, past: set<Gate.Client>, d: nat, step: Option<Gate.Step>)
    requires step.Some? ==> Local(step.value, d)
  {
    Linked(e, k, ClientAfter(sv, s, past, d, step), PastAfter(sv, s, past, d, step))
  }

  lemma PendingFollows(e: Device, f: Device, k: Cast, sv: Gate.Server, s: Gate.Slot, past: set<Gate.Client>, d: nat, step: Option<Gate.Step>)
    requires Linked(e, k, s.client, past) && (step.Some? ==> Local(step.value, d))
    requires OneGroupMoved(e, f, k.name) && (k.name in e.groups ==> OnlyPends(e, f, k.name))
    requires StageMatches(e, f, k, s, d, step)
    ensures Follows(f, k, sv, s, past, d, step)
  {
    MoreIsLinked(e, k, s.client, past, past);
    if f != e && f != Dirtied(e) {
      var v := ClientAfter(sv, s, past, d, step);
      PutIsLinked(e, k, s.client, past, f.groups[k.name], v);
      assert step.None? ==> past + {v} == past;
    }
  }

  lemma StagingFollows(e: Device, k: Cast, sv: Gate.Server, s: Gate.Slot, past: set<Gate.Client>, d: nat, op: Op, step: Option<Gate.Step>)
    requires Linked(e, k, s.client, past) && (step.Some? ==> Local(step.value, d))
    requires (op.AddMembers? || op.RemoveUsers? || op.RemoveDevices?) && op.name == k.name
    requires StageMatches(e, Step(e, op), k, s, d, step)
    ensures Follows(Step(e, op), k, sv, s, past, d, step)
  {
    StagingShape(e, op);
    if k.name in e.groups {
      StagingOnlyPends(e, op);
    }
    PendingFollows(e, Step(e, op), k, sv, s, past, d, step);
  }

  lemma TrafficFollows(e: Device, k: Cast, sv: Gate.Server, s: Gate.Slot, past: set<Gate.Client>, d: nat, op: Op)
    requires Linked(e, k, s.client, past) && (op.Send? || op.Skip?) && op.name == k.name
    ensures Follows(Step(e, op), k, sv, s, past, d, None)
  {
    MessagingShape(e, op);
    var f := Step(e, op);
    MoreIsLinked(e, k, s.client, past, past);
    if f != e && f != Dirtied(e) {
      PutIsLinked(e, k, s.client, past, f.groups[k.name], s.client);
      assert past + {s.client} == past;
    }
  }

  lemma ReceivingFollows(e: Device, k: Cast, sv: Gate.Server, s: Gate.Slot, past: set<Gate.Client>, d: nat, op: Op, step: Option<Gate.Step>)
    requires Linked(e, k, s.client, past) && (step.Some? ==> Local(step.value, d))
    requires op.Receive? && op.name == k.name && ReceiveMatches(e, k, sv, s, d, op, step)
    ensures Follows(Step(e, op), k, sv, s, past, d, step)
  {
    MoreIsLinked(e, k, s.client, past, past);
    if k.name in e.groups {
      var o := ProcessOnGroup(e.groups[k.name], k.name, op.frame, op.processing);
      var v := ClientAfter(sv, s, past, d, step);
      assert Tracks(o.group, k, v);
      PutIsLinked(e, k, s.client, past, o.group, v);
      assert step.None? ==> past + {v} == past;
    }
  }

  lemma MergingFollows(e: Device, k: Cast, sv: Gate.Server, s: Gate.Slot, past: set<Gate.Client>, d: nat, answer: Answer, step: Option<Gate.Step>)
    requires Linked(e, k, s.client, past) && (step.Some? ==> Local(step.value, d))
    requires MergeMatches(e, k, sv, s, answer, step)
    ensures Follows(Step(e, Merge(k.name, answer)), k, sv, s, past, d, step)
  {
    MoreIsLinked(e, k, s.client, past, past);
    if k.name in e.groups {
      var v := ClientAfter(sv, s, past, d, step);
      var g := MergePending(e.groups[k.name], answer);
      if g.Ok? {
        PutIsLinked(e, k, s.client, past, g.value, v);
      } else {
        assert past + {v} == past;
      }
    }
  }

  lemma ClearingFollows(e: Device, k: Cast, sv: Gate.Server, s: Gate.Slot, past: set<Gate.Client>, d: nat, answer: Answer, step: Option<Gate.Step>)
    requires Linked(e, k, s.client, past) && (step.Some? ==> Local(step.value, d))
    requires ClearMatches(sv, s, answer, step)
    ensures Follows(Step(e, Clear(k.name, answer)), k, sv, s, past, d, step)
  {
    MoreIsLinked(e, k, s.client, past, past);
    if k.name in e.groups {
      var v := ClientAfter(sv, s, past, d, step);
      var g := ClearPending(e.groups[k.name], answer);
      if g.Ok? {
        PutIsLinked(e, k, s.client, past, g.value, v);
        assert step.None? ==> past + {v} == past;
      } else {
        assert past + {v} == past;
      }
    }
  }

  lemma ForgettingFollows(e: Device, k: Cast, sv: Gate.Server, s: Gate.Slot, past: set<Gate.Client>, d: nat, minEpoch: nat, deletion: Answer, step: Option<Gate.Step>)
    requires Linked(e, k, s.client, past) && step.Some? && step.value.Forget? && Local(step.value, d)
    ensures Follows(ForgetGroup(e, k.name, minEpoch, deletion), k, sv, s, past, d, step)
  {
    var more := PastAfter(sv, s, past, d, step);
    MoreIsLinked(e, k, s.client, past, more);
    ShrunkTracks(e.storage, k, more, {GroupKey(NamedId(k.name))});
  }

  lemma WelcomeFollows(e: Device, k: Cast, sv: Gate.Server, s: Gate.Slot, past: set<Gate.Client>, d: nat, w: Welcome, step: Option<Gate.Step>)
    requires Linked(e, k, s.client, past) && (step.Some? ==> Local(step.value, d))
    requires w.StagedWelcome? && WelcomeMatches(e, k, sv, w, step)
    ensures Follows(ProcessWelcome(e, w).device, k, sv, s, past, d, step)
  {
    if PassesGuards(e, w) && w.intoGroup.Works? {
      var v := ClientAfter(sv, s, past, d, step);
      assert v == Gate.Member(step.value.tree, None);
      MoreIsLinked(e, k, s.client, past, past + {v});
      ShrunkTracks(e.storage, k, past + {v}, {PackageKey(w.usedPackage)});
      StoredIsTracked(e.storage, k, past + {v}, JoinedGroup(w), v);
      StoredIsTracked(e.storage - {PackageKey(w.usedPackage)}, k, past + {v}, JoinedGroup(w), v);
    }
  }

  lemma ExternalJoinFollows(e: Device, k: Cast, sv: Gate.Server, s: Gate.Slot, past: set<Gate.Client>, d: nat, i: GroupInfo, step: Option<Gate.Step>)
    requires Linked(e, k, s.client, past) && (step.Some? ==> Local(step.value, d))
    requires i.BuiltJoin? && ExternalMatches(e, k, sv, d, i, step)
    ensures Follows(JoinByExternalCommit(e, i).device, k, sv, s, past, d, step)
  {
    var x := Gate.ExternalInstance(sv, d, step.value.serial, step.value.base);
    MoreIsLinked(e, k, s.client, past, past + {x});
    assert Tracks(DeviceSpec.ExternalInstance(i), k, x);
    StoredIsTracked(e.storage, k, past + {x}, DeviceSpec.ExternalInstance(i), x);
  }

  /** A restored engine holds a remembered state of the group, or does not hold it. */
  lemma RestoredIsLinked(b: Snapshot, clock: Option<nat>, k: Cast, past: set<Gate.Client>, c: Gate.Client)
    requires StoreTracks(b.storage, k, past)
    requires var groups := Candidate(b, clock).groups;
             if k.name in groups then c in past && Tracks(groups[k.name], k, c) else c.Absent?
    ensures Linked(Candidate(b, clock), k, c, past)
  {
    var f := Candidate(b, clock);
    forall n | n in f.groups
      ensures f.groups[n].id.text == n
    {
      GroupKeyInjective(f.groups[n].id, NamedId(n));
    }
    if clock.Some? {
      ShrunkTracks(b.storage, k, past, DoomedKeys(b.storage, clock.value));
    }
  }

  lemma ReturnFollows(b: Snapshot, clock: Option<nat>, k: Cast, sv: Gate.Server, s: Gate.Slot, past: set<Gate.Client>, d: nat, step: Option<Gate.Step>)
    requires StoreTracks(b.storage, k, past) && step.Some? && Local(step.value, d)
    requires ReturnMatches(Candidate(b, clock).groups, k, past, step)
    ensures Follows(Candidate(b, clock), k, sv, s, past, d, step)
  {
    var v := ClientAfter(sv, s, past, d, step);
    StoreRemembers(b.storage, k, past, past + {v});
    RestoredIsLinked(b, clock, k, past + {v}, v);
  }

  lemma CreatingFollows(e: Device, k: Cast, sv: Gate.Server, s: Gate.Slot, past: set<Gate.Client>, d: nat, secrets: nat, answer: Answer, step: Option<Gate.Step>)
    requires Linked(e, k, s.client, past) && (step.Some? ==> Local(step.value, d))
    requires Matches(e, k, sv, s, past, d, Create(k.name, secrets, answer), step)
    ensures Follows(CreateGroup(e, k.name, secrets, answer).device, k, sv, s, past, d, step)
  {
    if Load(e.storage, NamedId(k.name)).Some? {
      var v := step.value.saved;
      MoreIsLinked(e, k, s.client, past, past + {v});
    }
  }

  lemma GroupMoveFollows(e: Device, k: Cast, sv: Gate.Server, s: Gate.Slot, past: set<Gate.Client>, d: nat, op: Op, step: Option<Gate.Step>)
    requires Linked(e, k, s.client, past) && (step.Some? ==> Local(step.value, d))
    requires ActsOnGroup(op) && op.name == k.name && Matches(e, k, sv, s, past, d, op, step)
    ensures Follows(Step(e, op), k, sv, s, past, d, step)
  {
    if op.Send? || op.Skip? {
      TrafficFollows(e, k, sv, s, past, d, op);
    } else if op.Receive? {
      ReceivingFollows(e, k, sv, s, past, d, op, step);
    } else if op.Merge? {
      MergingFollows(e, k, sv, s, past, d, op.answer, step);
    } else if op.Clear? {
      ClearingFollows(e, k, sv, s, past, d, op.answer, step);
    } else {
      StagingFollows(e, k, sv, s, past, d, op, step);
    }
  }

  /** Every operation with its gate step: the engine still holds what the gate says. */
  lemma OperationFollows(e: Device, k: Cast, sv: Gate.Server, s: Gate.Slot, past: set<Gate.Client>, d: nat, op: Op, step: Option<Gate.Step>)
    requires Linked(e, k, s.client, past) && (step.Some? ==> Local(step.value, d))
    requires Matches(e, k, sv, s, past, d, op, step)
    requires op.Reload? ==> StoreTracks(op.snapshot.storage, k, past)
    ensures Follows(Step(e, op), k, sv, s, past, d, step)
  {
    if Elsewhere(k, op) {
      ElsewhereIsLinked(e, k, s.client, past, op);
    } else if ActsOnGroup(op) {
      GroupMoveFollows(e, k, sv, s, past, d, op, step);
    } else {
      match op
      case Create(_, secrets, answer) => CreatingFollows(e, k, sv, s, past, d, secrets, answer, step);
      case Forget(_, minEpoch, deletion) => ForgettingFollows(e, k, sv, s, past, d, minEpoch, deletion, step);
      case Drop(_, deletion) => ForgettingFollows(e, k, sv, s, past, d, U64_MAX, deletion, step);
      case Join(w) => WelcomeFollows(e, k, sv, s, past, d, w, step);
      case JoinExternally(i) => ExternalJoinFollows(e, k, sv, s, past, d, i, step);
      case Reload(b, clock) =>
        if Step(e, op) != e {
          ReturnFollows(b, clock, k, sv, s, past, d, step);
        }
    }
  }

  // ---- The joint world ----

  /** The gate, each device's engine, and every snapshot a device ever saved. */
  datatype Joint = Joint(gate: Gate.World, engines: map<nat, Device>, saved: map<nat, set<Snapshot>>)

  datatype Act =
    | OnServer(step: Gate.Step)
    | Submit(device: nat, request: nat)
    | LoseAnswer(device: nat)
    | Operate(device: nat, op: Op, gate: Option<Gate.Step>)
    | Install(device: nat, credential: string, keypair: nat)
    | Boot(device: nat, snapshot: Snapshot, clock: Option<nat>, gate: Option<Gate.Step>)

  function SavedBy(j: Joint, d: nat): set<Snapshot> {
    if d in j.saved then j.saved[d] else {}
  }

  /**
   * A device that loses an answer lets the commit stay staged; a joiner forgets its group, which is
   * the operation `Forget`. A reload and a restart read a snapshot that was saved.
   */
  ghost predicate Possible(j: Joint, k: Cast, a: Act) {
    match a
    case OnServer(step) => Gate.OfServer(step) && Gate.Allowed(j.gate.server, step)
    case Submit(_, _) => true
    case LoseAnswer(d) => !Gate.ClientOf(j.gate, d).Joining?
    case Operate(d, op, step) =>
      && d in j.engines && (step.Some? ==> Local(step.value, d))
      && (op.Reload? ==> op.snapshot in SavedBy(j, d))
      && Matches(j.engines[d], k, j.gate.server, Gate.SlotOf(j.gate, d), Gate.PastOf(j.gate, d), d, op, step)
    case Install(_, _, _) => true
    case Boot(d, b, clock, step) =>
      && b in SavedBy(j, d) && step.Some? && Local(step.value, d)
      && ReturnMatches(Candidate(b, clock).groups, k, Gate.PastOf(j.gate, d), step)
  }

  function GateAfter(w: Gate.World, step: Option<Gate.Step>): Gate.World {
    if step.None? then w else Gate.Next(w, step.value)
  }

  ghost function After(j: Joint, k: Cast, a: Act): Joint {
    if !Possible(j, k, a) then j
    else match a
      case OnServer(step) => j.(gate := Gate.Next(j.gate, step))
      case Submit(d, r) => j.(gate := Gate.Next(j.gate, Gate.Submit(d, r)))
      case LoseAnswer(d) => j.(gate := Gate.Next(j.gate, Gate.GaveUp(d)))
      case Operate(d, op, step) =>
        var saved := if op.Save? then j.saved[d := SavedBy(j, d) + {SaveState(j.engines[d]).1}] else j.saved;
        Joint(GateAfter(j.gate, step), j.engines[d := Step(j.engines[d], op)], saved)
      case Install(d, credential, keypair) =>
        j.(gate := Gate.Next(j.gate, Gate.Forget(d)), engines := j.engines[d := NewDevice(credential, keypair)])
      case Boot(d, b, clock, step) =>
        j.(gate := GateAfter(j.gate, step), engines := j.engines[d := Candidate(b, clock)])
  }

  ghost function RunJoint(j: Joint, k: Cast, acts: seq<Act>): Joint
    decreases |acts|
  {
    if acts == [] then j else RunJoint(After(j, k, acts[0]), k, acts[1..])
  }

  /** The creator holds the new group at epoch 0; nobody else has an engine yet. */
  function Opening(k: Cast, creator: nat, credential: string, keypair: nat, secrets: nat): Joint {
    var e := CreateGroup(NewDevice(credential, keypair), k.name, secrets, Works).device;
    Joint(Gate.Start(creator), map[creator := e], map[])
  }

  // ---- Every engine tracks its device ----

  ghost predicate SavedTracks(saved: map<nat, set<Snapshot>>, k: Cast, w: Gate.World) {
    forall d, b :: d in saved && b in saved[d] ==> StoreTracks(b.storage, k, Gate.PastOf(w, d))
  }

  ghost predicate Coupled(j: Joint, k: Cast) {
    && Gate.Sound(j.gate)
    && (forall d :: d in j.engines ==> Linked(j.engines[d], k, Gate.ClientOf(j.gate, d), Gate.PastOf(j.gate, d)))
    && SavedTracks(j.saved, k, j.gate)
  }

  lemma GateStaysSound(w: Gate.World, d: nat, step: Option<Gate.Step>)
    requires Gate.Sound(w) && (step.Some? ==> Local(step.value, d))
    ensures Gate.Sound(GateAfter(w, step))
    ensures Gate.ClientOf(GateAfter(w, step), d) == ClientAfter(w.server, Gate.SlotOf(w, d), Gate.PastOf(w, d), d, step)
    ensures Gate.PastOf(GateAfter(w, step), d) == PastAfter(w.server, Gate.SlotOf(w, d), Gate.PastOf(w, d), d, step)
    ensures forall x :: x != d ==>
              Gate.ClientOf(GateAfter(w, step), x) == Gate.ClientOf(w, x) && Gate.PastOf(GateAfter(w, step), x) == Gate.PastOf(w, x)
    ensures GateAfter(w, step).server == w.server
  {
    if step.Some? {
      Gate.SoundStep(w, step.value);
    }
  }

  lemma SavedStays(saved: map<nat, set<Snapshot>>, k: Cast, w: Gate.World, v: Gate.World)
    requires SavedTracks(saved, k, w) && forall d :: Gate.PastOf(w, d) <= Gate.PastOf(v, d)
    ensures SavedTracks(saved, k, v)
  {
    forall d, b | d in saved && b in saved[d]
      ensures StoreTracks(b.storage, k, Gate.PastOf(v, d))
    {
      StoreRemembers(b.storage, k, Gate.PastOf(w, d), Gate.PastOf(v, d));
    }
  }

  /** Device `d` moved to engine `e` by `step`; everything else stayed. */
  lemma DeviceMoves(j: Joint, k: Cast, d: nat, step: Option<Gate.Step>, e: Device)
    requires Coupled(j, k) && (step.Some? ==> Local(step.value, d))
    requires Follows(e, k, j.gate.server, Gate.SlotOf(j.gate, d), Gate.PastOf(j.gate, d), d, step)
    ensures Coupled(j.(gate := GateAfter(j.gate, step), engines := j.engines[d := e]), k)
  {
    GateStaysSound(j.gate, d, step);
    SavedStays(j.saved, k, j.gate, GateAfter(j.gate, step));
  }

  /** A snapshot is the cached one or what the store holds now. */
  lemma SavingKeeps(j: Joint, k: Cast, d: nat)
    requires Coupled(j, k) && d in j.engines
    ensures Coupled(j.(saved := j.saved[d := SavedBy(j, d) + {SaveState(j.engines[d]).1}]), k)
  {
    assert Linked(j.engines[d], k, Gate.ClientOf(j.gate, d), Gate.PastOf(j.gate, d));
  }

  lemma GateMoves(j: Joint, k: Cast, step: Gate.Step)
    requires Coupled(j, k) && Gate.Allowed(j.gate.server, step)
    requires Gate.OfServer(step) || step.Submit? || (step.GaveUp? && !Gate.ClientOf(j.gate, step.device).Joining?)
    ensures Coupled(j.(gate := Gate.Next(j.gate, step)), k)
  {
    Gate.SoundStep(j.gate, step);
    var w := Gate.Next(j.gate, step);
    forall x
      ensures Gate.ClientOf(w, x) == Gate.ClientOf(j.gate, x) && Gate.PastOf(j.gate, x) <= Gate.PastOf(w, x)
    {
    }
    forall x | x in j.engines
      ensures Linked(j.engines[x], k, Gate.ClientOf(w, x), Gate.PastOf(w, x))
    {
      MoreIsLinked(j.engines[x], k, Gate.ClientOf(w, x), Gate.PastOf(j.gate, x), Gate.PastOf(w, x));
    }
    SavedStays(j.saved, k, j.gate, w);
  }

  lemma OperateKeeps(j: Joint, k: Cast, d: nat, op: Op, step: Option<Gate.Step>)
    requires Coupled(j, k) && Possible(j, k, Operate(d, op, step))
    ensures Coupled(After(j, k, Operate(d, op, step)), k)
  {
    assert Linked(j.engines[d], k, Gate.ClientOf(j.gate, d), Gate.PastOf(j.gate, d));
    var m := if op.Save? then j.(saved := j.saved[d := SavedBy(j, d) + {SaveState(j.engines[d]).1}]) else j;
    if op.Save? {
      SavingKeeps(j, k, d);
    }
    OperationFollows(j.engines[d], k, j.gate.server, Gate.SlotOf(j.gate, d), Gate.PastOf(j.gate, d), d, op, step);
    DeviceMoves(m, k, d, step, Step(j.engines[d], op));
  }

  lemma NewDeviceIsLinked(credential: string, keypair: nat, k: Cast, past: set<Gate.Client>)
    ensures Linked(NewDevice(credential, keypair), k, Gate.Absent, past)
  {
  }

  lemma CoupledStep(j: Joint, k: Cast, a: Act)
    requires Coupled(j, k)
    ensures Coupled(After(j, k, a), k)
  {
    if Possible(j, k, a) {
      match a
      case OnServer(step) => GateMoves(j, k, step);
      case Submit(d, r) => GateMoves(j, k, Gate.Submit(d, r));
      case LoseAnswer(d) => GateMoves(j, k, Gate.GaveUp(d));
      case Operate(d, op, step) => OperateKeeps(j, k, d, op, step);
      case Install(d, credential, keypair) =>
        NewDeviceIsLinked(credential, keypair, k, Gate.PastOf(j.gate, d) + {Gate.Absent});
        DeviceMoves(j, k, d, Some(Gate.Forget(d)), NewDevice(credential, keypair));
      case Boot(d, b, clock, step) =>
        ReturnFollows(b, clock, k, j.gate.server, Gate.SlotOf(j.gate, d), Gate.PastOf(j.gate, d), d, step);
        DeviceMoves(j, k, d, step, Candidate(b, clock));
    }
  }

  lemma {:induction false} CoupledRun(j: Joint, k: Cast, acts: seq<Act>)
    requires Coupled(j, k)
    ensures Coupled(RunJoint(j, k, acts), k)
    decreases |acts|
  {
    if acts != [] {
      CoupledStep(j, k, acts[0]);
      CoupledRun(After(j, k, acts[0]), k, acts[1..]);
    }
  }

  lemma OpeningIsCoupled(k: Cast, creator: nat, credential: string, keypair: nat, secrets: nat)
    requires k.first == [Leaf(0, Basic(credential))]
    ensures Coupled(Opening(k, creator, credential, keypair, secrets), k)
  {
    NewDeviceIsLinked(credential, keypair, k, {});
    PutIsLinked(NewDevice(credential, keypair), k, Gate.Absent, {}, FreshGroup(k.name, Basic(credential), secrets), Gate.Member([], None));
    assert {} + {Gate.Member([], None)} == {Gate.Member([], None)};
  }

  /** From the creation of the group on, an engine holds it exactly if its device is in it, and tracks it. */
  lemma EnginesTrackTheGate(k: Cast, creator: nat, credential: string, keypair: nat, secrets: nat, acts: seq<Act>, d: nat)
    requires k.first == [Leaf(0, Basic(credential))]
    requires d in RunJoint(Opening(k, creator, credential, keypair, secrets), k, acts).engines
    ensures var j := RunJoint(Opening(k, creator, credential, keypair, secrets), k, acts);
            && (k.name in j.engines[d].groups <==> !Gate.ClientOf(j.gate, d).Absent?)
            && (k.name in j.engines[d].groups ==> Tracks(j.engines[d].groups[k.name], k, Gate.ClientOf(j.gate, d)))
  {
    OpeningIsCoupled(k, creator, credential, keypair, secrets);
    CoupledRun(Opening(k, creator, credential, keypair, secrets), k, acts);
  }

  // ---- One roster per epoch ----

  lemma LogStepJoint(j: Joint, k: Cast, a: Act)
    requires Coupled(j, k)
    ensures Gate.LogExtends(j.gate.server, After(j, k, a).gate.server)
  {
    if Possible(j, k, a) {
      match a
      case OnServer(step) => Gate.LogStep(j.gate, step);
      case Submit(_, _) =>
      case LoseAnswer(_) =>
      case Operate(d, _, step) => GateStaysSound(j.gate, d, step);
      case Install(_, _, _) =>
      case Boot(d, _, _, step) => GateStaysSound(j.gate, d, step);
    }
  }

  lemma {:induction false} LogGrowsJointly(j: Joint, k: Cast, acts: seq<Act>)
    requires Coupled(j, k)
    ensures Gate.LogExtends(j.gate.server, RunJoint(j, k, acts).gate.server)
    decreases |acts|
  {
    if acts != [] {
      LogStepJoint(j, k, acts[0]);
      CoupledStep(j, k, acts[0]);
      LogGrowsJointly(After(j, k, acts[0]), k, acts[1..]);
    }
  }

  /** Device `d` holds the group, is no external joiner awaiting its answer, and is at `epoch`. */
  predicate SettledAt(j: Joint, k: Cast, d: nat, epoch: nat) {
    && d in j.engines && k.name in j.engines[d].groups
    && j.engines[d].groups[k.name].epoch == epoch && !j.engines[d].groups[k.name].pending.ExternalJoin?
  }

  lemma SettledIsOnLog(j: Joint, k: Cast, d: nat, epoch: nat)
    requires Coupled(j, k) && SettledAt(j, k, d, epoch)
    ensures Gate.ClientOf(j.gate, d).Member?
    ensures var h := Gate.ClientOf(j.gate, d).history;
            |h| == epoch && Gate.OnLog(j.gate.server, h) && j.engines[d].groups[k.name].roster == RosterAt(k, h)
  {
    assert Linked(j.engines[d], k, Gate.ClientOf(j.gate, d), Gate.PastOf(j.gate, d));
    assert Gate.SlotSound(j.gate.server, Gate.SlotOf(j.gate, d));
  }

  lemma AgreeLater(j: Joint, k: Cast, later: seq<Act>, d: nat, e: nat, epoch: nat)
    requires Coupled(j, k) && SettledAt(j, k, d, epoch) && SettledAt(RunJoint(j, k, later), k, e, epoch)
    ensures j.engines[d].groups[k.name].roster == RunJoint(j, k, later).engines[e].groups[k.name].roster
  {
    var v := RunJoint(j, k, later);
    CoupledRun(j, k, later);
    LogGrowsJointly(j, k, later);
    SettledIsOnLog(j, k, d, epoch);
    SettledIsOnLog(v, k, e, epoch);
    Gate.OnLogStays(j.gate.server, v.gate.server, Gate.ClientOf(j.gate, d).history);
    Gate.OnOneLine(v.gate.server, Gate.ClientOf(j.gate, d).history, Gate.ClientOf(v.gate, e).history);
  }

  /**
   * One roster per epoch: after any joint run from the creation of the group, whatever the engines
   * answered, a settled device at some epoch and any device settled at that epoch then or later hold
   * the same roster.
   */
  lemma SettledDevicesAgree(k: Cast, creator: nat, credential: string, keypair: nat, secrets: nat,
                            acts: seq<Act>, later: seq<Act>, d: nat, e: nat, epoch: nat)
    requires k.first == [Leaf(0, Basic(credential))]
    requires SettledAt(RunJoint(Opening(k, creator, credential, keypair, secrets), k, acts), k, d, epoch)
    requires SettledAt(RunJoint(RunJoint(Opening(k, creator, credential, keypair, secrets), k, acts), k, later), k, e, epoch)
    ensures var j := RunJoint(Opening(k, creator, credential, keypair, secrets), k, acts);
            j.engines[d].groups[k.name].roster == RunJoint(j, k, later).engines[e].groups[k.name].roster
  {
    OpeningIsCoupled(k, creator, credential, keypair, secrets);
    CoupledRun(Opening(k, creator, credential, keypair, secrets), k, acts);
    AgreeLater(RunJoint(Opening(k, creator, credential, keypair, secrets), k, acts), k, later, d, e, epoch);
  }

  lemma ReturnStep(b: Snapshot, clock: Option<nat>, k: Cast, past: set<Gate.Client>, d: nat) returns (step: Option<Gate.Step>)
    requires StoreTracks(b.storage, k, past)
    ensures step.Some? && Local(step.value, d) && ReturnMatches(Candidate(b, clock).groups, k, past, step)
  {
    var groups := Candidate(b, clock).groups;
    step := Some(Gate.Forget(d));
    if k.name in groups {
      assert Remembered(groups[k.name], k, past);
      var c :| c in past && Tracks(groups[k.name], k, c);
      step := Some(Gate.Restart(d, c));
    }
  }

  /** No restart and no reload is left out of a joint run: each has a gate step it stands for. */
  lemma EveryRestartIsPossible(j: Joint, k: Cast, d: nat, b: Snapshot, clock: Option<nat>)
    returns (boot: Option<Gate.Step>, reload: Option<Gate.Step>)
    requires Coupled(j, k) && b in SavedBy(j, d)
    ensures Possible(j, k, Boot(d, b, clock, boot))
    ensures d in j.engines ==> Possible(j, k, Operate(d, Reload(b, clock), reload))
  {
    boot := ReturnStep(b, clock, k, Gate.PastOf(j.gate, d), d);
    reload := if d in j.engines && Step(j.engines[d], Reload(b, clock)) == j.engines[d] then None else boot;
  }
}
