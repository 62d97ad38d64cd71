/**
 * What the operations of the engine answer, and what an answer promises: which call succeeds, with
 * what value, and which refusal gets which error. Retries and recoveries above the engine go by these.
 */
module DeviceAnswers {
  import opened Basics
  import opened OpenMls
  import opened ErrorKinds
  import opened Members
  import opened DeviceSpec
  import opened DeviceRuns

  // ---- Frames ----

  /** The refusals that are swallowed: a past handshake, or a generation too old to be read. */
  predicate Swallowed(g: Group, f: Frame, debug: string)
    requires f.body.Protocol?
  {
    if f.body.epoch < g.epoch then !f.body.content.Application?
    else Contains(debug, "TooDistantInThePast") || Contains(debug, "NoPastEpochData")
  }

  /** A text comes out exactly of a readable application frame, and it is the one the library decrypted. */
  lemma PlaintextComesOut(d: Device, name: string, f: Frame, p: Processing)
    requires name in d.groups
    ensures var r := ProcessIncoming(d, name, f, p).result;
            && (r.Ok? && r.value.Some? <==> Readable(d.groups[name], f) && p.Plaintext?)
            && (r.Ok? && r.value.Some? ==> r.value.value == p.bytes)
  {
  }

  /** A frame is consumed without a text exactly if it is a commit that merged, a proposal, or swallowed. */
  lemma SilentFrames(d: Device, name: string, f: Frame, p: Processing)
    requires name in d.groups
    ensures ProcessIncoming(d, name, f, p).result == Ok(None) <==>
            && Readable(d.groups[name], f)
            && match p
               case Plaintext(_, _) => false
               case StagedCommit(_, _, merge) => merge.Works?
               case QueuedProposal(_) => true
               case Refused(debug) => Swallowed(d.groups[name], f, debug)
  {
  }

  /** Before the library is asked: malformed, evicted, ahead, in that order. */
  lemma UnreadableFrames(d: Device, name: string, f: Frame, p: Processing)
    requires name in d.groups && !Readable(d.groups[name], f)
    ensures var g, o := d.groups[name], ProcessIncoming(d, name, f, p);
            && o.device == d
            && o.result == Err(
                 if f.length > MAX_MLS_MESSAGE_BYTES || !f.body.Protocol? then InvalidData
                 else if !g.active then Evicted(name)
                 else MlsError.OpenMls(EpochGap(f.body.epoch, g.epoch)))
            && (f.length <= MAX_MLS_MESSAGE_BYTES && f.body.Protocol? && g.active ==> f.body.epoch > g.epoch)
  {
  }

  /** What a readable frame that is neither a text nor silent is told. */
  lemma FailedFrames(d: Device, name: string, f: Frame, p: Processing)
    requires name in d.groups && Readable(d.groups[name], f)
    ensures var g, r := d.groups[name], ProcessIncoming(d, name, f, p).result;
            && (p.StagedCommit? && p.merge.Fails? ==> r == Err(MlsError.OpenMls(MergeFailed(p.merge.debug))))
            && (p.Refused? && !Swallowed(g, f, p.debug) ==>
                  r == Err(MlsError.OpenMls(
                    if f.body.epoch < g.epoch then PastEpochFrame(f.body.epoch, g.epoch)
                    else if Contains(p.debug, OWN_MESSAGE) then OwnFrame(f.body.epoch, g.epoch)
                    else Refusal(p.debug, f.body.epoch, g.epoch))))
  {
  }

  /**
   * What the library made of a readable frame is what memory and store hold afterwards: a merged commit
   * is the next epoch with its tree and secrets, anything else processed moves the secrets only.
   */
  lemma ProcessedFrameIsKept(d: Device, name: string, f: Frame, p: Processing)
    requires name in d.groups && Readable(d.groups[name], f) && !p.Refused?
    ensures var g := d.groups[name];
            var e := ProcessIncoming(d, name, f, p).device;
            && name in e.groups && Load(e.storage, g.id) == Some(e.groups[name])
            && (if p.StagedCommit? && p.merge.Works?
                then && e.groups[name].epoch == g.epoch + 1 && e.groups[name].roster == p.commit.roster
                     && e.groups[name].secrets == p.commit.secrets && e.groups[name].active == !p.commit.evictsUs
                     && e.groups[name].pending.NoPending? && e.groups[name].sent == 0
                else e.groups[name] == g.(secrets := p.secrets))
            && (e.cache.dirty || e.cache == d.cache) && e.groups - {name} == d.groups - {name} && e.floors == d.floors
  {
  }

  /** In a batch every frame gets the answer it would get alone, on the state its predecessors left. */
  lemma {:induction false} BatchAnswers(d: Device, name: string, frames: seq<(Frame, Processing)>, i: nat)
    requires i < |frames|
    ensures var b := ProcessEach(d, name, frames);
            && |b.results| == |frames|
            && b.results[i] == ProcessIncoming(ProcessEach(d, name, frames[..i]).device, name, frames[i].0, frames[i].1).result
    decreases |frames|
  {
    BatchLength(d, name, frames);
    var n := |frames| - 1;
    BatchLength(d, name, frames[..n]);
    if i < n {
      BatchAnswers(d, name, frames[..n], i);
      assert frames[..n][..i] == frames[..i];
    }
  }

  // ---- Adding ----

  /** The leaves of `after` are those of `roster` and then one per position, with that package's credential. */
  predicate Extends(after: seq<Leaf>, roster: seq<Leaf>, packages: seq<Package>, positions: seq<nat>) {
    && |after| == |roster| + |positions| && after[..|roster|] == roster
    && forall k :: 0 <= k < |positions| ==>
         positions[k] < |packages| && packages[positions[k]] == Valid(after[|roster| + k].credential)
  }

  /** `positions` are, in ascending order, those of the packages with verdict `v`. */
  ghost predicate Reports(positions: seq<nat>, roster: seq<Leaf>, packages: seq<Package>, v: Verdict) {
    && (forall i :: i in positions <==> 0 <= i < |packages| && VerdictAt(roster, packages, i) == v)
    && forall a, b :: 0 <= a < b < |positions| ==> positions[a] < positions[b]
  }

  lemma AddStages(d: Device, op: Op, i: nat)
    requires op.AddMembers? && op.answer.Works? && op.serialise.Works? && Idle(d, op.name)
    requires i < |op.packages| && VerdictAt(d.groups[op.name].roster, op.packages, i) == Added
    ensures var g := d.groups[op.name];
            var t := TriageOf(g.roster, op.packages);
            var o := AddMembersBulk(d, op.name, op.packages, op.secrets, op.answer, op.serialise);
            && o.result == Ok(BulkResult(t.added, t.skipped))
            && Reports(t.added, g.roster, op.packages, Added) && Reports(t.skipped, g.roster, op.packages, Skipped)
            && op.name in o.device.groups && o.device.groups[op.name].active && o.device.groups[op.name].epoch == g.epoch
            && o.device.groups[op.name].pending == OwnCommit(Commit(WithAdded(g.roster, t.kept), false, op.secrets))
  {
    var g := d.groups[op.name];
    PositionsExact(g.roster, op.packages, Added, |op.packages|);
    PositionsExact(g.roster, op.packages, Skipped, |op.packages|);
    var t := TriageOf(g.roster, op.packages);
    assert i in t.added;
    assert t.kept != [];
  }

  lemma StagedMerges(e: Device, name: string, c: Commit)
    requires name in e.groups && e.groups[name].active && e.groups[name].pending == OwnCommit(c)
    ensures var f := Step(e, Merge(name, Works));
            && name in f.groups && f.groups[name].epoch == e.groups[name].epoch + 1 && f.groups[name].roster == c.roster
            && f.groups[name].secrets == c.secrets && f.groups[name].active == !c.evictsUs
  {
  }

  lemma ReportedIsExtended(roster: seq<Leaf>, packages: seq<Package>)
    requires DistinctIndices(roster) && DistinctIdentities(roster)
    ensures var t := TriageOf(roster, packages);
            var after := WithAdded(roster, t.kept);
            Extends(after, roster, packages, t.added) && DistinctIdentities(after) && DistinctIndices(after)
  {
    BulkAddIsExact(roster, packages);
  }

  /**
   * Adding and merging: the answer reports exactly the added and the skipped positions, and one epoch
   * later the tree is the old one followed by exactly one leaf per reported addition, in order.
   */
  lemma AddMembersThenMerge(d: Device, op: Op, i: nat)
    requires op.AddMembers? && op.answer.Works? && op.serialise.Works? && Idle(d, op.name)
    requires DistinctIndices(d.groups[op.name].roster) && DistinctIdentities(d.groups[op.name].roster)
    requires i < |op.packages| && VerdictAt(d.groups[op.name].roster, op.packages, i) == Added
    ensures var g := d.groups[op.name];
            var r := AddMembersBulk(d, op.name, op.packages, op.secrets, op.answer, op.serialise).result;
            var e := Step(Step(d, op), Merge(op.name, Works));
            && r.Ok? && Reports(r.value.added, g.roster, op.packages, Added)
            && Reports(r.value.skipped, g.roster, op.packages, Skipped)
            && op.name in e.groups && e.groups[op.name].epoch == g.epoch + 1
            && e.groups[op.name].active && e.groups[op.name].secrets == op.secrets
            && Extends(e.groups[op.name].roster, g.roster, op.packages, r.value.added)
            && DistinctIdentities(e.groups[op.name].roster) && DistinctIndices(e.groups[op.name].roster)
  {
    var g := d.groups[op.name];
    AddStages(d, op, i);
    StagedMerges(Step(d, op), op.name, Commit(WithAdded(g.roster, TriageOf(g.roster, op.packages).kept), false, op.secrets));
    ReportedIsExtended(g.roster, op.packages);
  }

  /** Some package gets the verdict `v`. */
  predicate SomeIs(roster: seq<Leaf>, packages: seq<Package>, v: Verdict) {
    exists i :: 0 <= i < |packages| && VerdictAt(roster, packages, i) == v
  }

  lemma SomeIsListed(roster: seq<Leaf>, packages: seq<Package>, v: Verdict)
    ensures Positions(roster, packages, v, |packages|) != [] <==> SomeIs(roster, packages, v)
  {
    var p := Positions(roster, packages, v, |packages|);
    PositionsExact(roster, packages, v, |packages|);
    if p != [] {
      assert p[0] in p;
    }
    if SomeIs(roster, packages, v) {
      var i :| 0 <= i < |packages| && VerdictAt(roster, packages, i) == v;
      assert i in p;
    }
  }

  lemma TriageFinds(roster: seq<Leaf>, packages: seq<Package>)
    ensures var t := TriageOf(roster, packages);
            && (t.kept != [] <==> SomeIs(roster, packages, Added))
            && (t.anyAlreadyMember <==> SomeIs(roster, packages, AlreadyThere))
  {
    SomeIsListed(roster, packages, Added);
    SomeIsListed(roster, packages, AlreadyThere);
  }

  /** An addition succeeds exactly if something is new, the group is idle and the library works. */
  lemma AddAnswers(d: Device, op: Op)
    requires op.AddMembers? && op.name in d.groups
    ensures var roster := d.groups[op.name].roster;
            var r := AddMembersBulk(d, op.name, op.packages, op.secrets, op.answer, op.serialise).result;
            && (r.Ok? <==> SomeIs(roster, op.packages, Added) && Idle(d, op.name) && op.answer.Works? && op.serialise.Works?)
            && (r == Err(AlreadyMember) <==> !SomeIs(roster, op.packages, Added) && SomeIs(roster, op.packages, AlreadyThere))
            && (r == Err(MlsError.OpenMls(NothingToAdd)) <==>
                  !SomeIs(roster, op.packages, Added) && !SomeIs(roster, op.packages, AlreadyThere))
  {
    TriageFinds(d.groups[op.name].roster, op.packages);
  }

  // ---- Removing ----

  /** The leaves whose identity is not one of the named devices, in tree order. */
  function OtherDevices(roster: seq<Leaf>, devices: seq<string>): seq<Leaf> {
    if roster == [] then []
    else
      var rest := OtherDevices(roster[1..], devices);
      if exists k :: 0 <= k < |devices| && roster[0].credential == Basic(devices[k]) then rest else [roster[0]] + rest
  }

  lemma {:induction false} KeptAreOtherDevices(roster: seq<Leaf>, devices: seq<string>)
    ensures Kept(roster, NamesDevice(devices)) == OtherDevices(roster, devices)
  {
    if roster != [] {
      KeptAreOtherDevices(roster[1..], devices);
      if roster[0].credential.Basic? && roster[0].credential.identity in devices {
        var k :| 0 <= k < |devices| && devices[k] == roster[0].credential.identity;
        assert roster[0].credential == Basic(devices[k]);
      }
    }
  }

  /** Removing devices and merging leaves exactly the leaves of the other devices, one epoch later. */
  lemma RemoveDevicesThenMerge(d: Device, op: Op)
    requires op.RemoveDevices? && op.answer.Works? && Idle(d, op.name)
    requires DistinctIndices(d.groups[op.name].roster) && AllNamed(d.groups[op.name].roster)
    requires OtherDevices(d.groups[op.name].roster, op.devices) != d.groups[op.name].roster
    ensures var e := Step(Step(d, op), Merge(op.name, Works));
            && op.name in e.groups
            && e.groups[op.name].epoch == d.groups[op.name].epoch + 1
            && e.groups[op.name].roster == OtherDevices(d.groups[op.name].roster, op.devices)
            && e.groups[op.name].active == !op.evictsUs && e.groups[op.name].secrets == op.secrets
  {
    var g := d.groups[op.name];
    OtherDevicesAreStaged(g.roster, op.devices);
    var c := Commit(OtherDevices(g.roster, op.devices), op.evictsUs, op.secrets);
    assert Stage(g, c, op.answer) == Ok(g.(pending := OwnCommit(c)));
    var removed := RemoveWhere(d, op.name, NamesDevice(op.devices), op.evictsUs, op.secrets, op.answer, op.serialise);
    assert removed.device == Dirtied(Put(d, op.name, g.(pending := OwnCommit(c))));
  }

  lemma OtherDevicesAreStaged(roster: seq<Leaf>, devices: seq<string>)
    requires DistinctIndices(roster) && OtherDevices(roster, devices) != roster
    ensures SelectedIndices(roster, NamesDevice(devices)) != []
    ensures Without(roster, IndexSet(SelectedIndices(roster, NamesDevice(devices)))) == OtherDevices(roster, devices)
  {
    RemovalOfSelected(roster, NamesDevice(devices));
    KeptAreOtherDevices(roster, devices);
    WithoutNothing(roster);
    assert IndexSet([]) == {};
  }

  /** A removal succeeds exactly if it selects a leaf of a readable tree, the group is idle and the library works. */
  lemma RemoveAnswers(d: Device, name: string, matches: string -> bool, evictsUs: bool, secrets: nat, answer: Answer, serialise: Answer)
    requires name in d.groups && AllNamed(d.groups[name].roster)
    ensures var r := RemoveWhere(d, name, matches, evictsUs, secrets, answer, serialise).result;
            var someone := exists k :: 0 <= k < |d.groups[name].roster| && Selected(d.groups[name].roster[k], matches);
            && (r.Ok? <==> someone && Idle(d, name) && answer.Works? && serialise.Works?)
            && (r == Err(NoSuchMember) <==> !someone)
  {
    var roster := d.groups[name].roster;
    var gone := SelectedIndices(roster, matches);
    forall k | 0 <= k < |roster| && Selected(roster[k], matches) ensures gone != [] {
      SelectedIndicesMember(roster, matches, roster[k].index);
    }
    if gone != [] {
      assert gone[0] in gone;
      SelectedIndicesMember(roster, matches, gone[0]);
    }
  }

  /** One leaf without a readable identity stops every removal, with that leaf's error and no effect. */
  lemma UnreadableLeafStopsRemoval(d: Device, name: string, matches: string -> bool, evictsUs: bool, secrets: nat,
                                   answer: Answer, serialise: Answer, k: nat)
    requires name in d.groups && k < |d.groups[name].roster| && LeafIdentity(d.groups[name].roster[k]).Err?
    requires forall i :: 0 <= i < k ==> LeafIdentity(d.groups[name].roster[i]).Ok?
    ensures RemoveWhere(d, name, matches, evictsUs, secrets, answer, serialise) ==
            Outcome(d, Err(LeafIdentity(d.groups[name].roster[k]).error))
  {
    assert FirstUnnamed(d.groups[name].roster) == k;
  }

  // ---- Joining, creating, sending ----

  /** A Welcome is answered well if the group is held afterwards, and refused if nothing was joined. */
  lemma WelcomeAnswers(d: Device, w: Welcome)
    requires w.StagedWelcome?
    ensures var o := ProcessWelcome(d, w);
            var name := w.id.text;
            var kept := name in d.groups && !(w.epoch == 0 && d.groups[name].epoch > 0);
            var stale := name in d.floors && 0 < w.epoch < d.floors[name];
            && (o.result == Ok(name) <==> kept || (!stale && w.intoGroup.Works?))
            && (o.result.Ok? ==> name in o.device.groups) && (o.result.Err? ==> o.device.groups == d.groups)
            && (kept ==> o.device == d)
            && (o.result.Ok? && !kept ==>
                  var g := o.device.groups[name];
                  g.id == w.id && g.epoch == w.epoch && g.roster == w.roster && g.active && g.pending.NoPending? && g.sent == 0
                  && g.secrets == w.secrets)
            && (!kept && stale ==> o.result == Err(MlsError.OpenMls(StaleWelcome(w.epoch, d.floors[name]))))
            && (!kept && !stale && w.intoGroup.Fails? ==>
                  o.result == Err(MlsError.OpenMls(Library(IntoGroup, w.intoGroup.debug))))
  {
  }

  /** What cannot be read or staged is refused without a trace. */
  lemma BadWelcomeAnswers(d: Device, w: Welcome)
    requires !w.StagedWelcome?
    ensures ProcessWelcome(d, w) == Outcome(d, Err(
              if w.UnreadableWelcome? then InvalidData else MlsError.OpenMls(Library(StagingWelcome, w.debug))))
  {
  }

  /** An external join is answered well exactly if the group was not held and is held, waiting, one above its base. */
  lemma ExternalJoinAnswers(d: Device, i: GroupInfo)
    requires i.BuiltJoin?
    ensures var o := JoinByExternalCommit(d, i);
            && (o.result == Ok(i.id.text) <==> i.id.text !in d.groups && i.serialise.Works?)
            && (o.result.Ok? ==>
                  && o.device.groups.Keys == d.groups.Keys + {i.id.text}
                  && o.device.groups[i.id.text].epoch == i.base + 1 && o.device.groups[i.id.text].pending.ExternalJoin?
                  && o.device.groups[i.id.text].roster == i.roster && o.device.groups[i.id.text].active
                  && o.device.groups[i.id.text].secrets == i.secrets && o.device.groups[i.id.text].sent == 0)
            && (o.result.Err? ==> o.device.groups == d.groups)
            && (i.id.text in d.groups ==> o.result == Err(MlsError.OpenMls(AlreadyPresent(i.id.text))))
  {
  }

  /** A served base that cannot be read or built on is refused without a trace. */
  lemma BadBaseAnswers(d: Device, i: GroupInfo)
    requires !i.BuiltJoin?
    ensures JoinByExternalCommit(d, i) == Outcome(d, Err(
              if i.UnreadableInfo? then InvalidData else MlsError.OpenMls(Library(ExternalJoining, i.debug))))
  {
  }

  /** A creation is answered well exactly if nothing was stored under the name; the creator is then alone at epoch 0. */
  lemma CreateAnswers(d: Device, name: string, secrets: nat, answer: Answer)
    ensures var o := CreateGroup(d, name, secrets, answer);
            var taken := GroupKey(NamedId(name)) in d.storage;
            && (o.result.Ok? <==> !taken && answer.Works?)
            && (o.result.Ok? ==>
                  && name in o.device.groups && o.device.groups[name].epoch == 0 && o.device.groups[name].active
                  && o.device.groups[name].roster == [Leaf(0, Basic(d.identity.credential))]
                  && o.device.groups[name].pending.NoPending? && o.device.groups[name].secrets == secrets
                  && o.device.groups[name].sent == 0)
            && (taken ==> o.result == Err(MlsError.OpenMls(Library(Creation, ALREADY_EXISTS))))
            && (taken && Load(d.storage, NamedId(name)).Some? ==>
                  name in o.device.groups && Some(o.device.groups[name]) == Load(d.storage, NamedId(name)))
            && (!taken && answer.Fails? ==> o == Outcome(d, Err(MlsError.OpenMls(Library(Creation, answer.debug)))))
  {
  }

  /** A forced creation whose deletion works starts over: a new group at epoch 0 and no floor. */
  lemma ForceCreateStartsOver(d: Device, name: string, secrets: nat)
    requires GroupKey(NamedId(name)) in d.storage ==> d.storage[GroupKey(NamedId(name))].Record?
    ensures var o := ForceCreateGroup(d, name, Works, secrets, Works);
            && o.result.Ok? && name !in o.device.floors
            && o.device.groups == d.groups[name := FreshGroup(name, Basic(d.identity.credential), secrets)]
            && Load(o.device.storage, NamedId(name)) == Some(o.device.groups[name])
  {
  }

  /** A frame is handed out exactly if the group is held and active and both library calls work. */
  lemma SendAnswers(d: Device, name: string, answer: Answer, serialise: Answer)
    ensures var o := SendMessage(d, name, answer, serialise);
            && (o.result.Ok? <==> name in d.groups && d.groups[name].active && answer.Works? && serialise.Works?)
            && (name !in d.groups ==> o == Outcome(d, Err(GroupNotFound(name))))
            && (name in d.groups && !d.groups[name].active ==> o == Outcome(d, Err(Evicted(name))))
            && (name in d.groups && d.groups[name].active && answer.Fails? ==>
                  o == Outcome(d, Err(MlsError.OpenMls(Library(Encrypting, answer.debug)))))
            && (name in d.groups && d.groups[name].active && answer.Works? && serialise.Fails? ==>
                  o.result == Err(Serialization(serialise.debug)) && o.device != d)
  {
    if name in d.groups && d.groups[name].active && answer.Works? {
      assert SendMessage(d, name, answer, serialise).device.groups[name].sent == d.groups[name].sent + 1;
    }
  }

  /** A burn of nothing succeeds even for an unknown group; any other burn needs the group. */
  lemma BurnAnswers(d: Device, name: string, answers: seq<Answer>)
    ensures answers == [] ==> SkipSendGenerations(d, name, answers) == Outcome(d, Ok(0))
    ensures answers != [] && name !in d.groups ==>
              SkipSendGenerations(d, name, answers) == Outcome(d, Err(GroupNotFound(name)))
    ensures SkipSendGenerations(d, name, answers).result.Ok? <==>
              answers == [] || (name in d.groups && d.groups[name].active && forall i :: 0 <= i < |answers| ==> answers[i].Works?)
  {
  }

  /** Merging and clearing are answered well exactly if the library worked on a held group; a merge also needs it active. */
  lemma ResolveAnswers(d: Device, name: string, answer: Answer)
    ensures var m := MergePendingFor(d, name, answer);
            && (m.result.Ok? <==> name in d.groups && d.groups[name].active && answer.Works?)
            && (m.result.Err? ==> m.device == d)
            && (m.result.Ok? ==> name in m.device.groups && m.device.groups[name].pending.NoPending?)
    ensures var c := ClearPendingFor(d, name, answer);
            && (c.result.Ok? <==> name in d.groups && answer.Works?)
            && (c.result.Err? ==> c.device == d)
            && (c.result.Ok? ==> name in c.device.groups && !c.device.groups[name].pending.OwnCommit?)
  {
  }

  // ---- Loading ----

  /**
   * A state loads exactly if it decodes, belongs to this user and device, and its groups load; nobody
   * ever runs on another identity.
   */
  lemma LoadAnswers(user: string, device: string, blob: Blobs, clock: Option<nat>)
    ensures var r := LoadState(user, device, blob, clock);
            && (r.Ok? <==>
                  && blob.Decoded? && blob.snapshot.identity.credential == user + ":" + device
                  && (blob.snapshot.names == {} || blob.load.Works?))
            && (r.Ok? ==> r.value.identity == blob.snapshot.identity && r.value.identity.credential == user + ":" + device)
            && (blob.Undecodable? ==> r == Err(Serialization(blob.debug)))
            && (blob.OtherCredential? ==> r == Err(InvalidData))
            && (blob.Decoded? && blob.snapshot.identity.credential != user + ":" + device ==>
                  r == Err(MlsError.OpenMls(IdentityMismatch(user + ":" + device, blob.snapshot.identity.credential))))
            && (blob.Decoded? && blob.snapshot.identity.credential == user + ":" + device && r.Err? ==>
                  r == Err(MlsError.OpenMls(Library(LoadingGroup, blob.load.debug))))
  {
  }

  // ---- Key packages ----

  /** A minted package can be joined on, and the join uses it up unless it is the last resort. */
  lemma MintedPackageServesOnce(d: Device, hashRef: string, notAfter: nat, lastResort: bool, w: Welcome)
    requires w.StagedWelcome? && w.usedPackage == hashRef && w.intoGroup.Works?
    requires w.id.text !in d.groups && w.id.text !in d.floors
    ensures var o := BuildKeyPackage(d, hashRef, notAfter, lastResort, Minting(Works, Works, Works), Works);
            && o.result.Ok? && PackageKey(hashRef) in o.device.storage
            && o.device.storage[PackageKey(hashRef)] == Bundle(hashRef, notAfter, lastResort)
            && (PackageKey(hashRef) in ProcessWelcome(o.device, w).device.storage <==> lastResort)
  {
    assert PackageKey(hashRef).prefix.KeyPackageLabel? && GroupKey(w.id).prefix.GroupStateLabel?;
  }

  /** Minting succeeds exactly if all four calls do; before the bundle is stored a failure leaves no trace. */
  lemma MintAnswers(d: Device, hashRef: string, notAfter: nat, lastResort: bool, calls: Minting, serialise: Answer)
    ensures var o := BuildKeyPackage(d, hashRef, notAfter, lastResort, calls, serialise);
            var stored := calls.build.Works? && calls.hash.Works? && calls.write.Works?;
            && (o.result.Ok? <==> stored && serialise.Works?)
            && (!stored ==> o.device == d)
            && (stored ==> o.device.cache.dirty && PackageKey(hashRef) in o.device.storage)
  {
  }
}
