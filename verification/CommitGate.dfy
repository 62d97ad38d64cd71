/**
 * Many devices, one server: staged commits pass an epoch gate under a Redis lock before they are
 * merged. The gate keeps all settled devices on one line of commits exactly as long as the lock is
 * not lost under a request that may still write.
 */
module CommitGate {
  import opened Basics

  type DeviceId = nat
  type RequestId = nat

  /** An external commit is sent by a joiner that has no leaf yet. */
  datatype Commit = Commit(author: DeviceId, serial: nat, external: bool)

  /** A tree is the sequence of commits that built it; its length is its epoch. */
  type History = seq<Commit>

  datatype Client =
    | Absent
    | Member(history: History, pending: Option<Commit>)
    // An external joiner: its instance already ends with its own commit.
    | Joining(history: History)

  datatype Slot = Slot(client: Client, waiting: Option<RequestId>)

  datatype Phase = Sent | Locked | Passed | Closing(accepted: bool)

  /** `nextBase` is the GroupInfo an external joiner sends along for the epoch its commit creates. */
  datatype Request = Request(device: DeviceId, base: nat, id: Commit, nextBase: Option<History>, phase: Phase)

  datatype Server = Server(
    active: nat,                            // the group's activeEpoch
    log: map<nat, Commit>,                  // commit log, unique per base epoch
    lock: Option<DeviceId>,                 // mls:commitlock, holding the device id
    requests: map<RequestId, Request>,
    replies: map<RequestId, bool>,
    used: set<RequestId>,
    sent: set<(nat, Commit)>,               // commits fanned out
    info: History,                          // published external-join base
    welcomes: set<History>)                 // trees for which a Welcome was sent

  /** `past`: every state a device ever had, any of which a snapshot on disk may hold. */
  datatype World = World(server: Server, slots: map<DeviceId, Slot>, past: map<DeviceId, set<Client>>)

  datatype Step =
    | Stage(device: DeviceId, serial: nat)
    | Submit(device: DeviceId, request: RequestId)
    | Begin(request: RequestId)
    | Check(request: RequestId)
    | Write(request: RequestId)
    | Abort(request: RequestId)
    | Unlock(request: RequestId)
    | Crash(request: RequestId)
    | Expire
    | Answered(device: DeviceId)
    | GaveUp(device: DeviceId)
    | Clear(device: DeviceId)
    | Receive(device: DeviceId, base: nat, id: Commit)
    | Publish(device: DeviceId)
    | Invite(device: DeviceId)
    | Welcome(device: DeviceId, tree: History)
    | JoinExternally(device: DeviceId, serial: nat, base: nat)
    | Leftover(device: DeviceId, serial: nat, base: nat)   // an external join that fails after writing its instance
    | Forget(device: DeviceId)
    | Restart(device: DeviceId, saved: Client)

  // ---- Device steps ----

  function SlotOf(w: World, d: DeviceId): Slot {
    if d in w.slots then w.slots[d] else Slot(Absent, None)
  }

  function ClientOf(w: World, d: DeviceId): Client {
    SlotOf(w, d).client
  }

  function PastOf(w: World, d: DeviceId): set<Client> {
    if d in w.past then w.past[d] else {}
  }

  function Put(w: World, d: DeviceId, s: Slot): World {
    w.(slots := w.slots[d := s], past := w.past[d := PastOf(w, d) + {s.client}])
  }

  function StageCommit(s: Slot, id: Commit): Slot {
    if s.client.Member? && s.client.pending.None? && s.waiting.None?
    then s.(client := s.client.(pending := Some(id))) else s
  }

  /** What a device submits: its staged commit, or the external commit its instance already holds. */
  function Submission(d: DeviceId, s: Slot): Option<Request> {
    if s.waiting.Some? then None
    else match s.client
      case Member(h, Some(id)) => Some(Request(d, |h|, id, None, Sent))
      case Joining(h) => if h == [] then None else Some(Request(d, |h| - 1, h[|h| - 1], Some(h), Sent))
      case _ => None
  }

  /** Merge on accept; on reject clear a staged commit, forget an external join. */
  function HandleAnswer(sv: Server, s: Slot): Slot {
    if s.waiting.None? || s.waiting.value !in sv.replies then s
    else
      var accepted := sv.replies[s.waiting.value];
      match s.client
      case Absent => Slot(Absent, None)
      case Member(h, pending) =>
        Slot(Member(if accepted && pending.Some? then h + [pending.value] else h, None), None)
      case Joining(h) => Slot(if accepted then Member(h, None) else Absent, None)
  }

  /** A transport failure: the staged commit stays staged, an external join is forgotten. */
  function GiveUp(s: Slot): Slot {
    if s.waiting.None? then s else Slot(if s.client.Joining? then Absent else s.client, None)
  }

  function ClearStaged(s: Slot): Slot {
    if s.client.Member? && s.waiting.None? then s.(client := s.client.(pending := None)) else s
  }

  /** Commits reach a device by the fan-out or by a replay of the log. */
  predicate Served(sv: Server, base: nat, id: Commit) {
    (base, id) in sv.sent || (base in sv.log && sv.log[base] == id)
  }

  /** The library will not process a commit this device sent as a member. */
  predicate Own(d: DeviceId, id: Commit) {
    id.author == d && !id.external
  }

  /** `h` is the accepted log up to its own length. */
  predicate OnLog(sv: Server, h: History) {
    |h| <= sv.active && forall e :: 0 <= e < |h| ==> e in sv.log && h[e] == sv.log[e]
  }

  /**
   * A delivered commit applies exactly at its base epoch and if it is another device's; ahead is a
   * gap, behind is stale. An external joiner applies it only if its own tree is the one it was built
   * on, and is settled by it.
   */
  function ReceiveCommit(sv: Server, d: DeviceId, s: Slot, base: nat, id: Commit): Slot {
    if !Served(sv, base, id) || Own(d, id) then s
    else match s.client
      case Absent => s
      case Member(h, _) =>
        // The device holds its MLS mutex from staging to merge, so it handles no frame meanwhile.
        if base == |h| && s.waiting.None? then Slot(Member(h + [id], None), None) else s
      case Joining(h) =>
        if base == |h| && OnLog(sv, h) then Slot(Member(h + [id], None), None) else s
  }

  /** A held group is replaced by a Welcome only from epoch 0, and only once it has moved. */
  function JoinByWelcome(sv: Server, s: Slot, tree: History): Slot {
    if tree !in sv.welcomes then s
    else if s.client.Absent? || (tree == [] && |s.client.history| > 0) then Slot(Member(tree, None), None)
    else s
  }

  /** The base was served some time before it is used: it is the published one or an older one. */
  function ExternalInstance(sv: Server, d: DeviceId, serial: nat, base: nat): Client {
    var served := if base <= |sv.info| then sv.info[..base] else sv.info;
    Joining(served + [Commit(d, serial, true)])
  }

  function BuildExternalJoin(sv: Server, d: DeviceId, s: Slot, serial: nat, base: nat): Slot {
    if s.client.Absent? then Slot(ExternalInstance(sv, d, serial, base), None) else s
  }

  // ---- Server steps, in the order of `validateCommit` ----

  function SetPhase(sv: Server, r: RequestId, p: Phase): Server
    requires r in sv.requests
  {
    sv.(requests := sv.requests[r := sv.requests[r].(phase := p)])
  }

  function Enqueue(sv: Server, r: RequestId, q: Request): Server {
    sv.(requests := sv.requests[r := q], used := sv.used + {r})
  }

  /** `SET lock device NX`: a busy lock rejects at once. */
  function BeginRequest(sv: Server, r: RequestId): Server {
    if r !in sv.requests || sv.requests[r].phase != Sent then sv
    else if sv.lock.None? then SetPhase(sv, r, Locked).(lock := Some(sv.requests[r].device))
    else sv.(requests := sv.requests - {r}, replies := sv.replies[r := false])
  }

  function CheckEpoch(sv: Server, r: RequestId): Server {
    if r !in sv.requests || sv.requests[r].phase != Locked then sv
    else SetPhase(sv, r, if sv.requests[r].base == sv.active then Passed else Closing(false))
  }

  /** One transaction: the epoch, the base and the log row; then the fan-out. */
  function WriteCommit(sv: Server, r: RequestId): Server {
    if r !in sv.requests || sv.requests[r].phase != Passed then sv
    else
      var q := sv.requests[r];
      SetPhase(sv, r, Closing(true)).(
        active := q.base + 1,
        log := if q.base in sv.log then sv.log else sv.log[q.base := q.id],
        sent := sv.sent + {(q.base, q.id)},
        info := if q.nextBase.Some? && |q.nextBase.value| > |sv.info| then q.nextBase.value else sv.info)
  }

  /** Lua release: only if the lock still holds this device's id. */
  function Released(sv: Server, r: RequestId): Server
    requires r in sv.requests
  {
    if sv.lock == Some(sv.requests[r].device) then sv.(lock := None) else sv
  }

  /** Anything after the lock was taken throws: the lock is released and the caller gets no answer. */
  function AbortRequest(sv: Server, r: RequestId): Server {
    if r !in sv.requests || sv.requests[r].phase == Sent then sv
    else Released(sv, r).(requests := sv.requests - {r})
  }

  function UnlockAndReply(sv: Server, r: RequestId): Server {
    if r !in sv.requests || !sv.requests[r].phase.Closing? then sv
    else Released(sv, r).(requests := sv.requests - {r}, replies := sv.replies[r := sv.requests[r].phase.accepted])
  }

  /** A refreshed base is stored only if it is newer. */
  function PublishInfo(sv: Server, c: Client): Server {
    if c.Member? && |c.history| > |sv.info| then sv.(info := c.history) else sv
  }

  function SendWelcome(sv: Server, c: Client): Server {
    if c.Member? then sv.(welcomes := sv.welcomes + {c.history}) else sv
  }

  // ---- Runs ----

  predicate OfServer(s: Step) {
    s.Begin? || s.Check? || s.Write? || s.Abort? || s.Unlock? || s.Crash? || s.Expire? || s.Publish? || s.Invite?
  }

  function ServerAfter(sv: Server, s: Step, member: Client): Server
    requires OfServer(s)
  {
    match s
    case Begin(r) => BeginRequest(sv, r)
    case Check(r) => CheckEpoch(sv, r)
    case Write(r) => WriteCommit(sv, r)
    case Abort(r) => AbortRequest(sv, r)
    case Unlock(r) => UnlockAndReply(sv, r)
    case Crash(r) => sv.(requests := sv.requests - {r})
    case Expire => sv.(lock := None)
    case Publish(_) => PublishInfo(sv, member)
    case Invite(_) => SendWelcome(sv, member)
  }

  function SlotAfter(sv: Server, slot: Slot, s: Step, past: set<Client>): Slot
    requires !OfServer(s) && !s.Submit? && !s.Leftover?
  {
    match s
    case Stage(d, serial) => StageCommit(slot, Commit(d, serial, false))
    case Answered(_) => HandleAnswer(sv, slot)
    case GaveUp(_) => GiveUp(slot)
    case Clear(_) => ClearStaged(slot)
    case Receive(d, base, id) => ReceiveCommit(sv, d, slot, base, id)
    case Welcome(_, tree) => JoinByWelcome(sv, slot, tree)
    case JoinExternally(d, serial, base) => BuildExternalJoin(sv, d, slot, serial, base)
    case Forget(_) => Slot(Absent, None)
    case Restart(_, saved) => if saved in past then Slot(saved, None) else slot
  }

  function Submitted(w: World, d: DeviceId, r: RequestId): World {
    var q := Submission(d, SlotOf(w, d));
    if q.None? || r in w.server.used then w
    else w.(server := Enqueue(w.server, r, q.value), slots := w.slots[d := SlotOf(w, d).(waiting := Some(r))])
  }

  function LeftBehind(w: World, d: DeviceId, serial: nat, base: nat): World {
    w.(past := w.past[d := PastOf(w, d) + {ExternalInstance(w.server, d, serial, base)}])
  }

  function Next(w: World, s: Step): World {
    if OfServer(s) then
      w.(server := ServerAfter(w.server, s, if s.Publish? || s.Invite? then ClientOf(w, s.device) else Absent))
    else if s.Submit? then Submitted(w, s.device, s.request)
    else if s.Leftover? then LeftBehind(w, s.device, s.serial, s.base)
    else Put(w, s.device, SlotAfter(w.server, SlotOf(w, s.device), s, PastOf(w, s.device)))
  }

  /** One device has just created the group. */
  function Start(creator: DeviceId): World {
    World(Server(0, map[], None, map[], map[], {}, {}, [], {}),
      map[creator := Slot(Member([], None), None)], map[creator := {Member([], None)}])
  }

  function Run(w: World, steps: seq<Step>): World
    decreases |steps|
  {
    if steps == [] then w else Run(Next(w, steps[0]), steps[1..])
  }

  // ---- What the lock must not do ----

  /** The request may still write: it has passed the epoch check, or will. */
  predicate Live(sv: Server, r: RequestId) {
    && r in sv.requests
    && (sv.requests[r].phase == Passed || (sv.requests[r].phase == Locked && sv.requests[r].base == sv.active))
  }

  /** The request `r`, once it ends, releases the lock of a live request of the same device. */
  predicate Steals(sv: Server, r: RequestId, q: RequestId) {
    && r in sv.requests && sv.requests[r].phase != Sent
    && q != r && Live(sv, q) && sv.requests[q].device == sv.requests[r].device
  }

  /** The step does not take the lock away from a request that may still write. */
  ghost predicate Allowed(sv: Server, s: Step) {
    match s
    case Expire => forall r :: !Live(sv, r)
    case Unlock(r) => r in sv.requests && sv.requests[r].phase.Closing? ==> forall q :: !Steals(sv, r, q)
    case Abort(r) => forall q :: !Steals(sv, r, q)
    case _ => true
  }

  ghost predicate Disciplined(w: World, steps: seq<Step>)
    decreases |steps|
  {
    steps == [] || (Allowed(w.server, steps[0]) && Disciplined(Next(w, steps[0]), steps[1..]))
  }

  // ---- The invariant ----

  ghost predicate LogComplete(sv: Server) {
    forall e :: 0 <= e < sv.active <==> e in sv.log
  }

  /** Whoever may still write holds the lock, alone, and has seen the current epoch. */
  ghost predicate GateExclusive(sv: Server) {
    && (forall r :: Live(sv, r) ==> sv.lock == Some(sv.requests[r].device))
    && (forall r, q :: Live(sv, r) && Live(sv, q) ==> r == q)
    && (forall r :: r in sv.requests && sv.requests[r].phase == Passed ==> sv.requests[r].base == sv.active)
  }

  ghost predicate OnlyLogIsSent(sv: Server) {
    forall m :: m in sv.sent ==> m.0 in sv.log && sv.log[m.0] == m.1
  }

  /** Request ids are used once, and a request is either open or answered. */
  ghost predicate IdsSound(sv: Server) {
    && (forall r :: r in sv.requests || r in sv.replies ==> r in sv.used)
    && (forall r :: r in sv.requests ==> r !in sv.replies)
  }

  ghost predicate RequestSound(sv: Server, q: Request) {
    && q.base <= sv.active
    && (q.nextBase.Some? ==>
          && |q.nextBase.value| == q.base + 1
          && q.nextBase.value[q.base] == q.id
          && OnLog(sv, q.nextBase.value[..q.base]))
  }

  ghost predicate ServerSound(sv: Server) {
    && LogComplete(sv) && GateExclusive(sv) && OnlyLogIsSent(sv) && OnLog(sv, sv.info) && IdsSound(sv)
    && (forall r :: r in sv.requests ==> RequestSound(sv, sv.requests[r]))
    && forall h :: h in sv.welcomes ==> OnLog(sv, h)
  }

  /** The request was, or is about to be, answered with an acceptance. */
  predicate Accepted(sv: Server, r: RequestId) {
    (r in sv.requests && sv.requests[r].phase == Closing(true)) || (r in sv.replies && sv.replies[r])
  }

  /** The open request `r`, if any, is the one for commit `id` at epoch `base`. */
  predicate Asks(sv: Server, r: RequestId, base: nat, id: Commit) {
    r in sv.requests ==> sv.requests[r].base == base && sv.requests[r].id == id
  }

  ghost predicate SlotSound(sv: Server, s: Slot) {
    match s.client
    case Absent => true
    case Member(h, pending) =>
      && OnLog(sv, h)
      && (s.waiting.Some? ==>
            && pending.Some? && Asks(sv, s.waiting.value, |h|, pending.value)
            && (Accepted(sv, s.waiting.value) ==> OnLog(sv, h + [pending.value])))
    case Joining(h) =>
      && h != [] && OnLog(sv, h[..|h| - 1])
      && (s.waiting.Some? ==>
            && Asks(sv, s.waiting.value, |h| - 1, h[|h| - 1])
            && (Accepted(sv, s.waiting.value) ==> OnLog(sv, h)))
  }

  ghost predicate Sound(w: World) {
    && ServerSound(w.server)
    && (forall d :: d in w.slots && w.slots[d].waiting.Some? ==> w.slots[d].waiting.value in w.server.used)
    && (forall d :: d in w.slots ==> SlotSound(w.server, w.slots[d]))
    && (forall d, c :: d in w.past && c in w.past[d] ==> SlotSound(w.server, Slot(c, None)))
  }

  // ---- Device steps keep it ----

  lemma PutKeepsSound(w: World, d: DeviceId, s: Slot)
    requires Sound(w) && SlotSound(w.server, s)
    requires s.waiting.None? || s.waiting == SlotOf(w, d).waiting
    ensures Sound(Put(w, d, s))
  {
    assert SlotSound(w.server, Slot(s.client, None));
  }

  lemma ReceiveKeepsSlot(sv: Server, d: DeviceId, s: Slot, base: nat, id: Commit)
    requires ServerSound(sv) && SlotSound(sv, s)
    ensures SlotSound(sv, ReceiveCommit(sv, d, s, base, id))
  {
    if Served(sv, base, id) {
      assert base in sv.log && sv.log[base] == id by { assert (base, id).0 == base; }
    }
  }

  lemma JoinKeepsSlot(sv: Server, d: DeviceId, s: Slot, tree: History, serial: nat, base: nat)
    requires ServerSound(sv) && SlotSound(sv, s)
    ensures SlotSound(sv, JoinByWelcome(sv, s, tree))
    ensures SlotSound(sv, BuildExternalJoin(sv, d, s, serial, base))
    ensures SlotSound(sv, Slot(ExternalInstance(sv, d, serial, base), None))
  {
    var served := if base <= |sv.info| then sv.info[..base] else sv.info;
    assert (served + [Commit(d, serial, true)])[..|served|] == served;
  }

  lemma LocalKeepsSlot(sv: Server, s: Slot, id: Commit)
    requires SlotSound(sv, s)
    ensures SlotSound(sv, StageCommit(s, id)) && SlotSound(sv, ClearStaged(s)) && SlotSound(sv, GiveUp(s))
    ensures SlotSound(sv, HandleAnswer(sv, s))
  {
  }

  lemma SlotStep(sv: Server, slot: Slot, s: Step, past: set<Client>)
    requires ServerSound(sv) && SlotSound(sv, slot) && forall c :: c in past ==> SlotSound(sv, Slot(c, None))
    requires !OfServer(s) && !s.Submit? && !s.Leftover?
    ensures var v := SlotAfter(sv, slot, s, past);
            SlotSound(sv, v) && (v.waiting.None? || v.waiting == slot.waiting)
  {
    match s
    case Receive(d, base, id) => ReceiveKeepsSlot(sv, d, slot, base, id);
    case Welcome(d, tree) => JoinKeepsSlot(sv, d, slot, tree, 0, 0);
    case JoinExternally(d, serial, base) => JoinKeepsSlot(sv, d, slot, [], serial, base);
    case Stage(d, serial) => LocalKeepsSlot(sv, slot, Commit(d, serial, false));
    case Restart(_, saved) =>
    case Forget(_) =>
    case Answered(d) => LocalKeepsSlot(sv, slot, Commit(d, 0, false));
    case GaveUp(d) => LocalKeepsSlot(sv, slot, Commit(d, 0, false));
    case Clear(d) => LocalKeepsSlot(sv, slot, Commit(d, 0, false));
  }

  // ---- Submitting keeps it ----

  /** The log of `v` is the log of `sv`, possibly longer. */
  ghost predicate LogExtends(sv: Server, v: Server) {
    sv.active <= v.active && forall e :: e in sv.log ==> e in v.log && v.log[e] == sv.log[e]
  }

  /** A slot stays sound when the log grows and its own request is not newly accepted. */
  lemma SlotFrame(sv: Server, v: Server, s: Slot)
    requires SlotSound(sv, s) && LogExtends(sv, v)
    requires s.waiting.Some? ==>
               var r := s.waiting.value;
               && (r in v.requests ==>
                     r in sv.requests && v.requests[r].base == sv.requests[r].base && v.requests[r].id == sv.requests[r].id)
               && (Accepted(v, r) ==> Accepted(sv, r))
    ensures SlotSound(v, s)
  {
  }

  /** Queueing a request that has not begun leaves the gate as it was. */
  lemma EnqueueKeepsServerSound(sv: Server, r: RequestId, q: Request)
    requires ServerSound(sv) && r !in sv.used && q.phase == Sent && RequestSound(sv, q)
    ensures ServerSound(Enqueue(sv, r, q))
  {
    var v := Enqueue(sv, r, q);
    assert forall k :: Live(v, k) <==> Live(sv, k);
    forall k | k in v.requests ensures RequestSound(v, v.requests[k]) {
      assert RequestSound(sv, if k == r then q else sv.requests[k]);
    }
  }

  lemma SubmissionIsSound(sv: Server, d: DeviceId, s: Slot, r: RequestId)
    requires ServerSound(sv) && SlotSound(sv, s) && Submission(d, s).Some? && r !in sv.used
    ensures var q := Submission(d, s).value;
            q.phase == Sent && RequestSound(sv, q) && SlotSound(Enqueue(sv, r, q), s.(waiting := Some(r)))
  {
    var v := Enqueue(sv, r, Submission(d, s).value);
    SlotFrame(sv, v, s);
    assert !Accepted(v, r);
  }

  lemma SubmitKeepsSound(w: World, d: DeviceId, r: RequestId)
    requires Sound(w)
    ensures Sound(Submitted(w, d, r))
  {
    var s, sv := SlotOf(w, d), w.server;
    if Submission(d, s).Some? && r !in sv.used {
      assert d in w.slots && SlotSound(sv, s);
      var q := Submission(d, s).value;
      SubmissionIsSound(sv, d, s, r);
      EnqueueKeepsServerSound(sv, r, q);
      var v := Enqueue(sv, r, q);
      forall e | e in w.slots && e != d ensures SlotSound(v, w.slots[e]) {
        SlotFrame(sv, v, w.slots[e]);
      }
      forall e, c | e in w.past && c in w.past[e] ensures SlotSound(v, Slot(c, None)) {
        SlotFrame(sv, v, Slot(c, None));
      }
    }
  }

  // ---- Server steps keep it ----

  lemma ServerKeepsSound(w: World, v: Server)
    requires Sound(w) && ServerSound(v) && v.used == w.server.used
    requires forall s :: SlotSound(w.server, s) ==> SlotSound(v, s)
    ensures Sound(w.(server := v))
  {
  }

  /** Nothing but request `r`, its reply and the lock differ. */
  ghost predicate OnlyRequestMoved(sv: Server, v: Server, r: RequestId) {
    && v == sv.(lock := v.lock, requests := v.requests, replies := v.replies)
    && (forall k :: k != r ==> (k in v.requests <==> k in sv.requests) && (k in v.replies <==> k in sv.replies))
    && (forall k :: k in v.requests && k != r ==> v.requests[k] == sv.requests[k])
    && (forall k :: k in v.replies && k != r ==> v.replies[k] == sv.replies[k])
  }

  lemma DecidingKeeps(sv: Server, v: Server, r: RequestId)
    requires ServerSound(sv) && r in sv.requests && OnlyRequestMoved(sv, v, r)
    requires r in v.requests ==> r !in v.replies && v.requests[r] == sv.requests[r].(phase := v.requests[r].phase)
    requires Accepted(v, r) ==> Accepted(sv, r)
    requires GateExclusive(v)
    ensures ServerSound(v)
    ensures forall s :: SlotSound(sv, s) ==> SlotSound(v, s)
  {
    forall k | k in v.requests ensures RequestSound(v, v.requests[k]) {
      assert RequestSound(sv, sv.requests[k]);
    }
    forall s | SlotSound(sv, s) ensures SlotSound(v, s) {
      SlotFrame(sv, v, s);
    }
  }

  lemma EntersAlone(sv: Server, r: RequestId)
    requires ServerSound(sv) && r in sv.requests && sv.requests[r].phase == Sent && sv.lock.None?
    ensures var v := SetPhase(sv, r, Locked).(lock := Some(sv.requests[r].device));
            ServerSound(v) && forall s :: SlotSound(sv, s) ==> SlotSound(v, s)
  {
    var v := SetPhase(sv, r, Locked).(lock := Some(sv.requests[r].device));
    assert forall k :: Live(v, k) ==> k == r || Live(sv, k);
    DecidingKeeps(sv, v, r);
  }

  lemma TurnedAway(sv: Server, r: RequestId)
    requires ServerSound(sv) && r in sv.requests && sv.requests[r].phase == Sent
    ensures var v := sv.(requests := sv.requests - {r}, replies := sv.replies[r := false]);
            ServerSound(v) && forall s :: SlotSound(sv, s) ==> SlotSound(v, s)
  {
    var v := sv.(requests := sv.requests - {r}, replies := sv.replies[r := false]);
    assert forall k :: Live(v, k) ==> Live(sv, k);
    DecidingKeeps(sv, v, r);
  }

  lemma BeginKeeps(sv: Server, r: RequestId)
    requires ServerSound(sv)
    ensures var v := BeginRequest(sv, r); ServerSound(v) && forall s :: SlotSound(sv, s) ==> SlotSound(v, s)
  {
    if r in sv.requests && sv.requests[r].phase == Sent {
      if sv.lock.None? { EntersAlone(sv, r); } else { TurnedAway(sv, r); }
    }
  }

  lemma CheckKeeps(sv: Server, r: RequestId)
    requires ServerSound(sv)
    ensures var v := CheckEpoch(sv, r); ServerSound(v) && forall s :: SlotSound(sv, s) ==> SlotSound(v, s)
  {
    var v := CheckEpoch(sv, r);
    if r in sv.requests && sv.requests[r].phase == Locked {
      assert forall k :: Live(v, k) <==> Live(sv, k);
      DecidingKeeps(sv, v, r);
    }
  }

  lemma AbortKeeps(sv: Server, r: RequestId)
    requires ServerSound(sv) && Allowed(sv, Abort(r))
    ensures var v := AbortRequest(sv, r); ServerSound(v) && forall s :: SlotSound(sv, s) ==> SlotSound(v, s)
  {
    var v := AbortRequest(sv, r);
    if r in sv.requests && sv.requests[r].phase != Sent {
      assert forall k :: Live(v, k) ==> Live(sv, k) && k != r && !Steals(sv, r, k);
      DecidingKeeps(sv, v, r);
    }
  }

  lemma UnlockKeeps(sv: Server, r: RequestId)
    requires ServerSound(sv) && Allowed(sv, Unlock(r))
    ensures var v := UnlockAndReply(sv, r); ServerSound(v) && forall s :: SlotSound(sv, s) ==> SlotSound(v, s)
  {
    var v := UnlockAndReply(sv, r);
    if r in sv.requests && sv.requests[r].phase.Closing? {
      assert forall k :: Live(v, k) ==> Live(sv, k) && k != r && !Steals(sv, r, k);
      DecidingKeeps(sv, v, r);
    }
  }

  lemma CrashKeeps(sv: Server, r: RequestId)
    requires ServerSound(sv)
    ensures var v := sv.(requests := sv.requests - {r}); ServerSound(v) && forall s :: SlotSound(sv, s) ==> SlotSound(v, s)
  {
    var v := sv.(requests := sv.requests - {r});
    if r in sv.requests {
      assert forall k :: Live(v, k) ==> Live(sv, k);
      DecidingKeeps(sv, v, r);
    } else {
      assert v == sv;
    }
  }

  /** Steps that touch neither the log nor any request. */
  lemma RestKeeps(sv: Server, v: Server)
    requires ServerSound(sv) && v == sv.(lock := v.lock, info := v.info, welcomes := v.welcomes)
    requires v.lock != sv.lock ==> forall r :: !Live(sv, r)
    requires OnLog(sv, v.info) && forall h :: h in v.welcomes ==> OnLog(sv, h)
    ensures ServerSound(v) && forall s :: SlotSound(sv, s) ==> SlotSound(v, s)
  {
    assert forall r :: Live(v, r) <==> Live(sv, r);
    forall r | r in v.requests ensures RequestSound(v, v.requests[r]) {
      assert RequestSound(sv, sv.requests[r]);
    }
    forall s | SlotSound(sv, s) ensures SlotSound(v, s) {
      SlotFrame(sv, v, s);
    }
  }

  /** The accepted commit takes the one free log position. */
  lemma WriteAppends(sv: Server, r: RequestId)
    requires ServerSound(sv) && r in sv.requests && sv.requests[r].phase == Passed
    ensures var v := WriteCommit(sv, r);
            && sv.requests[r].base == sv.active && sv.active !in sv.log
            && v.active == sv.active + 1 && v.log == sv.log[sv.active := sv.requests[r].id]
            && LogComplete(v) && LogExtends(sv, v) && OnlyLogIsSent(v)
  {
  }

  /** Everyone else who was on the way is now behind. */
  lemma WriteEndsTheRace(sv: Server, r: RequestId)
    requires ServerSound(sv) && r in sv.requests && sv.requests[r].phase == Passed
    ensures forall k :: !Live(WriteCommit(sv, r), k)
    ensures GateExclusive(WriteCommit(sv, r))
  {
    var v := WriteCommit(sv, r);
    assert Live(sv, r);
    forall k ensures !Live(v, k) {
      if k in sv.requests { assert RequestSound(sv, sv.requests[k]); }
      assert k != r ==> !Live(sv, k);
    }
    assert forall k :: k in v.requests && v.requests[k].phase == Passed ==> Live(v, k);
  }

  lemma OnLogStays(sv: Server, v: Server, h: History)
    requires LogExtends(sv, v) && OnLog(sv, h)
    ensures OnLog(v, h)
  {
  }

  lemma OnLogEnds(sv: Server, v: Server, h: History, id: Commit)
    requires OnLog(sv, h) && |h| == sv.active && v.active == sv.active + 1 && v.log == sv.log[sv.active := id]
    ensures OnLog(v, h + [id])
  {
  }

  lemma WriteKeepsServerSound(sv: Server, r: RequestId)
    requires ServerSound(sv) && r in sv.requests && sv.requests[r].phase == Passed
    ensures ServerSound(WriteCommit(sv, r))
  {
    var q, v := sv.requests[r], WriteCommit(sv, r);
    WriteAppends(sv, r);
    WriteEndsTheRace(sv, r);
    forall k | k in v.requests ensures RequestSound(v, v.requests[k]) {
      assert RequestSound(sv, sv.requests[k]);
    }
    if q.nextBase.Some? {
      var h := q.nextBase.value;
      assert RequestSound(sv, q) && h == h[..q.base] + [q.id];
      OnLogEnds(sv, v, h[..q.base], q.id);
    }
  }

  /** An accepted external join publishes the base of the epoch it created, so the next joiner is not locked out. */
  lemma ExternalCommitPublishesItsBase(sv: Server, r: RequestId)
    requires ServerSound(sv) && r in sv.requests && sv.requests[r].phase == Passed && sv.requests[r].nextBase.Some?
    ensures var v := WriteCommit(sv, r); |v.info| == v.active && OnLog(v, v.info)
  {
    assert RequestSound(sv, sv.requests[r]);
    WriteAppends(sv, r);
    WriteKeepsServerSound(sv, r);
  }

  /** The winner's slot now holds an accepted answer that the log confirms. */
  lemma WinnersSlot(sv: Server, r: RequestId, s: Slot)
    requires ServerSound(sv) && r in sv.requests && sv.requests[r].phase == Passed
    requires SlotSound(sv, s) && s.waiting == Some(r)
    ensures SlotSound(WriteCommit(sv, r), s)
  {
    var v, q := WriteCommit(sv, r), sv.requests[r];
    WriteAppends(sv, r);
    match s.client
    case Absent =>
    case Member(h, pending) =>
      OnLogStays(sv, v, h);
      OnLogEnds(sv, v, h, q.id);
    case Joining(h) =>
      var front := h[..|h| - 1];
      assert h == front + [q.id];
      OnLogStays(sv, v, front);
      OnLogEnds(sv, v, front, q.id);
  }

  lemma WriteKeeps(sv: Server, r: RequestId)
    requires ServerSound(sv)
    ensures var v := WriteCommit(sv, r); ServerSound(v) && forall s :: SlotSound(sv, s) ==> SlotSound(v, s)
  {
    if r in sv.requests && sv.requests[r].phase == Passed {
      WriteAppends(sv, r);
      WriteKeepsServerSound(sv, r);
      forall s | SlotSound(sv, s) ensures SlotSound(WriteCommit(sv, r), s) {
        if s.waiting == Some(r) { WinnersSlot(sv, r, s); } else { SlotFrame(sv, WriteCommit(sv, r), s); }
      }
    }
  }

  lemma RequestStep(sv: Server, s: Step)
    requires ServerSound(sv) && Allowed(sv, s) && (s.Begin? || s.Check? || s.Abort? || s.Unlock? || s.Crash?)
    ensures var v := ServerAfter(sv, s, Absent);
            v.used == sv.used && ServerSound(v) && forall x :: SlotSound(sv, x) ==> SlotSound(v, x)
  {
    match s
    case Begin(r) => BeginKeeps(sv, r);
    case Check(r) => CheckKeeps(sv, r);
    case Abort(r) => AbortKeeps(sv, r);
    case Unlock(r) => UnlockKeeps(sv, r);
    case Crash(r) => CrashKeeps(sv, r);
  }

  lemma ServerStep(sv: Server, s: Step, member: Client)
    requires ServerSound(sv) && SlotSound(sv, Slot(member, None)) && OfServer(s) && Allowed(sv, s)
    ensures var v := ServerAfter(sv, s, member);
            v.used == sv.used && ServerSound(v) && forall x :: SlotSound(sv, x) ==> SlotSound(v, x)
  {
    if s.Write? {
      WriteKeeps(sv, s.request);
    } else if s.Expire? {
      RestKeeps(sv, sv.(lock := None));
    } else if s.Publish? {
      RestKeeps(sv, PublishInfo(sv, member));
    } else if s.Invite? {
      RestKeeps(sv, SendWelcome(sv, member));
    } else {
      RequestStep(sv, s);
    }
  }

  lemma SoundStep(w: World, s: Step)
    requires Sound(w) && Allowed(w.server, s)
    ensures Sound(Next(w, s))
  {
    var sv := w.server;
    if OfServer(s) {
      var member := if s.Publish? || s.Invite? then ClientOf(w, s.device) else Absent;
      assert s.Publish? || s.Invite? ==> SlotSound(sv, SlotOf(w, s.device));
      ServerStep(sv, s, member);
      ServerKeepsSound(w, ServerAfter(sv, s, member));
    } else if s.Submit? {
      SubmitKeepsSound(w, s.device, s.request);
    } else if s.Leftover? {
      JoinKeepsSlot(sv, s.device, Slot(Absent, None), [], s.serial, s.base);
    } else {
      assert SlotSound(sv, SlotOf(w, s.device));
      SlotStep(sv, SlotOf(w, s.device), s, PastOf(w, s.device));
      PutKeepsSound(w, s.device, SlotAfter(sv, SlotOf(w, s.device), s, PastOf(w, s.device)));
    }
  }

  lemma {:induction false} SoundRun(w: World, steps: seq<Step>)
    requires Sound(w) && Disciplined(w, steps)
    ensures Sound(Run(w, steps))
    decreases |steps|
  {
    if steps != [] {
      SoundStep(w, steps[0]);
      SoundRun(Next(w, steps[0]), steps[1..]);
    }
  }

  // ---- No fork ----

  /** Two settled devices at one epoch hold different trees. */
  ghost predicate Forked(w: World) {
    exists d, e :: Splits(w, d, e)
  }

  predicate Splits(w: World, d: DeviceId, e: DeviceId) {
    && ClientOf(w, d).Member? && ClientOf(w, e).Member?
    && |ClientOf(w, d).history| == |ClientOf(w, e).history|
    && ClientOf(w, d).history != ClientOf(w, e).history
  }

  lemma SoundIsUnforked(w: World)
    requires Sound(w)
    ensures !Forked(w)
  {
    forall d, e ensures !Splits(w, d, e) {
      assert SlotSound(w.server, SlotOf(w, d)) && SlotSound(w.server, SlotOf(w, e));
    }
  }

  /**
   * No fork: after any run from a fresh group that does not take the lock from a request that may
   * still write, the log holds exactly one commit per passed epoch, every settled device is on it,
   * and two settled devices at one epoch hold the same history.
   */
  lemma NoFork(creator: DeviceId, steps: seq<Step>, d: DeviceId)
    requires Disciplined(Start(creator), steps)
    ensures var w := Run(Start(creator), steps);
            && LogComplete(w.server)
            && (ClientOf(w, d).Member? ==> OnLog(w.server, ClientOf(w, d).history))
            && !Forked(w)
  {
    SoundRun(Start(creator), steps);
    var w := Run(Start(creator), steps);
    assert SlotSound(w.server, SlotOf(w, d));
    SoundIsUnforked(w);
  }

  /** Only the transaction touches the epoch and the log, and it only appends. */
  lemma LogStep(w: World, s: Step)
    requires ServerSound(w.server)
    ensures LogExtends(w.server, Next(w, s).server)
  {
    var sv := w.server;
    if s.Write? && s.request in sv.requests && sv.requests[s.request].phase == Passed {
      WriteAppends(sv, s.request);
    }
  }

  lemma {:induction false} LogOnlyGrows(w: World, steps: seq<Step>)
    requires Sound(w) && Disciplined(w, steps)
    ensures LogExtends(w.server, Run(w, steps).server)
    decreases |steps|
  {
    if steps != [] {
      LogStep(w, steps[0]);
      SoundStep(w, steps[0]);
      LogOnlyGrows(Next(w, steps[0]), steps[1..]);
    }
  }

  lemma OnOneLine(sv: Server, g: History, h: History)
    requires OnLog(sv, g) && OnLog(sv, h)
    ensures g <= h || h <= g
  {
  }

  lemma LaterIsComparable(w: World, after: seq<Step>, d: DeviceId, e: DeviceId)
    requires Sound(w) && Disciplined(w, after) && ClientOf(w, d).Member? && ClientOf(Run(w, after), e).Member?
    ensures var earlier, later := ClientOf(w, d).history, ClientOf(Run(w, after), e).history;
            earlier <= later || later <= earlier
  {
    var v := Run(w, after);
    SoundRun(w, after);
    LogOnlyGrows(w, after);
    assert SlotSound(w.server, SlotOf(w, d)) && SlotSound(v.server, SlotOf(v, e));
    OnLogStays(w.server, v.server, ClientOf(w, d).history);
    OnOneLine(v.server, ClientOf(w, d).history, ClientOf(v, e).history);
  }

  /** What one device held at one time and another holds later never diverge: one extends the other. */
  lemma HistoriesStayComparable(creator: DeviceId, before: seq<Step>, after: seq<Step>, d: DeviceId, e: DeviceId)
    requires Disciplined(Start(creator), before)
    requires Disciplined(Run(Start(creator), before), after)
    requires ClientOf(Run(Start(creator), before), d).Member?
    requires ClientOf(Run(Run(Start(creator), before), after), e).Member?
    ensures var earlier := ClientOf(Run(Start(creator), before), d).history;
            var later := ClientOf(Run(Run(Start(creator), before), after), e).history;
            earlier <= later || later <= earlier
  {
    SoundRun(Start(creator), before);
    LaterIsComparable(Run(Start(creator), before), after, d, e);
  }

  // ---- And exactly then ----

  lemma {:induction false} Extend(w: World, steps: seq<Step>, s: Step)
    requires Disciplined(w, steps) && Allowed(Run(w, steps).server, s)
    ensures Disciplined(w, steps + [s]) && Run(w, steps + [s]) == Next(Run(w, steps), s)
    decreases |steps|
  {
    if steps == [] {
      assert [] + [s] == [s] && [s][1..] == [];
    } else {
      assert (steps + [s])[1..] == steps[1..] + [s];
      Extend(Next(w, steps[0]), steps[1..], s);
    }
  }

  /** `cur` is reached from `w` by the disciplined run `steps`. */
  ghost predicate Reaches(w: World, steps: seq<Step>, cur: World) {
    Disciplined(w, steps) && Run(w, steps) == cur
  }

  lemma Then(w: World, steps: seq<Step>, cur: World, s: Step) returns (longer: seq<Step>)
    requires Reaches(w, steps, cur) && Allowed(cur.server, s)
    ensures Reaches(w, longer, Next(cur, s))
  {
    Extend(w, steps, s);
    longer := steps + [s];
  }

  predicate IdleAt(w: World, d: DeviceId, epoch: nat) {
    SlotOf(w, d).waiting.None? && ClientOf(w, d).Member? && ClientOf(w, d).pending.None? && |ClientOf(w, d).history| == epoch
  }

  /** An idle device stages a commit and submits it. */
  lemma Submits(w: World, d: DeviceId, epoch: nat, r: RequestId, serial: nat) returns (steps: seq<Step>)
    requires IdleAt(w, d, epoch) && r !in w.server.used
    ensures Disciplined(w, steps)
    ensures var x, v := Commit(d, serial, false), Run(w, steps);
            && v.server == Enqueue(w.server, r, Request(d, epoch, x, None, Sent))
            && SlotOf(v, d) == Slot(Member(ClientOf(w, d).history, Some(x)), Some(r))
            && (forall e :: e != d ==> SlotOf(v, e) == SlotOf(w, e))
            && PastOf(w, d) <= PastOf(v, d)
  {
    assert Reaches(w, [], w);
    steps := Then(w, [], w, Stage(d, serial));
    var a := Next(w, Stage(d, serial));
    assert a.server == w.server && SlotOf(a, d) == Slot(Member(ClientOf(w, d).history, Some(Commit(d, serial, false))), None);
    steps := Then(w, steps, a, Submit(d, r));
  }

  /** Request `q` may still write, its device `d` waits for it, and device `e` sits idle at the same epoch. */
  datatype Duel = Duel(d: DeviceId, e: DeviceId, q: RequestId, k: RequestId, serial: nat)

  /** What `d` would hold after an acceptance. */
  function Prize(c: Client): History {
    match c
    case Member(h, Some(id)) => h + [id]
    case Member(h, None) => h
    case Joining(h) => h
    case Absent => []
  }

  ghost predicate Ready(w: World, z: Duel) {
    var sv := w.server;
    && z.d != z.e && z.k !in sv.used && z.q in sv.used
    && Live(sv, z.q) && sv.requests[z.q].base == sv.active
    && SlotOf(w, z.d).waiting == Some(z.q) && !ClientOf(w, z.d).Absent?
    && |Prize(ClientOf(w, z.d))| == sv.active + 1
    && Prize(ClientOf(w, z.d))[sv.active] != Commit(z.e, z.serial, false)
    && SlotOf(w, z.e).waiting.None? && ClientOf(w, z.e).Member?
    && ClientOf(w, z.e).pending.None? && |ClientOf(w, z.e).history| == sv.active
    && (forall r :: Live(sv, r) ==> r == z.q)
    && (forall r :: r in sv.requests ==> sv.requests[r].base <= sv.active)
  }

  /** Both requests are in the given phases, for the epoch `epoch`; nobody else may write. */
  ghost predicate Racing(sv: Server, z: Duel, epoch: nat, p: Phase, q: Phase) {
    && z.q != z.k && z.q in sv.requests && z.k in sv.requests
    && sv.requests[z.q].base == epoch && sv.requests[z.q].phase == p
    && sv.requests[z.k].base == epoch && sv.requests[z.k].phase == q
    && (forall r :: r in sv.requests ==> sv.requests[r].base <= epoch)
    && (forall r :: Live(sv, r) ==> r == z.q || r == z.k)
  }

  /** With the lock gone under `q`, the rival enters and both stand past the epoch check. */
  function BothIn(sv: Server, z: Duel): Server {
    CheckEpoch(CheckEpoch(BeginRequest(sv, z.k), z.k), z.q)
  }

  lemma BothGetIn(sv: Server, z: Duel)
    requires Racing(sv, z, sv.active, Locked, Sent) || Racing(sv, z, sv.active, Passed, Sent)
    requires sv.lock.None?
    ensures Racing(BothIn(sv, z), z, sv.active, Passed, Passed) && BothIn(sv, z).active == sv.active
  {
    var a := BeginRequest(sv, z.k);
    assert forall r :: Live(a, r) ==> r == z.k || Live(sv, r);
    assert Racing(a, z, sv.active, sv.requests[z.q].phase, Locked) && a.active == sv.active;
    var b := CheckEpoch(a, z.k);
    assert forall r :: Live(b, r) ==> r == z.k || Live(a, r);
    assert Racing(b, z, sv.active, sv.requests[z.q].phase, Passed) && b.active == sv.active;
    var c := CheckEpoch(b, z.q);
    assert forall r :: Live(c, r) ==> r == z.q || Live(b, r);
  }

  lemma BothWrite(sv: Server, z: Duel)
    requires Racing(sv, z, sv.active, Passed, Passed)
    ensures var v := WriteCommit(WriteCommit(sv, z.q), z.k);
            Racing(v, z, sv.active, Closing(true), Closing(true)) && v.active == sv.active + 1
            && forall r :: !Live(v, r)
  {
    var a := WriteCommit(sv, z.q);
    assert forall r :: Live(a, r) ==> Live(sv, r);
    assert Racing(a, z, sv.active, Closing(true), Passed) && a.active == sv.active + 1;
    var b := WriteCommit(a, z.k);
    assert forall r :: Live(b, r) ==> Live(a, r) && r != z.k;
  }

  lemma BothAnswered(sv: Server, z: Duel)
    requires z.q != z.k && z.q in sv.requests && z.k in sv.requests
    requires sv.requests[z.q].phase == Closing(true) && sv.requests[z.k].phase == Closing(true)
    requires forall r :: !Live(sv, r)
    ensures Allowed(sv, Unlock(z.q)) && Allowed(UnlockAndReply(sv, z.q), Unlock(z.k))
    ensures var v := UnlockAndReply(UnlockAndReply(sv, z.q), z.k);
            z.q in v.replies && v.replies[z.q] && z.k in v.replies && v.replies[z.k]
  {
    var a := UnlockAndReply(sv, z.q);
    assert forall r :: Live(a, r) ==> Live(sv, r);
  }

  lemma EnterBoth(w: World, steps: seq<Step>, cur: World, z: Duel) returns (longer: seq<Step>)
    requires Reaches(w, steps, cur)
    ensures Reaches(w, longer, cur.(server := BothIn(cur.server, z)))
  {
    var sv := cur.server;
    longer := Then(w, steps, cur, Begin(z.k));
    var a := cur.(server := BeginRequest(sv, z.k));
    longer := Then(w, longer, a, Check(z.k));
    longer := Then(w, longer, a.(server := CheckEpoch(a.server, z.k)), Check(z.q));
  }

  lemma WriteBoth(w: World, steps: seq<Step>, cur: World, z: Duel) returns (longer: seq<Step>)
    requires Reaches(w, steps, cur)
    ensures Reaches(w, longer, cur.(server := WriteCommit(WriteCommit(cur.server, z.q), z.k)))
  {
    longer := Then(w, steps, cur, Write(z.q));
    longer := Then(w, longer, cur.(server := WriteCommit(cur.server, z.q)), Write(z.k));
  }

  lemma AnswerBoth(w: World, steps: seq<Step>, cur: World, z: Duel) returns (longer: seq<Step>)
    requires Reaches(w, steps, cur)
    requires Allowed(cur.server, Unlock(z.q)) && Allowed(UnlockAndReply(cur.server, z.q), Unlock(z.k))
    ensures Reaches(w, longer, cur.(server := UnlockAndReply(UnlockAndReply(cur.server, z.q), z.k)))
  {
    longer := Then(w, steps, cur, Unlock(z.q));
    longer := Then(w, longer, cur.(server := UnlockAndReply(cur.server, z.q)), Unlock(z.k));
  }

  /** Both devices merge, and their trees differ in the last commit. */
  lemma MergeBoth(w: World, steps: seq<Step>, cur: World, z: Duel, y: Commit, h: History) returns (longer: seq<Step>)
    requires Reaches(w, steps, cur) && z.d != z.e && z.q != z.k
    requires z.q in cur.server.replies && cur.server.replies[z.q] && z.k in cur.server.replies && cur.server.replies[z.k]
    requires SlotOf(cur, z.d).waiting == Some(z.q) && !ClientOf(cur, z.d).Absent?
    requires SlotOf(cur, z.e) == Slot(Member(h, Some(y)), Some(z.k))
    requires |Prize(ClientOf(cur, z.d))| == |h| + 1 && Prize(ClientOf(cur, z.d))[|h|] != y
    ensures Disciplined(w, longer) && Forked(Run(w, longer))
  {
    longer := Then(w, steps, cur, Answered(z.d));
    var a := Next(cur, Answered(z.d));
    assert ClientOf(a, z.d).Member? && ClientOf(a, z.d).history == Prize(ClientOf(cur, z.d));
    longer := Then(w, longer, a, Answered(z.e));
    var b := Next(a, Answered(z.e));
    assert ClientOf(b, z.e) == Member(h + [y], None) && (h + [y])[|h|] == y;
    assert Splits(b, z.d, z.e);
  }

  /** Whenever the lock is free under a request that may still write, a disciplined run forks the group. */
  lemma OpenDoorForks(w: World, z: Duel) returns (steps: seq<Step>)
    requires Ready(w, z) && w.server.lock.None?
    ensures Disciplined(w, steps) && Forked(Run(w, steps))
  {
    var epoch, y := w.server.active, Commit(z.e, z.serial, false);
    steps := Submits(w, z.e, epoch, z.k, z.serial);
    var cur := Run(w, steps);
    assert forall r :: Live(cur.server, r) ==> Live(w.server, r);
    steps := EnterBoth(w, steps, cur, z);
    BothGetIn(cur.server, z);
    cur := cur.(server := BothIn(cur.server, z));
    steps := WriteBoth(w, steps, cur, z);
    BothWrite(cur.server, z);
    cur := cur.(server := WriteCommit(WriteCommit(cur.server, z.q), z.k));
    BothAnswered(cur.server, z);
    steps := AnswerBoth(w, steps, cur, z);
    cur := cur.(server := UnlockAndReply(UnlockAndReply(cur.server, z.q), z.k));
    steps := MergeBoth(w, steps, cur, z, y, ClientOf(w, z.e).history);
  }

  /** Request `z.q` may still write, its device waits for the answer, and `z.e` is settled and idle at the active epoch. */
  ghost predicate Contested(w: World, z: Duel) {
    && z.d != z.e && z.k !in w.server.used
    && Live(w.server, z.q) && w.server.requests[z.q].id != Commit(z.e, z.serial, false)
    && SlotOf(w, z.d).waiting == Some(z.q) && !ClientOf(w, z.d).Absent?
    && SlotOf(w, z.e).waiting.None? && ClientOf(w, z.e).Member?
    && ClientOf(w, z.e).pending.None? && |ClientOf(w, z.e).history| == w.server.active
  }

  lemma ContestedIsReady(w: World, z: Duel)
    requires Sound(w) && Contested(w, z)
    ensures Ready(w, z)
  {
    assert SlotSound(w.server, SlotOf(w, z.d));
    assert RequestSound(w.server, w.server.requests[z.q]);
    forall r | r in w.server.requests ensures w.server.requests[r].base <= w.server.active {
      assert RequestSound(w.server, w.server.requests[r]);
    }
  }

  /** No disciplined run from `v` forks. */
  ghost predicate ForkFree(v: World) {
    forall steps :: Disciplined(v, steps) ==> !Forked(Run(v, steps))
  }

  lemma SoundIsForkFree(v: World)
    requires Sound(v)
    ensures ForkFree(v)
  {
    forall steps | Disciplined(v, steps) ensures !Forked(Run(v, steps)) {
      SoundRun(v, steps);
      SoundIsUnforked(Run(v, steps));
    }
  }

  /** A lapse of the lock under a contested request: some run without any further lapse forks. */
  lemma LapseForks(w: World, z: Duel)
    requires Sound(w) && Contested(w, z)
    ensures !ForkFree(Next(w, Expire))
  {
    var v := Next(w, Expire);
    ContestedIsReady(w, z);
    assert forall r :: Live(v.server, r) <==> Live(w.server, r);
    assert Ready(v, z);
    var steps := OpenDoorForks(v, z);
  }

  /** The same when an earlier request of the same device ends, or is aborted, and releases the lock of a contested one. */
  lemma TheftForks(w: World, s: Step, z: Duel)
    requires Sound(w) && Contested(w, z) && !Allowed(w.server, s)
    requires (s.Unlock? || s.Abort?) && Steals(w.server, s.request, z.q)
    ensures !ForkFree(Next(w, s))
  {
    var v := Next(w, s);
    ContestedIsReady(w, z);
    assert v.server.lock.None?;
    assert forall k :: Live(v.server, k) ==> Live(w.server, k);
    assert Ready(v, z);
    var steps := OpenDoorForks(v, z);
  }

  ghost predicate HasRival(w: World, q: RequestId) {
    exists z: Duel :: z.q == q && Contested(w, z)
  }

  /**
   * The discipline is exact, step by step: in a sound world where every request that may still write
   * has a rival, a step is allowed if and only if no disciplined run after it forks.
   */
  lemma DisciplineIsExact(w: World, s: Step)
    requires Sound(w) && forall q :: Live(w.server, q) ==> HasRival(w, q)
    ensures Allowed(w.server, s) <==> ForkFree(Next(w, s))
  {
    if Allowed(w.server, s) {
      SoundStep(w, s);
      SoundIsForkFree(Next(w, s));
    } else if s.Expire? {
      var q :| Live(w.server, q);
      var z: Duel :| z.q == q && Contested(w, z);
      LapseForks(w, z);
    } else {
      var q :| Steals(w.server, s.request, q);
      var z: Duel :| z.q == q && Contested(w, z);
      TheftForks(w, s, z);
    }
  }

  /** Contests are ordinary: any two idle devices at the active epoch reach one while the lock is free. */
  lemma ContestFollows(w: World, z: Duel, serial: nat) returns (steps: seq<Step>)
    requires z.d != z.e && z.q != z.k && z.q !in w.server.used && z.k !in w.server.used && w.server.lock.None?
    requires IdleAt(w, z.d, w.server.active) && IdleAt(w, z.e, w.server.active)
    ensures Disciplined(w, steps) && Contested(Run(w, steps), z)
  {
    steps := Submits(w, z.d, w.server.active, z.q, serial);
    steps := Then(w, steps, Run(w, steps), Begin(z.q));
  }

  // ---- Replaying the log ----

  datatype Row = Row(base: nat, id: Commit)

  predicate Ascending(rows: seq<Row>, since: nat) {
    && (forall i :: 0 <= i < |rows| ==> since <= rows[i].base)
    && (forall i, j :: 0 <= i < j < |rows| ==> rows[i].base < rows[j].base)
  }

  /**
   * The rows that can be applied from `since` on, and whether they stop short: below the retained
   * floor, or at an epoch the log never recorded. `oldest` is the group's first retained row.
   */
  method CommitsSince(rows: seq<Row>, oldest: Option<nat>, since: nat, active: nat)
    returns (applicable: seq<Row>, belowFloor: bool, gapAt: Option<nat>)
    requires Ascending(rows, since)
    ensures applicable <= rows
    ensures forall i :: 0 <= i < |applicable| ==> applicable[i].base == since + i
    ensures forall i :: 0 <= i < |rows| ==> rows[i].base != since + |applicable|
    ensures belowFloor <==> since < active && oldest.Some? && since < oldest.value
    ensures gapAt.Some? <==> !belowFloor && (applicable != rows || since + |applicable| < active)
    ensures gapAt.Some? ==> gapAt.value == since + |applicable|
  {
    belowFloor := since < active && oldest.Some? && oldest.value > since;
    applicable, gapAt := [], None;
    var expected, n := since, 0;
    while n < |rows|
      invariant 0 <= n <= |rows| && applicable == rows[..n] && expected == since + n && gapAt.None?
      invariant forall i :: 0 <= i < n ==> rows[i].base == since + i
    {
      if rows[n].base > expected {
        gapAt := Some(expected);
        break;
      }
      // Ascending rows cannot fall behind the epoch expected next.
      assert rows[n].base == expected by {
        if n > 0 { assert rows[n - 1].base < rows[n].base; }
      }
      applicable := applicable + [rows[n]];
      expected := rows[n].base + 1;
      n := n + 1;
    }
    if gapAt.None? && expected < active {
      gapAt := Some(expected);
    }
    if belowFloor {
      gapAt := None;
    }
  }

  /** Rows before the first one this device wrote itself. */
  function Foreign(d: DeviceId, rows: seq<Row>): (n: nat)
    ensures n <= |rows|
    ensures forall i :: 0 <= i < n ==> !Own(d, rows[i].id)
    ensures n < |rows| ==> Own(d, rows[n].id)
  {
    if rows == [] || Own(d, rows[0].id) then 0 else 1 + Foreign(d, rows[1..])
  }

  /** The rows are the server's log from the slot's own epoch on. */
  ghost predicate FromLog(sv: Server, s: Slot, rows: seq<Row>) {
    && s.client.Member? && s.waiting.None? && |rows| == sv.active - |s.client.history|
    && forall i :: 0 <= i < |rows| ==>
         && rows[i].base == |s.client.history| + i
         && rows[i].base in sv.log && rows[i].id == sv.log[rows[i].base]
  }

  /** Skips what is applied already, applies in order, and stops at the first row the library refuses. */
  method ApplyRows(sv: Server, d: DeviceId, start: Slot, rows: seq<Row>) returns (s: Slot, applied: nat)
    requires ServerSound(sv) && SlotSound(sv, start) && FromLog(sv, start, rows)
    ensures s.client.Member? && s.waiting.None? && OnLog(sv, s.client.history)
    ensures applied == Foreign(d, rows) && |s.client.history| == |start.client.history| + applied
    ensures |s.client.history| == sv.active <==> forall i :: 0 <= i < |rows| ==> !Own(d, rows[i].id)
  {
    s, applied := start, 0;
    var n := 0;
    while n < |rows|
      invariant 0 <= n == applied <= |rows| && SlotSound(sv, s) && s.client.Member? && s.waiting.None?
      invariant |s.client.history| == |start.client.history| + n
      invariant n <= Foreign(d, rows)
    {
      var row := rows[n];
      if row.base >= |s.client.history| {
        var t := ReceiveCommit(sv, d, s, row.base, row.id);
        ReceiveKeepsSlot(sv, d, s, row.base, row.id);
        if t == s {
          assert Own(d, row.id);
          break;
        }
        s, applied := t, applied + 1;
      }
      n := n + 1;
    }
  }

  /** The rows of the log from `since` on that have not been pruned. */
  predicate Retained(sv: Server, rows: seq<Row>, since: nat) {
    && Ascending(rows, since)
    && forall i :: 0 <= i < |rows| ==> rows[i].base in sv.log && sv.log[rows[i].base] == rows[i].id
  }

  predicate Supplies(rows: seq<Row>, epoch: nat) {
    exists i :: 0 <= i < |rows| && rows[i].base == epoch
  }

  /** Contiguous rows up to the active epoch are the whole of the log from the device on. */
  lemma SuppliedIsFromLog(sv: Server, s: Slot, rows: seq<Row>)
    requires ServerSound(sv) && SlotSound(sv, s) && s.client.Member? && s.waiting.None?
    requires Retained(sv, rows, |s.client.history|)
    requires forall i :: 0 <= i < |rows| ==> rows[i].base == |s.client.history| + i
    requires |s.client.history| + |rows| >= sv.active
    ensures FromLog(sv, s, rows)
    ensures forall e :: |s.client.history| <= e < sv.active ==> Supplies(rows, e)
  {
    if rows != [] { assert rows[|rows| - 1].base in sv.log; }
    forall e | |s.client.history| <= e < sv.active ensures Supplies(rows, e) {
      assert rows[e - |s.client.history|].base == e;
    }
  }

  /**
   * Fetch and replay. A log that is pruned too far or holed answers early and nothing is applied;
   * otherwise the device catches up exactly if none of the missed commits is its own.
   */
  method AttemptReplay(sv: Server, d: DeviceId, start: Slot, rows: seq<Row>, oldest: Option<nat>)
    returns (s: Slot, healed: bool, belowFloor: bool, gapAt: Option<nat>, applied: nat)
    requires ServerSound(sv) && SlotSound(sv, start) && start.client.Member? && start.waiting.None?
    requires Retained(sv, rows, |start.client.history|)
    ensures belowFloor <==> |start.client.history| < sv.active && oldest.Some? && |start.client.history| < oldest.value
    ensures !belowFloor ==> (gapAt.None? <==> forall e :: |start.client.history| <= e < sv.active ==> Supplies(rows, e))
    ensures gapAt.Some? ==>
              && |start.client.history| <= gapAt.value < sv.active && !Supplies(rows, gapAt.value)
              && forall e :: |start.client.history| <= e < gapAt.value ==> Supplies(rows, e)
    ensures belowFloor || gapAt.Some? ==> s == start && applied == 0 && !healed
    ensures !belowFloor && gapAt.None? ==>
              && s.client.Member? && s.waiting.None? && OnLog(sv, s.client.history)
              && applied == Foreign(d, rows) && |s.client.history| == |start.client.history| + applied
              && (|s.client.history| == sv.active <==> forall i :: 0 <= i < |rows| ==> !Own(d, rows[i].id))
              && (healed <==> rows != [] && |s.client.history| == sv.active)
  {
    var since := |start.client.history|;
    var applicable;
    applicable, belowFloor, gapAt := CommitsSince(rows, oldest, since, sv.active);
    s, applied, healed := start, 0, false;
    if belowFloor {
      return;
    }
    if gapAt.Some? {
      HoleInTheLog(sv, start, rows, |applicable|);
      return;
    }
    SuppliedIsFromLog(sv, start, rows);
    s, applied := ApplyRows(sv, d, start, applicable);
    healed := |s.client.history| >= sv.active && (applied > 0 || since < sv.active);
  }

  /** The first epoch the rows skip is a missing one below the active epoch. */
  lemma HoleInTheLog(sv: Server, s: Slot, rows: seq<Row>, n: nat)
    requires ServerSound(sv) && SlotSound(sv, s) && s.client.Member? && Retained(sv, rows, |s.client.history|)
    requires n <= |rows| && forall i :: 0 <= i < n ==> rows[i].base == |s.client.history| + i
    requires forall i :: 0 <= i < |rows| ==> rows[i].base != |s.client.history| + n
    requires n < |rows| || |s.client.history| + n < sv.active
    ensures |s.client.history| + n < sv.active && !Supplies(rows, |s.client.history| + n)
    ensures forall e :: |s.client.history| <= e < |s.client.history| + n ==> Supplies(rows, e)
  {
    if n < |rows| {
      assert rows[n].base in sv.log;
      assert rows[n].base > |s.client.history| + n by {
        if n > 0 { assert rows[n - 1].base < rows[n].base; }
      }
    }
    forall e | |s.client.history| <= e < |s.client.history| + n ensures Supplies(rows, e) {
      assert rows[e - |s.client.history|].base == e;
    }
  }

  /**
   * The device's own commit is the one row a replay cannot pass: a device that crashed between the
   * server's accept and its own merge stays behind, whatever else the log holds.
   */
  lemma OwnCommitStopsReplay(w: World, d: DeviceId, r: RequestId, serial: nat) returns (steps: seq<Step>)
    requires Sound(w) && IdleAt(w, d, w.server.active) && ClientOf(w, d) in PastOf(w, d)
    requires w.server.lock.None? && r !in w.server.used
    ensures Disciplined(w, steps)
    ensures var v := Run(w, steps);
            && SlotOf(v, d) == SlotOf(w, d) && v.server.active == w.server.active + 1
            && forall rows :: FromLog(v.server, SlotOf(v, d), rows) ==> Foreign(d, rows) == 0 < |rows|
  {
    steps := Submits(w, d, w.server.active, r, serial);
    var cur := Run(w, steps);
    AloneWrites(cur.server, r);
    steps := WriteAlone(w, steps, cur, r);
    steps := Then(w, steps, cur.(server := WriteCommit(CheckEpoch(BeginRequest(cur.server, r), r), r)), Restart(d, ClientOf(w, d)));
  }

  lemma AloneWrites(sv: Server, r: RequestId)
    requires sv.lock.None? && r in sv.requests && sv.requests[r].phase == Sent && sv.requests[r].base == sv.active
    requires sv.active !in sv.log
    ensures var v := WriteCommit(CheckEpoch(BeginRequest(sv, r), r), r);
            v.active == sv.active + 1 && v.log == sv.log[sv.active := sv.requests[r].id]
  {
  }

  lemma WriteAlone(w: World, steps: seq<Step>, cur: World, r: RequestId) returns (longer: seq<Step>)
    requires Reaches(w, steps, cur)
    ensures Reaches(w, longer, cur.(server := WriteCommit(CheckEpoch(BeginRequest(cur.server, r), r), r)))
  {
    var sv := cur.server;
    longer := Then(w, steps, cur, Begin(r));
    var a := cur.(server := BeginRequest(sv, r));
    longer := Then(w, longer, a, Check(r));
    longer := Then(w, longer, a.(server := CheckEpoch(a.server, r)), Write(r));
  }

  // ---- The verdict of the gate ----

  /** The whole passage of one request, from the lock to the reply. */
  function Passage(sv: Server, r: RequestId): Server {
    UnlockAndReply(WriteCommit(CheckEpoch(BeginRequest(sv, r), r), r), r)
  }

  /**
   * A request is always answered. It is accepted if and only if it finds the lock free and is for the
   * active epoch; then the epoch moves on, the commit is logged and fanned out; otherwise none of that
   * happens. The lock is as free afterwards as before.
   */
  lemma VerdictIsExact(sv: Server, r: RequestId)
    requires ServerSound(sv) && r in sv.requests && sv.requests[r].phase == Sent
    ensures var q := sv.requests[r];
            var v := Passage(sv, r);
            && r in v.replies && r !in v.requests && v.lock == sv.lock
            && (v.replies[r] <==> sv.lock.None? && q.base == sv.active)
            && (v.replies[r] ==>
                  && v.active == sv.active + 1 && v.log == sv.log[sv.active := q.id]
                  && (sv.active, q.id) in v.sent && v.sent == sv.sent + {(sv.active, q.id)})
            && (!v.replies[r] ==> v.active == sv.active && v.log == sv.log && v.sent == sv.sent && v.info == sv.info)
  {
  }

  /** A request that throws gives its lock back and is not answered. */
  lemma AbortGivesBack(sv: Server, r: RequestId)
    requires r in sv.requests && sv.requests[r].phase != Sent && sv.lock == Some(sv.requests[r].device)
    ensures var v := AbortRequest(sv, r);
            v.lock.None? && r !in v.requests && v.replies == sv.replies && v.active == sv.active && v.log == sv.log
  {
  }

  /** Publishing leaves the newest base, and never an older one than before. */
  lemma NewestBaseIsKept(w: World, d: DeviceId)
    requires Sound(w)
    ensures var v := Next(w, Publish(d)).server;
            && |v.info| >= |w.server.info| && OnLog(v, v.info)
            && (ClientOf(w, d).Member? ==> |v.info| >= |ClientOf(w, d).history|)
            && (v.info == w.server.info || (ClientOf(w, d).Member? && v.info == ClientOf(w, d).history))
  {
    SoundStep(w, Publish(d));
  }

  /** A crashed handler is not answered and leaves its lock behind, until that lapses. */
  lemma CrashKeepsTheLock(sv: Server, r: RequestId)
    ensures var v := ServerAfter(sv, Crash(r), Absent);
            && r !in v.requests && v.replies == sv.replies && v.lock == sv.lock && v.log == sv.log
            && ServerAfter(v, Expire, Absent).lock.None?
  {
  }
}
