/**
 * A joint run in which a second device really joins: the creator stages an addition, passes the gate,
 * merges and invites, and a new device installs and takes the Welcome. Both are then settled at epoch 1.
 */
module TwoDevices {
  import opened Basics
  import opened OpenMls
  import opened Members
  import opened DeviceSpec
  import opened DeviceRuns
  import opened GateEngine
  import Gate = CommitGate

  /** The creator `d` with credential `a`, the second device `e` with credential `b`. */
  datatype Pair = Pair(name: string, d: nat, e: nat, a: string, b: string)

  function First(p: Pair): seq<Leaf> {
    [Leaf(0, Basic(p.a))]
  }

  function Both(p: Pair): seq<Leaf> {
    [Leaf(0, Basic(p.a)), Leaf(1, Basic(p.b))]
  }

  function Addition(p: Pair): Gate.Commit {
    Gate.Commit(p.d, 0, false)
  }

  ghost predicate Casts(k: Cast, p: Pair) {
    k.name == p.name && k.first == First(p) && k.tree(Addition(p)) == Both(p) && p.d != p.e && p.a != p.b
  }

  // ---- The engines ----

  function Add(p: Pair): Op {
    AddMembers(p.name, [Valid(Basic(p.b))], 0, Works, Works)
  }

  function Created(p: Pair): Device {
    CreateGroup(NewDevice(p.a, 0), p.name, 0, Works).device
  }

  lemma BothAreTheAddition(p: Pair)
    requires p.a != p.b
    ensures TriageOf(First(p), [Valid(Basic(p.b))]).kept == [Basic(p.b)]
    ensures WithAdded(First(p), [Basic(p.b)]) == Both(p)
  {
    var packages := [Valid(Basic(p.b))];
    assert VerdictAt(First(p), packages, 0) == Added;
    assert Positions(First(p), packages, Added, 0) == [];
    assert Positions(First(p), packages, Added, 1) == [0];
    assert TriageOf(First(p), packages).added == [0];
    assert FreshIndex(First(p)) == 1 by {
      assert First(p)[..0] == [];
      assert FreshIndex([]) == 0;
    }
    assert [Basic(p.b)][1..] == [];
    assert First(p) + [Leaf(1, Basic(p.b))] == Both(p);
  }

  lemma CreatorStages(p: Pair)
    requires p.a != p.b
    ensures var e := Step(Created(p), Add(p));
            && p.name in Created(p).groups && Created(p).groups[p.name] == FreshGroup(p.name, Basic(p.a), 0)
            && p.name in e.groups
            && e.groups[p.name] == FreshGroup(p.name, Basic(p.a), 0).(pending := OwnCommit(Commit(Both(p), false, 0)))
  {
    BothAreTheAddition(p);
  }

  lemma CreatorMerges(p: Pair, e: Device)
    requires p.name in e.groups
    requires e.groups[p.name] == FreshGroup(p.name, Basic(p.a), 0).(pending := OwnCommit(Commit(Both(p), false, 0)))
    ensures var f := Step(e, Merge(p.name, Works));
            && p.name in f.groups && f.groups[p.name].epoch == 1
            && f.groups[p.name].roster == Both(p) && f.groups[p.name].pending.NoPending?
  {
  }

  function Invitation(p: Pair): Welcome {
    StagedWelcome(NamedId(p.name), 1, Both(p), 0, "", Works)
  }

  lemma JoinerJoins(p: Pair)
    ensures PassesGuards(NewDevice(p.b, 0), Invitation(p))
    ensures var f := Step(NewDevice(p.b, 0), Join(Invitation(p)));
            && p.name in f.groups && f.groups[p.name].epoch == 1 && f.groups[p.name].pending.NoPending?
  {
  }

  // ---- The server ----

  function Opened(p: Pair): Gate.Server {
    Gate.Start(p.d).server
  }

  function Asked(p: Pair): Gate.Server {
    Gate.Enqueue(Opened(p), 0, Gate.Request(p.d, 0, Addition(p), None, Gate.Sent))
  }

  function Written(p: Pair): Gate.Server {
    Gate.WriteCommit(Gate.CheckEpoch(Gate.BeginRequest(Asked(p), 0), 0), 0)
  }

  function Replied(p: Pair): Gate.Server {
    Gate.UnlockAndReply(Written(p), 0)
  }

  lemma ServerAccepts(p: Pair)
    ensures Gate.Allowed(Written(p), Gate.Unlock(0))
    ensures 0 in Replied(p).replies && Replied(p).replies[0]
  {
    assert forall q :: q in Written(p).requests ==> q == 0;
  }

  // ---- The run ----

  lemma {:induction false} RunThen(j: Joint, k: Cast, acts: seq<Act>, a: Act) returns (longer: seq<Act>)
    ensures longer == acts + [a] && RunJoint(j, k, longer) == After(RunJoint(j, k, acts), k, a)
    decreases |acts|
  {
    longer := acts + [a];
    if acts == [] {
      assert longer[1..] == [];
    } else {
      var rest := RunThen(After(j, k, acts[0]), k, acts[1..], a);
      assert longer[1..] == rest;
    }
  }

  /** The creator alone in the world, with this engine, this slot and this server. */
  ghost predicate Scene(j: Joint, p: Pair, e: Device, s: Gate.Slot, sv: Gate.Server) {
    p.d in j.engines && j.engines[p.d] == e && Gate.SlotOf(j.gate, p.d) == s && j.gate.server == sv
  }

  lemma ServerActs(j: Joint, k: Cast, p: Pair, e: Device, s: Gate.Slot, sv: Gate.Server, step: Gate.Step)
    requires Scene(j, p, e, s, sv) && Gate.OfServer(step) && !step.Publish? && !step.Invite? && Gate.Allowed(sv, step)
    ensures Scene(After(j, k, OnServer(step)), p, e, s, Gate.ServerAfter(sv, step, Gate.Absent))
  {
  }

  lemma StageActs(j: Joint, k: Cast, p: Pair)
    requires Casts(k, p) && Scene(j, p, Created(p), Gate.Slot(Gate.Member([], None), None), Opened(p))
    ensures Scene(After(j, k, Operate(p.d, Add(p), Some(Gate.Stage(p.d, 0)))), p, Step(Created(p), Add(p)),
                  Gate.Slot(Gate.Member([], Some(Addition(p))), None), Opened(p))
  {
    CreatorStages(p);
    assert StageMatches(Created(p), Step(Created(p), Add(p)), k, Gate.SlotOf(j.gate, p.d), p.d, Some(Gate.Stage(p.d, 0)));
  }

  lemma SubmitActs(j: Joint, k: Cast, p: Pair, e: Device)
    requires Scene(j, p, e, Gate.Slot(Gate.Member([], Some(Addition(p))), None), Opened(p))
    ensures Scene(After(j, k, GateEngine.Submit(p.d, 0)), p, e, Gate.Slot(Gate.Member([], Some(Addition(p))), Some(0)), Asked(p))
  {
  }

  lemma MergeActs(j: Joint, k: Cast, p: Pair, e: Device, sv: Gate.Server)
    requires k.name == p.name && Scene(j, p, e, Gate.Slot(Gate.Member([], Some(Addition(p))), Some(0)), sv)
    requires 0 in sv.replies && sv.replies[0] && p.name in e.groups && e.groups[p.name].active
    ensures Scene(After(j, k, Operate(p.d, Merge(p.name, Works), Some(Gate.Answered(p.d)))), p, Step(e, Merge(p.name, Works)),
                  Gate.Slot(Gate.Member([Addition(p)], None), None), sv)
  {
    assert MergeMatches(e, k, sv, Gate.SlotOf(j.gate, p.d), Works, Some(Gate.Answered(p.d)));
    assert [] + [Addition(p)] == [Addition(p)];
  }

  lemma InviteActs(j: Joint, k: Cast, p: Pair, e: Device, s: Gate.Slot, sv: Gate.Server)
    requires Scene(j, p, e, s, sv) && s.client.Member?
    ensures Scene(After(j, k, OnServer(Gate.Invite(p.d))), p, e, s, sv.(welcomes := sv.welcomes + {s.client.history}))
  {
  }

  lemma InstallActs(j: Joint, k: Cast, p: Pair, e: Device, s: Gate.Slot, sv: Gate.Server)
    requires Scene(j, p, e, s, sv) && p.d != p.e
    ensures var v := After(j, k, Install(p.e, p.b, 0));
            && Scene(v, p, e, s, sv) && p.e in v.engines && v.engines[p.e] == NewDevice(p.b, 0)
            && Gate.SlotOf(v.gate, p.e) == Gate.Slot(Gate.Absent, None)
  {
  }

  lemma JoinActs(j: Joint, k: Cast, p: Pair, e: Device, s: Gate.Slot, sv: Gate.Server)
    requires Casts(k, p) && Scene(j, p, e, s, sv) && [Addition(p)] in sv.welcomes
    requires p.e in j.engines && j.engines[p.e] == NewDevice(p.b, 0)
    ensures var v := After(j, k, Operate(p.e, Join(Invitation(p)), Some(Gate.Welcome(p.e, [Addition(p)]))));
            Scene(v, p, e, s, sv) && p.e in v.engines && v.engines[p.e] == Step(NewDevice(p.b, 0), Join(Invitation(p)))
  {
    JoinerJoins(p);
    assert WelcomeMatches(NewDevice(p.b, 0), k, sv, Invitation(p), Some(Gate.Welcome(p.e, [Addition(p)])));
  }

  /** Stage, submit and the four steps of the server. */
  lemma CommitGoesThrough(k: Cast, p: Pair) returns (acts: seq<Act>)
    requires Casts(k, p)
    ensures Scene(RunJoint(Opening(k, p.d, p.a, 0, 0), k, acts), p, Step(Created(p), Add(p)),
                  Gate.Slot(Gate.Member([], Some(Addition(p))), Some(0)), Replied(p))
  {
    var j := Opening(k, p.d, p.a, 0, 0);
    var e := Step(Created(p), Add(p));
    var waiting := Gate.Slot(Gate.Member([], Some(Addition(p))), Some(0));
    var a := Asked(p);
    var b := Gate.BeginRequest(a, 0);
    var c := Gate.CheckEpoch(b, 0);
    StageActs(j, k, p);
    acts := RunThen(j, k, [], Operate(p.d, Add(p), Some(Gate.Stage(p.d, 0))));
    SubmitActs(RunJoint(j, k, acts), k, p, e);
    acts := RunThen(j, k, acts, GateEngine.Submit(p.d, 0));
    ServerActs(RunJoint(j, k, acts), k, p, e, waiting, a, Gate.Begin(0));
    acts := RunThen(j, k, acts, OnServer(Gate.Begin(0)));
    ServerActs(RunJoint(j, k, acts), k, p, e, waiting, b, Gate.Check(0));
    acts := RunThen(j, k, acts, OnServer(Gate.Check(0)));
    ServerActs(RunJoint(j, k, acts), k, p, e, waiting, c, Gate.Write(0));
    acts := RunThen(j, k, acts, OnServer(Gate.Write(0)));
    ServerAccepts(p);
    ServerActs(RunJoint(j, k, acts), k, p, e, waiting, Written(p), Gate.Unlock(0));
    acts := RunThen(j, k, acts, OnServer(Gate.Unlock(0)));
  }

  /** The run: both devices hold the group, settled at epoch 1. */
  lemma SecondDeviceSettles(k: Cast, p: Pair) returns (acts: seq<Act>)
    requires Casts(k, p)
    ensures var v := RunJoint(Opening(k, p.d, p.a, 0, 0), k, acts);
            SettledAt(v, k, p.d, 1) && SettledAt(v, k, p.e, 1) && v.engines[p.d].groups[k.name].roster == Both(p)
  {
    var j := Opening(k, p.d, p.a, 0, 0);
    var e := Step(Created(p), Add(p));
    var f := Step(e, Merge(p.name, Works));
    var settled := Gate.Slot(Gate.Member([Addition(p)], None), None);
    var sv := Replied(p).(welcomes := Replied(p).welcomes + {[Addition(p)]});
    CreatorStages(p);
    CreatorMerges(p, e);
    acts := CommitGoesThrough(k, p);
    ServerAccepts(p);
    MergeActs(RunJoint(j, k, acts), k, p, e, Replied(p));
    acts := RunThen(j, k, acts, Operate(p.d, Merge(p.name, Works), Some(Gate.Answered(p.d))));
    InviteActs(RunJoint(j, k, acts), k, p, f, settled, Replied(p));
    acts := RunThen(j, k, acts, OnServer(Gate.Invite(p.d)));
    InstallActs(RunJoint(j, k, acts), k, p, f, settled, sv);
    acts := RunThen(j, k, acts, Install(p.e, p.b, 0));
    JoinActs(RunJoint(j, k, acts), k, p, f, settled, sv);
    acts := RunThen(j, k, acts, Operate(p.e, Join(Invitation(p)), Some(Gate.Welcome(p.e, [Addition(p)]))));
    JoinerJoins(p);
  }
}
