/** The positions of the ratchet model are the engine's: a group's epoch and its send generation. */
module RatchetEngine {
  import opened Basics
  import opened OpenMls
  import opened DeviceSpec
  import DeviceRuns
  import Ratchet = SendRatchet

  function SpotOf(g: Group): Ratchet.Spot {
    Ratchet.Spot(g.epoch, g.sent)
  }

  /** A send moves the engine's position as one encryption does, exactly when the library built the frame. */
  lemma SendIsEncrypt(d: Device, name: string, answer: Answer, serialise: Answer, r: Ratchet.Device)
    requires name in d.groups && SpotOf(d.groups[name]) == r.live
    ensures var e := DeviceRuns.Step(d, DeviceRuns.Send(name, answer, serialise));
            && name in e.groups
            && SpotOf(e.groups[name]) ==
                 if d.groups[name].active && answer.Works? then Ratchet.Next(r, Ratchet.Encrypt).live else r.live
  {
  }

  /** On a restored group, a burn the library never refuses is the burn of a restart. */
  lemma BurnIsRestart(d: Device, name: string, answers: seq<Answer>, r: Ratchet.Device)
    requires name in d.groups && d.groups[name].active && SpotOf(d.groups[name]) == r.disk
    requires forall i :: 0 <= i < |answers| ==> answers[i].Works?
    ensures var e := DeviceRuns.Step(d, DeviceRuns.Skip(name, answers));
            name in e.groups && SpotOf(e.groups[name]) == Ratchet.Next(r, Ratchet.Restart(|answers|)).live
  {
    if answers != [] {
      DeviceRuns.BurnReportsItsProgress(d, name, answers);
      DeviceRuns.MessagingShape(d, DeviceRuns.Skip(name, answers));
    }
  }

  /** Applying a commit, our own or a received one, starts the next epoch at generation zero. */
  lemma CommitIsAdvance(d: Device, op: DeviceRuns.Op, r: Ratchet.Device)
    requires op.Merge? || op.Receive?
    requires op.name in d.groups && SpotOf(d.groups[op.name]) == r.live
    ensures var e := DeviceRuns.Step(d, op);
            && op.name in e.groups
            && (e.groups[op.name].epoch != d.groups[op.name].epoch ==>
                  SpotOf(e.groups[op.name]) == Ratchet.Next(r, Ratchet.Advance).live)
            && (e.groups[op.name].epoch == d.groups[op.name].epoch ==> SpotOf(e.groups[op.name]) == r.live)
  {
  }

  /** Staging and clearing move nothing. */
  lemma StagingMovesNothing(d: Device, op: DeviceRuns.Op)
    requires op.AddMembers? || op.RemoveUsers? || op.RemoveDevices? || op.Clear?
    requires op.name in d.groups
    ensures var e := DeviceRuns.Step(d, op); op.name in e.groups && SpotOf(e.groups[op.name]) == SpotOf(d.groups[op.name])
  {
    if !op.Clear? { DeviceRuns.StagingOnlyPends(d, op); }
  }

  /**
   * End to end: save, lose the process, load and burn. The restored engine stands where the ratchet
   * model's restart from that checkpoint stands.
   */
  lemma SaveLoadBurn(d: Device, user: string, device: string, now: nat, name: string, answers: seq<Answer>, r: Ratchet.Device)
    requires DeviceRuns.Synced(d) && DeviceRuns.Coherent(d) && d.identity.credential == user + ":" + device
    requires name in d.groups && d.groups[name].id.utf8 && d.groups[name].active && SpotOf(d.groups[name]) == r.disk
    requires forall i :: 0 <= i < |answers| ==> answers[i].Works?
    ensures var l := LoadState(user, device, Decoded(SaveState(d).1, Works), Some(now));
            && l.Ok?
            && var e := DeviceRuns.Step(l.value, DeviceRuns.Skip(name, answers));
               name in e.groups && SpotOf(e.groups[name]) == Ratchet.Next(r, Ratchet.Restart(|answers|)).live
  {
    DeviceRuns.SaveThenLoad(d, user, device, now);
    var l := LoadState(user, device, Decoded(SaveState(d).1, Works), Some(now));
    BurnIsRestart(l.value, name, answers, r);
  }
}
