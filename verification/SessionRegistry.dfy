/**
 * The gateway's session registry: per user and device, the open sockets of one browser. Presence in
 * Redis is per device, so it may be deleted only when no other live session holds the key.
 */
module SessionRegistry {
  type ConnId = nat

  /** `sessions[key]` lists the connections registered under a key; `closed` those whose receiver is gone. */
  datatype Registry = Registry(sessions: map<string, set<ConnId>>, closed: set<ConnId>, next: ConnId)

  const EMPTY := Registry(map[], {}, 0)

  function Sessions(r: Registry, key: string): set<ConnId> {
    if key in r.sessions then r.sessions[key] else {}
  }

  /** Some live session other than `id` holds `key`. */
  predicate OtherLive(r: Registry, key: string, id: ConnId) {
    exists c :: c in Sessions(r, key) && c != id && c !in r.closed
  }

  function SetKey(r: Registry, key: string, conns: set<ConnId>): Registry {
    r.(sessions := if conns == {} then r.sessions - {key} else r.sessions[key := conns])
  }

  function Registered(r: Registry, key: string): Registry {
    r.(sessions := r.sessions[key := Sessions(r, key) + {r.next}], next := r.next + 1)
  }

  function Removed(r: Registry, key: string, id: ConnId): Registry {
    if key in r.sessions then SetKey(r, key, r.sessions[key] - {id} - r.closed) else r
  }

  function Pruned(r: Registry, key: string): Registry {
    if key in r.sessions then SetKey(r, key, r.sessions[key] - r.closed) else r
  }

  class AppState {
    var sessions: map<string, set<ConnId>>
    var closed: set<ConnId>
    var next: ConnId

    constructor ()
      ensures View() == EMPTY
    {
      sessions, closed, next := map[], {}, 0;
    }

    function View(): Registry
      reads this
    {
      Registry(sessions, closed, next)
    }

    method Register(key: string) returns (id: ConnId)
      modifies this
      ensures id == old(next) && View() == Registered(old(View()), key)
    {
      id := next;
      next := next + 1;
      var conns := if key in sessions then sessions[key] else {};
      sessions := sessions[key := conns + {id}];
    }

    /** Answers whether the device is still online. */
    method RemoveSession(key: string, id: ConnId) returns (online: bool)
      modifies this`sessions
      ensures View() == Removed(old(View()), key, id)
      ensures online <==> OtherLive(old(View()), key, id)
    {
      if key !in sessions {
        return false;
      }
      var conns := sessions[key] - {id} - closed;
      if conns == {} {
        sessions := sessions - {key};
        assert !OtherLive(old(View()), key, id) by {
          assert forall c :: c in old(sessions[key]) && c != id && c !in closed ==> c in conns;
        }
        return false;
      }
      var c :| c in conns;
      assert c in Sessions(old(View()), key);
      sessions := sessions[key := conns];
      return true;
    }

    method HasOtherSessions(key: string, id: ConnId) returns (online: bool)
      ensures online <==> OtherLive(View(), key, id)
    {
      online := key in sessions && exists c :: c in sessions[key] && c != id && c !in closed;
    }

    /**
     * Direct delivery to every session of a key. A failed send prunes the dead senders; the answer
     * says whether the presence key is to be deleted.
     */
    method Deliver(key: string, full: set<ConnId>) returns (deletePresence: bool)
      modifies this`sessions
      ensures var failed := exists c :: c in Sessions(old(View()), key) && (c in closed || c in full);
              && View() == (if failed then Pruned(old(View()), key) else old(View()))
              && (deletePresence <==> failed && key !in sessions)
              && (deletePresence <==> Sessions(old(View()), key) != {} && Sessions(old(View()), key) <= closed)
    {
      if key !in sessions {
        return false;
      }
      var senders, anyFailed := sessions[key], false;
      var left := senders;
      while left != {}
        invariant left <= senders
        invariant anyFailed <==> exists c :: c in senders - left && (c in closed || c in full)
        decreases |left|
      {
        var c :| c in left;
        left := left - {c};
        if c in closed || c in full {
          anyFailed := true;
          assert c in senders - left;
        } else {
          assert forall x :: x in senders - left ==> x in senders - (left + {c}) || x == c;
        }
      }
      assert senders - left == senders;
      if !anyFailed {
        return false;
      }
      var conns := sessions[key] - closed;
      if conns == {} {
        sessions := sessions - {key};
        return true;
      }
      sessions := sessions[key := conns];
      return false;
    }
  }

  // ---- Every run ----

  /** `open`: the sockets that are really connected, with the key they registered under. */
  datatype World = World(r: Registry, open: map<ConnId, string>)

  datatype Step =
    | Connect(key: string)
    | Close(id: ConnId)                       // the receiver goes away
    | Drop(key: string, id: ConnId)           // the connection guard unregisters
    | Disconnect(key: string, id: ConnId)     // the explicit frame, still registered
    | Prune(key: string)                      // after a failed direct delivery
    | ChannelFailure(key: string)             // after a failed channel event: the whole key goes

  function Next(w: World, s: Step): World {
    match s
    case Connect(key) => World(Registered(w.r, key), w.open[w.r.next := key])
    case Close(id) => World(w.r.(closed := w.r.closed + {id}), w.open - {id})
    case Drop(key, id) => World(Removed(w.r, key, id), w.open - {id})
    case Disconnect(_, _) => w
    case Prune(key) => w.(r := Pruned(w.r, key))
    case ChannelFailure(key) => w.(r := w.r.(sessions := w.r.sessions - {key}))
  }

  /** The step asks Redis to delete the presence of its key. */
  predicate Deletes(w: World, s: Step) {
    match s
    case Drop(key, id) => !OtherLive(w.r, key, id)
    case Disconnect(key, id) => !OtherLive(w.r, key, id)
    case Prune(key) => key !in Pruned(w.r, key).sessions
    case _ => false
  }

  /** An open socket under the step's key, other than the one leaving. */
  ghost predicate OtherOpen(w: World, s: Step) {
    match s
    case Drop(key, id) => exists c :: c in w.open && w.open[c] == key && c != id
    case Disconnect(key, id) => exists c :: c in w.open && w.open[c] == key && c != id
    case Prune(key) => exists c :: c in w.open && w.open[c] == key
    case _ => false
  }

  ghost predicate Tidy(r: Registry) {
    forall key :: key in r.sessions ==> r.sessions[key] != {}
  }

  /** Every open socket is registered under its key and not marked closed. */
  ghost predicate Tracked(w: World) {
    forall c :: c in w.open ==> c in Sessions(w.r, w.open[c]) && c !in w.r.closed && c < w.r.next
  }

  /** Connections are numbered once; only numbers given out are ever closed or registered. */
  ghost predicate Numbered(w: World) {
    && (forall c :: c in w.r.closed ==> c < w.r.next)
    && (forall key, c :: key in w.r.sessions && c in w.r.sessions[key] ==> c < w.r.next)
  }

  /** Only numbers given out are closed, and a connection's guard carries the connection's own key. */
  predicate Plausible(w: World, s: Step) {
    && (s.Close? ==> s.id < w.r.next)
    && (s.Drop? ==> s.id in w.open ==> w.open[s.id] == s.key)
  }

  /** Whatever is registered and not marked closed is an open socket of that key. */
  ghost predicate Owned(w: World) {
    forall key, c :: key in w.r.sessions && c in w.r.sessions[key] && c !in w.r.closed ==> c in w.open && w.open[c] == key
  }

  /** A connection is registered under one key. */
  ghost predicate OneKey(w: World) {
    forall a, b, c :: a in w.r.sessions && b in w.r.sessions && c in w.r.sessions[a] && c in w.r.sessions[b] ==> a == b
  }

  lemma OwnedStep(w: World, s: Step)
    requires Owned(w) && OneKey(w) && Numbered(w) && Plausible(w, s)
    ensures Owned(Next(w, s)) && OneKey(Next(w, s))
  {
  }

  lemma TidyStep(w: World, s: Step)
    requires Tidy(w.r)
    ensures Tidy(Next(w, s).r)
  {
  }

  lemma TrackedStep(w: World, s: Step)
    requires Tracked(w) && Numbered(w) && Plausible(w, s)
    ensures Numbered(Next(w, s))
    ensures Tracked(Next(w, s)) <==>
              (s.ChannelFailure? ==> forall c :: c in w.open ==> w.open[c] != s.key)
  {
  }

  function Run(w: World, steps: seq<Step>): World
    decreases |steps|
  {
    if steps == [] then w else Run(Next(w, steps[0]), steps[1..])
  }

  ghost predicate SafeRun(w: World, steps: seq<Step>)
    decreases |steps|
  {
    steps == [] ||
    (Plausible(w, steps[0])
     && (steps[0].ChannelFailure? ==> forall c :: c in w.open ==> w.open[c] != steps[0].key)
     && SafeRun(Next(w, steps[0]), steps[1..]))
  }

  lemma {:induction false} TrackedRun(w: World, steps: seq<Step>)
    requires Tracked(w) && Numbered(w) && Owned(w) && OneKey(w) && SafeRun(w, steps)
    ensures Tracked(Run(w, steps)) && Numbered(Run(w, steps)) && Owned(Run(w, steps)) && OneKey(Run(w, steps))
    decreases |steps|
  {
    if steps != [] {
      TrackedStep(w, steps[0]);
      OwnedStep(w, steps[0]);
      TrackedRun(Next(w, steps[0]), steps[1..]);
    }
  }

  lemma {:induction false} TidyRun(w: World, steps: seq<Step>)
    requires Tidy(w.r)
    ensures Tidy(Run(w, steps).r)
    decreases |steps|
  {
    if steps != [] {
      TidyStep(w, steps[0]);
      TidyRun(Next(w, steps[0]), steps[1..]);
    }
  }

  const START := World(EMPTY, map[])

  /** No reachable registry holds a key without sessions. */
  lemma NoEmptyKey(steps: seq<Step>)
    ensures Tidy(Run(START, steps).r)
  {
    TidyRun(START, steps);
  }

  predicate Leaves(s: Step) {
    s.Drop? || s.Disconnect? || s.Prune?
  }

  /** Presence is given up exactly when no other socket of the device is open. */
  lemma DecisionIsExact(steps: seq<Step>, s: Step)
    requires SafeRun(START, steps) && Leaves(s)
    ensures Deletes(Run(START, steps), s) <==> !OtherOpen(Run(START, steps), s)
  {
    TrackedRun(START, steps);
    var w := Run(START, steps);
    assert forall c :: c in w.open ==> c in Sessions(w.r, w.open[c]) && c !in w.r.closed;
    assert forall c :: c in Sessions(w.r, s.key) && c !in w.r.closed ==> c in w.open && w.open[c] == s.key;
    if s.Prune? && s.key in w.r.sessions {
      var left := w.r.sessions[s.key] - w.r.closed;
      assert forall c :: c in left <==> c in w.open && w.open[c] == s.key;
    }
  }

  /** A connection that has left is registered nowhere. */
  lemma DroppedIsGone(steps: seq<Step>, key: string, id: ConnId, other: string)
    requires SafeRun(START, steps) && id in Run(START, steps).open && Run(START, steps).open[id] == key
    ensures var v := Next(Run(START, steps), Drop(key, id));
            id !in v.open && id !in Sessions(v.r, other)
  {
    TrackedRun(START, steps);
    var w := Run(START, steps);
    assert id in Sessions(w.r, key);
  }

  /** A socket that was numbered before and is open now was open all along, under the same key. */
  lemma {:induction false} OpenAllAlong(w: World, steps: seq<Step>, c: ConnId)
    requires c in Run(w, steps).open && c < w.r.next
    ensures c in w.open && w.open[c] == Run(w, steps).open[c]
    decreases |steps|
  {
    if steps != [] {
      OpenAllAlong(Next(w, steps[0]), steps[1..], c);
    }
  }

  /** A socket of the step's key, other than the one that left, was connected from number `since` on. */
  ghost predicate Reconnected(w: World, s: Step, since: ConnId) {
    match s
    case Drop(key, id) => exists c :: c in w.open && w.open[c] == key && c != id && c >= since
    case Disconnect(key, id) => exists c :: c in w.open && w.open[c] == key && c != id && c >= since
    case Prune(key) => exists c :: c in w.open && w.open[c] == key && c >= since
    case _ => false
  }

  /**
   * The deletion runs later, in a task of its own. When it does, whatever happened since the decision,
   * it hits a device with an open socket exactly if one has connected in between.
   */
  lemma PresenceIsSafe(before: seq<Step>, s: Step, after: seq<Step>)
    requires SafeRun(START, before) && Deletes(Run(START, before), s)
    ensures var w := Run(START, before);
            var v := Run(Next(w, s), after);
            OtherOpen(v, s) <==> Reconnected(v, s, w.r.next)
  {
    DecisionIsExact(before, s);
    var w := Run(START, before);
    var v := Run(Next(w, s), after);
    forall c | c in v.open && c < w.r.next
      ensures c in w.open && w.open[c] == v.open[c]
    {
      OpenAllAlong(Next(w, s), after, c);
    }
  }

  /** Both ways of asking agree: what the explicit frame sees is what dropping the guard then answers. */
  lemma DisconnectAgreesWithDrop(w: World, key: string, id: ConnId)
    ensures Deletes(w, Disconnect(key, id)) <==> Deletes(w, Drop(key, id))
    ensures Tidy(w.r) ==> (Deletes(w, Drop(key, id)) <==> key !in Next(w, Drop(key, id)).r.sessions)
  {
    if key in w.r.sessions {
      var left := w.r.sessions[key] - {id} - w.r.closed;
      if c :| c in Sessions(w.r, key) && c != id && c !in w.r.closed {
        assert c in left;
      }
      if c :| c in left {
        assert c in Sessions(w.r, key);
      }
    }
  }

  /** A channel event that fails on one tab unregisters the others: whichever leaves next takes the device offline. */
  lemma ChannelFailureHidesALiveTab(w: World, key: string, c: ConnId, id: ConnId)
    requires c in w.open && w.open[c] == key && id != c
    ensures var v := Next(w, ChannelFailure(key));
            Deletes(v, Disconnect(key, id)) && OtherOpen(v, Disconnect(key, id))
  {
    var v := Next(w, ChannelFailure(key));
    assert c in v.open && v.open[c] == key;
    assert Sessions(v.r, key) == {};
  }
}
