/**
 * One SFU room: joins, track publications, departures and debounced renegotiations, as the steps of
 * concurrent tasks. A join attaches the existing tracks under the track lock; a publication pushes
 * its track under that lock and then walks the peer table, whose iteration only promises the entries
 * present throughout.
 */
module SfuRoom {
  type Peer = nat

  datatype Track = Track(publisher: Peer, id: nat)

  datatype Join = Registered | Attaching(todo: seq<Track>)

  /** `must`: who was in the table when the walk began. */
  datatype Walk = Walk(must: set<Peer>, visited: set<Peer>)

  /** The debounced renegotiations. */
  datatype Offers = Offers(
    owed: set<(Peer, Track)>,         // attached by a walk that has not scheduled the offer yet
    generation: map<Peer, nat>,
    timers: set<(Peer, nat)>,
    due: map<Peer, nat>,              // timers that passed the generation check
    sent: map<Peer, nat>)

  datatype Room = Room(
    peers: set<Peer>,
    known: set<Peer>,                 // every peer that ever registered
    joins: map<Peer, Join>,           // joins not finished yet
    locked: bool,                     // a join holds the track lock
    tracks: seq<Track>,
    waiting: set<Track>,              // pushed, walk not begun
    walks: map<Track, Walk>,
    byJoin: set<(Peer, Track)>,       // attach attempts
    byWalk: set<(Peer, Track)>,
    offers: Offers)

  datatype Step =
    | Register(peer: Peer)
    | LockTracks(peer: Peer)
    | AttachNext(peer: Peer)
    | FinishJoin(peer: Peer)
    | Leave(peer: Peer)
    | Push(track: Track)
    | BeginWalk(track: Track)
    | Visit(track: Track, peer: Peer, attached: bool)
    | Schedule(track: Track, peer: Peer)
    | EndWalk(track: Track)
    | Fire(peer: Peer, gen: nat)
    | Offer(peer: Peer)

  function Get(m: map<Peer, nat>, p: Peer): nat {
    if p in m then m[p] else 0
  }

  // ---- Joining ----

  function RegisterPeer(r: Room, p: Peer): Room {
    if p in r.known then r
    else r.(peers := r.peers + {p}, known := r.known + {p}, joins := r.joins[p := Registered])
  }

  function TakeTracks(r: Room, p: Peer): Room {
    if p in r.joins && r.joins[p].Registered? && !r.locked
    then r.(locked := true, joins := r.joins[p := Attaching(r.tracks)])
    else r
  }

  /** The attempt counts whether or not the peer connection accepts the track. */
  function AttachOne(r: Room, p: Peer): Room {
    if p in r.joins && r.joins[p].Attaching? && r.joins[p].todo != []
    then r.(byJoin := r.byJoin + {(p, r.joins[p].todo[0])}, joins := r.joins[p := Attaching(r.joins[p].todo[1..])])
    else r
  }

  function CompleteJoin(r: Room, p: Peer): Room {
    if p in r.joins && r.joins[p] == Attaching([]) then r.(locked := false, joins := r.joins - {p}) else r
  }

  // ---- Publishing ----

  function PushTrack(r: Room, t: Track): Room {
    if r.locked || t in r.tracks then r else r.(tracks := r.tracks + [t], waiting := r.waiting + {t})
  }

  function StartWalk(r: Room, t: Track): Room {
    if t !in r.waiting then r
    else r.(waiting := r.waiting - {t}, walks := r.walks[t := Walk(r.peers - {t.publisher}, {})])
  }

  /** A refused attach is skipped without a renegotiation. */
  function VisitPeer(r: Room, t: Track, p: Peer, attached: bool): Room {
    if t !in r.walks || p !in r.peers || p == t.publisher || p in r.walks[t].visited then r
    else
      var v := r.(byWalk := r.byWalk + {(p, t)}, walks := r.walks[t := r.walks[t].(visited := r.walks[t].visited + {p})]);
      if attached then v.(offers := Attached(r.offers, p, t)) else v
  }

  /** The iteration may end once everyone who was and still is in the table has been visited. */
  function FinishWalk(r: Room, t: Track): Room {
    if t in r.walks && (forall x :: x in r.offers.owed ==> x.1 != t) && r.walks[t].must * r.peers <= r.walks[t].visited
    then r.(walks := r.walks - {t}) else r
  }

  // ---- Debounce ----

  function Attached(o: Offers, p: Peer, t: Track): Offers {
    o.(owed := o.owed + {(p, t)})
  }

  /** Bumps the peer's generation and starts a timer that carries it. */
  function ScheduleOffer(o: Offers, p: Peer, t: Track): Offers {
    if (p, t) !in o.owed then o
    else
      var g := Get(o.generation, p) + 1;
      o.(owed := o.owed - {(p, t)}, generation := o.generation[p := g], timers := o.timers + {(p, g)})
  }

  /** Only the newest timer of a peer passes. */
  function FireTimer(o: Offers, p: Peer, g: nat): Offers {
    if (p, g) !in o.timers then o
    else if Get(o.generation, p) == g
    then o.(timers := o.timers - {(p, g)}, due := o.due[p := Get(o.due, p) + 1])
    else o.(timers := o.timers - {(p, g)})
  }

  /** A peer that left in the meantime gets no offer. */
  function SendOffer(o: Offers, p: Peer, present: bool): Offers {
    if Get(o.due, p) == 0 then o
    else if !present then o.(due := o.due[p := Get(o.due, p) - 1])
    else o.(due := o.due[p := Get(o.due, p) - 1], sent := o.sent[p := Get(o.sent, p) + 1])
  }

  function Next(r: Room, s: Step): Room {
    match s
    case Register(p) => RegisterPeer(r, p)
    case LockTracks(p) => TakeTracks(r, p)
    case AttachNext(p) => AttachOne(r, p)
    case FinishJoin(p) => CompleteJoin(r, p)
    case Leave(p) => r.(peers := r.peers - {p})
    case Push(t) => PushTrack(r, t)
    case BeginWalk(t) => StartWalk(r, t)
    case Visit(t, p, attached) => VisitPeer(r, t, p, attached)
    case Schedule(t, p) => r.(offers := ScheduleOffer(r.offers, p, t))
    case EndWalk(t) => FinishWalk(r, t)
    case Fire(p, g) => r.(offers := FireTimer(r.offers, p, g))
    case Offer(p) => r.(offers := SendOffer(r.offers, p, p in r.peers))
  }

  function Empty(): Room {
    Room({}, {}, map[], false, [], {}, map[], {}, {}, Offers({}, map[], {}, map[], map[]))
  }

  function Run(r: Room, steps: seq<Step>): Room
    decreases |steps|
  {
    if steps == [] then r else Run(Next(r, steps[0]), steps[1..])
  }

  // ---- No missed subscription ----

  /** Peer `p` has been, or is still bound to be, offered track `t` by one of the two tasks. */
  predicate Covered(r: Room, p: Peer, t: Track) {
    || (p, t) in r.byJoin
    || (p, t) in r.byWalk
    || (p in r.joins && r.joins[p].Registered?)
    || (p in r.joins && r.joins[p].Attaching? && t in r.joins[p].todo)
    || t in r.waiting
    || (t in r.walks && p in r.walks[t].must && p !in r.walks[t].visited)
  }

  ghost predicate Sound(r: Room) {
    && r.peers <= r.known && r.joins.Keys <= r.known
    && (forall p :: p in r.joins && r.joins[p].Attaching? ==> r.locked)
    && (forall p, q :: p in r.joins && q in r.joins && r.joins[p].Attaching? && r.joins[q].Attaching? ==> p == q)
    && (forall t :: t in r.waiting || t in r.walks ==> t in r.tracks)
    && (forall t :: t in r.walks ==> t !in r.waiting && t.publisher !in r.walks[t].must)
    && (forall t, p :: t in r.walks && p in r.walks[t].visited ==> (p, t) in r.byWalk)
    && (forall p, t :: p in r.peers && t in r.tracks && t.publisher != p ==> Covered(r, p, t))
  }

  lemma RegisterKeepsSound(r: Room, p: Peer)
    requires Sound(r)
    ensures Sound(RegisterPeer(r, p))
  {
  }

  lemma LockKeepsSound(r: Room, p: Peer)
    requires Sound(r)
    ensures Sound(TakeTracks(r, p))
  {
  }

  lemma AttachKeepsSound(r: Room, p: Peer)
    requires Sound(r)
    ensures Sound(AttachOne(r, p))
  {
  }

  lemma FinishJoinKeepsSound(r: Room, p: Peer)
    requires Sound(r)
    ensures Sound(CompleteJoin(r, p))
  {
  }

  lemma LeaveKeepsSound(r: Room, p: Peer)
    requires Sound(r)
    ensures Sound(Next(r, Leave(p)))
  {
  }

  lemma PushKeepsSound(r: Room, t: Track)
    requires Sound(r)
    ensures Sound(PushTrack(r, t))
  {
  }

  lemma BeginWalkKeepsSound(r: Room, t: Track)
    requires Sound(r)
    ensures Sound(StartWalk(r, t))
  {
  }

  lemma VisitKeepsSound(r: Room, t: Track, p: Peer, attached: bool)
    requires Sound(r)
    ensures Sound(VisitPeer(r, t, p, attached))
  {
    var v := VisitPeer(r, t, p, attached);
    forall q, u | q in v.peers && u in v.tracks && u.publisher != q ensures Covered(v, q, u) {
      assert Covered(r, q, u);
    }
  }

  lemma EndWalkKeepsSound(r: Room, t: Track)
    requires Sound(r)
    ensures Sound(FinishWalk(r, t))
  {
  }

  /** Timers and offers leave the subscription state alone. */
  lemma OffersKeepSound(r: Room, o: Offers)
    requires Sound(r)
    ensures Sound(r.(offers := o))
  {
  }

  lemma SoundStep(r: Room, s: Step)
    requires Sound(r)
    ensures Sound(Next(r, s))
  {
    match s
    case Register(p) => RegisterKeepsSound(r, p);
    case LockTracks(p) => LockKeepsSound(r, p);
    case AttachNext(p) => AttachKeepsSound(r, p);
    case FinishJoin(p) => FinishJoinKeepsSound(r, p);
    case Leave(p) => LeaveKeepsSound(r, p);
    case Push(t) => PushKeepsSound(r, t);
    case BeginWalk(t) => BeginWalkKeepsSound(r, t);
    case Visit(t, p, attached) => VisitKeepsSound(r, t, p, attached);
    case Schedule(t, p) => OffersKeepSound(r, ScheduleOffer(r.offers, p, t));
    case EndWalk(t) => EndWalkKeepsSound(r, t);
    case Fire(p, g) => OffersKeepSound(r, FireTimer(r.offers, p, g));
    case Offer(p) => OffersKeepSound(r, SendOffer(r.offers, p, p in r.peers));
  }

  lemma {:induction false} SoundRun(r: Room, steps: seq<Step>)
    requires Sound(r)
    ensures Sound(Run(r, steps))
    decreases |steps|
  {
    if steps != [] {
      SoundStep(r, steps[0]);
      SoundRun(Next(r, steps[0]), steps[1..]);
    }
  }

  /**
   * However joins, publications and departures interleave: a peer that is in the room with its join
   * finished was offered every track of another publisher whose walk is over.
   */
  lemma NoMissedSubscription(steps: seq<Step>, p: Peer, t: Track)
    ensures var r := Run(Empty(), steps);
            p in r.peers && p !in r.joins && t in r.tracks && t.publisher != p && t !in r.waiting && t !in r.walks
            ==> (p, t) in r.byJoin || (p, t) in r.byWalk
  {
    SoundRun(Empty(), steps);
    var r := Run(Empty(), steps);
    assert p in r.peers && t in r.tracks && t.publisher != p ==> Covered(r, p, t);
  }

  ghost predicate NoEcho(r: Room) {
    forall p, t :: (p, t) in r.byWalk ==> p != t.publisher
  }

  lemma {:induction false} NoEchoRun(r: Room, steps: seq<Step>)
    requires NoEcho(r)
    ensures NoEcho(Run(r, steps))
    decreases |steps|
  {
    if steps != [] {
      NoEchoRun(Next(r, steps[0]), steps[1..]);
    }
  }

  /** A publication never comes back to its own publisher. */
  lemma PublisherGetsNoEcho(steps: seq<Step>, t: Track)
    ensures (t.publisher, t) !in Run(Empty(), steps).byWalk
  {
    NoEchoRun(Empty(), steps);
  }

  // ---- Every attached track is followed by an offer ----

  /** The visit of a walk to a peer does something: the peer is there, another, and not visited yet. */
  predicate TakesEffect(r: Room, t: Track, p: Peer) {
    t in r.walks && p in r.peers && p != t.publisher && p !in r.walks[t].visited
  }

  /** The offer for track `t` at peer `p` is about to be scheduled, timed or due. */
  predicate Pending(o: Offers, p: Peer, t: Track) {
    (p, t) in o.owed || (p, Get(o.generation, p)) in o.timers || Get(o.due, p) > 0
  }

  /** An offer was sent to `p` after the first `base`, or one is pending for `t`. */
  predicate Promised(o: Offers, p: Peer, t: Track, base: nat) {
    Get(o.sent, p) > base || (Get(o.sent, p) == base && Pending(o, p, t))
  }

  predicate Stays(steps: seq<Step>, p: Peer) {
    forall i :: 0 <= i < |steps| ==> steps[i] != Leave(p)
  }

  lemma ScheduleKeepsPromise(o: Offers, p: Peer, t: Track, base: nat, q: Peer, u: Track)
    requires Promised(o, p, t, base)
    ensures Promised(ScheduleOffer(o, q, u), p, t, base)
  {
    if (p, t) == (q, u) { assert p == q; }
  }

  /** A superseded timer is dropped; a current one becomes an offer that is due. */
  lemma FireKeepsPromise(o: Offers, p: Peer, t: Track, base: nat, q: Peer, g: nat)
    requires Promised(o, p, t, base)
    ensures Promised(FireTimer(o, q, g), p, t, base)
  {
  }

  lemma OfferKeepsPromise(o: Offers, p: Peer, t: Track, base: nat, q: Peer, present: bool)
    requires Promised(o, p, t, base) && (q == p ==> present)
    ensures Promised(SendOffer(o, q, present), p, t, base)
  {
  }

  lemma PromiseStep(r: Room, s: Step, p: Peer, t: Track, base: nat)
    requires p in r.peers && s != Leave(p) && Promised(r.offers, p, t, base)
    ensures var v := Next(r, s); p in v.peers && Promised(v.offers, p, t, base)
  {
    match s
    case Visit(u, q, attached) =>
    case Schedule(u, q) => ScheduleKeepsPromise(r.offers, p, t, base, q, u);
    case Fire(q, g) => FireKeepsPromise(r.offers, p, t, base, q, g);
    case Offer(q) => OfferKeepsPromise(r.offers, p, t, base, q, q in r.peers);
    case _ => assert Next(r, s).offers == r.offers;
  }

  lemma {:induction false} PromiseRun(r: Room, steps: seq<Step>, p: Peer, t: Track, base: nat)
    requires p in r.peers && Stays(steps, p) && Promised(r.offers, p, t, base)
    ensures p in Run(r, steps).peers && Promised(Run(r, steps).offers, p, t, base)
    decreases |steps|
  {
    if steps != [] {
      PromiseStep(r, steps[0], p, t, base);
      PromiseRun(Next(r, steps[0]), steps[1..], p, t, base);
    }
  }

  /**
   * In any room, once a walk has attached a track to a peer, and for as long as the peer stays: an
   * offer has been sent to it since, or one is due, timed or about to be timed.
   */
  lemma NoForgottenOffer(r: Room, t: Track, p: Peer, steps: seq<Step>)
    requires TakesEffect(r, t, p) && Stays(steps, p)
    ensures var v := Run(Next(r, Visit(t, p, true)), steps);
            Get(v.offers.sent, p) > Get(r.offers.sent, p) || Pending(v.offers, p, t)
  {
    PromiseRun(Next(r, Visit(t, p, true)), steps, p, t, Get(r.offers.sent, p));
  }

  /** A track the peer connection refused leads to no offer. */
  lemma RefusedAttachIsSkipped(r: Room, t: Track, p: Peer)
    ensures Next(r, Visit(t, p, false)).offers == r.offers
  {
  }

  /** So once the room is quiet, whoever was given a track and stayed has been sent an offer for it, and nobody misses a track. */
  lemma QuietRoomIsComplete(before: seq<Step>, t: Track, p: Peer, after: seq<Step>, u: Track)
    requires TakesEffect(Run(Empty(), before), t, p) && Stays(after, p)
    requires var v := Run(Next(Run(Empty(), before), Visit(t, p, true)), after);
             && v.joins == map[] && v.waiting == {} && v.walks == map[]
             && v.offers.owed == {} && v.offers.timers == {} && Get(v.offers.due, p) == 0
    ensures var r := Run(Empty(), before);
            var v := Run(Next(r, Visit(t, p, true)), after);
            && Get(v.offers.sent, p) > Get(r.offers.sent, p)
            && (u in v.tracks && u.publisher != p ==> (p, u) in v.byJoin || (p, u) in v.byWalk)
  {
    var r := Run(Empty(), before);
    var v := Run(Next(r, Visit(t, p, true)), after);
    NoForgottenOffer(r, t, p, after);
    PromiseRun(Next(r, Visit(t, p, true)), after, p, t, Get(r.offers.sent, p));
    SoundRun(Empty(), before);
    SoundStep(r, Visit(t, p, true));
    SoundRun(Next(r, Visit(t, p, true)), after);
    assert u in v.tracks && u.publisher != p ==> Covered(v, p, u);
  }

  // ---- One offer per burst ----

  /** The peer's newest timer is still running. */
  predicate Armed(o: Offers, p: Peer) {
    (p, Get(o.generation, p)) in o.timers
  }

  /** Offers for `p` that were sent or are bound to be. */
  function Built(o: Offers, p: Peer): nat {
    Get(o.due, p) + Get(o.sent, p)
  }

  /** `p` stays, and each renegotiation of `p` is scheduled before the timer of the one before it fires. */
  predicate InBurst(r: Room, s: Step, p: Peer) {
    s != Leave(p) && (s.Schedule? && s.peer == p && (p, s.track) in r.offers.owed ==> Armed(r.offers, p))
  }

  predicate Burst(r: Room, steps: seq<Step>, p: Peer)
    decreases |steps|
  {
    steps == [] || (InBurst(r, steps[0], p) && Burst(Next(r, steps[0]), steps[1..], p))
  }

  /** From `o` to `v` the burst of `p` went on, and built an offer exactly if its newest timer fired. */
  predicate BuildsOnFire(o: Offers, v: Offers, p: Peer) {
    && (Armed(v, p) ==> Armed(o, p))
    && Built(v, p) == Built(o, p) + (if Armed(o, p) && !Armed(v, p) then 1 else 0)
  }

  lemma ScheduleInBurst(o: Offers, p: Peer, q: Peer, t: Track)
    requires q == p && (q, t) in o.owed ==> Armed(o, p)
    ensures BuildsOnFire(o, ScheduleOffer(o, q, t), p)
  {
  }

  lemma FireInBurst(o: Offers, p: Peer, q: Peer, g: nat)
    ensures BuildsOnFire(o, FireTimer(o, q, g), p)
  {
  }

  lemma OfferInBurst(o: Offers, p: Peer, q: Peer, present: bool)
    requires q == p ==> present
    ensures BuildsOnFire(o, SendOffer(o, q, present), p)
  {
  }

  /** A step of the burst builds an offer exactly if it fires the newest timer. */
  lemma BurstStep(r: Room, s: Step, p: Peer)
    requires p in r.peers && InBurst(r, s, p)
    ensures p in Next(r, s).peers && BuildsOnFire(r.offers, Next(r, s).offers, p)
  {
    match s
    case Schedule(t, q) => ScheduleInBurst(r.offers, p, q, t);
    case Fire(q, g) => FireInBurst(r.offers, p, q, g);
    case Offer(q) => OfferInBurst(r.offers, p, q, q in r.peers);
    case Visit(_, _, _) =>
    case _ => assert Next(r, s).offers == r.offers;
  }

  lemma {:induction false} BurstBuilds(r: Room, steps: seq<Step>, p: Peer)
    requires p in r.peers && Burst(r, steps, p)
    ensures var v := Run(r, steps);
            && (Armed(v.offers, p) ==> Armed(r.offers, p))
            && Built(v.offers, p) == Built(r.offers, p) + (if Armed(r.offers, p) && !Armed(v.offers, p) then 1 else 0)
    decreases |steps|
  {
    if steps != [] {
      BurstStep(r, steps[0], p);
      BurstBuilds(Next(r, steps[0]), steps[1..], p);
    }
  }

  /**
   * One offer per burst: a schedule starts it, any steps of the room follow, and each later schedule
   * comes before the newest timer has fired. However the timers fire in between, exactly one offer is
   * built, and only once the newest has fired; when nothing is due any more it has been sent.
   */
  lemma BurstIsOneOffer(r: Room, t: Track, steps: seq<Step>, p: Peer)
    requires p in r.peers && (p, t) in r.offers.owed && Burst(Next(r, Schedule(t, p)), steps, p)
    ensures var v := Run(Next(r, Schedule(t, p)), steps);
            var offers := if Armed(v.offers, p) then 0 else 1;
            && Built(v.offers, p) == Built(r.offers, p) + offers
            && (Get(r.offers.due, p) == 0 && Get(v.offers.due, p) == 0 ==>
                  Get(v.offers.sent, p) == Get(r.offers.sent, p) + offers)
  {
    BurstBuilds(Next(r, Schedule(t, p)), steps, p);
  }

  // ---- Things do happen ----

  /** An attached track whose offer is scheduled, whose timer fires and whose turn comes is offered. */
  lemma OfferComesOut(r: Room, t: Track, p: Peer)
    requires TakesEffect(r, t, p) && Get(r.offers.due, p) == 0
    ensures var scheduled := Next(Next(r, Visit(t, p, true)), Schedule(t, p));
            var g := Get(scheduled.offers.generation, p);
            var v := Next(Next(scheduled, Fire(p, g)), Offer(p));
            g == Get(r.offers.generation, p) + 1 && Get(v.offers.sent, p) == Get(r.offers.sent, p) + 1
  {
  }

  /** A new track reaches any other peer that is in the room when its walk begins. */
  lemma PublicationReaches(r: Room, t: Track, p: Peer, attached: bool)
    requires !r.locked && t !in r.tracks && p in r.peers && p != t.publisher
    ensures var v := Next(Next(Next(r, Push(t)), BeginWalk(t)), Visit(t, p, attached));
            t in v.tracks && (p, t) in v.byWalk && TakesEffect(Next(Next(r, Push(t)), BeginWalk(t)), t, p)
  {
  }

  function AttachMany(r: Room, p: Peer, n: nat): Room
    decreases n
  {
    if n == 0 then r else AttachMany(Next(r, AttachNext(p)), p, n - 1)
  }

  lemma {:induction false} AttachManyAttaches(r: Room, p: Peer, todo: seq<Track>)
    requires p in r.joins && r.joins[p] == Attaching(todo)
    ensures var v := AttachMany(r, p, |todo|);
            && v == r.(byJoin := v.byJoin, joins := v.joins) && v.joins == r.joins[p := Attaching([])]
            && forall t :: t in todo ==> (p, t) in v.byJoin
    ensures forall x :: x in r.byJoin ==> x in AttachMany(r, p, |todo|).byJoin
    decreases |todo|
  {
    if todo != [] {
      AttachManyAttaches(Next(r, AttachNext(p)), p, todo[1..]);
      assert forall t :: t in todo ==> t == todo[0] || t in todo[1..];
    }
  }

  /** A join runs to its end: the newcomer is in, was given every track there was, and the lock is free again. */
  lemma JoinCompletes(r: Room, p: Peer)
    requires !r.locked && p !in r.known && p !in r.joins
    ensures var began := Next(Next(r, Register(p)), LockTracks(p));
            var v := Next(AttachMany(began, p, |r.tracks|), FinishJoin(p));
            && p in v.peers && p !in v.joins && !v.locked && began.locked
            && forall t :: t in r.tracks ==> (p, t) in v.byJoin
  {
    var began := Next(Next(r, Register(p)), LockTracks(p));
    AttachManyAttaches(began, p, r.tracks);
  }

  /** A walk ends exactly when whoever was there at its start, and still is, was visited, and no offer of it is left to schedule. */
  lemma WalkEndsExactly(r: Room, t: Track)
    requires t in r.walks
    ensures t !in Next(r, EndWalk(t)).walks <==>
            && (forall p :: p in r.walks[t].must && p in r.peers ==> p in r.walks[t].visited)
            && (forall p :: (p, t) !in r.offers.owed)
  {
    if forall p :: (p, t) !in r.offers.owed {
      forall x | x in r.offers.owed ensures x.1 != t {
        assert x == (x.0, x.1);
      }
    }
  }
}
