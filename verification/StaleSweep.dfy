/**
 * The stale-device sweep of the delivery service at one instant: memberships of devices without a
 * fresh KeyPackage are demoted, then devices that are expired or have no KeyPackage at all lose
 * their whole footprint. `cutoff` is the start of the retention window.
 */
module StaleSweep {
  datatype Device = Device(user: string, id: string)

  /** A membership row is unique per device id and group. */
  datatype Seat = Seat(device: string, group: string)

  datatype Status = Pending | Active

  datatype Row = Row(user: string, status: Status)

  datatype Db = Db(
    packages: map<Device, int>,            // KeyPackage.createdAt
    seats: map<Seat, Row>,
    routing: map<string, set<Device>>,     // Redis group:members sets
    footprint: set<Device>)                // devices with prekeys, push tokens or queued messages

  function Holder(s: Seat, r: Row): Device {
    Device(r.user, s.device)
  }

  predicate Fresh(db: Db, d: Device, cutoff: int) {
    d in db.packages && db.packages[d] >= cutoff
  }

  predicate Holds(db: Db, d: Device, group: string) {
    Seat(d.id, group) in db.seats && db.seats[Seat(d.id, group)].user == d.user
  }

  // ---- detectStaleDevices ----

  predicate Demotes(db: Db, cutoff: int, s: Seat) {
    s in db.seats && db.seats[s].status.Active? && !Fresh(db, Holder(s, db.seats[s]), cutoff)
  }

  function Unrouted(routing: map<string, set<Device>>, group: string, d: Device): map<string, set<Device>> {
    if group in routing then routing[group := routing[group] - {d}] else routing
  }

  function Demoted(db: Db, s: Seat, row: Row): Db {
    db.(seats := db.seats[s := row.(status := Pending)], routing := Unrouted(db.routing, s.group, Holder(s, row)))
  }

  /** The effect of looking at the seats in `done`. */
  function DetectAmong(db: Db, cutoff: int, done: set<Seat>): Db {
    db.(seats := map s | s in db.seats ::
          if s in done && Demotes(db, cutoff, s) then db.seats[s].(status := Pending) else db.seats[s],
        routing := map g | g in db.routing ::
          (set d | d in db.routing[g] && !(Holds(db, d, g) && Seat(d.id, g) in done && Demotes(db, cutoff, Seat(d.id, g)))))
  }

  function Detect(db: Db, cutoff: int): Db {
    DetectAmong(db, cutoff, db.seats.Keys)
  }

  // ---- cleanupStaleDevices ----

  /** The veto asks for any active membership under this device id, whoever the user. */
  predicate Vetoed(db: Db, id: string) {
    exists s :: s in db.seats && s.device == id && db.seats[s].status.Active?
  }

  predicate Expired(db: Db, cutoff: int, d: Device) {
    d in db.packages && db.packages[d] < cutoff && !Vetoed(db, d.id)
  }

  function Orphans(db: Db): set<Device> {
    set s | s in db.seats && Holder(s, db.seats[s]) !in db.packages :: Holder(s, db.seats[s])
  }

  function Doomed(db: Db, cutoff: int): set<Device> {
    (set d | d in db.packages && Expired(db, cutoff, d)) + Orphans(db)
  }

  /** Every per-device row of the devices in `gone` disappears. */
  function PurgeAll(db: Db, gone: set<Device>): Db {
    Db(db.packages - gone,
      map s | s in db.seats && Holder(s, db.seats[s]) !in gone :: db.seats[s],
      map g | g in db.routing :: (set d | d in db.routing[g] && !(d in gone && Holds(db, d, g))),
      db.footprint - gone)
  }

  function Cleanup(db: Db, cutoff: int): Db {
    PurgeAll(db, Doomed(db, cutoff))
  }

  function Sweep(db: Db, cutoff: int): Db {
    Cleanup(Detect(db, cutoff), cutoff)
  }

  // ---- The running code ----

  class DeliveryStore {
    var packages: map<Device, int>
    var seats: map<Seat, Row>
    var routing: map<string, set<Device>>
    var footprint: set<Device>

    function View(): Db
      reads this
    {
      Db(packages, seats, routing, footprint)
    }

    method RemoveFromRouting(group: string, d: Device)
      modifies this`routing
      ensures routing == Unrouted(old(routing), group, d)
    {
      if group in routing { routing := routing[group := routing[group] - {d}]; }
    }

    method Demote(s: Seat, row: Row)
      modifies this`seats, this`routing
      ensures View() == Demoted(old(View()), s, row)
    {
      seats := seats[s := row.(status := Pending)];
      RemoveFromRouting(s.group, Holder(s, row));
    }

    method DetectStaleDevices(cutoff: int)
      modifies this`seats, this`routing
      ensures View() == Detect(old(View()), cutoff)
    {
      ghost var before := View();
      var rows := seats;
      var candidates := set s | s in rows && rows[s].status.Active?;
      var live := set d | d in packages && packages[d] >= cutoff;
      ghost var done: set<Seat> := {};
      var left := candidates;
      NothingDetected(before, cutoff);
      while left != {}
        invariant left <= candidates && done == candidates - left
        invariant View() == DetectAmong(before, cutoff, done)
        decreases |left|
      {
        var s :| s in left;
        left := left - {s};
        DetectOne(before, cutoff, done, s);
        if Holder(s, rows[s]) !in live {
          Demote(s, rows[s]);
        }
        done := done + {s};
      }
      DetectCandidatesOnly(before, cutoff, done);
    }

    method UnrouteEverywhere(groups: set<string>, d: Device)
      modifies this`routing
      ensures routing == map g | g in old(routing) :: if g in groups then old(routing)[g] - {d} else old(routing)[g]
    {
      ghost var before := routing;
      var left := groups;
      while left != {}
        invariant left <= groups && routing.Keys == before.Keys
        invariant forall g :: g in before ==> routing[g] == if g in groups - left then before[g] - {d} else before[g]
        decreases |left|
      {
        var g :| g in left;
        left := left - {g};
        RemoveFromRouting(g, d);
      }
    }

    /** purgeDeviceFootprint */
    method Purge(d: Device)
      modifies this
      ensures View() == PurgeAll(old(View()), {d})
    {
      ghost var before := View();
      var groups := set s | s in seats && Holder(s, seats[s]) == d :: s.group;
      seats := map s | s in seats && Holder(s, seats[s]) != d :: seats[s];
      UnrouteEverywhere(groups, d);
      packages := packages - {d};
      footprint := footprint - {d};
      PurgedOne(before, d, groups, View());
    }

    method FindDoomed(cutoff: int) returns (doomed: set<Device>)
      ensures doomed == Doomed(View(), cutoff)
    {
      var activeIds := set s | s in seats && seats[s].status.Active? :: s.device;
      var expired := set d | d in packages && packages[d] < cutoff && d.id !in activeIds;
      assert forall d :: d in packages ==> (d.id in activeIds <==> Vetoed(View(), d.id));
      doomed := expired + (set s | s in seats && Holder(s, seats[s]) !in packages :: Holder(s, seats[s]));
    }

    method PurgeEach(doomed: set<Device>)
      modifies this
      ensures View() == PurgeAll(old(View()), doomed)
    {
      ghost var before := View();
      ghost var done: set<Device> := {};
      var left := doomed;
      PurgeNone(before);
      while left != {}
        invariant done + left == doomed && done !! left
        invariant View() == PurgeAll(before, done)
        decreases |left|
      {
        var d :| d in left;
        left := left - {d};
        Purge(d);
        PurgeMore(before, done, d);
        done := done + {d};
      }
      assert done == doomed;
    }

    method CleanupStaleDevices(cutoff: int)
      modifies this
      ensures View() == Cleanup(old(View()), cutoff)
    {
      var doomed := FindDoomed(cutoff);
      PurgeEach(doomed);
    }
  }

  lemma NothingDetected(db: Db, cutoff: int)
    ensures DetectAmong(db, cutoff, {}) == db
  {
    var e := DetectAmong(db, cutoff, {});
    assert e.seats == db.seats;
    assert e.routing == db.routing by {
      forall g | g in db.routing ensures e.routing[g] == db.routing[g] {
      }
    }
  }

  /** Looking at one more active seat demotes it, and unroutes its holder, unless the holder is fresh. */
  lemma DetectOne(db: Db, cutoff: int, done: set<Seat>, s: Seat)
    requires s in db.seats && db.seats[s].status.Active? && s !in done
    ensures DetectAmong(db, cutoff, done + {s})
         == if Fresh(db, Holder(s, db.seats[s]), cutoff) then DetectAmong(db, cutoff, done)
            else Demoted(DetectAmong(db, cutoff, done), s, db.seats[s])
  {
    var before, after := DetectAmong(db, cutoff, done), DetectAmong(db, cutoff, done + {s});
    var d := Holder(s, db.seats[s]);
    DetectOneRoute(db, cutoff, done, s);
    if Fresh(db, d, cutoff) {
      assert after.seats == before.seats && after.routing == before.routing;
    } else {
      assert after.seats == before.seats[s := db.seats[s].(status := Pending)];
      assert after.routing == Unrouted(before.routing, s.group, d);
    }
  }

  lemma DetectOneRoute(db: Db, cutoff: int, done: set<Seat>, s: Seat)
    requires s in db.seats && db.seats[s].status.Active? && s !in done
    ensures forall g :: g in db.routing ==>
              DetectAmong(db, cutoff, done + {s}).routing[g] ==
                if g == s.group && !Fresh(db, Holder(s, db.seats[s]), cutoff)
                then DetectAmong(db, cutoff, done).routing[g] - {Holder(s, db.seats[s])}
                else DetectAmong(db, cutoff, done).routing[g]
  {
  }

  lemma DetectCandidatesOnly(db: Db, cutoff: int, done: set<Seat>)
    requires forall s :: s in db.seats && db.seats[s].status.Active? ==> s in done
    ensures DetectAmong(db, cutoff, done) == Detect(db, cutoff)
  {
    var a, b := DetectAmong(db, cutoff, done), Detect(db, cutoff);
    assert a.seats == b.seats;
    forall g | g in db.routing ensures a.routing[g] == b.routing[g] {
    }
    assert a.routing == b.routing;
  }

  lemma PurgedOne(db: Db, d: Device, groups: set<string>, after: Db)
    requires groups == set s | s in db.seats && Holder(s, db.seats[s]) == d :: s.group
    requires after.packages == db.packages - {d} && after.footprint == db.footprint - {d}
    requires after.seats == map s | s in db.seats && Holder(s, db.seats[s]) != d :: db.seats[s]
    requires after.routing == map g | g in db.routing :: if g in groups then db.routing[g] - {d} else db.routing[g]
    ensures after == PurgeAll(db, {d})
  {
    var p := PurgeAll(db, {d});
    forall g | g in db.routing ensures after.routing[g] == p.routing[g] {
      assert g in groups <==> Holds(db, d, g) by {
        if Holds(db, d, g) { assert Holder(Seat(d.id, g), db.seats[Seat(d.id, g)]) == d; }
      }
    }
    assert after.routing == p.routing && after.seats == p.seats;
  }

  lemma PurgeNone(db: Db)
    ensures PurgeAll(db, {}) == db
  {
    var p := PurgeAll(db, {});
    assert p.packages == db.packages && p.seats == db.seats && p.footprint == db.footprint;
    forall g | g in db.routing ensures p.routing[g] == db.routing[g] {
    }
    assert p.routing == db.routing;
  }

  lemma PurgeMore(db: Db, done: set<Device>, d: Device)
    requires d !in done
    ensures PurgeAll(PurgeAll(db, done), {d}) == PurgeAll(db, done + {d})
  {
    var m := PurgeAll(db, done);
    var a, b := PurgeAll(m, {d}), PurgeAll(db, done + {d});
    assert a.packages == b.packages && a.footprint == b.footprint;
    assert a.seats == b.seats;
    forall g | g in db.routing ensures a.routing[g] == b.routing[g] {
      assert Holds(m, d, g) <==> Holds(db, d, g);
    }
    assert a.routing == b.routing;
  }

  // ---- What a sweep does ----

  /** A device with a fresh KeyPackage keeps its package, its memberships as they were, and its routing. */
  lemma FreshSurvives(db: Db, cutoff: int, d: Device, group: string)
    requires Fresh(db, d, cutoff)
    ensures var after := Sweep(db, cutoff);
            && Fresh(after, d, cutoff)
            && (d in db.footprint ==> d in after.footprint)
            && (Holds(db, d, group) ==> Holds(after, d, group) && after.seats[Seat(d.id, group)] == db.seats[Seat(d.id, group)])
            && (group in db.routing && d in db.routing[group] ==> group in after.routing && d in after.routing[group])
  {
  }

  /** No membership is left whose device has no KeyPackage. */
  lemma EverySeatHasAPackage(db: Db, cutoff: int, s: Seat)
    requires s in Sweep(db, cutoff).seats
    ensures Holder(s, Sweep(db, cutoff).seats[s]) in Sweep(db, cutoff).packages
  {
  }

  /** Someone else's live membership under the same device id. */
  predicate Shielded(db: Db, cutoff: int, id: string) {
    exists s :: s in db.seats && s.device == id && db.seats[s].status.Active? && Fresh(db, Holder(s, db.seats[s]), cutoff)
  }

  /** An expired device survives exactly when its id is also that of a live member. */
  lemma ExpiredSurvivesExactlyWhenShielded(db: Db, cutoff: int, d: Device)
    requires d in db.packages && db.packages[d] < cutoff
    ensures d in Sweep(db, cutoff).packages <==> Shielded(db, cutoff, d.id)
  {
  }

  /** A device id belongs to one user. */
  predicate UniqueIds(db: Db) {
    forall s, d :: s in db.seats && d in db.packages && s.device == d.id ==> db.seats[s].user == d.user
  }

  /** With globally unique device ids only fresh devices are left. */
  lemma UniqueIdsLeaveOnlyFresh(db: Db, cutoff: int, d: Device)
    requires UniqueIds(db) && d in Sweep(db, cutoff).packages
    ensures Fresh(db, d, cutoff)
  {
  }

  lemma NothingToDetect(db: Db, cutoff: int)
    requires forall s :: s in db.seats ==> !Demotes(db, cutoff, s)
    ensures Detect(db, cutoff) == db
  {
    var e := Detect(db, cutoff);
    assert e.seats == db.seats;
    forall g | g in db.routing ensures e.routing[g] == db.routing[g] {
    }
    assert e.routing == db.routing;
  }

  lemma SweptIsSettled(db: Db, cutoff: int)
    ensures var after := Sweep(db, cutoff);
            && (forall s :: s in after.seats ==> !Demotes(after, cutoff, s))
            && Doomed(after, cutoff) == {}
  {
  }

  /** A second sweep at the same instant changes nothing. */
  lemma SweepIsIdempotent(db: Db, cutoff: int)
    ensures Sweep(Sweep(db, cutoff), cutoff) == Sweep(db, cutoff)
  {
    var after := Sweep(db, cutoff);
    SweptIsSettled(db, cutoff);
    NothingToDetect(after, cutoff);
    PurgeNone(after);
  }

  /** The order counts: cleaning up before detecting spares every stale device that still has an active row. */
  lemma CleanupFirstMisses(db: Db, cutoff: int, d: Device, group: string)
    requires d in db.packages && db.packages[d] < cutoff
    requires Holds(db, d, group) && db.seats[Seat(d.id, group)].status.Active?
    requires UniqueIds(db)
    ensures d in Detect(Cleanup(db, cutoff), cutoff).packages
    ensures d !in Sweep(db, cutoff).packages
  {
  }

  // ---- The purge runs on while devices publish ----

  /** A cleanup under way: `left` is what remains of the list it looked up. */
  datatype Job = Job(db: Db, left: set<Device>)

  datatype Event =
    | Publish(device: Device, at: int)     // a device uploads a new KeyPackage
    | Enrol(seat: Seat, row: Row)          // a membership row is written
    | PurgeListed(device: Device)

  function Looked(db: Db, cutoff: int): Job {
    Job(db, Doomed(db, cutoff))
  }

  function Happens(j: Job, e: Event): Job {
    match e
    case Publish(d, at) => j.(db := j.db.(packages := j.db.packages[d := at]))
    case Enrol(s, row) => j.(db := j.db.(seats := j.db.seats[s := row]))
    case PurgeListed(d) => if d in j.left then Job(PurgeAll(j.db, {d}), j.left - {d}) else j
  }

  function HappenAll(j: Job, events: seq<Event>): Job
    decreases |events|
  {
    if events == [] then j else HappenAll(Happens(j, events[0]), events[1..])
  }

  /** What is published during the job is newer than its cutoff. */
  predicate Timely(events: seq<Event>, cutoff: int) {
    forall i :: 0 <= i < |events| && events[i].Publish? ==> events[i].at >= cutoff
  }

  predicate FreshAfter(j: Job, events: seq<Event>, d: Device, cutoff: int) {
    Fresh(HappenAll(j, events).db, d, cutoff)
  }

  lemma {:induction false} UnlistedStaysFresh(j: Job, events: seq<Event>, d: Device, cutoff: int)
    requires Fresh(j.db, d, cutoff) && d !in j.left && Timely(events, cutoff)
    ensures FreshAfter(j, events, d, cutoff)
    decreases |events|
  {
    if events != [] {
      UnlistedStaysFresh(Happens(j, events[0]), events[1..], d, cutoff);
    }
  }

  /** The purge does not look again: a fresh device is safe from a job under way exactly if it is not on its list. */
  lemma SafeExactlyIfUnlisted(j: Job, d: Device, cutoff: int)
    requires Fresh(j.db, d, cutoff)
    ensures (forall events :: Timely(events, cutoff) ==> FreshAfter(j, events, d, cutoff)) <==> d !in j.left
  {
    if d in j.left {
      var events := [PurgeListed(d)];
      assert events[1..] == [] && HappenAll(j, events) == Happens(j, events[0]);
      assert Timely(events, cutoff) && !FreshAfter(j, events, d, cutoff);
    } else {
      forall events | Timely(events, cutoff) ensures FreshAfter(j, events, d, cutoff) {
        UnlistedStaysFresh(j, events, d, cutoff);
      }
    }
  }

  /** A device that was fresh when the list was made is safe; one that publishes after it was listed is purged fresh. */
  lemma LateRepublishIsPurged(db: Db, cutoff: int, d: Device, at: int)
    requires at >= cutoff
    ensures Fresh(db, d, cutoff) ==> d !in Looked(db, cutoff).left
    ensures d in Doomed(db, cutoff) ==>
              var republished := Happens(Looked(db, cutoff), Publish(d, at));
              Fresh(republished.db, d, cutoff) && d !in Happens(republished, PurgeListed(d)).db.packages
  {
  }

  // ---- What detection and purge mean ----

  /** After detection exactly the fresh active members are active, and no demoted one is routed to. */
  lemma DetectionMeans(db: Db, cutoff: int, s: Seat)
    ensures var after := Detect(db, cutoff);
            && after.packages == db.packages && after.footprint == db.footprint && after.seats.Keys == db.seats.Keys
            && (s in db.seats ==>
                  var d := Holder(s, db.seats[s]);
                  && Holder(s, after.seats[s]) == d
                  && (after.seats[s].status.Active? <==> db.seats[s].status.Active? && Fresh(db, d, cutoff))
                  && (db.seats[s].status.Active? && !Fresh(db, d, cutoff) && s.group in after.routing ==>
                        d !in after.routing[s.group]))
  {
    if s in db.seats {
      assert Seat(Holder(s, db.seats[s]).id, s.group) == s;
      assert Holds(db, Holder(s, db.seats[s]), s.group);
    }
  }

  /** A purged device leaves nothing behind: no package, no membership, no footprint, no routing where it was a member. */
  lemma PurgeLeavesNothing(db: Db, cutoff: int, d: Device, s: Seat)
    requires d in Doomed(db, cutoff)
    ensures var after := Cleanup(db, cutoff);
            && d !in after.packages && d !in after.footprint
            && (s in after.seats ==> Holder(s, after.seats[s]) != d)
            && (s in db.seats && Holder(s, db.seats[s]) == d && s.group in after.routing ==> d !in after.routing[s.group])
  {
    if s in db.seats && Holder(s, db.seats[s]) == d {
      assert Seat(d.id, s.group) == s && Holds(db, d, s.group);
    }
  }

  /** And a device that is not doomed keeps everything it had. */
  lemma OthersAreSpared(db: Db, cutoff: int, d: Device, s: Seat)
    requires d !in Doomed(db, cutoff)
    ensures var after := Cleanup(db, cutoff);
            && (d in db.packages ==> d in after.packages && after.packages[d] == db.packages[d])
            && (d in db.footprint ==> d in after.footprint)
            && (s in db.seats && Holder(s, db.seats[s]) == d ==> s in after.seats && after.seats[s] == db.seats[s])
            && (s.group in db.routing && d in db.routing[s.group] ==> s.group in after.routing && d in after.routing[s.group])
  {
  }
}
