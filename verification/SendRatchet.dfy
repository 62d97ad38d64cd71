/**
 * The send ratchet of one group across crashes. Checkpoints are not awaited on the send path, so a
 * reload may restore an older ratchet; a ledger that survives the crash says how many generations
 * to burn. Frames are written as their position in the ratchet, an epoch and a generation.
 */
module SendRatchet {
  import opened Basics

  const MAX_BURN: nat := 2000

  // ---- The ledger ----

  function Count(m: map<string, nat>, g: string): nat {
    if g in m then m[g] else 0
  }

  function Larger(a: nat, b: nat): nat {
    if a > b then a else b
  }

  /** How far the state on disk is behind the frames already counted; never negative. */
  function Deficit(emitted: nat, persisted: nat): nat {
    if emitted > persisted then emitted - persisted else 0
  }

  datatype Burn = Burn(count: nat, clamped: bool)

  class Ledger {
    var emitted: map<string, nat>
    var persisted: map<string, nat>

    constructor ()
      ensures emitted == map[] && persisted == map[]
    {
      emitted, persisted := map[], map[];
    }

    method NoteFrameEmitted(g: string)
      modifies this`emitted
      ensures emitted == old(emitted)[g := Count(old(emitted), g) + 1]
    {
      emitted := emitted[g := Count(emitted, g) + 1];
    }

    /** Per group the larger of what was declared and what is declared now. */
    method CommitPersisted(snapshot: map<string, nat>)
      modifies this`persisted
      ensures forall g :: Count(persisted, g) == Larger(Count(old(persisted), g), Count(snapshot, g))
    {
      var left := snapshot.Keys;
      while left != {}
        invariant left <= snapshot.Keys
        invariant forall g :: g in left ==> Count(persisted, g) == Count(old(persisted), g)
        invariant forall g :: g !in left ==> Count(persisted, g) == Larger(Count(old(persisted), g), Count(snapshot, g))
        decreases |left|
      {
        var g :| g in left;
        persisted := persisted[g := Larger(Count(persisted, g), snapshot[g])];
        left := left - {g};
      }
    }

    /** The groups that are behind, each with the generations to burn and whether the cap bit. */
    method PendingSendGenerations() returns (out: map<string, Burn>)
      ensures forall g :: g in out <==> Count(emitted, g) > Count(persisted, g)
      ensures forall g :: g in out ==>
                var d := Deficit(Count(emitted, g), Count(persisted, g));
                out[g].clamped == (d > MAX_BURN) && out[g].count == if d > MAX_BURN then MAX_BURN else d
    {
      out := map[];
      var left := emitted.Keys;
      while left != {}
        invariant left <= emitted.Keys
        invariant forall g :: g in out <==> g !in left && Count(emitted, g) > Count(persisted, g)
        invariant forall g :: g in out ==>
                    var d := Deficit(Count(emitted, g), Count(persisted, g));
                    out[g].clamped == (d > MAX_BURN) && out[g].count == if d > MAX_BURN then MAX_BURN else d
        decreases |left|
      {
        var g :| g in left;
        left := left - {g};
        var raw := emitted[g] - Count(persisted, g);
        if raw > 0 {
          out := out[g := Burn(if raw < MAX_BURN then raw else MAX_BURN, raw > MAX_BURN)];
        }
      }
    }
  }

  // ---- One group's ratchet, its ledger entry and its checkpoints ----

  datatype Spot = Spot(epoch: nat, gen: nat)

  predicate Before(a: Spot, b: Spot) {
    a.epoch < b.epoch || (a.epoch == b.epoch && a.gen < b.gen)
  }

  /**
   * A checkpoint reads the count, serialises, lands on disk and closes the ledger, in that order. A
   * snapshot is numbered when it is taken.
   */
  datatype Checkpoint =
    | Counted(count: nat)
    | Taken(count: nat, spot: Spot, version: nat)
    | Landed(count: nat, version: nat)

  /** The checkpoints under way, the number of the snapshot on disk and the last number given. */
  datatype Saves = Saves(flights: map<nat, Checkpoint>, stored: nat, last: nat)

  datatype Device = Device(
    live: Spot,               // the next frame's position
    inHand: seq<Spot>,        // encrypted, not yet counted
    noted: seq<Spot>,         // counted, so possibly on the wire
    emitted: nat,
    persisted: nat,
    disk: Spot,
    saves: Saves)

  datatype Step =
    | Encrypt
    | Note(i: nat)
    | Advance
    | CountEmitted(flight: nat)
    | Serialise(flight: nat)
    | Land(flight: nat)
    | Close(flight: nat)
    | Abandon(flight: nat)
    | Restart(burnt: nat)

  function SetFlight(v: Saves, k: nat, c: Checkpoint): Saves {
    v.(flights := v.flights[k := c])
  }

  function TakeSnapshot(d: Device, k: nat): Device {
    if k !in d.saves.flights || !d.saves.flights[k].Counted? then d
    else
      var n := d.saves.last + 1;
      d.(saves := SetFlight(d.saves, k, Taken(d.saves.flights[k].count, d.live, n)).(last := n))
  }

  /** A snapshot no newer than the stored one is skipped, and the write still succeeds. */
  function LandSnapshot(d: Device, k: nat): Device {
    if k !in d.saves.flights || !d.saves.flights[k].Taken? then d
    else
      var c := d.saves.flights[k];
      var after := SetFlight(d.saves, k, Landed(c.count, c.version));
      if c.version <= d.saves.stored then d.(saves := after)
      else d.(disk := c.spot, saves := after.(stored := c.version))
  }

  function CloseCheckpoint(d: Device, k: nat): Device {
    if k !in d.saves.flights || !d.saves.flights[k].Landed? then d
    else d.(persisted := Larger(d.persisted, d.saves.flights[k].count), saves := d.saves.(flights := d.saves.flights - {k}))
  }

  function Next(d: Device, s: Step): Device {
    match s
    case Encrypt => d.(live := d.live.(gen := d.live.gen + 1), inHand := d.inHand + [d.live])
    case Note(i) =>
      if i < |d.inHand|
      then d.(inHand := d.inHand[..i] + d.inHand[i + 1..], noted := d.noted + [d.inHand[i]], emitted := d.emitted + 1)
      else d
    case Advance => d.(live := Spot(d.live.epoch + 1, 0))
    case CountEmitted(k) =>
      if k in d.saves.flights then d else d.(saves := SetFlight(d.saves, k, Counted(d.emitted)))
    case Serialise(k) => TakeSnapshot(d, k)
    case Land(k) => LandSnapshot(d, k)
    case Close(k) => CloseCheckpoint(d, k)
    // A failed serialisation or write: the ledger is not told.
    case Abandon(k) => d.(saves := d.saves.(flights := d.saves.flights - {k}))
    // A crash loses the frames in hand and the checkpoints under way; the numbers go on from the
    // stored one, and the load burns before any send.
    case Restart(burnt) =>
      d.(live := d.disk.(gen := d.disk.gen + burnt), inHand := [], saves := Saves(map[], d.saves.stored, d.saves.stored))
  }

  function Start(): Device {
    Device(Spot(0, 0), [], [], 0, 0, Spot(0, 0), Saves(map[], 0, 0))
  }

  function Run(d: Device, steps: seq<Step>): Device
    decreases |steps|
  {
    if steps == [] then d else Run(Next(d, steps[0]), steps[1..])
  }

  /** No frame was counted in an epoch that has not reached the disk. */
  predicate EpochsReachedDisk(d: Device) {
    forall i :: 0 <= i < |d.noted| ==> d.noted[i].epoch <= d.disk.epoch
  }

  /**
   * Frames are counted in the order they were encrypted; a reload burns the whole deficit, below
   * the cap; and the epoch of every counted frame had reached the disk.
   */
  predicate Careful(d: Device, s: Step) {
    match s
    case Note(i) => i == 0
    case Restart(burnt) =>
      burnt == Deficit(d.emitted, d.persisted) <= MAX_BURN && EpochsReachedDisk(d)
    case _ => true
  }

  predicate CarefulRun(d: Device, steps: seq<Step>)
    decreases |steps|
  {
    steps == [] || (Careful(d, steps[0]) && CarefulRun(Next(d, steps[0]), steps[1..]))
  }

  // ---- The invariant ----

  /** The oldest frame not counted yet, or the next one to be encrypted. */
  function Frontier(d: Device): Spot {
    if d.inHand == [] then d.live else d.inHand[0]
  }

  predicate Increasing(s: seq<Spot>) {
    forall i, j :: 0 <= i < j < |s| ==> Before(s[i], s[j])
  }

  /** `b` comes straight after `a`: the next generation, or the start of a later epoch. */
  predicate Follows(a: Spot, b: Spot) {
    (b.epoch == a.epoch && b.gen == a.gen + 1) || (b.epoch > a.epoch && b.gen == 0)
  }

  /** The frames in hand and the next one. */
  function Queue(d: Device): seq<Spot> {
    d.inHand + [d.live]
  }

  predicate Linked(q: seq<Spot>, i: nat) {
    i + 1 < |q| ==> Follows(q[i], q[i + 1])
  }

  ghost predicate Contiguous(q: seq<Spot>) {
    forall i :: 0 <= i < |q| ==> Linked(q, i)
  }

  /** A restore of `spot` that burns all but `count` of the emitted frames passes every counted frame. */
  predicate Covers(d: Device, spot: Spot, count: nat) {
    && count <= d.emitted
    && (forall i :: 0 <= i < |d.noted| && d.noted[i].epoch == spot.epoch ==> d.noted[i].gen < spot.gen + d.emitted - count)
    && (Frontier(d).epoch == spot.epoch ==> Frontier(d).gen <= spot.gen + d.emitted - count)
  }

  /** A restore of `spot` covers every count that is, or will be, recorded for a snapshot up to `version`. */
  ghost predicate CoversClaims(d: Device, spot: Spot, version: nat) {
    && (d.saves.stored <= version ==> Covers(d, spot, d.persisted))
    && forall k :: k in d.saves.flights && !d.saves.flights[k].Counted? && d.saves.flights[k].version <= version ==>
         Covers(d, spot, d.saves.flights[k].count)
  }

  ghost predicate FlightSound(d: Device, c: Checkpoint) {
    match c
    case Counted(n) => n <= d.emitted
    case Taken(_, spot, v) => v <= d.saves.last && CoversClaims(d, spot, v)
    case Landed(_, v) => v <= d.saves.stored
  }

  ghost predicate SavesSound(d: Device) {
    && d.saves.stored <= d.saves.last
    && CoversClaims(d, d.disk, d.saves.stored)
    && forall k :: k in d.saves.flights ==> FlightSound(d, d.saves.flights[k])
  }

  ghost predicate Sound(d: Device) {
    && Increasing(d.noted)
    && (forall i :: 0 <= i < |d.noted| ==> Before(d.noted[i], Frontier(d)))
    && Contiguous(Queue(d))
    && SavesSound(d)
  }

  lemma {:induction false} FirstIsNotAhead(q: seq<Spot>)
    requires q != [] && Contiguous(q)
    ensures q[0] == q[|q| - 1] || Before(q[0], q[|q| - 1])
  {
    if |q| > 1 {
      forall i | 0 <= i < |q[1..]| ensures Linked(q[1..], i) {
        assert Linked(q, i + 1);
      }
      FirstIsNotAhead(q[1..]);
      assert Linked(q, 0);
    }
  }

  lemma FrontierIsNotAhead(d: Device)
    requires Contiguous(Queue(d))
    ensures Frontier(d) == d.live || Before(Frontier(d), d.live)
  {
    FirstIsNotAhead(Queue(d));
  }

  lemma NoteMovesTheFrontier(d: Device)
    requires d.inHand != [] && Contiguous(Queue(d))
    ensures var e := Next(d, Note(0)); Contiguous(Queue(e)) && Follows(Frontier(d), Frontier(e))
  {
    var e := Next(d, Note(0));
    assert Queue(e) == Queue(d)[1..];
    forall i | 0 <= i < |Queue(e)| ensures Linked(Queue(e), i) {
      assert Linked(Queue(d), i + 1);
    }
    assert Linked(Queue(d), 0);
  }

  /** Counting a frame raises the deficit by one and the frontier by at most one. */
  lemma NoteKeepsCover(d: Device, spot: Spot, count: nat)
    requires d.inHand != [] && Contiguous(Queue(d)) && Covers(d, spot, count)
    ensures Covers(Next(d, Note(0)), spot, count)
  {
    NoteMovesTheFrontier(d);
  }

  /** A step that moves no save keeps them sound if it keeps what covers what. */
  lemma SavesFrame(d: Device, e: Device)
    requires SavesSound(d) && e.saves == d.saves && e.disk == d.disk && e.persisted == d.persisted && d.emitted <= e.emitted
    requires forall spot, n :: Covers(d, spot, n) ==> Covers(e, spot, n)
    ensures SavesSound(e)
  {
    forall spot, v | CoversClaims(d, spot, v) ensures CoversClaims(e, spot, v) {
    }
    forall k | k in e.saves.flights ensures FlightSound(e, e.saves.flights[k]) {
      assert FlightSound(d, d.saves.flights[k]);
    }
  }

  lemma NoteKeepsSound(d: Device)
    requires Sound(d) && d.inHand != []
    ensures Sound(Next(d, Note(0)))
  {
    NoteMovesTheFrontier(d);
    forall spot, n | Covers(d, spot, n) ensures Covers(Next(d, Note(0)), spot, n) {
      NoteKeepsCover(d, spot, n);
    }
    SavesFrame(d, Next(d, Note(0)));
  }

  lemma EncryptKeepsSound(d: Device)
    requires Sound(d)
    ensures Sound(Next(d, Encrypt))
  {
    var e := Next(d, Encrypt);
    assert Frontier(e) == Frontier(d);
    forall i | 0 <= i < |Queue(e)| ensures Linked(Queue(e), i) {
      if i < |d.inHand| { assert Linked(Queue(d), i); }
    }
    SavesFrame(d, e);
  }

  lemma AdvanceKeepsSound(d: Device)
    requires Sound(d)
    ensures Sound(Next(d, Advance))
  {
    var e := Next(d, Advance);
    forall i | 0 <= i < |Queue(e)| ensures Linked(Queue(e), i) {
      if i < |d.inHand| { assert Linked(Queue(d), i); }
    }
    SavesFrame(d, e);
  }

  /** The checkpoint steps leave the frames alone, so what covers what stays. */
  lemma SameFrames(d: Device, e: Device)
    requires e.live == d.live && e.inHand == d.inHand && e.noted == d.noted && e.emitted == d.emitted
    ensures forall spot, n :: Covers(e, spot, n) <==> Covers(d, spot, n)
    ensures Queue(e) == Queue(d) && Frontier(e) == Frontier(d)
  {
  }

  /** What is serialised now covers every count read so far. */
  lemma LiveCovers(d: Device, n: nat)
    requires Sound(d) && n <= d.emitted
    ensures Covers(d, d.live, n)
  {
    FrontierIsNotAhead(d);
  }

  lemma CountKeepsSound(d: Device, k: nat)
    requires Sound(d)
    ensures Sound(Next(d, CountEmitted(k)))
  {
    var e := Next(d, CountEmitted(k));
    SameFrames(d, e);
    forall spot, v | CoversClaims(d, spot, v) ensures CoversClaims(e, spot, v) {
    }
    forall j | j in e.saves.flights ensures FlightSound(e, e.saves.flights[j]) {
      if j in d.saves.flights { assert FlightSound(d, d.saves.flights[j]); }
    }
  }

  lemma SerialiseKeepsSound(d: Device, k: nat)
    requires Sound(d)
    ensures Sound(Next(d, Serialise(k)))
  {
    var e := Next(d, Serialise(k));
    SameFrames(d, e);
    if k in d.saves.flights && d.saves.flights[k].Counted? {
      var n := d.saves.last + 1;
      assert FlightSound(d, d.saves.flights[k]);
      forall spot, v: nat | v < n && CoversClaims(d, spot, v) ensures CoversClaims(e, spot, v) {
      }
      forall j | j in d.saves.flights ensures Covers(e, d.live, d.saves.flights[j].count) {
        assert FlightSound(d, d.saves.flights[j]);
        LiveCovers(d, d.saves.flights[j].count);
      }
      LiveCovers(d, d.persisted);
      assert CoversClaims(e, d.live, n);
      forall j | j in e.saves.flights ensures FlightSound(e, e.saves.flights[j]) {
        assert FlightSound(d, d.saves.flights[j]);
      }
    }
  }

  lemma LandKeepsSound(d: Device, k: nat)
    requires Sound(d)
    ensures Sound(Next(d, Land(k)))
  {
    var e := Next(d, Land(k));
    SameFrames(d, e);
    if k in d.saves.flights && d.saves.flights[k].Taken? {
      assert FlightSound(d, d.saves.flights[k]);
      forall spot, v | CoversClaims(d, spot, v) ensures CoversClaims(e, spot, v) {
      }
      forall j | j in e.saves.flights ensures FlightSound(e, e.saves.flights[j]) {
        assert FlightSound(d, d.saves.flights[j]);
      }
    }
  }

  lemma CloseKeepsSound(d: Device, k: nat)
    requires Sound(d)
    ensures Sound(Next(d, Close(k)))
  {
    var e := Next(d, Close(k));
    SameFrames(d, e);
    if k in d.saves.flights && d.saves.flights[k].Landed? {
      assert FlightSound(d, d.saves.flights[k]);
      forall spot, v | CoversClaims(d, spot, v) ensures CoversClaims(e, spot, v) {
      }
      forall j | j in e.saves.flights ensures FlightSound(e, e.saves.flights[j]) {
        assert FlightSound(d, d.saves.flights[j]);
      }
    }
  }

  lemma AbandonKeepsSound(d: Device, k: nat)
    requires Sound(d)
    ensures Sound(Next(d, Abandon(k)))
  {
    var e := Next(d, Abandon(k));
    SameFrames(d, e);
    forall spot, v | CoversClaims(d, spot, v) ensures CoversClaims(e, spot, v) {
    }
    forall j | j in e.saves.flights ensures FlightSound(e, e.saves.flights[j]) {
      assert FlightSound(d, d.saves.flights[j]);
    }
  }

  /** Checkpoints may overlap, land out of order, be skipped as stale or fail: every restore point stays covered. */
  lemma CheckpointKeepsSound(d: Device, s: Step)
    requires Sound(d) && (s.CountEmitted? || s.Serialise? || s.Land? || s.Close? || s.Abandon?)
    ensures Sound(Next(d, s))
  {
    match s
    case CountEmitted(k) => CountKeepsSound(d, k);
    case Serialise(k) => SerialiseKeepsSound(d, k);
    case Land(k) => LandKeepsSound(d, k);
    case Close(k) => CloseKeepsSound(d, k);
    case Abandon(k) => AbandonKeepsSound(d, k);
  }

  lemma RestartKeepsSound(d: Device, burnt: nat)
    requires Sound(d) && Careful(d, Restart(burnt))
    ensures Sound(Next(d, Restart(burnt)))
  {
  }

  lemma SoundStep(d: Device, s: Step)
    requires Sound(d) && Careful(d, s)
    ensures Sound(Next(d, s))
  {
    match s
    case Encrypt => EncryptKeepsSound(d);
    case Note(_) => if d.inHand != [] { NoteKeepsSound(d); }
    case Advance => AdvanceKeepsSound(d);
    case Restart(burnt) => RestartKeepsSound(d, burnt);
    case _ => CheckpointKeepsSound(d, s);
  }

  lemma {:induction false} SoundRun(d: Device, steps: seq<Step>)
    requires Sound(d) && CarefulRun(d, steps)
    ensures Sound(Run(d, steps))
    decreases |steps|
  {
    if steps != [] {
      SoundStep(d, steps[0]);
      SoundRun(Next(d, steps[0]), steps[1..]);
    }
  }

  // ---- No generation is spent twice ----

  /**
   * Over any number of sends, checkpoints, commits, crashes and reloads, no two counted frames
   * share a position, and the next frame's position is beyond them all.
   */
  lemma NoGenerationIsReused(steps: seq<Step>)
    requires CarefulRun(Start(), steps)
    ensures var d := Run(Start(), steps);
            && (forall i, j :: 0 <= i < j < |d.noted| ==> d.noted[i] != d.noted[j])
            && (forall i :: 0 <= i < |d.noted| ==> Before(d.noted[i], d.live))
  {
    assert Sound(Start());
    SoundRun(Start(), steps);
    var d := Run(Start(), steps);
    FrontierIsNotAhead(d);
  }

  // ---- Each hypothesis is needed ----

  /** What a device does after a reload: send and count a frame, or apply a commit. */
  datatype Move = SendOne | NextEpoch

  function Moved(d: Device, m: Move): Device {
    if m.SendOne? then Next(Next(d, Encrypt), Note(0)) else Next(d, Advance)
  }

  function Go(d: Device, moves: seq<Move>): Device
    decreases |moves|
  {
    if moves == [] then d else Go(Moved(d, moves[0]), moves[1..])
  }

  /** Some counted frame shares its position with an earlier one. */
  predicate Reuses(d: Device) {
    exists i, j :: 0 <= i < j < |d.noted| && d.noted[i] == d.noted[j]
  }

  predicate ReusesAfter(d: Device, moves: seq<Move>) {
    Reuses(Go(d, moves))
  }

  /** Every counted frame is behind the next one. */
  predicate Beyond(d: Device) {
    d.inHand == [] && forall i :: 0 <= i < |d.noted| ==> Before(d.noted[i], d.live)
  }

  lemma MovedNotes(d: Device, m: Move)
    requires d.inHand == []
    ensures Moved(d, m).inHand == []
    ensures Moved(d, m).noted == if m.SendOne? then d.noted + [d.live] else d.noted
  {
  }

  lemma {:induction false} GoKeepsFresh(d: Device, moves: seq<Move>)
    requires !Reuses(d) && Beyond(d)
    ensures !ReusesAfter(d, moves)
    decreases |moves|
  {
    if moves != [] {
      var e := Moved(d, moves[0]);
      MovedNotes(d, moves[0]);
      forall i, j | 0 <= i < j < |e.noted| ensures e.noted[i] != e.noted[j] {
        if j < |d.noted| { assert d.noted[i] != d.noted[j]; }
      }
      GoKeepsFresh(e, moves[1..]);
    }
  }

  /** A position that is not behind is met again: some commits, some frames, then that one. */
  lemma {:induction false} GoMeets(d: Device, i: nat) returns (moves: seq<Move>)
    requires d.inHand == [] && i < |d.noted| && !Before(d.noted[i], d.live)
    ensures ReusesAfter(d, moves)
    decreases d.noted[i].epoch - d.live.epoch, d.noted[i].gen - d.live.gen
  {
    var m := if d.noted[i].epoch > d.live.epoch then NextEpoch else SendOne;
    var e := Moved(d, m);
    MovedNotes(d, m);
    if d.noted[i] == d.live {
      assert e.noted[i] == e.noted[|d.noted|];
      moves := [m];
      assert moves[1..] == [] && Go(d, moves) == e;
    } else {
      var rest := GoMeets(e, i);
      moves := [m] + rest;
      assert moves[1..] == rest;
    }
  }

  /** The burn passes every frame already counted in the restored epoch. */
  predicate BurnPasses(d: Device, burnt: nat) {
    forall i :: 0 <= i < |d.noted| && d.noted[i].epoch == d.disk.epoch ==> d.noted[i].gen < d.disk.gen + burnt
  }

  /**
   * Exactly when a reload is safe, whatever is sent and committed after it: the burn passes every
   * counted frame of the restored epoch, and no counted frame belongs to a later one. A short burn -
   * clamped, failed half-way or undercounted - is repaid by a reused generation, and so is an epoch
   * that was lost, because the ledger burns in the restored epoch only.
   */
  lemma BurnIsEnoughExactly(d: Device, burnt: nat)
    requires !Reuses(d)
    ensures BurnPasses(d, burnt) && EpochsReachedDisk(d) <==>
            forall moves :: !ReusesAfter(Next(d, Restart(burnt)), moves)
  {
    var e := Next(d, Restart(burnt));
    if BurnPasses(d, burnt) && EpochsReachedDisk(d) {
      forall moves ensures !ReusesAfter(e, moves) {
        GoKeepsFresh(e, moves);
      }
    } else {
      var i :| 0 <= i < |d.noted| && !Before(d.noted[i], e.live);
      var moves := GoMeets(e, i);
    }
  }

  /** If a later epoch had already been used, replaying its commit starts that epoch's ratchet at zero again. */
  lemma LostEpochReuses(d: Device, burnt: nat, i: nat) returns (moves: seq<Move>)
    requires !Reuses(d) && i < |d.noted| && d.noted[i].epoch > d.disk.epoch
    ensures ReusesAfter(Next(d, Restart(burnt)), moves)
  {
    BurnIsEnoughExactly(d, burnt);
    moves :| ReusesAfter(Next(d, Restart(burnt)), moves);
  }

  /** The shortest such run, with everything else in order: one commit, one frame, a reload before any checkpoint. */
  lemma LostEpochIsReachable() returns (moves: seq<Move>)
    ensures var d := Run(Start(), [Advance, Encrypt, Note(0)]);
            && CarefulRun(Start(), [Advance, Encrypt, Note(0)]) && BurnPasses(d, Deficit(d.emitted, d.persisted))
            && ReusesAfter(Next(d, Restart(Deficit(d.emitted, d.persisted))), moves)
  {
    var d := Next(Next(Next(Start(), Advance), Encrypt), Note(0));
    var steps := [Advance, Encrypt, Note(0)];
    assert steps[1..] == [Encrypt, Note(0)] && steps[1..][1..] == [Note(0)] && steps[1..][1..][1..] == [];
    assert d.noted == [Spot(1, 0)];
    moves := LostEpochReuses(d, Deficit(d.emitted, d.persisted), 0);
  }

  /** Two frames counted out of order leave the ledger one short. */
  lemma OutOfOrderCountReuses()
    ensures var d := Next(Next(Next(Start(), Encrypt), Encrypt), Note(1));
            var e := Next(Next(Next(d, Restart(Deficit(d.emitted, d.persisted))), Encrypt), Note(0));
            Reuses(e)
  {
    var d := Next(Next(Next(Start(), Encrypt), Encrypt), Note(1));
    assert d.noted == [Spot(0, 1)] && d.emitted == 1;
    var e := Next(Next(Next(d, Restart(Deficit(d.emitted, d.persisted))), Encrypt), Note(0));
    assert e.noted[0] == e.noted[1];
  }

  // ---- The receiving side ----

  const FORWARD: nat := 2000
  const TOLERANCE: nat := 2000

  /** A receiver's ratchet for this sender and epoch: what it derived so far and what it consumed. */
  datatype Receiver = Receiver(head: nat, consumed: set<nat>)

  datatype Reading = Readable | TooFarAhead | TooFarBehind | AlreadyConsumed

  function Reads(r: Receiver, gen: nat): Reading {
    if gen >= r.head then if gen - r.head > FORWARD then TooFarAhead else Readable
    else if r.head - gen > TOLERANCE then TooFarBehind
    else if gen in r.consumed then AlreadyConsumed
    else Readable
  }

  function Consume(r: Receiver, gen: nat): Receiver {
    if Reads(r, gen).Readable? then Receiver(Larger(r.head, gen + 1), r.consumed + {gen}) else r
  }

  function ConsumeAll(r: Receiver, gens: seq<nat>): Receiver
    decreases |gens|
  {
    if gens == [] then r else ConsumeAll(Consume(r, gens[0]), gens[1..])
  }

  lemma {:induction false} HeadFollowsFrames(r: Receiver, gens: seq<nat>, bound: nat)
    requires r.head <= bound && (forall g :: g in r.consumed ==> g < bound)
    requires forall i :: 0 <= i < |gens| ==> gens[i] < bound
    ensures ConsumeAll(r, gens).head <= bound
    ensures forall g :: g in ConsumeAll(r, gens).consumed ==> g < bound
    decreases |gens|
  {
    if gens != [] {
      HeadFollowsFrames(Consume(r, gens[0]), gens[1..], bound);
    }
  }

  /**
   * After a repaired restart a receiver that saw any of the earlier frames, in any order and with
   * any duplicates, reads the next frame exactly when it is within the forward bound.
   */
  lemma RepairedFrameIsReadable(gens: seq<nat>, next: nat)
    requires forall i :: 0 <= i < |gens| ==> gens[i] < next
    ensures var r := ConsumeAll(Receiver(0, {}), gens);
            Reads(r, next).Readable? <==> next - r.head <= FORWARD
  {
    HeadFollowsFrames(Receiver(0, {}), gens, next);
  }

  /** A frame still in flight during the burn stays readable while it is within the tolerance. */
  lemma InFlightStaysReadable(r: Receiver, late: nat, next: nat)
    requires late < next && late !in r.consumed
    requires Reads(r, next).Readable?
    ensures Reads(Consume(r, next), late).Readable? <==> Larger(r.head, next + 1) - late <= TOLERANCE
  {
  }

  /** No frame is ever accepted twice. */
  lemma ConsumedOnce(r: Receiver, gen: nat)
    requires forall g :: g in r.consumed ==> g < r.head
    ensures !Reads(Consume(r, gen), gen).Readable? || !Reads(r, gen).Readable?
    ensures forall g :: g in Consume(r, gen).consumed ==> g < Consume(r, gen).head
  {
  }

  // ---- A checkpoint closes the ledger ----

  /** An undisturbed checkpoint puts the live position on disk and leaves nothing to burn. */
  lemma QuietCheckpointClears(d: Device, k: nat)
    requires Sound(d) && k !in d.saves.flights
    ensures var e := Next(Next(Next(Next(d, CountEmitted(k)), Serialise(k)), Land(k)), Close(k));
            && e.disk == d.live && Deficit(e.emitted, e.persisted) == 0
            && e.saves.flights == d.saves.flights && e.live == d.live && e.noted == d.noted && e.emitted == d.emitted
  {
    assert Covers(d, d.disk, d.persisted);
    var e := Next(Next(Next(Next(d, CountEmitted(k)), Serialise(k)), Land(k)), Close(k));
    assert e.saves.flights == d.saves.flights;
  }

  /** The cap on a burn is the receivers' forward bound: a frame that far ahead is read, one further is not. */
  lemma CapIsTheForwardBound(r: Receiver)
    ensures Reads(r, r.head + MAX_BURN).Readable? && Reads(r, r.head + MAX_BURN + 1).TooFarAhead?
  {
  }
}
