/**
 * `mls.bin` has several writers in one process: the foreground and the background engines. A
 * process-wide lock serialises the writes, a deadline tells background writers to stand aside while
 * the foreground is alive, and every write goes to a temporary file that is then renamed.
 */
module WriterGuard {
  import opened Basics

  const GRACE: int := 30_000

  type WriterId = nat

  datatype Author = Foreground | Background

  datatype Blob = Blob(author: Author, id: nat, size: nat)

  /** The first `written` bytes of `blob`. */
  datatype Contents = Contents(blob: Blob, written: nat)

  /** `at` is the moment, in steps, at which the writer went past the guard. */
  datatype Phase = Waiting | Holding | Cleared(at: nat) | Writing(written: nat, at: nat)

  datatype Writer = Writer(blob: Blob, phase: Phase)

  /** `marks`: deadlines computed from a clock reading and not stored yet. */
  datatype Guard = Guard(clock: int, deadline: int, marks: map<WriterId, int>)

  datatype World = World(
    step: nat,
    guard: Guard,
    lock: Option<WriterId>,
    poisoned: bool,
    writers: map<WriterId, Writer>,
    tmp: Option<Contents>,
    file: Option<Contents>,
    landedAt: nat)             // when the current file was renamed into place

  datatype Action =
    | Start(writer: WriterId, blob: Blob)
    | Acquire(writer: WriterId)
    | CheckGuard(writer: WriterId)
    | Create(writer: WriterId)
    | Chunk(writer: WriterId)
    | Rename(writer: WriterId)
    | Fail(writer: WriterId)
    | Panic(writer: WriterId)
    | Heartbeat(caller: WriterId)
    | Store(caller: WriterId)
    | Pause
    | Tick(to: int)
    | Kill

  /** Refreshing the guard reads the clock and then stores the deadline; others may run in between. */
  function ReadClock(w: World, i: WriterId): World {
    w.(guard := w.guard.(marks := w.guard.marks[i := w.guard.clock + GRACE]))
  }

  function StoreMark(w: World, i: WriterId): World {
    if i in w.guard.marks then w.(guard := w.guard.(deadline := w.guard.marks[i], marks := w.guard.marks - {i})) else w
  }

  function SetPhase(w: World, i: WriterId, p: Phase): World
    requires i in w.writers
  {
    w.(writers := w.writers[i := w.writers[i].(phase := p)])
  }

  function Gone(w: World, i: WriterId): World {
    w.(writers := w.writers - {i})
  }

  /** A foreground write refreshes the guard before it queues for the lock. */
  function StartWrite(w: World, i: WriterId, blob: Blob): World {
    if i in w.writers || i in w.guard.marks then w
    else
      var v := w.(writers := w.writers[i := Writer(blob, Waiting)]);
      if blob.author.Foreground? then ReadClock(v, i) else v
  }

  /** A poisoned lock refuses every later writer. */
  function TakeLock(w: World, i: WriterId): World {
    if i !in w.writers || !w.writers[i].phase.Waiting? || i in w.guard.marks then w
    else if w.poisoned then Gone(w, i)
    else if w.lock.Some? then w
    else
      SetPhase(w, i, if w.writers[i].blob.author.Foreground? then Cleared(w.step) else Holding).(lock := Some(i))
  }

  /** A background writer gives up while the guard is live. */
  function PassGuard(w: World, i: WriterId): World {
    if i !in w.writers || !w.writers[i].phase.Holding? then w
    else if w.guard.clock < w.guard.deadline then Gone(w, i).(lock := None)
    else SetPhase(w, i, Cleared(w.step))
  }

  function CreateTmp(w: World, i: WriterId): World {
    if i !in w.writers || !w.writers[i].phase.Cleared? then w
    else SetPhase(w, i, Writing(0, w.writers[i].phase.at)).(tmp := Some(Contents(w.writers[i].blob, 0)))
  }

  /** One more byte of this writer's data reaches whatever the temporary file now holds. */
  function WriteChunk(w: World, i: WriterId): World {
    if i !in w.writers || !w.writers[i].phase.Writing? || w.writers[i].phase.written >= w.writers[i].blob.size then w
    else
      var p := w.writers[i].phase;
      SetPhase(w, i, p.(written := p.written + 1)).(
        tmp := if w.tmp.Some? then Some(w.tmp.value.(written := w.tmp.value.written + 1)) else None)
  }

  /** The rename moves the temporary file, whatever is in it, into place. */
  function RenameTmp(w: World, i: WriterId): World {
    if i !in w.writers || !w.writers[i].phase.Writing? || w.writers[i].phase.written < w.writers[i].blob.size then w
    else Gone(w, i).(lock := None, file := w.tmp, tmp := None, landedAt := w.step)
  }

  predicate InSection(w: World, i: WriterId) {
    i in w.writers && !w.writers[i].phase.Waiting?
  }

  function Apply(w: World, a: Action): World {
    match a
    case Start(i, blob) => StartWrite(w, i, blob)
    case Acquire(i) => TakeLock(w, i)
    case CheckGuard(i) => PassGuard(w, i)
    case Create(i) => CreateTmp(w, i)
    case Chunk(i) => WriteChunk(w, i)
    case Rename(i) => RenameTmp(w, i)
    // An I/O error leaves the temporary file as it is and releases the lock.
    case Fail(i) => if InSection(w, i) then Gone(w, i).(lock := None) else w
    case Panic(i) => if InSection(w, i) then Gone(w, i).(lock := None, poisoned := true) else w
    case Heartbeat(i) => if i in w.writers || i in w.guard.marks then w else ReadClock(w, i)
    case Store(i) => StoreMark(w, i)
    case Pause => w.(guard := w.guard.(deadline := 0))
    case Tick(to) => if to > w.guard.clock then w.(guard := w.guard.(clock := to)) else w
    // All engines share the process, so they and the guard go together; the files stay.
    case Kill => w.(guard := Guard(w.guard.clock, 0, map[]), lock := None, poisoned := false, writers := map[])
  }

  function Next(w: World, a: Action): World {
    var v := Apply(w, a);
    v.(step := w.step + 1)
  }

  function Run(w: World, actions: seq<Action>): World
    decreases |actions|
  {
    if actions == [] then w else Run(Next(w, actions[0]), actions[1..])
  }

  function Boot(clock: nat, file: Option<Contents>): World {
    World(1, Guard(clock, 0, map[]), None, false, map[], None, file, 0)
  }

  // ---- What every action keeps ----

  predicate Whole(c: Contents) {
    c.written == c.blob.size
  }

  /** Inside the section a writer holds the lock alone and owns the temporary file. */
  predicate WriterSound(w: World, i: WriterId, x: Writer) {
    match x.phase
    case Waiting => true
    case Holding => w.lock == Some(i)
    case Cleared(at) => w.lock == Some(i) && w.landedAt < at < w.step
    case Writing(n, at) =>
      w.lock == Some(i) && w.landedAt < at < w.step && n <= x.blob.size && w.tmp == Some(Contents(x.blob, n))
  }

  ghost predicate Sound(w: World) {
    && 0 <= w.guard.clock && w.guard.deadline <= w.guard.clock + GRACE && w.landedAt < w.step
    && (forall i :: i in w.guard.marks ==> w.guard.marks[i] <= w.guard.clock + GRACE)
    && (forall i :: i in w.guard.marks && i in w.writers ==> w.writers[i].phase.Waiting?)
    && (w.file.Some? ==> Whole(w.file.value))
    && (w.poisoned ==> w.lock.None?)
    && (w.lock.Some? ==> InSection(w, w.lock.value))
    && forall i :: i in w.writers ==> WriterSound(w, i, w.writers[i])
  }

  lemma StartKeepsSound(w: World, i: WriterId, blob: Blob)
    requires Sound(w)
    ensures Sound(Next(w, Start(i, blob)))
  {
    var u := Next(w, Start(i, blob));
    forall j | j in u.writers ensures WriterSound(u, j, u.writers[j]) {
      if j in w.writers { assert WriterSound(w, j, w.writers[j]); }
    }
  }

  lemma AcquireKeepsSound(w: World, i: WriterId)
    requires Sound(w)
    ensures Sound(Next(w, Acquire(i)))
  {
    var v := Next(w, Acquire(i));
    forall j | j in v.writers ensures WriterSound(v, j, v.writers[j]) {
      assert WriterSound(w, j, w.writers[j]);
    }
  }

  lemma CheckKeepsSound(w: World, i: WriterId)
    requires Sound(w)
    ensures Sound(Next(w, CheckGuard(i)))
  {
    var v := Next(w, CheckGuard(i));
    if i in w.writers { assert WriterSound(w, i, w.writers[i]); }
    forall j | j in v.writers ensures WriterSound(v, j, v.writers[j]) {
      assert WriterSound(w, j, w.writers[j]);
    }
  }

  lemma CreateKeepsSound(w: World, i: WriterId)
    requires Sound(w)
    ensures Sound(Next(w, Create(i)))
  {
    var v := Next(w, Create(i));
    if i in w.writers { assert WriterSound(w, i, w.writers[i]); }
    forall j | j in v.writers ensures WriterSound(v, j, v.writers[j]) {
      assert WriterSound(w, j, w.writers[j]);
    }
  }

  lemma WriteKeepsSound(w: World, i: WriterId)
    requires Sound(w)
    ensures Sound(Next(w, Chunk(i)))
    ensures Sound(Next(w, Rename(i)))
  {
    var u, v := Next(w, Chunk(i)), Next(w, Rename(i));
    if i in w.writers { assert WriterSound(w, i, w.writers[i]); }
    forall j | j in u.writers ensures WriterSound(u, j, u.writers[j]) {
      assert WriterSound(w, j, w.writers[j]);
    }
    forall j | j in v.writers ensures WriterSound(v, j, v.writers[j]) {
      assert WriterSound(w, j, w.writers[j]);
    }
  }

  lemma AbortKeepsSound(w: World, i: WriterId)
    requires Sound(w)
    ensures Sound(Next(w, Fail(i)))
    ensures Sound(Next(w, Panic(i)))
  {
  }

  lemma GuardKeepsSound(w: World, a: Action)
    requires Sound(w) && (a.Heartbeat? || a.Store? || a.Pause? || a.Tick? || a.Kill?)
    ensures Sound(Next(w, a))
  {
  }

  lemma SoundStep(w: World, a: Action)
    requires Sound(w)
    ensures Sound(Next(w, a))
  {
    match a
    case Start(i, blob) => StartKeepsSound(w, i, blob);
    case Acquire(i) => AcquireKeepsSound(w, i);
    case CheckGuard(i) => CheckKeepsSound(w, i);
    case Create(i) => CreateKeepsSound(w, i);
    case Chunk(i) => WriteKeepsSound(w, i);
    case Rename(i) => WriteKeepsSound(w, i);
    case Fail(i) => AbortKeepsSound(w, i);
    case Panic(i) => AbortKeepsSound(w, i);
    case _ => GuardKeepsSound(w, a);
  }

  lemma {:induction false} SoundRun(w: World, actions: seq<Action>)
    requires Sound(w)
    ensures Sound(Run(w, actions))
    decreases |actions|
  {
    if actions != [] {
      SoundStep(w, actions[0]);
      SoundRun(Next(w, actions[0]), actions[1..]);
    }
  }

  // ---- Theorems ----

  /** A reader never sees part of a blob, through any interleaving, error, panic or kill. */
  lemma FileIsAlwaysWhole(clock: nat, file: Option<Contents>, actions: seq<Action>)
    requires file.Some? ==> Whole(file.value)
    ensures var w := Run(Boot(clock, file), actions);
            w.file.Some? ==> Whole(w.file.value)
  {
    SoundRun(Boot(clock, file), actions);
  }

  /** The blob that lands is the renaming writer's own, and its guard check came after the blob it replaces. */
  lemma CheckedAfterWhatItReplaces(clock: nat, file: Option<Contents>, actions: seq<Action>, i: WriterId)
    requires file.Some? ==> Whole(file.value)
    ensures var w := Run(Boot(clock, file), actions);
            var v := Next(w, Rename(i));
            v.landedAt == w.step ==>
              && i in w.writers && w.writers[i].phase.Writing?
              && v.file == Some(Contents(w.writers[i].blob, w.writers[i].blob.size))
              && w.landedAt < w.writers[i].phase.at
  {
    SoundRun(Boot(clock, file), actions);
    var w := Run(Boot(clock, file), actions);
    if i in w.writers { assert WriterSound(w, i, w.writers[i]); }
  }

  predicate Undisturbed(actions: seq<Action>) {
    forall i :: 0 <= i < |actions| ==> !actions[i].Pause? && !actions[i].Kill?
  }

  /** No refresh is under way that would set the guard below `d`. */
  ghost predicate NoOlderMark(w: World, d: int) {
    forall i :: i in w.guard.marks ==> d <= w.guard.marks[i]
  }

  /** No background writer past its check, unless the clock had reached `d`. */
  ghost predicate Guarded(w: World, d: int) {
    && d <= w.guard.deadline && NoOlderMark(w, d)
    && w.file.Some? && w.file.value.blob.author.Foreground?
    && forall i :: i in w.writers && w.writers[i].blob.author.Background? ==>
         w.writers[i].phase.Waiting? || w.writers[i].phase.Holding?
  }

  lemma GuardedStep(w: World, a: Action, d: int)
    requires Sound(w) && Guarded(w, d) && !a.Pause? && !a.Kill?
    requires w.guard.clock < d
    ensures Guarded(Next(w, a), d)
  {
    if a.Rename? && a.writer in w.writers {
      assert WriterSound(w, a.writer, w.writers[a.writer]);
    }
  }

  lemma ClockNeverFalls(w: World, a: Action)
    ensures w.guard.clock <= Next(w, a).guard.clock
  {
  }

  lemma {:induction false} ClockRun(w: World, actions: seq<Action>)
    ensures w.guard.clock <= Run(w, actions).guard.clock
    decreases |actions|
  {
    if actions != [] {
      ClockNeverFalls(w, actions[0]);
      ClockRun(Next(w, actions[0]), actions[1..]);
    }
  }

  lemma {:induction false} GuardedRun(w: World, actions: seq<Action>, d: int)
    requires Sound(w) && Guarded(w, d) && Undisturbed(actions)
    requires Run(w, actions).guard.clock < d
    ensures Guarded(Run(w, actions), d)
    decreases |actions|
  {
    if actions != [] {
      var v := Next(w, actions[0]);
      ClockNeverFalls(w, actions[0]);
      ClockRun(v, actions[1..]);
      SoundStep(w, actions[0]);
      GuardedStep(w, actions[0], d);
      GuardedRun(v, actions[1..], d);
    }
  }

  // ---- Exactly how long a foreground blob is safe ----

  /** A background blob is in place at the end of the actions, before the clock reaches `d`. */
  predicate BackgroundLands(w: World, actions: seq<Action>, d: int) {
    var v := Run(w, actions);
    Undisturbed(actions) && v.guard.clock < d && v.file.Some? && v.file.value.blob.author.Background?
  }

  predicate Ready(w: World, i: WriterId, blob: Blob) {
    && i in w.writers && w.writers[i].blob == blob
    && w.writers[i].phase.Writing? && w.writers[i].phase.written == blob.size
  }

  /** The guard protects what a foreground writer renames into place. */
  lemma GuardHolds(w: World, i: WriterId, blob: Blob, actions: seq<Action>, d: int)
    requires Sound(w) && Ready(w, i, blob) && blob.author.Foreground?
    requires d <= w.guard.clock || (d <= w.guard.deadline && NoOlderMark(w, d))
    ensures !BackgroundLands(Next(w, Rename(i)), actions, d)
  {
    var u := Next(w, Rename(i));
    ClockRun(u, actions);
    if Undisturbed(actions) && Run(u, actions).guard.clock < d {
      assert WriterSound(w, i, w.writers[i]);
      SoundStep(w, Rename(i));
      forall j | j in u.writers && u.writers[j].blob.author.Background?
        ensures u.writers[j].phase.Waiting? || u.writers[j].phase.Holding?
      {
        assert WriterSound(w, j, w.writers[j]);
      }
      GuardedRun(u, actions, d);
    }
  }

  lemma {:induction false} FreshId(s: set<WriterId>) returns (k: WriterId)
    ensures forall x :: x in s ==> x < k
    decreases |s|
  {
    k := 0;
    if s != {} {
      var x :| x in s;
      k := FreshId(s - {x});
      assert forall y :: y in s ==> y == x || y in s - {x};
      k := if x < k then k else x + 1;
    }
  }

  lemma {:induction false} RunThen(w: World, a: seq<Action>, b: seq<Action>)
    ensures Run(w, a + b) == Run(Run(w, a), b)
    decreases |a|
  {
    if a == [] {
      assert [] + b == b;
    } else {
      assert (a + b)[1..] == a[1..] + b;
      RunThen(Next(w, a[0]), a[1..], b);
    }
  }

  lemma RunOne(w: World, actions: seq<Action>, a: Action) returns (longer: seq<Action>)
    requires Undisturbed(actions) && !a.Pause? && !a.Kill?
    ensures longer == actions + [a] && Undisturbed(longer) && Run(w, longer) == Next(Run(w, actions), a)
  {
    longer := actions + [a];
    RunThen(w, actions, [a]);
    assert [a][1..] == [];
  }

  /** Once the clock is at the deadline, a background writer that starts with the lock free goes all the way. */
  lemma OpenGuardLets(w: World, actions: seq<Action>, k: WriterId) returns (longer: seq<Action>)
    requires Undisturbed(actions)
    requires var v := Run(w, actions);
             v.lock.None? && !v.poisoned && v.guard.deadline <= v.guard.clock && k !in v.writers && k !in v.guard.marks
    ensures Undisturbed(longer) && Run(w, longer).guard.clock == Run(w, actions).guard.clock
    ensures Run(w, longer).file == Some(Contents(Blob(Background, 0, 0), 0))
  {
    longer := RunOne(w, actions, Start(k, Blob(Background, 0, 0)));
    longer := RunOne(w, longer, Acquire(k));
    longer := RunOne(w, longer, CheckGuard(k));
    longer := RunOne(w, longer, Create(k));
    longer := RunOne(w, longer, Rename(k));
  }

  /** A deadline before `d`, or one about to be stored, lets a background blob land before `d`. */
  lemma LowGuardFails(w: World, d: int) returns (actions: seq<Action>)
    requires w.lock.None? && !w.poisoned && w.guard.clock < d
    requires w.guard.deadline < d || !NoOlderMark(w, d)
    ensures BackgroundLands(w, actions, d)
  {
    actions := [];
    if w.guard.deadline >= d {
      var j :| j in w.guard.marks && w.guard.marks[j] < d;
      actions := RunOne(w, actions, Store(j));
    }
    var v := Run(w, actions);
    actions := RunOne(w, actions, Tick(v.guard.deadline));
    var k := FreshId(w.writers.Keys + w.guard.marks.Keys);
    assert k !in w.writers && k !in w.guard.marks;
    actions := OpenGuardLets(w, actions, k);
  }

  /**
   * Two-writer safety, exactly: once a foreground blob is in place, no background blob can replace it
   * before `d`, whatever the engines do short of releasing the guard or killing the process, if and
   * only if the guard's deadline is at `d` or beyond and so is every refresh still to be stored.
   */
  lemma ForegroundBlobSurvives(w: World, i: WriterId, blob: Blob, d: int)
    requires Sound(w) && Ready(w, i, blob) && blob.author.Foreground?
    ensures d <= w.guard.clock || (d <= w.guard.deadline && NoOlderMark(w, d)) <==>
            forall actions :: !BackgroundLands(Next(w, Rename(i)), actions, d)
  {
    if d <= w.guard.clock || (d <= w.guard.deadline && NoOlderMark(w, d)) {
      forall actions ensures !BackgroundLands(Next(w, Rename(i)), actions, d) {
        GuardHolds(w, i, blob, actions, d);
      }
    } else {
      assert WriterSound(w, i, w.writers[i]);
      var actions := LowGuardFails(Next(w, Rename(i)), d);
    }
  }

  // ---- Thirty seconds from the mark ----

  /** The guard is at `d` or beyond, or writer `i` is about to put it there. */
  ghost predicate Raised(w: World, i: WriterId, d: int) {
    NoOlderMark(w, d) && (d <= w.guard.deadline || (i in w.guard.marks && i in w.writers))
  }

  lemma RaisedStep(w: World, i: WriterId, a: Action, d: int)
    requires i in w.guard.marks && i in w.writers ==> w.writers[i].phase.Waiting?
    requires Raised(w, i, d) && d <= w.guard.clock + GRACE && !a.Pause? && !a.Kill?
    ensures Raised(Next(w, a), i, d)
  {
  }

  lemma {:induction false} RaisedRun(w: World, i: WriterId, actions: seq<Action>, d: int)
    requires Sound(w) && Undisturbed(actions) && Raised(w, i, d) && d <= w.guard.clock + GRACE
    ensures Raised(Run(w, actions), i, d)
    decreases |actions|
  {
    if actions != [] {
      SoundStep(w, actions[0]);
      RaisedStep(w, i, actions[0], d);
      ClockNeverFalls(w, actions[0]);
      RaisedRun(Next(w, actions[0]), i, actions[1..], d);
    }
  }

  lemma {:induction false} PoisonedRun(w: World, actions: seq<Action>)
    requires w.poisoned && Undisturbed(actions)
    ensures Run(w, actions).poisoned
    decreases |actions|
  {
    if actions != [] {
      PoisonedRun(Next(w, actions[0]), actions[1..]);
    }
  }

  /** Writer `i` starts on `blob`, gets it into place, and a background blob replaces it before `d`. */
  ghost predicate Overwritten(w: World, i: WriterId, blob: Blob, before: seq<Action>, after: seq<Action>, d: int) {
    var u := Run(Next(w, Start(i, blob)), before);
    Undisturbed(before) && Ready(u, i, blob) && BackgroundLands(Next(u, Rename(i)), after, d)
  }

  lemma MarkHolds(w: World, i: WriterId, blob: Blob, before: seq<Action>, after: seq<Action>, d: int)
    requires Sound(w) && i !in w.writers && i !in w.guard.marks && blob.author.Foreground?
    requires w.poisoned || d <= w.guard.clock || (d <= w.guard.clock + GRACE && NoOlderMark(w, d))
    ensures !Overwritten(w, i, blob, before, after, d)
  {
    var marked := Next(w, Start(i, blob));
    var u := Run(marked, before);
    SoundStep(w, Start(i, blob));
    SoundRun(marked, before);
    ClockRun(marked, before);
    if Undisturbed(before) && Ready(u, i, blob) {
      assert WriterSound(u, i, u.writers[i]);
      if w.poisoned {
        PoisonedRun(marked, before);
      } else {
        if d > w.guard.clock {
          RaisedRun(marked, i, before, d);
        }
        GuardHolds(u, i, blob, after, d);
      }
    }
  }

  /** The writer's bytes reach the temporary file one by one. */
  lemma {:induction false} ChunksFill(w: World, actions: seq<Action>, i: WriterId, blob: Blob) returns (longer: seq<Action>)
    requires Undisturbed(actions)
    requires var v := Run(w, actions);
             i in v.writers && v.writers[i].blob == blob && v.writers[i].phase.Writing? && v.writers[i].phase.written <= blob.size
    ensures Undisturbed(longer) && Ready(Run(w, longer), i, blob)
    ensures Run(w, longer).guard == Run(w, actions).guard && Run(w, longer).poisoned == Run(w, actions).poisoned
    decreases blob.size - Run(w, actions).writers[i].phase.written
  {
    longer := actions;
    if Run(w, actions).writers[i].phase.written < blob.size {
      longer := RunOne(w, actions, Chunk(i));
      longer := ChunksFill(w, longer, i, blob);
    }
  }

  /** With the lock free, a foreground writer that has just started gets its blob ready, its own mark stored. */
  lemma WriterGetsReady(w: World, actions: seq<Action>, i: WriterId, blob: Blob) returns (longer: seq<Action>)
    requires Undisturbed(actions) && blob.author.Foreground?
    requires var v := Run(w, actions);
             && v.lock.None? && !v.poisoned && i in v.guard.marks
             && i in v.writers && v.writers[i] == Writer(blob, Waiting)
    ensures Undisturbed(longer) && Ready(Run(w, longer), i, blob)
    ensures var g := Run(w, actions).guard;
            Run(w, longer).guard == Guard(g.clock, g.marks[i], g.marks - {i})
  {
    longer := RunOne(w, actions, Store(i));
    longer := RunOne(w, longer, Acquire(i));
    longer := RunOne(w, longer, Create(i));
    longer := ChunksFill(w, longer, i, blob);
  }

  lemma LowMarkFails(w: World, i: WriterId, blob: Blob, d: int) returns (before: seq<Action>, after: seq<Action>)
    requires Sound(w) && i !in w.writers && i !in w.guard.marks && blob.author.Foreground?
    requires !w.poisoned && w.guard.clock < d && (w.guard.clock + GRACE < d || !NoOlderMark(w, d))
    ensures Overwritten(w, i, blob, before, after, d)
  {
    var marked := Next(w, Start(i, blob));
    SoundStep(w, Start(i, blob));
    before := [];
    if marked.lock.Some? {
      before := RunOne(marked, before, Fail(marked.lock.value));
    }
    before := WriterGetsReady(marked, before, i, blob);
    var u := Run(marked, before);
    SoundRun(marked, before);
    if w.guard.clock + GRACE >= d {
      var j :| j in w.guard.marks && w.guard.marks[j] < d;
      assert j in u.guard.marks && u.guard.marks[j] < d;
    }
    ForegroundBlobSurvives(u, i, blob, d);
    after :| BackgroundLands(Next(u, Rename(i)), after, d);
  }

  /**
   * The promise of thirty seconds, exactly: a foreground write that starts now protects its blob until
   * `d`, however it and the others are scheduled, if and only if `d` is within thirty seconds of its
   * clock reading and no refresh still to be stored carries an older deadline than `d` (or the write
   * lock is poisoned and nobody writes any more, or `d` is past).
   */
  lemma ThirtySecondsFromTheMark(w: World, i: WriterId, blob: Blob, d: int)
    requires Sound(w) && i !in w.writers && i !in w.guard.marks && blob.author.Foreground?
    ensures w.poisoned || d <= w.guard.clock || (d <= w.guard.clock + 30_000 && NoOlderMark(w, d)) <==>
            forall before, after :: !Overwritten(w, i, blob, before, after, d)
  {
    if w.poisoned || d <= w.guard.clock || (d <= w.guard.clock + GRACE && NoOlderMark(w, d)) {
      forall before, after ensures !Overwritten(w, i, blob, before, after, d) {
        MarkHolds(w, i, blob, before, after, d);
      }
    } else {
      var before, after := LowMarkFails(w, i, blob, d);
    }
  }

  /**
   * The late store, from a start: a heartbeat reads the clock, `late` milliseconds pass before it is
   * stored, a foreground write begins in the meantime. Its blob can be overwritten by a background one
   * before thirty seconds have passed since its own mark.
   */
  lemma LateStoreOverwrites(clock: nat, file: Option<Contents>, late: nat, blob: Blob)
    returns (before: seq<Action>, after: seq<Action>)
    requires 0 < late && blob.author.Foreground? && (file.Some? ==> Whole(file.value))
    ensures var w := Run(Boot(clock, file), [Heartbeat(0), Tick(clock + late)]);
            w.guard.clock == clock + late && Overwritten(w, 1, blob, before, after, clock + late + 30_000)
  {
    var start := Boot(clock, file);
    var actions := RunOne(start, [], Heartbeat(0));
    actions := RunOne(start, actions, Tick(clock + late));
    assert actions == [Heartbeat(0), Tick(clock + late)];
    var w := Run(start, actions);
    SoundRun(start, actions);
    assert w.guard.marks == map[0 := clock + GRACE];
    before, after := LowMarkFails(w, 1, blob, clock + late + GRACE);
  }

  predicate NoSignOfLife(actions: seq<Action>) {
    forall i :: 0 <= i < |actions| ==>
      !actions[i].Heartbeat? && !(actions[i].Start? && actions[i].blob.author.Foreground?)
  }

  /** Neither the guard nor a refresh under way reaches beyond `bound`. */
  ghost predicate Bounded(w: World, bound: int) {
    w.guard.deadline <= bound && forall i :: i in w.guard.marks ==> w.guard.marks[i] <= bound
  }

  lemma {:induction false} BoundedRun(w: World, actions: seq<Action>, bound: int)
    requires NoSignOfLife(actions) && Bounded(w, bound) && 0 <= bound
    ensures Bounded(Run(w, actions), bound)
    decreases |actions|
  {
    if actions != [] {
      var a := actions[0];
      assert !a.Heartbeat? && !(a.Start? && a.blob.author.Foreground?);
      BoundedRun(Next(w, a), actions[1..], bound);
    }
  }

  /** The guard never sticks: thirty seconds without a sign of life let a background writer through. */
  lemma GuardExpires(w: World, actions: seq<Action>, i: WriterId)
    requires Sound(w) && NoSignOfLife(actions)
    requires Run(w, actions).guard.clock >= w.guard.clock + 30_000
    requires i in Run(w, actions).writers && Run(w, actions).writers[i].phase.Holding?
    ensures var v := Next(Run(w, actions), CheckGuard(i));
            i in v.writers && v.writers[i].phase.Cleared?
  {
    BoundedRun(w, actions, w.guard.clock + GRACE);
    SoundRun(w, actions);
  }

  // ---- Release, kill and poison ----

  /** Releasing the guard lets a background writer through at once. */
  lemma PauseLets(w: World, i: WriterId)
    requires Sound(w) && i in w.writers && w.writers[i].phase.Holding?
    ensures var v := Next(Next(w, Pause), CheckGuard(i));
            i in v.writers && v.writers[i].phase.Cleared?
  {
  }

  /** A process that died leaves the file as it was and stops nobody: a background writer can go all the way. */
  lemma KillFrees(w: World) returns (actions: seq<Action>)
    requires Sound(w)
    ensures Next(w, Kill).file == w.file
    ensures Undisturbed(actions) && Run(Next(w, Kill), actions).file == Some(Contents(Blob(Background, 0, 0), 0))
  {
    actions := OpenGuardLets(Next(w, Kill), [], 0);
  }

  ghost predicate AllOutside(w: World) {
    w.poisoned && forall i :: i in w.writers ==> w.writers[i].phase.Waiting?
  }

  lemma {:induction false} OutsideRun(w: World, actions: seq<Action>)
    requires AllOutside(w) && Undisturbed(actions)
    ensures Run(w, actions).file == w.file
    decreases |actions|
  {
    if actions != [] {
      OutsideRun(Next(w, actions[0]), actions[1..]);
    }
  }

  /** A panic inside the section poisons the lock: until the process ends nobody writes the file again. */
  lemma PanicStopsEveryWrite(w: World, i: WriterId, actions: seq<Action>)
    requires Sound(w) && InSection(w, i) && Undisturbed(actions)
    ensures Run(Next(w, Panic(i)), actions).file == w.file
  {
    var v := Next(w, Panic(i));
    assert WriterSound(w, i, w.writers[i]);
    forall j | j in v.writers ensures v.writers[j].phase.Waiting? {
      assert WriterSound(w, j, w.writers[j]);
    }
    OutsideRun(v, actions);
  }
}
