/**
 * Remote ICE candidates of one peer: buffered until a remote description is set, then handed to the
 * agent in order. The buffer holds at most 200; the candidate that meets a full buffer empties it.
 */
module IceBuffer {
  import opened Basics

  const CAP: nat := 200

  /** An empty candidate line marks the end of candidates. */
  datatype Candidate = Candidate(line: string, mid: nat)

  predicate IsEnd(c: Candidate) {
    c.line == ""
  }

  /** `taken` and `agent` say which candidates the ICE agent takes. */
  datatype Signal =
    | Trickle(candidate: Option<Candidate>, taken: bool)
    | Description(applied: bool, agent: Candidate -> bool)

  datatype Buffer = Buffer(
    pending: seq<Candidate>,
    remoteSet: bool,
    handed: seq<Candidate>,   // given to the agent, in order
    accepted: nat,            // of those, taken
    iceIn: nat,
    failed: nat,
    buffered: nat,
    endsEarly: nat,           // end markers before a description
    overflows: nat)

  const FRESH := Buffer([], false, [], 0, 0, 0, 0, 0, 0)

  function Hand(b: Buffer, c: Candidate, taken: bool): Buffer {
    if taken then b.(handed := b.handed + [c], accepted := b.accepted + 1)
    else b.(handed := b.handed + [c], failed := b.failed + 1)
  }

  function ApplyCandidate(b: Buffer, c: Candidate, taken: bool): Buffer {
    if b.remoteSet then Hand(b, c, taken)
    else if IsEnd(c) then b.(endsEarly := b.endsEarly + 1)
    else if |b.pending| >= CAP
    then b.(pending := [], failed := b.failed + |b.pending|, overflows := b.overflows + 1)
    else b.(pending := b.pending + [c], buffered := b.buffered + 1)
  }

  function HandAll(b: Buffer, cs: seq<Candidate>, agent: Candidate -> bool): Buffer {
    if cs == [] then b
    else
      var last := cs[|cs| - 1];
      Hand(HandAll(b, cs[..|cs| - 1], agent), last, agent(last))
  }

  function Flush(b: Buffer, agent: Candidate -> bool): Buffer {
    HandAll(b.(pending := []), b.pending, agent)
  }

  function Step(b: Buffer, s: Signal): Buffer {
    match s
    case Trickle(None, _) => b.(iceIn := b.iceIn + 1, failed := b.failed + 1)
    case Trickle(Some(c), taken) => ApplyCandidate(b.(iceIn := b.iceIn + 1), c, taken)
    case Description(applied, agent) => if applied then Flush(b.(remoteSet := true), agent) else b
  }

  function Run(signals: seq<Signal>): Buffer {
    if signals == [] then FRESH else Step(Run(signals[..|signals| - 1]), signals[|signals| - 1])
  }

  /** The peer context of the running service, updated in place. */
  class PeerContext {
    var b: Buffer

    constructor ()
      ensures b == FRESH
    {
      b := FRESH;
    }

    method OnCandidate(candidate: Option<Candidate>, taken: bool)
      modifies this
      ensures b == Step(old(b), Trickle(candidate, taken))
    {
      b := b.(iceIn := b.iceIn + 1);
      if candidate.None? {
        b := b.(failed := b.failed + 1);
        return;
      }
      var c := candidate.value;
      if !b.remoteSet {
        if IsEnd(c) {
          b := b.(endsEarly := b.endsEarly + 1);
        } else if |b.pending| >= CAP {
          var dropped := |b.pending|;
          b := b.(pending := [], failed := b.failed + dropped, overflows := b.overflows + 1);
        } else {
          b := b.(pending := b.pending + [c], buffered := b.buffered + 1);
        }
        return;
      }
      b := Hand(b, c, taken);
    }

    method OnDescription(applied: bool, agent: Candidate -> bool)
      modifies this
      ensures b == Step(old(b), Description(applied, agent))
    {
      if !applied {
        return;
      }
      b := b.(remoteSet := true);
      var pending := b.pending;
      b := b.(pending := []);
      ghost var start := b;
      for i := 0 to |pending|
        invariant b == HandAll(start, pending[..i], agent)
      {
        assert pending[..i + 1][..i] == pending[..i];
        b := Hand(b, pending[i], agent(pending[i]));
      }
      assert pending[..|pending|] == pending;
    }
  }

  // ---- Bounds and accounting ----

  predicate Sound(b: Buffer) {
    && |b.pending| <= CAP
    && (b.remoteSet ==> b.pending == [])
    && |b.handed| >= b.accepted
    && b.iceIn == b.accepted + b.failed + |b.pending| + b.endsEarly + b.overflows
  }

  lemma {:induction false} HandAllCounts(b: Buffer, cs: seq<Candidate>, agent: Candidate -> bool)
    ensures var v := HandAll(b, cs, agent);
            && v.handed == b.handed + cs
            && v.accepted + v.failed == b.accepted + b.failed + |cs|
            && v == b.(handed := v.handed, accepted := v.accepted, failed := v.failed)
            && v.accepted <= b.accepted + |cs|
  {
    if cs != [] {
      HandAllCounts(b, cs[..|cs| - 1], agent);
      assert cs == cs[..|cs| - 1] + [cs[|cs| - 1]];
    }
  }

  lemma SoundStep(b: Buffer, s: Signal)
    requires Sound(b)
    ensures Sound(Step(b, s))
  {
    if s.Description? && s.applied {
      HandAllCounts(b.(remoteSet := true, pending := []), b.pending, s.agent);
    }
  }

  /**
   * After any signals the buffer holds at most 200, is empty once a description is set, and every
   * candidate received is accounted for exactly once - save the one that trips an overflow, which
   * only the overflow count remembers.
   */
  lemma {:induction false} Accounting(signals: seq<Signal>)
    ensures Sound(Run(signals))
  {
    if signals != [] {
      Accounting(signals[..|signals| - 1]);
      SoundStep(Run(signals[..|signals| - 1]), signals[|signals| - 1]);
    }
  }

  // ---- Order ----

  /** `a` is what remains of `c` after dropping elements, in the same order. */
  predicate Subsequence(a: seq<Candidate>, c: seq<Candidate>)
    decreases |c|
  {
    a == [] || (c != [] &&
      ((a[|a| - 1] == c[|c| - 1] && Subsequence(a[..|a| - 1], c[..|c| - 1])) || Subsequence(a, c[..|c| - 1])))
  }

  lemma {:induction false} DropLast(a: seq<Candidate>, c: seq<Candidate>)
    requires a != [] && Subsequence(a, c)
    ensures Subsequence(a[..|a| - 1], c)
    decreases |c|
  {
    var d := c[..|c| - 1];
    if a[|a| - 1] == c[|c| - 1] && Subsequence(a[..|a| - 1], d) {
      Weaken(a[..|a| - 1], d, c[|c| - 1]);
      assert d + [c[|c| - 1]] == c;
    } else {
      DropLast(a, d);
      Weaken(a[..|a| - 1], d, c[|c| - 1]);
      assert d + [c[|c| - 1]] == c;
    }
  }

  lemma Weaken(a: seq<Candidate>, c: seq<Candidate>, x: Candidate)
    requires Subsequence(a, c)
    ensures Subsequence(a, c + [x])
  {
  }

  lemma Extend(a: seq<Candidate>, c: seq<Candidate>, x: Candidate)
    requires Subsequence(a, c)
    ensures Subsequence(a + [x], c + [x])
  {
  }

  lemma {:induction false} KeepFront(a: seq<Candidate>, b: seq<Candidate>, c: seq<Candidate>)
    requires Subsequence(a + b, c)
    ensures Subsequence(a, c)
    decreases |b|
  {
    if b == [] {
      assert a + b == a;
    } else {
      DropLast(a + b, c);
      assert (a + b)[..|a + b| - 1] == a + b[..|b| - 1];
      KeepFront(a, b[..|b| - 1], c);
    }
  }

  /** The readable candidates, in order of arrival. */
  function Arrivals(signals: seq<Signal>): seq<Candidate> {
    if signals == [] then []
    else
      var before, s := Arrivals(signals[..|signals| - 1]), signals[|signals| - 1];
      if s.Trickle? && s.candidate.Some? then before + [s.candidate.value] else before
  }

  lemma OrderStep(b: Buffer, s: Signal, before: seq<Candidate>)
    requires Sound(b) && Subsequence(b.handed + b.pending, before)
    ensures var v := Step(b, s);
            Subsequence(v.handed + v.pending, if s.Trickle? && s.candidate.Some? then before + [s.candidate.value] else before)
  {
    var v := Step(b, s);
    match s
    case Trickle(None, _) =>
    case Trickle(Some(c), _) =>
      Weaken(b.handed + b.pending, before, c);
      Extend(b.handed + b.pending, before, c);
      KeepFront(b.handed, b.pending, before + [c]);
      assert v.handed + v.pending == b.handed + b.pending
          || v.handed + v.pending == b.handed + b.pending + [c]
          || v.handed + v.pending == b.handed;
    case Description(applied, agent) =>
      if applied {
        HandAllCounts(b.(remoteSet := true, pending := []), b.pending, agent);
        assert v.handed + v.pending == b.handed + b.pending;
      }
  }

  /** The agent is handed a subsequence of the arrivals, in order. */
  lemma {:induction false} AgentSeesArrivalsInOrder(signals: seq<Signal>)
    ensures Subsequence(Run(signals).handed, Arrivals(signals))
    ensures Subsequence(Run(signals).handed + Run(signals).pending, Arrivals(signals))
  {
    if signals != [] {
      var front := signals[..|signals| - 1];
      AgentSeesArrivalsInOrder(front);
      Accounting(front);
      OrderStep(Run(front), signals[|signals| - 1], Arrivals(front));
    }
    KeepFront(Run(signals).handed, Run(signals).pending, Arrivals(signals));
  }

  // ---- What an overflow loses ----

  function Buffering(cs: seq<Candidate>): Buffer {
    if cs == [] then FRESH else ApplyCandidate(Buffering(cs[..|cs| - 1]), cs[|cs| - 1], false)
  }

  /** The last `m` of `cs` are buffered, after `q` overflows. */
  predicate Holds(b: Buffer, cs: seq<Candidate>, m: nat, q: nat) {
    && m <= |cs| && m <= CAP && b.pending == cs[|cs| - m..]
    && b.overflows == q && b.failed == 200 * q && !b.remoteSet && b.handed == []
  }

  lemma BufferingStep(b: Buffer, cs: seq<Candidate>, c: Candidate, m: nat, q: nat)
    requires Holds(b, cs, m, q) && !IsEnd(c)
    ensures m < 200 ==> Holds(ApplyCandidate(b, c, false), cs + [c], m + 1, q)
    ensures m == 200 ==> Holds(ApplyCandidate(b, c, false), cs + [c], 0, q + 1)
  {
  }

  /**
   * Without a description, `201 q + m` ordinary candidates leave the last `m` of them, `m` at most
   * 200: each overflow loses 201, of which 200 are counted as failed and one is not.
   */
  lemma {:induction false} OverflowLoses201(cs: seq<Candidate>) returns (m: nat, q: nat)
    requires forall i :: 0 <= i < |cs| ==> !IsEnd(cs[i])
    ensures |cs| == 201 * q + m && m <= 200
    ensures Holds(Buffering(cs), cs, m, q)
  {
    if cs == [] {
      m, q := 0, 0;
    } else {
      var front, c := cs[..|cs| - 1], cs[|cs| - 1];
      m, q := OverflowLoses201(front);
      BufferingStep(Buffering(front), front, c, m, q);
      assert front + [c] == cs;
      if m < 200 { m := m + 1; } else { m, q := 0, q + 1; }
    }
  }

  // ---- What is handed on, and what is taken ----

  function CountTaken(cs: seq<Candidate>, agent: Candidate -> bool): (n: nat)
    ensures n <= |cs|
  {
    if cs == [] then 0 else CountTaken(cs[..|cs| - 1], agent) + (if agent(cs[|cs| - 1]) then 1 else 0)
  }

  lemma {:induction false} HandAllTakes(b: Buffer, cs: seq<Candidate>, agent: Candidate -> bool)
    ensures HandAll(b, cs, agent).accepted == b.accepted + CountTaken(cs, agent)
  {
    if cs != [] {
      HandAllTakes(b, cs[..|cs| - 1], agent);
    }
  }

  /** A description flushes: the whole buffer is handed on in order, and exactly what the agent takes counts as accepted. */
  lemma DescriptionHandsOn(b: Buffer, agent: Candidate -> bool)
    ensures var v := Step(b, Description(true, agent));
            && v.remoteSet && v.pending == [] && v.handed == b.handed + b.pending
            && v.accepted == b.accepted + CountTaken(b.pending, agent)
            && v.failed == b.failed + |b.pending| - CountTaken(b.pending, agent)
    ensures Step(b, Description(false, agent)) == b
  {
    var c := b.(remoteSet := true, pending := []);
    HandAllCounts(c, b.pending, agent);
    HandAllTakes(c, b.pending, agent);
  }

  /** After a description every candidate, the end marker included, goes straight to the agent. */
  lemma LateCandidateIsHanded(b: Buffer, c: Candidate, taken: bool)
    requires b.remoteSet
    ensures var v := Step(b, Trickle(Some(c), taken));
            && v.handed == b.handed + [c] && v.pending == b.pending && v.iceIn == b.iceIn + 1
            && v.accepted == b.accepted + (if taken then 1 else 0) && v.failed == b.failed + (if taken then 0 else 1)
  {
  }

  /** Unless the buffer overflowed or an end marker came early, nothing is lost: handed on or still waiting, in order. */
  lemma {:induction false} NothingIsLost(signals: seq<Signal>)
    requires Run(signals).overflows == 0 && Run(signals).endsEarly == 0
    ensures Run(signals).handed + Run(signals).pending == Arrivals(signals)
    ensures Run(signals).remoteSet ==> Run(signals).handed == Arrivals(signals)
  {
    Accounting(signals);
    if signals != [] {
      var front, s := signals[..|signals| - 1], signals[|signals| - 1];
      var b := Run(front);
      Accounting(front);
      LossesStay(b, s);
      NothingIsLost(front);
      if s.Description? && s.applied {
        DescriptionHandsOn(b, s.agent);
        assert (b.handed + b.pending) + [] == b.handed + b.pending;
      }
    }
  }

  lemma LossesStay(b: Buffer, s: Signal)
    ensures b.overflows <= Step(b, s).overflows && b.endsEarly <= Step(b, s).endsEarly
  {
    if s.Description? && s.applied {
      HandAllCounts(b.(remoteSet := true, pending := []), b.pending, s.agent);
    }
  }
}
