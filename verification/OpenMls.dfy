/**
 * The part of the OpenMLS library the device manager relies on.
 *
 * A call into the library either succeeds with its effect or fails with none; which of the two
 * happens, and the text of a failure, is the caller's parameter, so every lemma holds for every
 * behaviour of the library. Key material is one opaque number.
 */
module OpenMls {
  import opened Basics

  const U64_MAX: nat := 0xFFFF_FFFF_FFFF_FFFF

  /** How a foreign call ends; `debug` is the text of `{:?}` on its error. */
  datatype Answer = Works | Fails(debug: string)

  /**
   * A raw group id. `text` is `String::from_utf8_lossy` of its bytes and `utf8` tells whether the
   * bytes really are that text: two raw ids may share one lossy text.
   */
  datatype GroupId = GroupId(text: string, utf8: bool)

  /** `GroupId::from_slice(name.as_bytes())`. */
  function NamedId(name: string): GroupId {
    GroupId(name, true)
  }

  /** A basic credential is `userId:deviceId`; its bytes may fail to be text, or be another kind. */
  datatype Credential = Basic(identity: string) | NonText(raw: seq<int>) | Foreign

  datatype Leaf = Leaf(index: nat, credential: Credential)

  /** A commit as the library would apply it: the next tree, its key material, and our own fate. */
  datatype Commit = Commit(roster: seq<Leaf>, evictsUs: bool, secrets: nat)

  datatype Pending = NoPending | OwnCommit(commit: Commit) | ExternalJoin

  datatype Group = Group(
    id: GroupId,
    epoch: nat,
    active: bool,
    roster: seq<Leaf>,
    pending: Pending,
    sent: nat,      // next generation of our own sender ratchet
    secrets: nat    // key schedule, receive windows, queued proposals
  )

  /** Section 12.4 of RFC 9420: applying a commit starts the next epoch and fresh ratchets. */
  function Merged(g: Group, c: Commit): Group {
    g.(epoch := g.epoch + 1, roster := c.roster, active := !c.evictsUs,
       pending := NoPending, sent := 0, secrets := c.secrets)
  }

  // ---- Calls on a group ----

  const USE_AFTER_EVICTION := "UseAfterEviction"
  const PENDING_COMMIT := "PendingCommit"

  datatype SendError = UseAfterEviction | OtherSendError(debug: string)

  function CreateMessage(g: Group, answer: Answer): Result<Group, SendError> {
    if !g.active then Err(UseAfterEviction)
    else if answer.Fails? then Err(OtherSendError(answer.debug))
    else Ok(g.(sent := g.sent + 1))
  }

  function FreshIndex(roster: seq<Leaf>): (i: nat)
    ensures forall k :: 0 <= k < |roster| ==> roster[k].index < i
  {
    if roster == [] then 0
    else
      var rest := FreshIndex(roster[..|roster| - 1]);
      var last := roster[|roster| - 1].index;
      if last < rest then rest else last + 1
  }

  function WithAdded(roster: seq<Leaf>, credentials: seq<Credential>): seq<Leaf>
    decreases |credentials|
  {
    if credentials == [] then roster
    else WithAdded(roster + [Leaf(FreshIndex(roster), credentials[0])], credentials[1..])
  }

  function Without(roster: seq<Leaf>, indices: set<nat>): seq<Leaf> {
    if roster == [] then []
    else (if roster[0].index in indices then [] else [roster[0]]) + Without(roster[1..], indices)
  }

  /** Both commit builders refuse while another commit is pending, and after an eviction. */
  function Stage(g: Group, c: Commit, answer: Answer): Result<Group, string> {
    if !g.active then Err(USE_AFTER_EVICTION)
    else if !g.pending.NoPending? then Err(PENDING_COMMIT)
    else if answer.Fails? then Err(answer.debug)
    else Ok(g.(pending := OwnCommit(c)))
  }

  function MergePending(g: Group, answer: Answer): Result<Group, string> {
    if !g.active then Err(USE_AFTER_EVICTION)
    else if answer.Fails? then Err(answer.debug)
    else match g.pending
      case NoPending => Ok(g)
      case OwnCommit(c) => Ok(Merged(g, c))
      case ExternalJoin => Ok(g.(pending := NoPending))
  }

  /** An external commit cannot be cleared: the call leaves it in place. */
  function ClearPending(g: Group, answer: Answer): Result<Group, string> {
    if answer.Fails? then Err(answer.debug)
    else if g.pending.OwnCommit? then Ok(g.(pending := NoPending))
    else Ok(g)
  }

  // ---- Incoming frames ----

  datatype Content = Application | Proposal | Handshake

  datatype FrameBody = Unparsable | NotProtocol | Protocol(epoch: nat, content: Content)

  datatype Frame = Frame(length: nat, body: FrameBody)

  /** What `process_message`, and the merge that follows a commit, answer for one frame. */
  datatype Processing =
    | Refused(debug: string)
    | Plaintext(bytes: seq<int>, secrets: nat)
    | StagedCommit(commit: Commit, secrets: nat, merge: Answer)
    | QueuedProposal(secrets: nat)

  // ---- The key store ----

  datatype Entry =
    | Record(group: Group)
    | Bundle(hashRef: string, notAfter: nat, lastResort: bool)
    | Blob(bytes: seq<int>)

  /**
   * A storage key is `label || json(id) || version`: a label, which is a plain byte prefix and is
   * no prefix of another label here, then the id it names.
   */
  datatype Label = KeyPackageLabel | GroupStateLabel | OtherLabel(name: string)

  datatype Key = Key(prefix: Label, body: string)

  type Storage = map<Key, Entry>

  function GroupKey(id: GroupId): Key {
    Key(GroupStateLabel, [if id.utf8 then 'u' else 'b'] + id.text)
  }

  function PackageKey(hashRef: string): Key {
    Key(KeyPackageLabel, hashRef)
  }

  lemma GroupKeyInjective(a: GroupId, b: GroupId)
    requires GroupKey(a) == GroupKey(b)
    ensures a == b
  {
    assert GroupKey(a).body[0] == GroupKey(b).body[0];
    assert GroupKey(a).body[1..] == a.text && GroupKey(b).body[1..] == b.text;
  }

  /** `MlsGroup::load`. */
  function Load(storage: Storage, id: GroupId): Option<Group> {
    var key := GroupKey(id);
    if key in storage && storage[key].Record? then Some(storage[key].group) else None
  }

  /** Every group call that changes a group writes it through to the store. */
  function Store(storage: Storage, g: Group): Storage {
    storage[GroupKey(g.id) := Record(g)]
  }
}
