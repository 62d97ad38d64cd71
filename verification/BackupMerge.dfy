/**
 * Backup export and import. An import validates the whole file before it writes anything, then
 * merges row by row into storage that ignores rows it already holds.
 */
module BackupMerge {
  import opened Basics
  import opened Listings

  const MAX_CONVERSATIONS: nat := 10_000
  const MAX_MESSAGES: nat := 500_000
  const MAX_SEEDS: nat := 100_000
  const MAX_NAME: nat := 500

  datatype ErrorCode = NotABackup | TooOld | WrongKey | Corrupted | TooLarge

  // ---- The local store ----

  datatype Lifecycle = Active | Pending | Other(code: nat)

  datatype Conversation = Conversation(name: string, lifecycle: Lifecycle, meta: nat)

  datatype Sealed = Sealed(iv: seq<nat>, cipherText: seq<nat>)

  datatype Message = Message(conversation: string, timestamp: nat, body: Sealed)

  datatype Seed = Seed(
    workspace: string, channel: string, sender: string, firstIndex: nat, createdAt: nat,
    sentCount: Option<nat>, distributionEpoch: Option<nat>, body: Sealed)

  datatype Store = Store(
    conversations: map<string, Conversation>, messages: map<string, Message>, seeds: map<string, Seed>)

  const EMPTY := Store(map[], map[], map[])

  // ---- The file ----

  /** Rows as parsed; `None` is a field that is missing or has the wrong type. */
  datatype ConversationRow = ConversationRow(id: Option<string>, name: Option<string>, lifecycle: Lifecycle, meta: nat)

  datatype MessageRow = MessageRow(id: Option<string>, conversation: Option<string>, timestamp: nat, body: Option<Sealed>)

  datatype SeedRow = SeedRow(
    id: Option<string>, workspace: Option<string>, channel: Option<string>, sender: Option<string>,
    firstIndex: Option<nat>, createdAt: Option<nat>, sentCount: Option<nat>, body: Option<Sealed>)

  datatype Backup = Backup(
    version: Option<int>,
    exporter: Option<string>,
    conversations: Option<seq<ConversationRow>>,
    messages: Option<seq<MessageRow>>,
    seeds: Option<seq<SeedRow>>)

  datatype Payload = Unopened | NotJson | Json(backup: Backup)

  /** `magic` and `version` are the header bytes; `payload` is what the device key makes of the rest. */
  datatype File = Short | File(magic: bool, version: nat, payload: Payload)

  predicate IsSpace(c: char) {
    c == ' ' || ('\t' <= c <= '\r') || c == '\U{00A0}' || c == '\U{FEFF}'
  }

  predicate Usable(id: Option<string>) {
    id.Some? && exists i :: 0 <= i < |id.value| && !IsSpace(id.value[i])
  }

  predicate GoodConversation(r: ConversationRow) {
    Usable(r.id) && (r.name.Some? ==> |r.name.value| <= MAX_NAME)
  }

  predicate GoodMessage(r: MessageRow) {
    Usable(r.id) && r.conversation.Some? && r.body.Some?
  }

  predicate GoodSeed(r: SeedRow) {
    Usable(r.id) && r.channel.Some? && r.workspace.Some? && r.body.Some?
  }

  function Seeds(b: Backup): seq<SeedRow> {
    if b.seeds.Some? then b.seeds.value else []
  }

  /** The first check that fails decides the code. */
  function Verdict(b: Backup): Option<ErrorCode> {
    if b.version.Some? && b.version.value < 1 then Some(Corrupted)
    else if b.conversations.None? || b.messages.None? then Some(Corrupted)
    else if |b.conversations.value| > MAX_CONVERSATIONS || |b.messages.value| > MAX_MESSAGES then Some(TooLarge)
    else if exists i :: 0 <= i < |b.conversations.value| && !GoodConversation(b.conversations.value[i]) then Some(Corrupted)
    else if exists i :: 0 <= i < |b.messages.value| && !GoodMessage(b.messages.value[i]) then Some(Corrupted)
    else if |Seeds(b)| > MAX_SEEDS then Some(TooLarge)
    else if exists i :: 0 <= i < |Seeds(b)| && !GoodSeed(Seeds(b)[i]) then Some(Corrupted)
    else None
  }

  function Open(f: File): Result<Backup, ErrorCode> {
    if f.Short? || !f.magic then Err(NotABackup)
    else if f.version < 2 then Err(TooOld)
    else match f.payload
      case Unopened => Err(WrongKey)
      case NotJson => Err(Corrupted)
      case Json(b) => if Verdict(b).Some? then Err(Verdict(b).value) else Ok(b)
  }

  // ---- Merging ----

  /** Insert-or-ignore, row by row, of the rows that `keep` lets through. */
  function Merge<K(==), V>(m: map<K, V>, rows: seq<Entry<K, V>>, keep: Entry<K, V> -> bool): map<K, V> {
    if rows == [] then m
    else
      var before, e := Merge(m, rows[..|rows| - 1], keep), rows[|rows| - 1];
      if keep(e) && e.key !in before then before[e.key := e.value] else before
  }

  lemma {:induction false} MergeKeeps<K, V>(m: map<K, V>, rows: seq<Entry<K, V>>, keep: Entry<K, V> -> bool)
    ensures forall k :: k in m ==> k in Merge(m, rows, keep) && Merge(m, rows, keep)[k] == m[k]
  {
    if rows != [] {
      MergeKeeps(m, rows[..|rows| - 1], keep);
    }
  }

  lemma {:induction false} MergeAdds<K, V>(m: map<K, V>, rows: seq<Entry<K, V>>, keep: Entry<K, V> -> bool)
    ensures forall k :: k in Merge(m, rows, keep) && k !in m ==>
              exists i :: 0 <= i < |rows| && keep(rows[i]) && rows[i].key == k && rows[i].value == Merge(m, rows, keep)[k]
    ensures forall i :: 0 <= i < |rows| && keep(rows[i]) ==> rows[i].key in Merge(m, rows, keep)
  {
    if rows != [] {
      var front := rows[..|rows| - 1];
      MergeAdds(m, front, keep);
      var now := Merge(m, rows, keep);
      forall k | k in now && k !in m
        ensures exists i :: 0 <= i < |rows| && keep(rows[i]) && rows[i].key == k && rows[i].value == now[k]
      {
        if k in Merge(m, front, keep) {
          var i :| 0 <= i < |front| && keep(front[i]) && front[i].key == k && front[i].value == Merge(m, front, keep)[k];
          assert rows[i] == front[i];
        } else {
          assert keep(rows[|rows| - 1]) && rows[|rows| - 1].key == k;
        }
      }
      forall i | 0 <= i < |rows| && keep(rows[i]) ensures rows[i].key in now {
        if i < |front| { assert front[i] == rows[i]; }
      }
    }
  }

  /** Nothing is left to add. */
  lemma {:induction false} MergeIdle<K, V>(m: map<K, V>, rows: seq<Entry<K, V>>, keep: Entry<K, V> -> bool)
    requires forall i :: 0 <= i < |rows| && keep(rows[i]) ==> rows[i].key in m
    ensures Merge(m, rows, keep) == m
  {
    if rows != [] {
      var front := rows[..|rows| - 1];
      forall i | 0 <= i < |front| && keep(front[i]) ensures front[i].key in m {
        assert rows[i] == front[i];
      }
      MergeIdle(m, front, keep);
    }
  }

  function NewIn(m: map<string, Conversation>): Entry<string, Conversation> -> bool {
    (e: Entry<string, Conversation>) => e.key !in m
  }

  function KnownIn(m: map<string, Conversation>): Entry<string, Message> -> bool {
    (e: Entry<string, Message>) => e.value.conversation in m
  }

  function Any(): Entry<string, Seed> -> bool {
    (e: Entry<string, Seed>) => true
  }

  /** An unnamed conversation is kept without a name. */
  function ConversationEntry(r: ConversationRow, same: bool): Entry<string, Conversation>
    requires GoodConversation(r)
  {
    Entry(r.id.value, Conversation(if r.name.Some? then r.name.value else "", if same then r.lifecycle else Pending, r.meta))
  }

  function MessageEntry(r: MessageRow): Entry<string, Message>
    requires GoodMessage(r)
  {
    Entry(r.id.value, Message(r.conversation.value, r.timestamp, r.body.value))
  }

  function OrZero(n: Option<nat>): nat {
    if n.Some? then n.value else 0
  }

  /** The file has no column for the distribution epoch. */
  function SeedEntry(r: SeedRow): Entry<string, Seed>
    requires GoodSeed(r)
  {
    Entry(r.id.value, Seed(r.workspace.value, r.channel.value, if r.sender.Some? then r.sender.value else "",
      OrZero(r.firstIndex), OrZero(r.createdAt), r.sentCount, None, r.body.value))
  }

  function ConversationEntries(rows: seq<ConversationRow>, same: bool): seq<Entry<string, Conversation>>
    requires forall i :: 0 <= i < |rows| ==> GoodConversation(rows[i])
  {
    seq(|rows|, i requires 0 <= i < |rows| => ConversationEntry(rows[i], same))
  }

  function MessageEntries(rows: seq<MessageRow>): seq<Entry<string, Message>>
    requires forall i :: 0 <= i < |rows| ==> GoodMessage(rows[i])
  {
    seq(|rows|, i requires 0 <= i < |rows| => MessageEntry(rows[i]))
  }

  function SeedEntries(rows: seq<SeedRow>): seq<Entry<string, Seed>>
    requires forall i :: 0 <= i < |rows| ==> GoodSeed(rows[i])
  {
    seq(|rows|, i requires 0 <= i < |rows| => SeedEntry(rows[i]))
  }

  /** Backups without an exporter are treated as this device's own. */
  predicate SameDevice(b: Backup, device: string) {
    b.exporter.None? || b.exporter.value == "" || b.exporter.value == device
  }

  function Merged(s: Store, b: Backup, device: string): Store
    requires Verdict(b).None?
  {
    var conversations :=
      Merge(s.conversations, ConversationEntries(b.conversations.value, SameDevice(b, device)), NewIn(s.conversations));
    Store(conversations,
      Merge(s.messages, MessageEntries(b.messages.value), KnownIn(conversations)),
      Merge(s.seeds, SeedEntries(Seeds(b)), Any()))
  }

  function Import(s: Store, f: File, device: string): Result<Store, ErrorCode> {
    match Open(f)
    case Err(e) => Err(e)
    case Ok(b) => Ok(Merged(s, b, device))
  }

  // ---- The running code ----

  method Validate(b: Backup) returns (verdict: Option<ErrorCode>)
    ensures verdict == Verdict(b)
  {
    if b.version.Some? && b.version.value < 1 {
      return Some(Corrupted);
    }
    if b.conversations.None? || b.messages.None? {
      return Some(Corrupted);
    }
    if |b.conversations.value| > MAX_CONVERSATIONS || |b.messages.value| > MAX_MESSAGES {
      return Some(TooLarge);
    }
    for i := 0 to |b.conversations.value|
      invariant forall j :: 0 <= j < i ==> GoodConversation(b.conversations.value[j])
    {
      if !GoodConversation(b.conversations.value[i]) {
        return Some(Corrupted);
      }
    }
    for i := 0 to |b.messages.value|
      invariant forall j :: 0 <= j < i ==> GoodMessage(b.messages.value[j])
    {
      if !GoodMessage(b.messages.value[i]) {
        return Some(Corrupted);
      }
    }
    var seeds := Seeds(b);
    if |seeds| > MAX_SEEDS {
      return Some(TooLarge);
    }
    for i := 0 to |seeds|
      invariant forall j :: 0 <= j < i ==> GoodSeed(seeds[j])
    {
      if !GoodSeed(seeds[i]) {
        return Some(Corrupted);
      }
    }
    return None;
  }

  class Storage {
    var conversations: map<string, Conversation>
    var messages: map<string, Message>
    var seeds: map<string, Seed>

    function View(): Store
      reads this
    {
      Store(conversations, messages, seeds)
    }

    method MergeConversation(id: string, c: Conversation)
      modifies this`conversations
      ensures conversations == if id in old(conversations) then old(conversations) else old(conversations)[id := c]
    {
      if id !in conversations { conversations := conversations[id := c]; }
    }

    method ImportEncryptedRow(id: string, m: Message)
      modifies this`messages
      ensures messages == if id in old(messages) then old(messages) else old(messages)[id := m]
    {
      if id !in messages { messages := messages[id := m]; }
    }

    method ImportEncryptedSeed(id: string, s: Seed)
      modifies this`seeds
      ensures seeds == if id in old(seeds) then old(seeds) else old(seeds)[id := s]
    {
      if id !in seeds { seeds := seeds[id := s]; }
    }

    method MergeConversations(rows: seq<ConversationRow>, same: bool)
      requires forall i :: 0 <= i < |rows| ==> GoodConversation(rows[i])
      modifies this`conversations
      ensures conversations == Merge(old(conversations), ConversationEntries(rows, same), NewIn(old(conversations)))
    {
      var existing := conversations;
      ghost var es := ConversationEntries(rows, same);
      for i := 0 to |rows|
        invariant conversations == Merge(existing, es[..i], NewIn(existing))
      {
        assert es[..i + 1][..i] == es[..i];
        var e := ConversationEntry(rows[i], same);
        if e.key !in existing {
          MergeConversation(e.key, e.value);
        }
      }
      assert es[..|rows|] == es;
    }

    method MergeMessages(rows: seq<MessageRow>)
      requires forall i :: 0 <= i < |rows| ==> GoodMessage(rows[i])
      modifies this`messages
      ensures messages == Merge(old(messages), MessageEntries(rows), KnownIn(conversations))
    {
      ghost var es := MessageEntries(rows);
      for i := 0 to |rows|
        invariant messages == Merge(old(messages), es[..i], KnownIn(conversations))
      {
        assert es[..i + 1][..i] == es[..i];
        var e := MessageEntry(rows[i]);
        if e.value.conversation in conversations {
          ImportEncryptedRow(e.key, e.value);
        }
      }
      assert es[..|rows|] == es;
    }

    method MergeSeeds(rows: seq<SeedRow>)
      requires forall i :: 0 <= i < |rows| ==> GoodSeed(rows[i])
      modifies this`seeds
      ensures seeds == Merge(old(seeds), SeedEntries(rows), Any())
    {
      ghost var es := SeedEntries(rows);
      for i := 0 to |rows|
        invariant seeds == Merge(old(seeds), es[..i], Any())
      {
        assert es[..i + 1][..i] == es[..i];
        var e := SeedEntry(rows[i]);
        ImportEncryptedSeed(e.key, e.value);
      }
      assert es[..|rows|] == es;
    }

    /** A refused file leaves the store as it was; an accepted one leaves exactly the merge. */
    method ImportBackup(f: File, device: string) returns (r: Result<bool, ErrorCode>)
      modifies this
      ensures match Import(old(View()), f, device)
              case Err(e) => r == Err(e) && View() == old(View())
              case Ok(s) => r == Ok(SameDevice(f.payload.backup, device)) && View() == s
    {
      if f.Short? || !f.magic {
        return Err(NotABackup);
      }
      if f.version < 2 {
        return Err(TooOld);
      }
      if f.payload.Unopened? {
        return Err(WrongKey);
      }
      if f.payload.NotJson? {
        return Err(Corrupted);
      }
      var b := f.payload.backup;
      var verdict := Validate(b);
      if verdict.Some? {
        return Err(verdict.value);
      }
      var same := SameDevice(b, device);
      MergeConversations(b.conversations.value, same);
      MergeMessages(b.messages.value);
      MergeSeeds(Seeds(b));
      return Ok(same);
    }
  }

  // ---- What an import never does ----

  /** Rows already in the store are never altered. */
  lemma ImportKeepsExisting(s: Store, f: File, device: string)
    requires Import(s, f, device).Ok?
    ensures var t := Import(s, f, device).value;
            && (forall k :: k in s.conversations ==> k in t.conversations && t.conversations[k] == s.conversations[k])
            && (forall k :: k in s.messages ==> k in t.messages && t.messages[k] == s.messages[k])
            && (forall k :: k in s.seeds ==> k in t.seeds && t.seeds[k] == s.seeds[k])
  {
    var b := f.payload.backup;
    var t := Merged(s, b, device);
    MergeKeeps(s.conversations, ConversationEntries(b.conversations.value, SameDevice(b, device)), NewIn(s.conversations));
    MergeKeeps(s.messages, MessageEntries(b.messages.value), KnownIn(t.conversations));
    MergeKeeps(s.seeds, SeedEntries(Seeds(b)), Any());
  }

  /** No message arrives without its conversation, and on another device every new conversation is pending. */
  lemma ImportAddsNoOrphan(s: Store, f: File, device: string)
    requires Import(s, f, device).Ok?
    ensures var t := Import(s, f, device).value;
            && (forall k :: k in t.messages && k !in s.messages ==> t.messages[k].conversation in t.conversations)
            && (!SameDevice(f.payload.backup, device) ==>
                  forall k :: k in t.conversations && k !in s.conversations ==> t.conversations[k].lifecycle == Pending)
  {
    var b := f.payload.backup;
    var t := Merged(s, b, device);
    MergeAdds(s.messages, MessageEntries(b.messages.value), KnownIn(t.conversations));
    MergeAdds(s.conversations, ConversationEntries(b.conversations.value, SameDevice(b, device)), NewIn(s.conversations));
  }

  /** Importing the same file again changes nothing. */
  lemma ImportIsIdempotent(s: Store, f: File, device: string)
    requires Import(s, f, device).Ok?
    ensures Import(Import(s, f, device).value, f, device) == Import(s, f, device)
  {
    var b := f.payload.backup;
    var t := Merged(s, b, device);
    var convs, msgs, seeds :=
      ConversationEntries(b.conversations.value, SameDevice(b, device)), MessageEntries(b.messages.value), SeedEntries(Seeds(b));
    MergeKeeps(s.conversations, convs, NewIn(s.conversations));
    MergeAdds(s.conversations, convs, NewIn(s.conversations));
    forall i | 0 <= i < |convs| ensures convs[i].key in t.conversations {
      assert NewIn(s.conversations)(convs[i]) || convs[i].key in s.conversations;
    }
    MergeIdle(t.conversations, convs, NewIn(t.conversations));
    MergeAdds(s.messages, msgs, KnownIn(t.conversations));
    MergeIdle(t.messages, msgs, KnownIn(t.conversations));
    MergeAdds(s.seeds, seeds, Any());
    MergeIdle(t.seeds, seeds, Any());
  }

  // ---- Export, then import into an empty store ----

  /** The order in which storage lists its rows. */
  datatype Listing = Listing(
    conversations: seq<Entry<string, Conversation>>, messages: seq<Entry<string, Message>>, seeds: seq<Entry<string, Seed>>)

  ghost predicate Lists(l: Listing, s: Store) {
    OrderOf(l.conversations, s.conversations) && OrderOf(l.messages, s.messages) && OrderOf(l.seeds, s.seeds)
  }

  function ConversationOut(e: Entry<string, Conversation>): ConversationRow {
    ConversationRow(Some(e.key), Some(e.value.name), e.value.lifecycle, e.value.meta)
  }

  function MessageOut(e: Entry<string, Message>): MessageRow {
    MessageRow(Some(e.key), Some(e.value.conversation), e.value.timestamp, Some(e.value.body))
  }

  function SeedOut(e: Entry<string, Seed>): SeedRow {
    SeedRow(Some(e.key), Some(e.value.workspace), Some(e.value.channel), Some(e.value.sender),
      Some(e.value.firstIndex), Some(e.value.createdAt), e.value.sentCount, Some(e.value.body))
  }

  function Rows<T, R>(es: seq<T>, out: T -> R): (rows: seq<R>)
    ensures |rows| == |es|
    ensures forall i :: 0 <= i < |es| ==> rows[i] == out(es[i])
  {
    seq(|es|, i requires 0 <= i < |es| => out(es[i]))
  }

  function Exported(l: Listing, device: string): Backup {
    Backup(Some(2), Some(device), Some(Rows(l.conversations, ConversationOut)),
      Some(Rows(l.messages, MessageOut)), Some(Rows(l.seeds, SeedOut)))
  }

  function Export(l: Listing, device: string): File {
    File(true, 2, Json(Exported(l, device)))
  }

  /** The limits an import enforces, as facts about the exported store. */
  ghost predicate WithinLimits(l: Listing) {
    && |l.conversations| <= MAX_CONVERSATIONS && |l.messages| <= MAX_MESSAGES && |l.seeds| <= MAX_SEEDS
    && (forall i :: 0 <= i < |l.conversations| ==>
          Usable(Some(l.conversations[i].key)) && |l.conversations[i].value.name| <= MAX_NAME)
    && (forall i :: 0 <= i < |l.messages| ==> Usable(Some(l.messages[i].key)))
    && (forall i :: 0 <= i < |l.seeds| ==> Usable(Some(l.seeds[i].key)))
  }

  lemma LimitsDecide(l: Listing, device: string)
    ensures Open(Export(l, device)).Ok? <==> WithinLimits(l)
  {
  }

  /** Merging a listing of `n` into an empty table gives the entries that are kept. */
  lemma MergeListing<K, V>(rows: seq<Entry<K, V>>, n: map<K, V>, keep: Entry<K, V> -> bool)
    requires OrderOf(rows, n)
    ensures var m := Merge(map[], rows, keep);
            && (forall k :: k in m <==> k in n && keep(Entry(k, n[k])))
            && (forall k :: k in m ==> m[k] == n[k])
  {
    MergeAdds(map[], rows, keep);
    var m := Merge(map[], rows, keep);
    forall k | k in n && keep(Entry(k, n[k])) ensures k in m {
      var i :| 0 <= i < |rows| && rows[i].key == k;
      assert rows[i] == Entry(k, n[k]);
    }
    forall k | k in m ensures k in n && keep(Entry(k, n[k])) && m[k] == n[k] {
      var i :| 0 <= i < |rows| && keep(rows[i]) && rows[i].key == k && rows[i].value == m[k];
      assert rows[i] == Entry(k, n[k]);
    }
  }

  ghost predicate NoOrphans(s: Store) {
    forall k :: k in s.messages ==> s.messages[k].conversation in s.conversations
  }

  ghost predicate NoEpochs(s: Store) {
    forall k :: k in s.seeds ==> s.seeds[k].distributionEpoch.None?
  }

  /** A conversation as another device receives it. */
  function Received(c: Conversation, same: bool): Conversation {
    if same then c else c.(lifecycle := Pending)
  }

  function Table<V>(m: map<string, V>, f: V -> V): map<string, V> {
    map k | k in m :: f(m[k])
  }

  /** Changing the values of a listed table lists the changed table. */
  lemma MappedListing<V>(es: seq<Entry<string, V>>, rows: seq<Entry<string, V>>, m: map<string, V>, f: V -> V)
    requires OrderOf(es, m) && |rows| == |es|
    requires forall i :: 0 <= i < |es| ==> rows[i] == Entry(es[i].key, f(es[i].value))
    ensures OrderOf(rows, Table(m, f))
  {
  }

  lemma MergeMapped<V>(es: seq<Entry<string, V>>, rows: seq<Entry<string, V>>, m: map<string, V>, f: V -> V, keep: Entry<string, V> -> bool)
    requires OrderOf(es, m) && |rows| == |es|
    requires forall i :: 0 <= i < |es| ==> rows[i] == Entry(es[i].key, f(es[i].value))
    requires forall e :: keep(e)
    ensures Merge(map[], rows, keep) == Table(m, f)
  {
    MappedListing(es, rows, m, f);
    MergeListing(rows, Table(m, f), keep);
  }

  function AsReceived(same: bool): Conversation -> Conversation {
    c => Received(c, same)
  }

  lemma RestoredConversations(es: seq<Entry<string, Conversation>>, m: map<string, Conversation>, same: bool)
    requires OrderOf(es, m)
    requires forall i :: 0 <= i < |es| ==> GoodConversation(Rows(es, ConversationOut)[i])
    ensures Merge(map[], ConversationEntries(Rows(es, ConversationOut), same), NewIn(map[])) == Table(m, AsReceived(same))
  {
    var rows := ConversationEntries(Rows(es, ConversationOut), same);
    MergeMapped(es, rows, m, AsReceived(same), NewIn(map[]));
  }

  /** The messages whose conversation is among `known`. */
  function Placed(m: map<string, Message>, known: set<string>): map<string, Message> {
    map k | k in m && m[k].conversation in known :: m[k]
  }

  lemma RestoredMessages(es: seq<Entry<string, Message>>, m: map<string, Message>, conversations: map<string, Conversation>)
    requires OrderOf(es, m)
    requires forall i :: 0 <= i < |es| ==> GoodMessage(Rows(es, MessageOut)[i])
    ensures Merge(map[], MessageEntries(Rows(es, MessageOut)), KnownIn(conversations))
         == Placed(m, conversations.Keys)
  {
    assert MessageEntries(Rows(es, MessageOut)) == es;
    MergeListing(es, m, KnownIn(conversations));
  }

  function WithoutEpoch(x: Seed): Seed {
    x.(distributionEpoch := None)
  }

  lemma RestoredSeeds(es: seq<Entry<string, Seed>>, m: map<string, Seed>)
    requires OrderOf(es, m)
    requires forall i :: 0 <= i < |es| ==> GoodSeed(Rows(es, SeedOut)[i])
    ensures Merge(map[], SeedEntries(Rows(es, SeedOut)), Any()) == Table(m, WithoutEpoch)
  {
    MergeMapped(es, SeedEntries(Rows(es, SeedOut)), m, WithoutEpoch, Any());
  }

  /** What an export restores to in an empty store, on this device or another. */
  function RestoredStore(s: Store, same: bool): Store {
    Store(Table(s.conversations, AsReceived(same)),
      Placed(s.messages, s.conversations.Keys),
      Table(s.seeds, WithoutEpoch))
  }

  lemma RestoredMerge(l: Listing, s: Store, exporter: string, device: string)
    requires Lists(l, s) && Verdict(Exported(l, exporter)).None?
    ensures Merged(EMPTY, Exported(l, exporter), device) == RestoredStore(s, exporter == "" || exporter == device)
  {
    var b, same := Exported(l, exporter), exporter == "" || exporter == device;
    assert SameDevice(b, device) == same;
    RestoredConversations(l.conversations, s.conversations, same);
    assert Table(s.conversations, AsReceived(same)).Keys == s.conversations.Keys;
    RestoredMessages(l.messages, s.messages, Table(s.conversations, AsReceived(same)));
    RestoredSeeds(l.seeds, s.seeds);
  }

  lemma RestoreGives(l: Listing, s: Store, exporter: string, device: string)
    requires Lists(l, s)
    ensures Import(EMPTY, Export(l, exporter), device).Ok? <==> WithinLimits(l)
    ensures WithinLimits(l) ==>
              Import(EMPTY, Export(l, exporter), device) == Ok(RestoredStore(s, exporter == "" || exporter == device))
  {
    LimitsDecide(l, exporter);
    if Verdict(Exported(l, exporter)).None? {
      RestoredMerge(l, s, exporter, device);
    }
  }

  lemma NothingLost(s: Store)
    ensures RestoredStore(s, true) == s <==> NoOrphans(s) && NoEpochs(s)
  {
  }

  /**
   * Wipe and restore on the same device gives back the store exactly when it is within the limits,
   * holds no message without its conversation and no seed with a distribution epoch: the file has
   * no column for that epoch, and the import drops orphans.
   */
  lemma RestoreIsExact(l: Listing, s: Store, device: string)
    requires Lists(l, s)
    ensures Import(EMPTY, Export(l, device), device) == Ok(s) <==> WithinLimits(l) && NoOrphans(s) && NoEpochs(s)
  {
    RestoreGives(l, s, device, device);
    NothingLost(s);
  }

  // ---- Which file is accepted, and what arrives ----

  /** Every list is present, no longer than allowed, and every row has its columns. */
  predicate WellFormed(b: Backup) {
    && (b.version.Some? ==> b.version.value >= 1)
    && b.conversations.Some? && b.messages.Some?
    && |b.conversations.value| <= MAX_CONVERSATIONS && |b.messages.value| <= MAX_MESSAGES && |Seeds(b)| <= MAX_SEEDS
    && (forall i :: 0 <= i < |b.conversations.value| ==> GoodConversation(b.conversations.value[i]))
    && (forall i :: 0 <= i < |b.messages.value| ==> GoodMessage(b.messages.value[i]))
    && (forall i :: 0 <= i < |Seeds(b)| ==> GoodSeed(Seeds(b)[i]))
  }

  /** A file is accepted exactly if it is a current backup, opens with the key and is well formed; each other stage has its code. */
  lemma OpenAnswers(f: File)
    ensures Open(f).Ok? <==> !f.Short? && f.magic && f.version >= 2 && f.payload.Json? && WellFormed(f.payload.backup)
    ensures f.Short? || !f.magic <==> Open(f) == Err(NotABackup)
    ensures !f.Short? && f.magic && f.version < 2 <==> Open(f) == Err(TooOld)
    ensures !f.Short? && f.magic && f.version >= 2 && f.payload.Unopened? <==> Open(f) == Err(WrongKey)
  {
  }

  /** The value that arrives is that of the first row let through. */
  predicate FirstOf<K(==), V>(rows: seq<Entry<K, V>>, keep: Entry<K, V> -> bool, i: nat) {
    i < |rows| && keep(rows[i]) && forall j :: 0 <= j < i && rows[j].key == rows[i].key ==> !keep(rows[j])
  }

  lemma {:induction false} FirstRowWins<K, V>(m: map<K, V>, rows: seq<Entry<K, V>>, keep: Entry<K, V> -> bool, i: nat)
    requires FirstOf(rows, keep, i) && rows[i].key !in m
    ensures rows[i].key in Merge(m, rows, keep) && Merge(m, rows, keep)[rows[i].key] == rows[i].value
  {
    var front := rows[..|rows| - 1];
    if i < |front| {
      assert FirstOf(front, keep, i) by {
        assert forall j :: 0 <= j < i ==> front[j] == rows[j];
      }
      FirstRowWins(m, front, keep, i);
    } else {
      MergeAdds(m, front, keep);
      assert forall j :: 0 <= j < |front| ==> front[j] == rows[j];
    }
  }

  /** Into any store: every conversation, every seed and every message with a known conversation arrives, and nothing else. */
  lemma ImportBringsExactly(s: Store, f: File, device: string)
    requires Import(s, f, device).Ok?
    ensures var b := f.payload.backup;
            var t := Import(s, f, device).value;
            && (forall k :: k in t.conversations <==>
                  k in s.conversations || exists i :: 0 <= i < |b.conversations.value| && b.conversations.value[i].id == Some(k))
            && (forall k :: k in t.seeds <==>
                  k in s.seeds || exists i :: 0 <= i < |Seeds(b)| && Seeds(b)[i].id == Some(k))
            && (forall k :: k in t.messages <==>
                  k in s.messages || exists i :: 0 <= i < |b.messages.value| && b.messages.value[i].id == Some(k)
                                                && b.messages.value[i].conversation.value in t.conversations)
  {
    var b := f.payload.backup;
    ConversationsArrive(s, b, device);
    MessagesArrive(s, b, device);
    SeedsArrive(s, b, device);
  }

  lemma ConversationsArrive(s: Store, b: Backup, device: string)
    requires Verdict(b).None?
    ensures var t := Merged(s, b, device);
            forall k :: k in t.conversations <==>
              k in s.conversations || exists i :: 0 <= i < |b.conversations.value| && b.conversations.value[i].id == Some(k)
  {
    var rows := ConversationEntries(b.conversations.value, SameDevice(b, device));
    MergeKeeps(s.conversations, rows, NewIn(s.conversations));
    MergeAdds(s.conversations, rows, NewIn(s.conversations));
    var t := Merged(s, b, device);
    forall i | 0 <= i < |rows| ensures rows[i].key in t.conversations && b.conversations.value[i].id == Some(rows[i].key) {
      assert NewIn(s.conversations)(rows[i]) || rows[i].key in s.conversations;
    }
  }

  lemma MessagesArrive(s: Store, b: Backup, device: string)
    requires Verdict(b).None?
    ensures var t := Merged(s, b, device);
            forall k :: k in t.messages <==>
              k in s.messages || exists i :: 0 <= i < |b.messages.value| && b.messages.value[i].id == Some(k)
                                            && b.messages.value[i].conversation.value in t.conversations
  {
    var t := Merged(s, b, device);
    var rows := MessageEntries(b.messages.value);
    MergeKeeps(s.messages, rows, KnownIn(t.conversations));
    MergeAdds(s.messages, rows, KnownIn(t.conversations));
    forall i | 0 <= i < |rows|
      ensures b.messages.value[i].id == Some(rows[i].key)
      ensures KnownIn(t.conversations)(rows[i]) <==> b.messages.value[i].conversation.value in t.conversations
    {
    }
  }

  lemma SeedsArrive(s: Store, b: Backup, device: string)
    requires Verdict(b).None?
    ensures var t := Merged(s, b, device);
            forall k :: k in t.seeds <==> k in s.seeds || exists i :: 0 <= i < |Seeds(b)| && Seeds(b)[i].id == Some(k)
  {
    var rows := SeedEntries(Seeds(b));
    MergeKeeps(s.seeds, rows, Any());
    MergeAdds(s.seeds, rows, Any());
    forall i | 0 <= i < |rows| ensures Seeds(b)[i].id == Some(rows[i].key) && Any()(rows[i]) {
    }
  }
}
