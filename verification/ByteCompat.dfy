/**
 * The saved state as CBOR (RFC 8949). Byte buffers are written as byte strings and read back from
 * byte strings or from the older arrays of integers, at every place a buffer occurs in the state.
 */
module ByteCompat {
  import opened Basics
  import opened Listings

  type Byte = b: nat | b < 256
  type Bytes = seq<Byte>

  const U64: nat := 0x1_0000_0000_0000_0000

  /** What a reader makes of its input: a value and what is left, or a refusal. */
  datatype Parsed<T> = Refused | Got(value: T, rest: Bytes)

  // ---- Heads (section 3 of RFC 8949) ----

  function Power(k: nat): (p: nat)
    ensures p > 0
  {
    if k == 0 then 1 else 256 * Power(k - 1)
  }

  /** The `k` low bytes of `n`, most significant first. */
  function BigEndian(n: nat, k: nat): (b: Bytes)
    ensures |b| == k
  {
    if k == 0 then [] else BigEndian(n / 256, k - 1) + [n % 256]
  }

  function Number(b: Bytes): nat {
    if b == [] then 0 else 256 * Number(b[..|b| - 1]) + b[|b| - 1]
  }

  lemma {:induction false} NumberInverts(n: nat, k: nat)
    requires n < Power(k)
    ensures Number(BigEndian(n, k)) == n
  {
    if k > 0 {
      NumberInverts(n / 256, k - 1);
      assert BigEndian(n, k)[..k - 1] == BigEndian(n / 256, k - 1);
    }
  }

  lemma Powers()
    ensures Power(1) == 256 && Power(2) == 65536 && Power(4) == 0x1_0000_0000 && Power(8) == U64
  {
  }

  /** Bytes of argument that follow the initial byte in the shortest form. */
  function Extra(n: nat): nat {
    if n < 24 then 0 else if n < 256 then 1 else if n < 65536 then 2 else if n < 0x1_0000_0000 then 4 else 8
  }

  function Info(n: nat): (i: nat)
    ensures i < 28
  {
    match Extra(n)
    case 0 => if n < 24 then n else 0
    case 1 => 24
    case 2 => 25
    case 4 => 26
    case _ => 27
  }

  function Head(major: nat, n: nat): (h: Bytes)
    requires major < 8
    ensures |h| == 1 + Extra(n)
  {
    [major * 32 + Info(n)] + BigEndian(n, Extra(n))
  }

  datatype Header = Header(major: nat, length: Option<nat>)

  /** Any argument width is read, shortest or not; `None` is the indefinite length. */
  function ReadHead(s: Bytes): Parsed<Header> {
    if s == [] then Refused
    else
      var major, info := s[0] / 32, s[0] % 32;
      if info < 24 then Got(Header(major, Some(info)), s[1..])
      else if info == 31 then Got(Header(major, None), s[1..])
      else if info > 27 then Refused
      else
        var k := if info == 24 then 1 else if info == 25 then 2 else if info == 26 then 4 else 8;
        if |s| < 1 + k then Refused else Got(Header(major, Some(Number(s[1..1 + k]))), s[1 + k..])
  }

  lemma InitialByte(major: nat, info: nat)
    requires major < 8 && info < 32
    ensures (major * 32 + info) / 32 == major && (major * 32 + info) % 32 == info
  {
  }

  lemma HeadInverts(major: nat, n: nat, rest: Bytes)
    requires major < 8 && n < U64
    ensures ReadHead(Head(major, n) + rest) == Got(Header(major, Some(n)), rest)
  {
    var k := Extra(n);
    var s := Head(major, n) + rest;
    assert s[0] == major * 32 + Info(n);
    InitialByte(major, Info(n));
    assert s[1..1 + k] == BigEndian(n, k);
    assert s[1 + k..] == rest;
    if n >= 24 {
      Powers();
      NumberInverts(n, k);
    }
  }

  lemma OpenHeadInverts(rest: Bytes)
    ensures ReadHead([0x9f] + rest) == Got(Header(4, None), rest)
  {
  }

  // ---- Repetition: one lemma serves integers, buffers, entries and fields ----

  function ReadMany<T>(read: Bytes -> Parsed<T>, n: nat, s: Bytes): Parsed<seq<T>> {
    if n == 0 then Got([], s)
    else match read(s)
      case Refused => Refused
      case Got(v, r) => Prepend([v], ReadMany(read, n - 1, r))
  }

  /** Items up to the break byte; a reader that consumes nothing is refused. */
  function ReadUntilBreak<T>(read: Bytes -> Parsed<T>, s: Bytes): Parsed<seq<T>>
    decreases |s|
  {
    if s == [] then Refused
    else if s[0] == 0xff then Got([], s[1..])
    else match read(s)
      case Refused => Refused
      case Got(v, r) => if |r| < |s| then Prepend([v], ReadUntilBreak(read, r)) else Refused
  }

  function ReadItems<T>(read: Bytes -> Parsed<T>, length: Option<nat>, s: Bytes): Parsed<seq<T>> {
    match length
    case Some(n) => ReadMany(read, n, s)
    case None => ReadUntilBreak(read, s)
  }

  function Prepend<T>(vs: seq<T>, p: Parsed<seq<T>>): Parsed<seq<T>> {
    match p
    case Refused => Refused
    case Got(ws, r) => Got(vs + ws, r)
  }

  function Concat(codes: seq<Bytes>): Bytes {
    if codes == [] then [] else codes[0] + Concat(codes[1..])
  }

  /** `code` is read as `v`, whatever follows it. */
  ghost predicate Reads<T>(read: Bytes -> Parsed<T>, code: Bytes, v: T) {
    forall r: Bytes :: read(code + r) == Got(v, r)
  }

  lemma {:induction false} ReadManyInverts<T>(read: Bytes -> Parsed<T>, codes: seq<Bytes>, vs: seq<T>, rest: Bytes)
    requires |codes| == |vs|
    requires forall i :: 0 <= i < |vs| ==> Reads(read, codes[i], vs[i])
    ensures ReadMany(read, |vs|, Concat(codes) + rest) == Got(vs, rest)
    decreases |vs|
  {
    if vs != [] {
      var after := Concat(codes[1..]) + rest;
      assert Concat(codes) + rest == codes[0] + after;
      assert Reads(read, codes[0], vs[0]);
      ReadManyInverts(read, codes[1..], vs[1..], rest);
      assert [vs[0]] + vs[1..] == vs;
    }
  }

  lemma {:induction false} ReadUntilBreakInverts<T>(read: Bytes -> Parsed<T>, codes: seq<Bytes>, vs: seq<T>, rest: Bytes)
    requires |codes| == |vs|
    requires forall i :: 0 <= i < |vs| ==> Reads(read, codes[i], vs[i]) && codes[i] != [] && codes[i][0] != 0xff
    ensures ReadUntilBreak(read, Concat(codes) + [0xff] + rest) == Got(vs, rest)
    decreases |vs|
  {
    if vs == [] {
      assert (Concat(codes) + [0xff] + rest)[1..] == rest;
    } else {
      var s := Concat(codes) + [0xff] + rest;
      var after := Concat(codes[1..]) + [0xff] + rest;
      assert s == codes[0] + after;
      assert s[0] == codes[0][0];
      assert Reads(read, codes[0], vs[0]);
      ReadUntilBreakInverts(read, codes[1..], vs[1..], rest);
      assert [vs[0]] + vs[1..] == vs;
    }
  }

  // ---- Byte buffers ----

  /** The encoding now written, the older one, and the older one with its length left open. */
  datatype Form = ByteString | IntArray | OpenArray

  function Ints(b: Bytes): seq<Bytes> {
    seq(|b|, i requires 0 <= i < |b| => Head(0, b[i]))
  }

  function BufferCode(f: Form, b: Bytes): Bytes {
    match f
    case ByteString => Head(2, |b|) + b
    case IntArray => Head(4, |b|) + Concat(Ints(b))
    case OpenArray => [0x9f] + Concat(Ints(b)) + [0xff]
  }

  function ReadU8(s: Bytes): Parsed<Byte> {
    match ReadHead(s)
    case Got(Header(0, Some(n)), r) => if n < 256 then Got(n, r) else Refused
    case _ => Refused
  }

  function ReadBuffer(s: Bytes): Parsed<Bytes> {
    match ReadHead(s)
    case Got(Header(2, Some(n)), r) => if n <= |r| then Got(r[..n], r[n..]) else Refused
    case Got(Header(4, length), r) => ReadItems(ReadU8, length, r)
    case _ => Refused
  }

  /** The older path, one element at a time, for a known or an open length. */
  method VisitSeq(s: Bytes, length: Option<nat>) returns (p: Parsed<Bytes>)
    ensures p == ReadItems(ReadU8, length, s)
  {
    var out: Bytes, cur := [], s;
    PrependNothing(ReadItems(ReadU8, length, s));
    if length.Some? {
      var left := length.value;
      while left > 0
        invariant ReadItems(ReadU8, length, s) == Prepend(out, ReadMany(ReadU8, left, cur))
      {
        match ReadU8(cur) {
          case Refused => return Refused;
          case Got(b, r) =>
            PrependTwice(out, b, ReadMany(ReadU8, left - 1, r));
            out, cur, left := out + [b], r, left - 1;
        }
      }
      assert out + [] == out;
      return Got(out, cur);
    }
    while cur != [] && cur[0] != 0xff
      invariant ReadItems(ReadU8, length, s) == Prepend(out, ReadUntilBreak(ReadU8, cur))
      decreases |cur|
    {
      match ReadU8(cur) {
        case Refused => return Refused;
        case Got(b, r) =>
          U8Consumes(cur);
          PrependTwice(out, b, ReadUntilBreak(ReadU8, r));
          out, cur := out + [b], r;
      }
    }
    if cur == [] {
      return Refused;
    }
    assert out + [] == out;
    return Got(out, cur[1..]);
  }

  lemma PrependNothing<T>(q: Parsed<seq<T>>)
    ensures Prepend([], q) == q
  {
    if q.Got? { assert [] + q.value == q.value; }
  }

  lemma PrependTwice(out: Bytes, b: Byte, q: Parsed<Bytes>)
    ensures Prepend(out, Prepend([b], q)) == Prepend(out + [b], q)
  {
    if q.Got? { assert out + ([b] + q.value) == (out + [b]) + q.value; }
  }

  lemma U8Consumes(s: Bytes)
    requires ReadU8(s).Got?
    ensures |ReadU8(s).rest| < |s|
  {
  }

  lemma U8Inverts(b: Byte)
    ensures Reads(ReadU8, Head(0, b), b)
    ensures Head(0, b) != [] && Head(0, b)[0] != 0xff
  {
    forall r: Bytes ensures ReadU8(Head(0, b) + r) == Got(b, r) {
      HeadInverts(0, b, r);
    }
  }

  lemma IntsInvert(b: Bytes, r: Bytes)
    ensures ReadMany(ReadU8, |b|, Concat(Ints(b)) + r) == Got(b, r)
    ensures ReadUntilBreak(ReadU8, Concat(Ints(b)) + [0xff] + r) == Got(b, r)
  {
    forall i | 0 <= i < |b| ensures Reads(ReadU8, Ints(b)[i], b[i]) && Ints(b)[i] != [] && Ints(b)[i][0] != 0xff {
      U8Inverts(b[i]);
    }
    ReadManyInverts(ReadU8, Ints(b), b, r);
    ReadUntilBreakInverts(ReadU8, Ints(b), b, r);
  }

  lemma ByteStringInverts(b: Bytes, r: Bytes)
    requires |b| < U64
    ensures ReadBuffer(BufferCode(ByteString, b) + r) == Got(b, r)
  {
    assert BufferCode(ByteString, b) + r == Head(2, |b|) + (b + r);
    HeadInverts(2, |b|, b + r);
    assert (b + r)[..|b|] == b && (b + r)[|b|..] == r;
  }

  lemma IntArrayInverts(b: Bytes, r: Bytes)
    requires |b| < U64
    ensures ReadBuffer(BufferCode(IntArray, b) + r) == Got(b, r)
  {
    assert BufferCode(IntArray, b) + r == Head(4, |b|) + (Concat(Ints(b)) + r);
    HeadInverts(4, |b|, Concat(Ints(b)) + r);
    IntsInvert(b, r);
  }

  lemma OpenArrayInverts(b: Bytes, r: Bytes)
    requires |b| < U64
    ensures ReadBuffer(BufferCode(OpenArray, b) + r) == Got(b, r)
  {
    var tail := Concat(Ints(b)) + [0xff] + r;
    assert BufferCode(OpenArray, b) + r == [0x9f] + tail;
    OpenHeadInverts(tail);
    IntsInvert(b, r);
  }

  /** Every buffer is read back from each of its encodings, and nothing after it is touched. */
  lemma BufferRoundTrip(f: Form, b: Bytes)
    requires |b| < U64
    ensures Reads(ReadBuffer, BufferCode(f, b), b)
  {
    forall r: Bytes ensures ReadBuffer(BufferCode(f, b) + r) == Got(b, r) {
      match f
      case ByteString => ByteStringInverts(b, r);
      case IntArray => IntArrayInverts(b, r);
      case OpenArray => OpenArrayInverts(b, r);
    }
  }

  // ---- Sizes ----

  /** Bytes that cost two as an integer. */
  function Wide(b: Bytes): nat {
    if b == [] then 0 else (if b[0] >= 24 then 1 else 0) + Wide(b[1..])
  }

  lemma {:induction false} IntsSize(b: Bytes)
    ensures |Concat(Ints(b))| == |b| + Wide(b)
  {
    if b != [] {
      assert Ints(b)[1..] == Ints(b[1..]);
      IntsSize(b[1..]);
    }
  }

  /** The older form costs exactly one byte more per byte value of 24 or above. */
  lemma LegacyCost(b: Bytes)
    ensures |BufferCode(IntArray, b)| == |BufferCode(ByteString, b)| + Wide(b)
  {
    IntsSize(b);
  }

  // ---- Lists and maps of buffers ----

  function Codes(pick: Bytes -> Form, items: seq<Bytes>): seq<Bytes> {
    seq(|items|, i requires 0 <= i < |items| => BufferCode(pick(items[i]), items[i]))
  }

  /** `pick` chooses the form buffer by buffer, so a file may mix them. */
  function ListCode(pick: Bytes -> Form, items: seq<Bytes>): Bytes {
    Head(4, |items|) + Concat(Codes(pick, items))
  }

  function ReadList(s: Bytes): Parsed<seq<Bytes>> {
    match ReadHead(s)
    case Got(Header(4, length), r) => ReadItems(ReadBuffer, length, r)
    case _ => Refused
  }

  lemma ListRoundTrip(pick: Bytes -> Form, items: seq<Bytes>)
    requires |items| < U64 && forall i :: 0 <= i < |items| ==> |items[i]| < U64
    ensures Reads(ReadList, ListCode(pick, items), items)
  {
    var codes := Codes(pick, items);
    forall i | 0 <= i < |items| ensures Reads(ReadBuffer, codes[i], items[i]) {
      BufferRoundTrip(pick(items[i]), items[i]);
    }
    forall r: Bytes ensures ReadList(ListCode(pick, items) + r) == Got(items, r) {
      assert ListCode(pick, items) + r == Head(4, |items|) + (Concat(codes) + r);
      HeadInverts(4, |items|, Concat(codes) + r);
      ReadManyInverts(ReadBuffer, codes, items, r);
    }
  }

  /** Reading inserts entry after entry, so a repeated key keeps its last value. */
  function Inserted<K(==), V>(es: seq<Entry<K, V>>): map<K, V> {
    if es == [] then map[] else Inserted(es[..|es| - 1])[es[|es| - 1].key := es[|es| - 1].value]
  }

  lemma {:induction false} InsertedKeys<K, V>(es: seq<Entry<K, V>>)
    requires forall i, j :: 0 <= i < j < |es| ==> es[i].key != es[j].key
    ensures forall k :: k in Inserted(es) ==> exists i :: 0 <= i < |es| && es[i].key == k
    ensures forall i :: 0 <= i < |es| ==> es[i].key in Inserted(es) && Inserted(es)[es[i].key] == es[i].value
  {
    if es != [] {
      InsertedKeys(es[..|es| - 1]);
    }
  }

  lemma OrderIsInserted<K, V>(es: seq<Entry<K, V>>, m: map<K, V>)
    requires OrderOf(es, m)
    ensures Inserted(es) == m
  {
    InsertedKeys(es);
    assert forall k :: k in m <==> k in Inserted(es);
  }

  function EntryCodes<K, V>(code: Entry<K, V> -> Bytes, es: seq<Entry<K, V>>): seq<Bytes> {
    seq(|es|, i requires 0 <= i < |es| => code(es[i]))
  }

  function MapCode<K, V>(code: Entry<K, V> -> Bytes, es: seq<Entry<K, V>>): Bytes {
    Head(5, |es|) + Concat(EntryCodes(code, es))
  }

  function ReadMap<K(==), V>(read: Bytes -> Parsed<Entry<K, V>>): Bytes -> Parsed<map<K, V>> {
    s => match ReadHead(s)
      case Got(Header(5, length), r) =>
        (match ReadItems(read, length, r)
         case Refused => Refused
         case Got(es, t) => Got(Inserted(es), t))
      case _ => Refused
  }

  lemma EntriesRead<K, V>(read: Bytes -> Parsed<Entry<K, V>>, codes: seq<Bytes>, es: seq<Entry<K, V>>, r: Bytes)
    requires |codes| == |es| < U64 && forall i :: 0 <= i < |es| ==> Reads(read, codes[i], es[i])
    ensures ReadMap(read)(Head(5, |es|) + (Concat(codes) + r)) == Got(Inserted(es), r)
  {
    HeadInverts(5, |es|, Concat(codes) + r);
    ReadManyInverts(read, codes, es, r);
  }

  ghost predicate EachReads<K, V>(read: Bytes -> Parsed<Entry<K, V>>, codes: seq<Bytes>, es: seq<Entry<K, V>>) {
    |codes| == |es| && forall i :: 0 <= i < |es| ==> Reads(read, codes[i], es[i])
  }

  lemma CodesRead<K, V>(read: Bytes -> Parsed<Entry<K, V>>, code: Entry<K, V> -> Bytes, es: seq<Entry<K, V>>)
    requires forall i :: 0 <= i < |es| ==> Reads(read, code(es[i]), es[i])
    ensures EachReads(read, EntryCodes(code, es), es)
  {
    forall i | 0 <= i < |es| ensures Reads(read, EntryCodes(code, es)[i], es[i]) {
      assert EntryCodes(code, es)[i] == code(es[i]);
    }
  }

  lemma ListedMapReads<K, V>(read: Bytes -> Parsed<Entry<K, V>>, codes: seq<Bytes>, es: seq<Entry<K, V>>)
    requires |es| < U64 && EachReads(read, codes, es)
    ensures Reads(ReadMap(read), Head(5, |es|) + Concat(codes), Inserted(es))
  {
    forall r: Bytes ensures ReadMap(read)((Head(5, |es|) + Concat(codes)) + r) == Got(Inserted(es), r) {
      EntriesRead(read, codes, es, r);
      assert (Head(5, |es|) + Concat(codes)) + r == Head(5, |es|) + (Concat(codes) + r);
    }
  }

  lemma MapRoundTrip<K, V>(read: Bytes -> Parsed<Entry<K, V>>, code: Entry<K, V> -> Bytes, es: seq<Entry<K, V>>, m: map<K, V>)
    requires |es| < U64 && OrderOf(es, m)
    requires forall i :: 0 <= i < |es| ==> Reads(read, code(es[i]), es[i])
    ensures Reads(ReadMap(read), MapCode(code, es), m)
  {
    OrderIsInserted(es, m);
    CodesRead(read, code, es);
    ListedMapReads(read, EntryCodes(code, es), es);
  }

  function ReadPair<K, V>(readKey: Bytes -> Parsed<K>, readValue: Bytes -> Parsed<V>, s: Bytes): Parsed<Entry<K, V>> {
    match readKey(s)
    case Refused => Refused
    case Got(k, r) =>
      match readValue(r)
      case Refused => Refused
      case Got(v, t) => Got(Entry(k, v), t)
  }

  lemma PairInverts<K, V>(readKey: Bytes -> Parsed<K>, readValue: Bytes -> Parsed<V>, a: Bytes, b: Bytes, e: Entry<K, V>, r: Bytes)
    requires Reads(readKey, a, e.key) && Reads(readValue, b, e.value)
    ensures ReadPair(readKey, readValue, (a + b) + r) == Got(e, r)
  {
    assert (a + b) + r == a + (b + r);
  }

  function StorageCode(pick: Bytes -> Form): Entry<Bytes, Bytes> -> Bytes {
    (e: Entry<Bytes, Bytes>) => BufferCode(pick(e.key), e.key) + BufferCode(pick(e.value), e.value)
  }

  function ReadStorageEntry(s: Bytes): Parsed<Entry<Bytes, Bytes>> {
    ReadPair(ReadBuffer, ReadBuffer, s)
  }

  lemma StorageEntryRoundTrip(pick: Bytes -> Form, e: Entry<Bytes, Bytes>)
    requires |e.key| < U64 && |e.value| < U64
    ensures Reads(ReadStorageEntry, StorageCode(pick)(e), e)
  {
    forall r: Bytes ensures ReadStorageEntry(StorageCode(pick)(e) + r) == Got(e, r) {
      BufferRoundTrip(pick(e.key), e.key);
      BufferRoundTrip(pick(e.value), e.value);
      PairInverts(ReadBuffer, ReadBuffer, BufferCode(pick(e.key), e.key), BufferCode(pick(e.value), e.value), e, r);
    }
  }

  // ---- Texts and floors ----

  /** A text, as the bytes of its UTF-8 form. */
  function TextCode(t: Bytes): Bytes {
    Head(3, |t|) + t
  }

  function ReadText(s: Bytes): Parsed<Bytes> {
    match ReadHead(s)
    case Got(Header(3, Some(n)), r) => if n <= |r| then Got(r[..n], r[n..]) else Refused
    case _ => Refused
  }

  lemma TextRoundTrip(t: Bytes)
    requires |t| < U64
    ensures Reads(ReadText, TextCode(t), t)
  {
    forall r: Bytes ensures ReadText(TextCode(t) + r) == Got(t, r) {
      assert TextCode(t) + r == Head(3, |t|) + (t + r);
      HeadInverts(3, |t|, t + r);
      assert (t + r)[..|t|] == t && (t + r)[|t|..] == r;
    }
  }

  function ReadU64(s: Bytes): Parsed<nat> {
    match ReadHead(s)
    case Got(Header(0, Some(n)), r) => Got(n, r)
    case _ => Refused
  }

  function FloorCode(e: Entry<Bytes, nat>): Bytes {
    TextCode(e.key) + Head(0, e.value)
  }

  function ReadFloor(s: Bytes): Parsed<Entry<Bytes, nat>> {
    ReadPair(ReadText, ReadU64, s)
  }

  lemma FloorRoundTrip(e: Entry<Bytes, nat>)
    requires |e.key| < U64 && e.value < U64
    ensures Reads(ReadFloor, FloorCode(e), e)
  {
    TextRoundTrip(e.key);
    forall r: Bytes ensures ReadU64(Head(0, e.value) + r) == Got(e.value, r) {
      HeadInverts(0, e.value, r);
    }
    forall r: Bytes ensures ReadFloor(FloorCode(e) + r) == Got(e, r) {
      PairInverts(ReadText, ReadU64, TextCode(e.key), Head(0, e.value), e, r);
    }
  }

  // ---- The whole state ----

  datatype State = State(identity: Bytes, storage: map<Bytes, Bytes>, groups: seq<Bytes>, floors: map<Bytes, nat>)

  datatype Field =
    | Identity(identity: Bytes)
    | Storage(storage: map<Bytes, Bytes>)
    | Groups(groups: seq<Bytes>)
    | Floors(floors: map<Bytes, nat>)

  function Ascii(s: string): Bytes {
    seq(|s|, i requires 0 <= i < |s| => s[i] as int % 256)
  }

  function FieldName(kind: nat): Bytes {
    match kind
    case 0 => Ascii("identity_bundle")
    case 1 => Ascii("storage_values")
    case 2 => Ascii("group_ids")
    case _ => Ascii("forgotten_group_min_epochs")
  }

  ghost predicate ProperNames(name: nat -> Bytes) {
    && (forall k :: 0 <= k < 4 ==> |name(k)| < U64)
    && (forall j, k :: 0 <= j < k < 4 ==> name(j) != name(k))
  }

  lemma FieldNamesAreProper()
    ensures ProperNames(FieldName)
  {
  }

  function KindNamed(name: nat -> Bytes, t: Bytes): nat {
    if t == name(0) then 0 else if t == name(1) then 1 else if t == name(2) then 2 else if t == name(3) then 3 else 4
  }

  function Tagged<T>(read: Bytes -> Parsed<T>, tag: T -> Field): Bytes -> Parsed<Field> {
    s => match read(s)
      case Refused => Refused
      case Got(v, r) => Got(tag(v), r)
  }

  lemma TaggedReads<T>(read: Bytes -> Parsed<T>, tag: T -> Field, code: Bytes, v: T)
    requires Reads(read, code, v)
    ensures Reads(Tagged(read, tag), code, tag(v))
  {
  }

  function AsIdentity(b: Bytes): Field { Identity(b) }

  function AsStorage(m: map<Bytes, Bytes>): Field { Storage(m) }

  function AsGroups(l: seq<Bytes>): Field { Groups(l) }

  function AsFloors(m: map<Bytes, nat>): Field { Floors(m) }

  function ReadUnknown(s: Bytes): Parsed<Field> {
    Refused
  }

  function ReaderOf(kind: nat): Bytes -> Parsed<Field> {
    if kind == 0 then Tagged(ReadBuffer, AsIdentity)
    else if kind == 1 then Tagged(ReadMap(ReadStorageEntry), AsStorage)
    else if kind == 2 then Tagged(ReadList, AsGroups)
    else if kind == 3 then Tagged(ReadMap(ReadFloor), AsFloors)
    else ReadUnknown
  }

  function ReadField(name: nat -> Bytes): Bytes -> Parsed<Field> {
    s => match ReadText(s)
      case Refused => Refused
      case Got(t, r) => ReaderOf(KindNamed(name, t))(r)
  }

  ghost predicate ValueReads(kind: nat, code: Bytes, f: Field) {
    Reads(ReaderOf(kind), code, f)
  }

  lemma NameThenValue(name: nat -> Bytes, kind: nat, code: Bytes, f: Field)
    requires ProperNames(name) && kind < 4 && ValueReads(kind, code, f)
    ensures Reads(ReadField(name), TextCode(name(kind)) + code, f)
  {
    TextRoundTrip(name(kind));
    assert KindNamed(name, name(kind)) == kind;
    forall r: Bytes ensures ReadField(name)((TextCode(name(kind)) + code) + r) == Got(f, r) {
      assert (TextCode(name(kind)) + code) + r == TextCode(name(kind)) + (code + r);
    }
  }

  datatype Partial = Partial(
    identity: Option<Bytes>, storage: Option<map<Bytes, Bytes>>, groups: Option<seq<Bytes>>, floors: Option<map<Bytes, nat>>)

  /** A field met twice is refused. */
  function Take(p: Partial, f: Field): Option<Partial> {
    match f
    case Identity(b) => if p.identity.Some? then None else Some(p.(identity := Some(b)))
    case Storage(m) => if p.storage.Some? then None else Some(p.(storage := Some(m)))
    case Groups(l) => if p.groups.Some? then None else Some(p.(groups := Some(l)))
    case Floors(m) => if p.floors.Some? then None else Some(p.(floors := Some(m)))
  }

  function TakeAll(fields: seq<Field>): Option<Partial> {
    if fields == [] then Some(Partial(None, None, None, None))
    else match TakeAll(fields[..|fields| - 1])
      case None => None
      case Some(p) => Take(p, fields[|fields| - 1])
  }

  /** Three fields are required; states saved before the floors existed have none. */
  function Finish(p: Partial): Option<State> {
    if p.identity.Some? && p.storage.Some? && p.groups.Some?
    then Some(State(p.identity.value, p.storage.value, p.groups.value, if p.floors.Some? then p.floors.value else map[]))
    else None
  }

  function ReadFields(read: Bytes -> Parsed<Field>): Bytes -> Parsed<State> {
    s => match ReadHead(s)
      case Got(Header(5, length), r) =>
        (match ReadItems(read, length, r)
         case Refused => Refused
         case Got(fields, t) =>
           match TakeAll(fields)
           case None => Refused
           case Some(p) => if Finish(p).Some? then Got(Finish(p).value, t) else Refused)
      case _ => Refused
  }

  function ReadState(): Bytes -> Parsed<State> {
    ReadFields(ReadField(FieldName))
  }

  function Kind(f: Field): nat {
    match f case Identity(_) => 0 case Storage(_) => 1 case Groups(_) => 2 case Floors(_) => 3
  }

  function FieldOf(v: State, kind: nat): Field {
    if kind == 0 then Identity(v.identity)
    else if kind == 1 then Storage(v.storage)
    else if kind == 2 then Groups(v.groups)
    else Floors(v.floors)
  }

  predicate HasKind(fields: seq<Field>, k: nat) {
    exists i :: 0 <= i < |fields| && Kind(fields[i]) == k
  }

  /** The fields of `v`, once each and in any order; the floors may be missing when there are none. */
  predicate Arranges(fields: seq<Field>, v: State) {
    && (forall i :: 0 <= i < |fields| ==> fields[i] == FieldOf(v, Kind(fields[i])))
    && (forall i, j :: 0 <= i < j < |fields| ==> Kind(fields[i]) != Kind(fields[j]))
    && |fields| <= 4 && HasKind(fields, 0) && HasKind(fields, 1) && HasKind(fields, 2)
    && (HasKind(fields, 3) || v.floors == map[])
  }

  lemma {:induction false} TakeAllCollects(fields: seq<Field>, v: State)
    requires forall i :: 0 <= i < |fields| ==> fields[i] == FieldOf(v, Kind(fields[i]))
    requires forall i, j :: 0 <= i < j < |fields| ==> Kind(fields[i]) != Kind(fields[j])
    ensures TakeAll(fields) == Some(Partial(
                if HasKind(fields, 0) then Some(v.identity) else None,
                if HasKind(fields, 1) then Some(v.storage) else None,
                if HasKind(fields, 2) then Some(v.groups) else None,
                if HasKind(fields, 3) then Some(v.floors) else None))
  {
    if fields != [] {
      var init, last := fields[..|fields| - 1], fields[|fields| - 1];
      TakeAllCollects(init, v);
      forall k: nat ensures HasKind(fields, k) <==> HasKind(init, k) || Kind(last) == k {
        if HasKind(init, k) {
          var i :| 0 <= i < |init| && Kind(init[i]) == k;
          assert Kind(fields[i]) == k;
        }
        if HasKind(fields, k) && Kind(last) != k {
          var i :| 0 <= i < |fields| && Kind(fields[i]) == k;
          assert Kind(init[i]) == k;
        }
      }
      assert !HasKind(init, Kind(last));
    }
  }

  /** The choices a writer makes: a form per buffer, and the iteration order of both maps. */
  datatype Layout = Layout(pick: Bytes -> Form, storage: seq<Entry<Bytes, Bytes>>, floors: seq<Entry<Bytes, nat>>)

  /** Every length and every floor that is written is a 64-bit number. */
  ghost predicate LaysOut(y: Layout, v: State) {
    && OrderOf(y.storage, v.storage) && OrderOf(y.floors, v.floors)
    && |v.identity| < U64 && |y.storage| < U64 && |v.groups| < U64 && |y.floors| < U64
    && (forall i :: 0 <= i < |y.storage| ==> |y.storage[i].key| < U64 && |y.storage[i].value| < U64)
    && (forall i :: 0 <= i < |v.groups| ==> |v.groups[i]| < U64)
    && (forall i :: 0 <= i < |y.floors| ==> |y.floors[i].key| < U64 && y.floors[i].value < U64)
  }

  /** The same, said of the state. */
  ghost predicate Fits(v: State) {
    && |v.identity| < U64 && |v.groups| < U64 && |v.storage| < U64 && |v.floors| < U64
    && (forall k :: k in v.storage ==> |k| < U64 && |v.storage[k]| < U64)
    && (forall i :: 0 <= i < |v.groups| ==> |v.groups[i]| < U64)
    && (forall k :: k in v.floors ==> |k| < U64 && v.floors[k] < U64)
  }

  function FieldCode(name: nat -> Bytes, kind: nat, code: Bytes): Bytes {
    TextCode(name(kind)) + code
  }

  /** The four encoded fields, by kind. */
  function Parts(name: nat -> Bytes, y: Layout, v: State): (parts: seq<Bytes>)
    ensures |parts| == 4
  {
    [ FieldCode(name, 0, BufferCode(y.pick(v.identity), v.identity)),
      FieldCode(name, 1, MapCode(StorageCode(y.pick), y.storage)),
      FieldCode(name, 2, ListCode(y.pick, v.groups)),
      FieldCode(name, 3, MapCode(FloorCode, y.floors)) ]
  }

  /** A value read back by its own reader is read back as a field under its name. */
  lemma FieldReads<T>(name: nat -> Bytes, kind: nat, read: Bytes -> Parsed<T>, tag: T -> Field, code: Bytes, v: T)
    requires ProperNames(name) && kind < 4
    requires ReaderOf(kind) == Tagged(read, tag) && Reads(read, code, v)
    ensures Reads(ReadField(name), FieldCode(name, kind, code), tag(v))
  {
    TaggedReads(read, tag, code, v);
    NameThenValue(name, kind, code, tag(v));
  }

  lemma Readers()
    ensures ReaderOf(0) == Tagged(ReadBuffer, AsIdentity)
    ensures ReaderOf(1) == Tagged(ReadMap(ReadStorageEntry), AsStorage)
    ensures ReaderOf(2) == Tagged(ReadList, AsGroups)
    ensures ReaderOf(3) == Tagged(ReadMap(ReadFloor), AsFloors)
  {
  }

  lemma StorageMapReads(pick: Bytes -> Form, es: seq<Entry<Bytes, Bytes>>, m: map<Bytes, Bytes>)
    requires |es| < U64 && OrderOf(es, m)
    requires forall i :: 0 <= i < |es| ==> |es[i].key| < U64 && |es[i].value| < U64
    ensures Reads(ReadMap(ReadStorageEntry), MapCode(StorageCode(pick), es), m)
  {
    forall i | 0 <= i < |es| ensures Reads(ReadStorageEntry, StorageCode(pick)(es[i]), es[i]) {
      StorageEntryRoundTrip(pick, es[i]);
    }
    MapRoundTrip(ReadStorageEntry, StorageCode(pick), es, m);
  }

  lemma FloorsMapReads(es: seq<Entry<Bytes, nat>>, m: map<Bytes, nat>)
    requires |es| < U64 && OrderOf(es, m)
    requires forall i :: 0 <= i < |es| ==> |es[i].key| < U64 && es[i].value < U64
    ensures Reads(ReadMap(ReadFloor), MapCode(FloorCode, es), m)
  {
    forall i | 0 <= i < |es| ensures Reads(ReadFloor, FloorCode(es[i]), es[i]) {
      FloorRoundTrip(es[i]);
    }
    MapRoundTrip(ReadFloor, FloorCode, es, m);
  }

  /** Each of the four fields of `v` is read back. */
  ghost predicate FieldsRead(read: Bytes -> Parsed<Field>, parts: seq<Bytes>, v: State) {
    && |parts| == 4
    && Reads(read, parts[0], Identity(v.identity))
    && Reads(read, parts[1], Storage(v.storage))
    && Reads(read, parts[2], Groups(v.groups))
    && Reads(read, parts[3], Floors(v.floors))
  }

  lemma IdentityFieldReads(name: nat -> Bytes, f: Form, b: Bytes)
    requires ProperNames(name) && |b| < U64
    ensures Reads(ReadField(name), FieldCode(name, 0, BufferCode(f, b)), Identity(b))
  {
    Readers();
    BufferRoundTrip(f, b);
    FieldReads(name, 0, ReadBuffer, AsIdentity, BufferCode(f, b), b);
  }

  lemma StorageFieldReads(name: nat -> Bytes, pick: Bytes -> Form, es: seq<Entry<Bytes, Bytes>>, m: map<Bytes, Bytes>)
    requires ProperNames(name) && |es| < U64 && OrderOf(es, m)
    requires forall i :: 0 <= i < |es| ==> |es[i].key| < U64 && |es[i].value| < U64
    ensures Reads(ReadField(name), FieldCode(name, 1, MapCode(StorageCode(pick), es)), Storage(m))
  {
    StorageMapReads(pick, es, m);
    Readers();
    FieldReads(name, 1, ReadMap(ReadStorageEntry), AsStorage, MapCode(StorageCode(pick), es), m);
  }

  lemma GroupsFieldReads(name: nat -> Bytes, pick: Bytes -> Form, l: seq<Bytes>)
    requires ProperNames(name) && |l| < U64 && forall i :: 0 <= i < |l| ==> |l[i]| < U64
    ensures Reads(ReadField(name), FieldCode(name, 2, ListCode(pick, l)), Groups(l))
  {
    Readers();
    ListRoundTrip(pick, l);
    FieldReads(name, 2, ReadList, AsGroups, ListCode(pick, l), l);
  }

  lemma FloorsFieldReads(name: nat -> Bytes, es: seq<Entry<Bytes, nat>>, m: map<Bytes, nat>)
    requires ProperNames(name) && |es| < U64 && OrderOf(es, m)
    requires forall i :: 0 <= i < |es| ==> |es[i].key| < U64 && es[i].value < U64
    ensures Reads(ReadField(name), FieldCode(name, 3, MapCode(FloorCode, es)), Floors(m))
  {
    FloorsMapReads(es, m);
    Readers();
    FieldReads(name, 3, ReadMap(ReadFloor), AsFloors, MapCode(FloorCode, es), m);
  }

  lemma MapFieldsRead(name: nat -> Bytes, y: Layout, v: State)
    requires ProperNames(name) && LaysOut(y, v)
    ensures Reads(ReadField(name), FieldCode(name, 1, MapCode(StorageCode(y.pick), y.storage)), Storage(v.storage))
    ensures Reads(ReadField(name), FieldCode(name, 3, MapCode(FloorCode, y.floors)), Floors(v.floors))
  {
    StorageFieldReads(name, y.pick, y.storage, v.storage);
    FloorsFieldReads(name, y.floors, v.floors);
  }

  lemma FourReads(read: Bytes -> Parsed<Field>, a: Bytes, b: Bytes, c: Bytes, d: Bytes, v: State)
    requires Reads(read, a, Identity(v.identity)) && Reads(read, b, Storage(v.storage))
    requires Reads(read, c, Groups(v.groups)) && Reads(read, d, Floors(v.floors))
    ensures FieldsRead(read, [a, b, c, d], v)
  {
  }

  lemma AllFieldsRead(name: nat -> Bytes, y: Layout, v: State)
    requires ProperNames(name) && LaysOut(y, v)
    ensures FieldsRead(ReadField(name), Parts(name, y, v), v)
  {
    IdentityFieldReads(name, y.pick(v.identity), v.identity);
    GroupsFieldReads(name, y.pick, v.groups);
    MapFieldsRead(name, y, v);
    FourReads(ReadField(name),
      FieldCode(name, 0, BufferCode(y.pick(v.identity), v.identity)),
      FieldCode(name, 1, MapCode(StorageCode(y.pick), y.storage)),
      FieldCode(name, 2, ListCode(y.pick, v.groups)),
      FieldCode(name, 3, MapCode(FloorCode, y.floors)), v);
  }

  function FieldCodes(parts: seq<Bytes>, fields: seq<Field>): seq<Bytes>
    requires |parts| == 4
  {
    seq(|fields|, i requires 0 <= i < |fields| => parts[Kind(fields[i])])
  }

  function FieldsCode(parts: seq<Bytes>, fields: seq<Field>): Bytes
    requires |parts| == 4
  {
    Head(5, |fields|) + Concat(FieldCodes(parts, fields))
  }

  function StateCode(y: Layout, v: State, fields: seq<Field>): Bytes {
    FieldsCode(Parts(FieldName, y, v), fields)
  }

  lemma ArrangedFieldsFinish(fields: seq<Field>, v: State)
    requires Arranges(fields, v)
    ensures TakeAll(fields).Some? && Finish(TakeAll(fields).value) == Some(v)
  {
    TakeAllCollects(fields, v);
  }

  lemma FieldsReadBack(read: Bytes -> Parsed<Field>, parts: seq<Bytes>, fields: seq<Field>, v: State, r: Bytes)
    requires Arranges(fields, v) && FieldsRead(read, parts, v)
    ensures ReadMany(read, |fields|, Concat(FieldCodes(parts, fields)) + r) == Got(fields, r)
  {
    var codes := FieldCodes(parts, fields);
    forall i | 0 <= i < |fields| ensures Reads(read, codes[i], fields[i]) {
      assert fields[i] == FieldOf(v, Kind(fields[i]));
    }
    ReadManyInverts(read, codes, fields, r);
  }

  lemma FieldsMakeTheState(read: Bytes -> Parsed<Field>, parts: seq<Bytes>, fields: seq<Field>, v: State)
    requires Arranges(fields, v) && FieldsRead(read, parts, v)
    ensures Reads(ReadFields(read), FieldsCode(parts, fields), v)
  {
    ArrangedFieldsFinish(fields, v);
    forall r: Bytes ensures ReadFields(read)(FieldsCode(parts, fields) + r) == Got(v, r) {
      var tail := Concat(FieldCodes(parts, fields)) + r;
      assert FieldsCode(parts, fields) + r == Head(5, |fields|) + tail;
      HeadInverts(5, |fields|, tail);
      FieldsReadBack(read, parts, fields, v, r);
    }
  }

  /**
   * Whatever the writer chose - old or new form per buffer, map order, field order, with or without
   * an empty floor table - the reader returns the same state.
   */
  lemma StateRoundTrip(y: Layout, fields: seq<Field>, v: State)
    requires LaysOut(y, v) && Arranges(fields, v)
    ensures Reads(ReadState(), StateCode(y, v, fields), v)
  {
    FieldNamesAreProper();
    AllFieldsRead(FieldName, y, v);
    FieldsMakeTheState(ReadField(FieldName), Parts(FieldName, y, v), fields, v);
  }

  // ---- The writers ----

  function Always(f: Form): Bytes -> Form {
    _ => f
  }

  lemma {:induction false} ConcatThen(codes: seq<Bytes>, code: Bytes)
    ensures Concat(codes + [code]) == Concat(codes) + code
  {
    if codes == [] {
      assert [] + [code] == [code] && [code][1..] == [];
    } else {
      assert (codes + [code])[1..] == codes[1..] + [code];
      ConcatThen(codes[1..], code);
    }
  }

  method WriteList(items: seq<Bytes>) returns (s: Bytes)
    ensures s == ListCode(Always(ByteString), items)
  {
    s := Head(4, |items|);
    var codes := Codes(Always(ByteString), items);
    for i := 0 to |items|
      invariant s == Head(4, |items|) + Concat(codes[..i])
    {
      ConcatThen(codes[..i], codes[i]);
      assert codes[..i + 1] == codes[..i] + [codes[i]];
      s := s + BufferCode(ByteString, items[i]);
    }
    assert codes[..|items|] == codes;
  }

  /** `order` lists the entries of `m` whose keys are not in `left`. */
  ghost predicate Written<K, V>(order: seq<Entry<K, V>>, m: map<K, V>, left: set<K>) {
    && (forall i :: 0 <= i < |order| ==> order[i].key in m && order[i].key !in left && m[order[i].key] == order[i].value)
    && (forall i, j :: 0 <= i < j < |order| ==> order[i].key != order[j].key)
    && (forall k :: k in m && k !in left ==> exists i :: 0 <= i < |order| && order[i].key == k)
  }

  lemma WrittenStep<K, V>(order: seq<Entry<K, V>>, m: map<K, V>, left: set<K>, k: K)
    requires Written(order, m, left) && k in left && k in m
    ensures Written(order + [Entry(k, m[k])], m, left - {k})
  {
    var next := order + [Entry(k, m[k])];
    forall x | x in m && x !in left - {k} ensures exists i :: 0 <= i < |next| && next[i].key == x {
      if x == k {
        assert next[|order|].key == x;
      } else {
        var i :| 0 <= i < |order| && order[i].key == x;
        assert next[i].key == x;
      }
    }
  }

  lemma MapCodeThen<K, V>(code: Entry<K, V> -> Bytes, order: seq<Entry<K, V>>, e: Entry<K, V>)
    ensures Concat(EntryCodes(code, order + [e])) == Concat(EntryCodes(code, order)) + code(e)
  {
    ConcatThen(EntryCodes(code, order), code(e));
    assert EntryCodes(code, order + [e]) == EntryCodes(code, order) + [code(e)];
  }

  /** Entry after entry in iteration order; each buffer is one head and its bytes. */
  method WriteMap<K(==), V>(code: Entry<K, V> -> Bytes, m: map<K, V>) returns (s: Bytes, order: seq<Entry<K, V>>)
    ensures OrderOf(order, m) && |order| == |m|
    ensures s == MapCode(code, order)
  {
    var left := m.Keys;
    s, order := Head(5, |m|), [];
    while left != {}
      invariant left <= m.Keys && |order| + |left| == |m|
      invariant Written(order, m, left)
      invariant s == Head(5, |m|) + Concat(EntryCodes(code, order))
      decreases |left|
    {
      var k :| k in left;
      var e := Entry(k, m[k]);
      MapCodeThen(code, order, e);
      WrittenStep(order, m, left, k);
      s, order, left := s + code(e), order + [e], left - {k};
    }
  }

  /** The fields in the order they are declared. */
  function FieldsOf(v: State): seq<Field> {
    [Identity(v.identity), Storage(v.storage), Groups(v.groups), Floors(v.floors)]
  }

  lemma FieldsOfArrange(v: State)
    ensures Arranges(FieldsOf(v), v)
    ensures v.floors == map[] ==> Arranges(FieldsOf(v)[..3], v)
  {
    var all, old_ := FieldsOf(v), FieldsOf(v)[..3];
    assert Kind(all[0]) == 0 && Kind(all[1]) == 1 && Kind(all[2]) == 2 && Kind(all[3]) == 3;
    assert Kind(old_[0]) == 0 && Kind(old_[1]) == 1 && Kind(old_[2]) == 2;
  }

  lemma ConcatFour(a: Bytes, b: Bytes, c: Bytes, d: Bytes)
    ensures Concat([a, b, c, d]) == a + b + c + d
  {
    ConcatThen([a, b, c], d);
    ConcatThen([a, b], c);
    ConcatThen([a], b);
    ConcatThen([], a);
    assert [] + [a] == [a] && [a] + [b] == [a, b] && [a, b] + [c] == [a, b, c] && [a, b, c] + [d] == [a, b, c, d];
  }

  lemma FourFields(parts: seq<Bytes>, v: State)
    requires |parts| == 4
    ensures FieldsCode(parts, FieldsOf(v)) == Head(5, 4) + (parts[0] + parts[1] + parts[2] + parts[3])
  {
    assert FieldCodes(parts, FieldsOf(v)) == [parts[0], parts[1], parts[2], parts[3]];
    ConcatFour(parts[0], parts[1], parts[2], parts[3]);
  }

  /** `s` is the new form of `v` throughout: byte strings everywhere, all four fields as declared. */
  ghost predicate SavedAs(s: Bytes, v: State) {
    exists storage, floors :: OrderOf(storage, v.storage) && OrderOf(floors, v.floors) && s == NewCode(v, storage, floors)
  }

  function NewCode(v: State, storage: seq<Entry<Bytes, Bytes>>, floors: seq<Entry<Bytes, nat>>): Bytes {
    StateCode(Layout(Always(ByteString), storage, floors), v, FieldsOf(v))
  }

  /** Saving always writes the new form, and what it writes loads to the same state. */
  method Save(v: State) returns (s: Bytes)
    requires Fits(v)
    ensures Reads(ReadState(), s, v) && SavedAs(s, v)
  {
    var storage, storageOrder := WriteMap(StorageCode(Always(ByteString)), v.storage);
    var groups := WriteList(v.groups);
    var floors, floorOrder := WriteMap(FloorCode, v.floors);
    var identity := BufferCode(ByteString, v.identity);
    s := Head(5, 4) + (
      FieldCode(FieldName, 0, identity)
      + FieldCode(FieldName, 1, storage)
      + FieldCode(FieldName, 2, groups)
      + FieldCode(FieldName, 3, floors));
    FieldByField(FieldName, Layout(Always(ByteString), storageOrder, floorOrder), v, identity, storage, groups, floors);
    NewCodeIsSaved(v, storageOrder, floorOrder);
  }

  lemma FittingLaysOut(y: Layout, v: State)
    requires Fits(v) && OrderOf(y.storage, v.storage) && OrderOf(y.floors, v.floors)
    requires |y.storage| == |v.storage| && |y.floors| == |v.floors|
    ensures LaysOut(y, v)
  {
  }

  /** The four fields written one after the other, as `Save` does. */
  lemma FieldByField(name: nat -> Bytes, y: Layout, v: State, identity: Bytes, storage: Bytes, groups: Bytes, floors: Bytes)
    requires identity == BufferCode(y.pick(v.identity), v.identity) && groups == ListCode(y.pick, v.groups)
    requires storage == MapCode(StorageCode(y.pick), y.storage) && floors == MapCode(FloorCode, y.floors)
    ensures FieldsCode(Parts(name, y, v), FieldsOf(v)) ==
            Head(5, 4) + (FieldCode(name, 0, identity) + FieldCode(name, 1, storage) + FieldCode(name, 2, groups) + FieldCode(name, 3, floors))
  {
    FourFields(Parts(name, y, v), v);
  }

  lemma NewCodeIsSaved(v: State, so: seq<Entry<Bytes, Bytes>>, fo: seq<Entry<Bytes, nat>>)
    requires Fits(v) && OrderOf(so, v.storage) && OrderOf(fo, v.floors) && |so| == |v.storage| && |fo| == |v.floors|
    ensures Reads(ReadState(), NewCode(v, so, fo), v) && SavedAs(NewCode(v, so, fo), v)
  {
    var y := Layout(Always(ByteString), so, fo);
    FittingLaysOut(y, v);
    FieldsOfArrange(v);
    StateRoundTrip(y, FieldsOf(v), v);
  }

  /** Files of every earlier version load: integer arrays throughout, with or without the floor table. */
  lemma LegacyStateLoads(v: State, storage: seq<Entry<Bytes, Bytes>>, floors: seq<Entry<Bytes, nat>>)
    requires LaysOut(Layout(Always(IntArray), storage, floors), v)
    ensures var y := Layout(Always(IntArray), storage, floors);
            && Reads(ReadState(), StateCode(y, v, FieldsOf(v)), v)
            && (v.floors == map[] ==> Reads(ReadState(), StateCode(y, v, FieldsOf(v)[..3]), v))
  {
    var y := Layout(Always(IntArray), storage, floors);
    FieldsOfArrange(v);
    StateRoundTrip(y, FieldsOf(v), v);
    if v.floors == map[] {
      StateRoundTrip(y, FieldsOf(v)[..3], v);
    }
  }

  // ---- What the older form cost, for a whole state ----

  function Sum(cost: seq<nat>): nat {
    if cost == [] then 0 else cost[0] + Sum(cost[1..])
  }

  lemma {:induction false} ConcatCost(a: seq<Bytes>, b: seq<Bytes>, cost: seq<nat>)
    requires |a| == |b| == |cost|
    requires forall i :: 0 <= i < |a| ==> |a[i]| == |b[i]| + cost[i]
    ensures |Concat(a)| == |Concat(b)| + Sum(cost)
    decreases |a|
  {
    if a != [] {
      ConcatCost(a[1..], b[1..], cost[1..]);
    }
  }

  function WideEach(items: seq<Bytes>): seq<nat> {
    seq(|items|, i requires 0 <= i < |items| => Wide(items[i]))
  }

  function WideEntries(es: seq<Entry<Bytes, Bytes>>): seq<nat> {
    seq(|es|, i requires 0 <= i < |es| => Wide(es[i].key) + Wide(es[i].value))
  }

  lemma ListCost(items: seq<Bytes>)
    ensures |ListCode(Always(IntArray), items)| == |ListCode(Always(ByteString), items)| + Sum(WideEach(items))
  {
    forall i | 0 <= i < |items| ensures |BufferCode(IntArray, items[i])| == |BufferCode(ByteString, items[i])| + Wide(items[i]) {
      LegacyCost(items[i]);
    }
    ConcatCost(Codes(Always(IntArray), items), Codes(Always(ByteString), items), WideEach(items));
  }

  lemma MapCost(es: seq<Entry<Bytes, Bytes>>)
    ensures |MapCode(StorageCode(Always(IntArray)), es)|
         == |MapCode(StorageCode(Always(ByteString)), es)| + Sum(WideEntries(es))
  {
    var a, b := StorageCode(Always(IntArray)), StorageCode(Always(ByteString));
    forall i | 0 <= i < |es| ensures |a(es[i])| == |b(es[i])| + WideEntries(es)[i] {
      LegacyCost(es[i].key);
      LegacyCost(es[i].value);
    }
    ConcatCost(EntryCodes(a, es), EntryCodes(b, es), WideEntries(es));
  }

  /** Migrating saves one byte for every stored byte of 24 or above, and nothing else changes. */
  lemma MigrationSaves(v: State, storage: seq<Entry<Bytes, Bytes>>, floors: seq<Entry<Bytes, nat>>)
    ensures |StateCode(Layout(Always(IntArray), storage, floors), v, FieldsOf(v))|
         == |StateCode(Layout(Always(ByteString), storage, floors), v, FieldsOf(v))|
            + Wide(v.identity) + Sum(WideEntries(storage)) + Sum(WideEach(v.groups))
  {
    var a, b := Layout(Always(IntArray), storage, floors), Layout(Always(ByteString), storage, floors);
    FourFields(Parts(FieldName, a, v), v);
    FourFields(Parts(FieldName, b, v), v);
    LegacyCost(v.identity);
    MapCost(storage);
    ListCost(v.groups);
  }

  // ---- Map order does not change the size ----

  lemma {:induction false} ConcatSize(a: seq<Bytes>, b: seq<Bytes>)
    ensures |Concat(a + b)| == |Concat(a)| + |Concat(b)|
    decreases |a|
  {
    if a == [] {
      assert a + b == b;
    } else {
      assert (a + b)[1..] == a[1..] + b;
      ConcatSize(a[1..], b);
    }
  }

  function CodedSize<K, V>(code: Entry<K, V> -> Bytes, es: seq<Entry<K, V>>): nat {
    |Concat(EntryCodes(code, es))|
  }

  function Removed<K, V>(es: seq<Entry<K, V>>, j: nat): seq<Entry<K, V>>
    requires j < |es|
  {
    es[..j] + es[j + 1..]
  }

  /** Without one entry, and the map without that key, the listing is still one. */
  lemma OrderWithout<K, V>(es: seq<Entry<K, V>>, m: map<K, V>, j: nat)
    requires OrderOf(es, m) && j < |es|
    ensures OrderOf(Removed(es, j), m - {es[j].key})
  {
    var rest := Removed(es, j);
    forall k | k in m - {es[j].key} ensures exists i :: 0 <= i < |rest| && rest[i].key == k {
      var i :| 0 <= i < |es| && es[i].key == k;
      assert rest[if i < j then i else i - 1].key == k;
    }
  }

  lemma SizeWithout<K, V>(code: Entry<K, V> -> Bytes, es: seq<Entry<K, V>>, j: nat)
    requires j < |es|
    ensures CodedSize(code, es) == |code(es[j])| + CodedSize(code, Removed(es, j))
  {
    var a, b := EntryCodes(code, es[..j]), EntryCodes(code, es[j + 1..]);
    assert EntryCodes(code, es) == a + ([code(es[j])] + b);
    assert EntryCodes(code, Removed(es, j)) == a + b;
    ConcatSize(a, [code(es[j])] + b);
    ConcatSize(a, b);
    assert ([code(es[j])] + b)[1..] == b;
  }

  lemma SomeListed<K, V>(a: seq<Entry<K, V>>, b: seq<Entry<K, V>>, m: map<K, V>)
    requires OrderOf(a, m) && OrderOf(b, m) && b != []
    ensures a != []
  {
    var i := Located(a, m, b[0]);
  }

  lemma Located<K, V>(es: seq<Entry<K, V>>, m: map<K, V>, e: Entry<K, V>) returns (j: nat)
    requires OrderOf(es, m) && e.key in m && m[e.key] == e.value
    ensures j < |es| && es[j] == e
  {
    j :| 0 <= j < |es| && es[j].key == e.key;
  }

  /** Two listings of one map encode to the same number of bytes. */
  lemma {:induction false} OrderKeepsSize<K, V>(code: Entry<K, V> -> Bytes, a: seq<Entry<K, V>>, b: seq<Entry<K, V>>, m: map<K, V>)
    requires OrderOf(a, m) && OrderOf(b, m)
    ensures |a| == |b| && CodedSize(code, a) == CodedSize(code, b)
    decreases |a|
  {
    if b != [] {
      SomeListed(a, b, m);
    }
    if a != [] {
      var j := Located(b, m, a[0]);
      OrderWithout(a, m, 0);
      OrderWithout(b, m, j);
      SizeWithout(code, a, 0);
      SizeWithout(code, b, j);
      OrderKeepsSize(code, Removed(a, 0), Removed(b, j), m - {a[0].key});
    }
  }

  lemma MapCodeSize<K, V>(code: Entry<K, V> -> Bytes, a: seq<Entry<K, V>>, b: seq<Entry<K, V>>, m: map<K, V>)
    requires OrderOf(a, m) && OrderOf(b, m)
    ensures |MapCode(code, a)| == |MapCode(code, b)|
  {
    OrderKeepsSize(code, a, b, m);
  }

  lemma NewCodeSize(v: State, storage: seq<Entry<Bytes, Bytes>>, floors: seq<Entry<Bytes, nat>>,
                    storage': seq<Entry<Bytes, Bytes>>, floors': seq<Entry<Bytes, nat>>)
    requires OrderOf(storage, v.storage) && OrderOf(storage', v.storage) && OrderOf(floors, v.floors) && OrderOf(floors', v.floors)
    ensures |NewCode(v, storage, floors)| == |NewCode(v, storage', floors')|
  {
    var a, b := Layout(Always(ByteString), storage, floors), Layout(Always(ByteString), storage', floors');
    FourFields(Parts(FieldName, a, v), v);
    FourFields(Parts(FieldName, b, v), v);
    MapCodeSize(StorageCode(Always(ByteString)), storage, storage', v.storage);
    MapCodeSize(FloorCode, floors, floors', v.floors);
  }

  /**
   * Loading a legacy file and saving it: whatever order either file lists its maps in, the new one is
   * shorter by exactly the number of stored bytes of 24 or above.
   */
  lemma ResavingShrinks(v: State, storage: seq<Entry<Bytes, Bytes>>, floors: seq<Entry<Bytes, nat>>, saved: Bytes)
    requires LaysOut(Layout(Always(IntArray), storage, floors), v) && SavedAs(saved, v)
    ensures var legacy := StateCode(Layout(Always(IntArray), storage, floors), v, FieldsOf(v));
            && Reads(ReadState(), legacy, v)
            && |legacy| == |saved| + Wide(v.identity) + Sum(WideEntries(storage)) + Sum(WideEach(v.groups))
  {
    LegacyStateLoads(v, storage, floors);
    MigrationSaves(v, storage, floors);
    var storage', floors' :| OrderOf(storage', v.storage) && OrderOf(floors', v.floors) && saved == NewCode(v, storage', floors');
    NewCodeSize(v, storage, floors, storage', floors');
  }

  // ---- What is refused ----

  lemma KindOfLast(fields: seq<Field>, k: nat)
    requires fields != []
    ensures HasKind(fields, k) <==> HasKind(fields[..|fields| - 1], k) || Kind(fields[|fields| - 1]) == k
  {
    var n := |fields| - 1;
    if HasKind(fields[..n], k) {
      var i :| 0 <= i < n && Kind(fields[..n][i]) == k;
      assert Kind(fields[i]) == k;
    }
    if HasKind(fields, k) && Kind(fields[n]) != k {
      var i :| 0 <= i < |fields| && Kind(fields[i]) == k;
      assert Kind(fields[..n][i]) == k;
    }
  }

  predicate Once(fields: seq<Field>) {
    forall i, j :: 0 <= i < j < |fields| ==> Kind(fields[i]) != Kind(fields[j])
  }

  lemma OnceMore(fields: seq<Field>)
    requires fields != []
    ensures var n := |fields| - 1;
            Once(fields) <==> Once(fields[..n]) && !HasKind(fields[..n], Kind(fields[n]))
  {
    var n := |fields| - 1;
    var init := fields[..n];
    assert forall i :: 0 <= i < n ==> init[i] == fields[i];
    if HasKind(init, Kind(fields[n])) {
      var i :| 0 <= i < n && Kind(init[i]) == Kind(fields[n]);
      assert Kind(fields[i]) == Kind(fields[n]);
    }
  }

  /** Fields are collected exactly if no kind is met twice. */
  lemma {:induction false} TakenOnce(fields: seq<Field>)
    ensures TakeAll(fields).Some? <==> Once(fields)
    ensures TakeAll(fields).Some? ==>
              var p := TakeAll(fields).value;
              && (p.identity.Some? <==> HasKind(fields, 0)) && (p.storage.Some? <==> HasKind(fields, 1))
              && (p.groups.Some? <==> HasKind(fields, 2)) && (p.floors.Some? <==> HasKind(fields, 3))
  {
    if fields != [] {
      TakenOnce(fields[..|fields| - 1]);
      OnceMore(fields);
      forall k: nat | k < 4 ensures HasKind(fields, k) <==> HasKind(fields[..|fields| - 1], k) || Kind(fields[|fields| - 1]) == k {
        KindOfLast(fields, k);
      }
    }
  }

  /** A record is accepted exactly if no field is met twice and only the floors may be missing. */
  lemma FieldsDecide(fields: seq<Field>)
    ensures (TakeAll(fields).Some? && Finish(TakeAll(fields).value).Some?) <==>
            Once(fields) && HasKind(fields, 0) && HasKind(fields, 1) && HasKind(fields, 2)
  {
    TakenOnce(fields);
  }
}
