/**
 * `mls.bin` end to end: the device's snapshot, the state record that depicts it, the bytes of that
 * record and back. How OpenMLS serialises a key, an entry and an identity is its own affair, as long
 * as two of them never have the same bytes.
 */
module StateFile {
  import opened Basics
  import opened OpenMls
  import opened DeviceSpec
  import opened DeviceRuns
  import Cbor = ByteCompat

  datatype Codec = Codec(
    identity: Identity -> Cbor.Bytes, key: Key -> Cbor.Bytes, entry: Entry -> Cbor.Bytes, text: string -> Cbor.Bytes)

  ghost predicate Injective<T(!new)>(f: T -> Cbor.Bytes) {
    forall a, b :: f(a) == f(b) ==> a == b
  }

  ghost predicate Faithful(c: Codec) {
    Injective(c.identity) && Injective(c.key) && Injective(c.entry) && Injective(c.text)
  }

  ghost predicate DepictsStorage(c: Codec, storage: Storage, bytes: map<Cbor.Bytes, Cbor.Bytes>) {
    && (forall k :: k in storage ==> c.key(k) in bytes && bytes[c.key(k)] == c.entry(storage[k]))
    && (forall b :: b in bytes ==> exists k :: k in storage && c.key(k) == b)
  }

  ghost predicate DepictsNames(c: Codec, names: set<string>, listed: seq<Cbor.Bytes>) {
    && (forall n :: n in names ==> c.text(n) in listed)
    && (forall b :: b in listed ==> exists n :: n in names && c.text(n) == b)
  }

  ghost predicate DepictsFloors(c: Codec, floors: map<string, nat>, bytes: map<Cbor.Bytes, nat>) {
    && (forall n :: n in floors ==> c.text(n) in bytes && bytes[c.text(n)] == floors[n])
    && (forall b :: b in bytes ==> exists n :: n in floors && c.text(n) == b)
  }

  /** The record `v` holds the snapshot `s`; the names may be listed in any order. */
  ghost predicate Depicts(c: Codec, s: Snapshot, v: Cbor.State) {
    && v.identity == c.identity(s.identity) && DepictsStorage(c, s.storage, v.storage)
    && DepictsNames(c, s.names, v.groups) && DepictsFloors(c, s.floors, v.floors)
  }

  lemma OneStorage(c: Codec, a: Storage, b: Storage, bytes: map<Cbor.Bytes, Cbor.Bytes>)
    requires Injective(c.key) && Injective(c.entry) && DepictsStorage(c, a, bytes) && DepictsStorage(c, b, bytes)
    ensures a == b
  {
    forall k ensures k in a <==> k in b {
      if k in a { var l :| l in b && c.key(l) == c.key(k); }
      if k in b { var l :| l in a && c.key(l) == c.key(k); }
    }
    forall k | k in a ensures a[k] == b[k] {
      assert c.entry(a[k]) == bytes[c.key(k)] == c.entry(b[k]);
    }
  }

  lemma OneNameSet(c: Codec, a: set<string>, b: set<string>, listed: seq<Cbor.Bytes>)
    requires Injective(c.text) && DepictsNames(c, a, listed) && DepictsNames(c, b, listed)
    ensures a == b
  {
    forall n ensures n in a <==> n in b {
      if n in a { var m :| m in b && c.text(m) == c.text(n); }
      if n in b { var m :| m in a && c.text(m) == c.text(n); }
    }
  }

  lemma OneFloorTable(c: Codec, a: map<string, nat>, b: map<string, nat>, bytes: map<Cbor.Bytes, nat>)
    requires Injective(c.text) && DepictsFloors(c, a, bytes) && DepictsFloors(c, b, bytes)
    ensures a == b
  {
    forall n ensures n in a <==> n in b {
      if n in a { var m :| m in b && c.text(m) == c.text(n); }
      if n in b { var m :| m in a && c.text(m) == c.text(n); }
    }
    forall n | n in a ensures a[n] == b[n] {
      assert a[n] == bytes[c.text(n)] == b[n];
    }
  }

  /** A state record depicts one snapshot. */
  lemma OneSnapshot(c: Codec, s: Snapshot, t: Snapshot, v: Cbor.State)
    requires Faithful(c) && Depicts(c, s, v) && Depicts(c, t, v)
    ensures s == t
  {
    OneStorage(c, s.storage, t.storage, v.storage);
    OneNameSet(c, s.names, t.names, v.groups);
    OneFloorTable(c, s.floors, t.floors, v.floors);
    assert c.identity(s.identity) == c.identity(t.identity);
  }

  /**
   * Save, lose the process, load: whatever form, map order and field order the file was written in,
   * its bytes read back to one record, that record to one snapshot, and the snapshot to the device as
   * it was, less the expired bundles and the groups whose id is not text.
   */
  lemma FileRoundTrip(d: Device, c: Codec, v: Cbor.State, y: Cbor.Layout, fields: seq<Cbor.Field>,
                      t: Snapshot, user: string, device: string, now: nat)
    requires Synced(d) && Coherent(d) && d.identity.credential == user + ":" + device
    requires Faithful(c) && Depicts(c, SaveState(d).1, v)
    requires Cbor.LaysOut(y, v) && Cbor.Arranges(fields, v)
    requires var read := Cbor.ReadState()(Cbor.StateCode(y, v, fields));
             read.Got? ==> Depicts(c, t, read.value)
    ensures Cbor.ReadState()(Cbor.StateCode(y, v, fields)) == Cbor.Got(v, [])
    ensures var r := LoadState(user, device, Decoded(t, Works), Some(now));
            && r.Ok? && r.value.identity == d.identity && r.value.floors == d.floors
            && r.value.storage == d.storage - (set k | k in d.storage && d.storage[k].Bundle? && d.storage[k].notAfter < now)
            && (r.value.groups == d.groups <==> AllIdsAreText(d))
  {
    Cbor.StateRoundTrip(y, fields, v);
    assert Cbor.StateCode(y, v, fields) + [] == Cbor.StateCode(y, v, fields);
    OneSnapshot(c, SaveState(d).1, t, v);
    SaveThenLoad(d, user, device, now);
  }
}
