/**
 The 53-byte blob that carries one bond between the runtime and the application's
 storage: `serialize_bond` and `deserialize_bond`.
 */
module BondCodec {
  import opened Common

  const BLOB_LEN := 53
  const LEGACY_LEN := 42
  const VERSION: Byte := 2
  const VERSION_LEGACY: Byte := 1

  type Address = s: seq<Byte> | |s| == 6 witness [0, 0, 0, 0, 0, 0]
  type Key = s: seq<Byte> | |s| == 16 witness [0, 0, 0, 0, 0, 0, 0, 0, 0, 0, 0, 0, 0, 0, 0, 0]
  type Rand = s: seq<Byte> | |s| == 8 witness [0, 0, 0, 0, 0, 0, 0, 0]

  const ZERO_KEY: Key := [0, 0, 0, 0, 0, 0, 0, 0, 0, 0, 0, 0, 0, 0, 0, 0]

  datatype SecurityLevel = NoEncryption | Encrypted | EncryptedAuthenticated

  datatype Identity = Identity(kind: Byte, addr: Address, irk: Option<Key>)

  /** The fields of the stack's bond record that are persisted. */
  datatype Bond = Bond(identity: Identity, ltk: Key, level: SecurityLevel, bonded: bool,
                       ediv: U16, rand: Rand, keyLen: Byte)

  /** What the stack's constructor gives the three fields a version 1 blob does not hold. */
  datatype LegacyDefaults = LegacyDefaults(ediv: U16, rand: Rand, keyLen: Byte)

  function LevelToC(level: SecurityLevel): Byte {
    match level
    case NoEncryption => 0
    case Encrypted => 1
    case EncryptedAuthenticated => 2
  }

  function LevelFromC(b: Byte): Option<SecurityLevel> {
    if b == 0 then Some(NoEncryption)
    else if b == 1 then Some(Encrypted)
    else if b == 2 then Some(EncryptedAuthenticated)
    else None
  }

  /** The stack's key type has no all-zero value. */
  function IrkFromBytes(raw: Key): Option<Key> {
    if raw == ZERO_KEY then None else Some(raw)
  }

  function FlagsOf(b: Bond): Byte {
    (if b.bonded then 1 else 0) + (if b.identity.irk.Some? then 2 else 0)
  }

  /** The blob as one byte string; `SerializeBond` writes it field by field. */
  function Encode(b: Bond): seq<Byte> {
    [VERSION, FlagsOf(b), LevelToC(b.level), b.identity.kind]
    + b.identity.addr + b.ltk
    + (if b.identity.irk.Some? then b.identity.irk.value else ZERO_KEY)
    + Le16(b.ediv) + b.rand + [b.keyLen]
  }

  predicate Accepted(blob: seq<Byte>) {
    && |blob| >= LEGACY_LEN
    && (blob[0] == VERSION_LEGACY || (blob[0] == VERSION && |blob| >= BLOB_LEN))
    && blob[2] <= 2
  }

  function Decode(blob: seq<Byte>, d: LegacyDefaults): Option<Bond> {
    if |blob| < LEGACY_LEN || (blob[0] != VERSION && blob[0] != VERSION_LEGACY) then None
    else if blob[0] == VERSION && |blob| < BLOB_LEN then None
    else
      var level := LevelFromC(blob[2]);
      if level.None? then None
      else
        var irk := if blob[1] / 2 % 2 != 0 then IrkFromBytes(blob[26..42]) else None;
        var id := Identity(blob[3], blob[4..10], irk);
        var bonded := blob[1] % 2 != 0;
        if blob[0] == VERSION then
          Some(Bond(id, blob[10..26], level.value, bonded,
                    FromLe16(blob[42], blob[43]), blob[44..52], blob[52]))
        else
          Some(Bond(id, blob[10..26], level.value, bonded, d.ediv, d.rand, d.keyLen))
  }

  /** Copy `src` into `dst` at `at` (`copy_from_slice` on a sub-slice). */
  method CopyInto(dst: array<Byte>, at: nat, src: seq<Byte>)
    requires at + |src| <= dst.Length
    modifies dst
    ensures dst[..at + |src|] == old(dst[..at]) + src
    ensures forall k :: at + |src| <= k < dst.Length ==> dst[k] == old(dst[k])
  {
    for i := 0 to |src|
      invariant forall k :: at + i <= k < dst.Length ==> dst[k] == old(dst[k])
      invariant dst[..at + i] == old(dst[..at]) + src[..i]
    {
      dst[at + i] := src[i];
    }
    assert src[..|src|] == src;
  }

  /** The four header bytes, over a buffer filled with zeros. */
  method WriteHeader(b: Bond, out: array<Byte>)
    requires out.Length == BLOB_LEN
    modifies out
    ensures out[..4] == [VERSION, FlagsOf(b), LevelToC(b.level), b.identity.kind]
    ensures forall k :: 4 <= k < BLOB_LEN ==> out[k] == 0
  {
    for i := 0 to out.Length
      invariant forall k :: 0 <= k < i ==> out[k] == 0
    {
      out[i] := 0;
    }
    out[0], out[1], out[2], out[3] := VERSION, FlagsOf(b), LevelToC(b.level), b.identity.kind;
  }

  /** `serialize_bond`: fill the caller's buffer and report its length. */
  method SerializeBond(b: Bond, out: array<Byte>) returns (len: nat)
    requires out.Length == BLOB_LEN
    modifies out
    ensures out[..] == Encode(b) && len == 53
  {
    WriteHeader(b, out);
    CopyInto(out, 4, b.identity.addr);
    CopyInto(out, 10, b.ltk);
    ghost var front := out[..26];
    if b.identity.irk.Some? {
      CopyInto(out, 26, b.identity.irk.value);
    } else {
      assert out[..42] == front + ZERO_KEY;
    }
    CopyInto(out, 42, Le16(b.ediv));
    CopyInto(out, 44, b.rand);
    front := out[..52];
    out[52] := b.keyLen;
    assert out[..] == front + [b.keyLen];
    len := BLOB_LEN;
  }

  lemma {:induction false} EncodeLayout(b: Bond)
    ensures |Encode(b)| == 53
    ensures Encode(b)[0] == VERSION && Encode(b)[1] == FlagsOf(b)
    ensures Encode(b)[2] == LevelToC(b.level) && Encode(b)[3] == b.identity.kind
    ensures Encode(b)[4..10] == b.identity.addr && Encode(b)[10..26] == b.ltk
    ensures Encode(b)[26..42] == if b.identity.irk.Some? then b.identity.irk.value else ZERO_KEY
    ensures FromLe16(Encode(b)[42], Encode(b)[43]) == b.ediv
    ensures Encode(b)[44..52] == b.rand && Encode(b)[52] == b.keyLen
  {
    AddressBytes(b);
    KeyBytes(b);
    TailBytes(b);
    Le16Bytes(b.ediv);
    var e := Encode(b);
    assert e[0] == e[..4][0] && e[1] == e[..4][1] && e[2] == e[..4][2] && e[3] == e[..4][3];
    assert e[42] == e[42..53][0] && e[43] == e[42..53][1] && e[52] == e[42..53][10];
    assert e[44..52] == Tail(b)[2..10];
  }

  // The parts of the blob.

  function Head(b: Bond): seq<Byte> { [VERSION, FlagsOf(b), LevelToC(b.level), b.identity.kind] }
  function Irk(b: Bond): Key { if b.identity.irk.Some? then b.identity.irk.value else ZERO_KEY }
  function Tail(b: Bond): seq<Byte> { Le16(b.ediv) + b.rand + [b.keyLen] }

  lemma {:induction false} EncodeParts(b: Bond)
    ensures Encode(b) == Head(b) + b.identity.addr + b.ltk + Irk(b) + Tail(b)
    ensures |Head(b)| == 4 && |Tail(b)| == 11 && |Encode(b)| == 53
  {
  }

  lemma {:induction false} AddressBytes(b: Bond)
    ensures |Encode(b)| == 53 && Encode(b)[..4] == Head(b) && Encode(b)[4..10] == b.identity.addr
  {
    EncodeParts(b);
    var rest := b.ltk + Irk(b) + Tail(b);
    Slice(Head(b), b.identity.addr, rest);
    assert Encode(b) == Head(b) + b.identity.addr + rest;
  }

  lemma {:induction false} KeyBytes(b: Bond)
    ensures |Encode(b)| == 53 && Encode(b)[10..26] == b.ltk && Encode(b)[26..42] == Irk(b)
  {
    EncodeParts(b);
    var front := Head(b) + b.identity.addr;
    Slice(front, b.ltk, Irk(b) + Tail(b));
    assert Encode(b) == front + b.ltk + (Irk(b) + Tail(b));
    Slice(front + b.ltk, Irk(b), Tail(b));
  }

  lemma {:induction false} TailBytes(b: Bond)
    ensures |Encode(b)| == 53 && Encode(b)[42..53] == Tail(b)
    ensures Encode(b)[2..26] == [LevelToC(b.level), b.identity.kind] + b.identity.addr + b.ltk
  {
    EncodeParts(b);
    AddressBytes(b);
    KeyBytes(b);
    var e := Encode(b);
    assert e[2..26] == e[..4][2..] + e[4..10] + e[10..26];
    Slice(Head(b) + b.identity.addr + b.ltk + Irk(b), Tail(b), []);
    assert e + [] == e;
  }

  lemma {:induction false} Slice(front: seq<Byte>, middle: seq<Byte>, back: seq<Byte>)
    ensures (front + middle + back)[|front|..|front| + |middle|] == middle
  {
  }

  /** A bond the stack can produce: an identity key is never all zero. */
  predicate WellFormed(b: Bond) { b.identity.irk != Some(ZERO_KEY) }

  /** Decoding an encoded bond gives it back exactly when its identity key is absent or non-zero. */
  lemma {:induction false} RoundTrip(b: Bond, d: LegacyDefaults)
    ensures Decode(Encode(b), d).Some?
    ensures Decode(Encode(b), d) == Some(b) <==> WellFormed(b)
  {
    EncodeLayout(b);
  }

  /** Acceptance depends on version, length and level alone, and a decoded bond is well formed. */
  lemma {:induction false} DecodeAccepts(blob: seq<Byte>, d: LegacyDefaults)
    ensures Decode(blob, d).Some? <==> Accepted(blob)
    ensures Accepted(blob) <==>
      (|blob| >= 42 && blob[0] == 1 && blob[2] <= 2) || (|blob| >= 53 && blob[0] == 2 && blob[2] <= 2)
    ensures Accepted(blob) ==> WellFormed(Decode(blob, d).value)
  {
  }

  /** Decode, then encode. */
  function Normalise(blob: seq<Byte>, d: LegacyDefaults): (r: seq<Byte>)
    requires Accepted(blob)
  {
    DecodeAccepts(blob, d);
    Encode(Decode(blob, d).value)
  }

  /**
   Normalising an accepted blob keeps the bond it stands for, always yields a full
   version 2 blob (so a version 1 blob is upgraded), and does nothing the second time.
   */
  lemma {:induction false} NormaliseIsStable(blob: seq<Byte>, d: LegacyDefaults)
    requires Accepted(blob)
    ensures var n := Normalise(blob, d);
            && Accepted(n) && |n| == 53 && n[0] == 2
            && Decode(n, d) == Decode(blob, d)
            && Normalise(n, d) == n
  {
    DecodeAccepts(blob, d);
    var b := Decode(blob, d).value;
    EncodeLayout(b);
    RoundTrip(b, d);
    DecodeAccepts(Encode(b), d);
  }

  /** Different well-formed bonds never share a blob. */
  lemma {:induction false} EncodeInjective(a: Bond, b: Bond, d: LegacyDefaults)
    requires WellFormed(a) && WellFormed(b) && Encode(a) == Encode(b)
    ensures a == b
  {
    RoundTrip(a, d);
    RoundTrip(b, d);
  }

  /** The first 42 bytes of a blob, marked version 1, decode to the same bond with defaults for the rest. */
  lemma {:induction false} LegacyDecodes(b: Bond, d: LegacyDefaults)
    requires WellFormed(b)
    ensures Decode([1] + Encode(b)[1..42], d)
         == Some(b.(ediv := d.ediv, rand := d.rand, keyLen := d.keyLen))
  {
    EncodeLayout(b);
    var full, blob := Encode(b), [VERSION_LEGACY] + Encode(b)[1..LEGACY_LEN];
    assert forall i :: 1 <= i < LEGACY_LEN ==> blob[i] == full[i];
    assert blob[4..10] == full[4..10] && blob[10..26] == full[10..26] && blob[26..42] == full[26..42];
  }

  /** The identity key a blob stands for: its own bytes if it says there is one and they are not all zero. */
  predicate HasIrk(blob: seq<Byte>)
    requires |blob| >= LEGACY_LEN
  {
    blob[1] / 2 % 2 == 1 && blob[26..42] != ZERO_KEY
  }

  /** Where each field of a decoded bond comes from. */
  lemma {:induction false} DecodedFields(blob: seq<Byte>, d: LegacyDefaults)
    requires Accepted(blob)
    ensures Decode(blob, d).Some?
    ensures var b := Decode(blob, d).value;
            && LevelToC(b.level) == blob[2] && b.identity.kind == blob[3]
            && b.identity.addr == blob[4..10] && b.ltk == blob[10..26]
            && (b.bonded <==> blob[1] % 2 == 1)
            && b.identity.irk == (if HasIrk(blob) then Some(blob[26..42]) else None)
            && (blob[0] == 2 ==>
                  b.ediv == FromLe16(blob[42], blob[43]) && b.rand == blob[44..52] && b.keyLen == blob[52])
            && (blob[0] == 1 ==> b.ediv == d.ediv && b.rand == d.rand && b.keyLen == d.keyLen)
  {
  }

  lemma {:induction false} Slices(blob: seq<Byte>)
    requires |blob| >= 42
    ensures blob[2..26] == [blob[2], blob[3]] + blob[4..10] + blob[10..26]
    ensures |blob| >= 53 ==> blob[42..53] == [blob[42], blob[43]] + blob[44..52] + [blob[52]]
  {
  }

  /**
   Byte for byte: level, address kind, address and key come back from the bytes they were read from;
   of the flags the two known ones; the identity key if there is one, else zeros; and the last eleven
   bytes of a version 2 blob, or the defaults for a version 1 blob.
   */
  lemma {:induction false} NormaliseKeepsBytes(blob: seq<Byte>, d: LegacyDefaults)
    requires Accepted(blob)
    ensures var n := Normalise(blob, d);
            && |n| == 53 && n[2..26] == blob[2..26]
            && n[1] == blob[1] % 2 + (if HasIrk(blob) then 2 else 0)
            && n[26..42] == (if HasIrk(blob) then blob[26..42] else ZERO_KEY)
            && n[42..53] == (if blob[0] == VERSION then blob[42..53] else Le16(d.ediv) + d.rand + [d.keyLen])
  {
    DecodedFields(blob, d);
    var b := Decode(blob, d).value;
    EncodeLayout(b);
    TailBytes(b);
    Slices(blob);
    if blob[0] == VERSION {
      assert Le16(b.ediv) == [blob[42], blob[43]];
    }
  }
}
