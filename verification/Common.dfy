/** Vocabulary shared by every model: bounded integers and optional values. */
module Common {

  type Byte = x: int | 0 <= x < 0x100
  type U16 = x: int | 0 <= x < 0x1_0000

  datatype Option<+T> = None | Some(value: T)

  function Min(a: nat, b: nat): nat { if a < b then a else b }

  /** `u16::to_le_bytes`. */
  function Le16(x: U16): seq<Byte> { [x % 256, x / 256] }

  /** `u16::from_le_bytes`. */
  function FromLe16(lo: Byte, hi: Byte): U16 { lo as int + 256 * hi as int }

  datatype Uuid = Short(u: U16) | Long(b: seq<Byte>)

  /** `uuid_from`: anything but 2 or 16 bytes becomes the short UUID 0. */
  function UuidFrom(u: Option<seq<Byte>>): Uuid {
    if u.Some? && |u.value| == 2 then Short(FromLe16(u.value[0], u.value[1]))
    else if u.Some? && |u.value| == 16 then Long(u.value)
    else Short(0)
  }

  predicate WellFormedUuid(u: Option<seq<Byte>>) { u.Some? && (|u.value| == 2 || |u.value| == 16) }

  /** Two bytes are a short UUID with the low byte first, sixteen a long one as they stand, anything else 0. */
  lemma {:induction false} ShortUuidIsLittleEndian(x: U16, b: seq<Byte>)
    ensures UuidFrom(Some([x % 0x100, x / 0x100])) == Short(x)
    ensures |b| == 2 ==> UuidFrom(Some(b)) == Short(b[0] as int + 0x100 * b[1] as int)
    ensures |b| == 16 ==> UuidFrom(Some(b)) == Long(b)
    ensures |b| != 2 && |b| != 16 ==> UuidFrom(Some(b)) == Short(0)
    ensures UuidFrom(None) == Short(0)
  {
  }

  /** Little-endian both ways. */
  lemma {:induction false} Le16Bytes(x: U16)
    ensures Le16(x) == [x % 0x100, x / 0x100] && FromLe16(x % 0x100, x / 0x100) == x
  {
  }
}
