/**
 The two advertising payload builders: `build_adv_payload` into a zeroed 31-byte array and
 `build_adv_payload_ext` into a vector of capacity 255, with the raw-data path in front of each.

 A payload is a run of structures, each a length byte (type and data), a type byte and the data:
 section 11 of Volume 3, Part C of the Bluetooth Core Specification.
 */
module Advertising {
  import opened Common

  const LEGACY_MAX := 31
  const EXT_MAX := 255
  const SCRATCH := 29

  datatype Ad = Ad(ty: Byte, data: seq<Byte>)

  /** The configuration both builders read. A null pointer is `None`; `fallback` is the stack's default appearance. */
  datatype Config = Config(
    raw: seq<Byte>,
    flags: Byte,
    manufacturerId: U16, manufacturerData: seq<Byte>,
    serviceUuid: Option<seq<Byte>>,
    serviceDataUuid: Option<seq<Byte>>, serviceData: Option<seq<Byte>>,
    advertiseAppearance: bool, appearance: U16, fallback: U16,
    txPower: Option<Byte>,
    name: seq<Byte>)

  // ---------------------------------------------------------------------------
  // The intended structures, and their wire form.
  // ---------------------------------------------------------------------------

  predicate UuidSized(u: seq<Byte>) { |u| == 2 || |u| == 16 }

  function FlagsPart(c: Config): seq<Ad> { [Ad(0x01, [c.flags])] }

  function ManufacturerPart(c: Config): seq<Ad> {
    if c.manufacturerId != 0 || c.manufacturerData != []
    then [Ad(0xff, Le16(c.manufacturerId) + c.manufacturerData)] else []
  }

  function UuidPart(c: Config): seq<Ad> {
    if c.serviceUuid.Some? && UuidSized(c.serviceUuid.value)
    then [Ad(if |c.serviceUuid.value| == 2 then 0x03 else 0x07, c.serviceUuid.value)] else []
  }

  predicate HasServiceData(c: Config) {
    && c.serviceDataUuid.Some? && c.serviceData.Some?
    && c.serviceData.value != [] && UuidSized(c.serviceDataUuid.value)
  }

  function ServiceDataPart(c: Config): seq<Ad> {
    if HasServiceData(c)
    then [Ad(if |c.serviceDataUuid.value| == 2 then 0x16 else 0x21, c.serviceDataUuid.value + c.serviceData.value)]
    else []
  }

  function AppearancePart(c: Config): seq<Ad> {
    if c.advertiseAppearance then [Ad(0x19, Le16(if c.appearance == 0 then c.fallback else c.appearance))] else []
  }

  function TxPowerPart(c: Config): seq<Ad> {
    if c.txPower.Some? then [Ad(0x0a, [c.txPower.value])] else []
  }

  /** Every structure before the name, in order. */
  function Before(c: Config): seq<Ad> {
    FlagsPart(c) + ManufacturerPart(c) + UuidPart(c) + ServiceDataPart(c) + AppearancePart(c) + TxPowerPart(c)
  }

  function Bytes(ad: Ad): seq<Byte> { [(|ad.data| + 1) % 256, ad.ty] + ad.data }

  function Flatten(ads: seq<Ad>): seq<Byte> {
    if ads == [] then [] else Flatten(ads[..|ads| - 1]) + Bytes(ads[|ads| - 1])
  }

  /** An independent reader of payloads. */
  function Parse(b: seq<Byte>): Option<seq<Ad>> {
    if b == [] then Some([])
    else
      var n: nat := b[0];
      if n == 0 || |b| < n + 1 then None
      else
        var rest := Parse(b[n + 1..]);
        if rest.None? then None else Some([Ad(b[1], b[2..n + 1])] + rest.value)
  }

  lemma {:induction false} FlattenAppend(ads: seq<Ad>, ad: Ad)
    ensures Flatten(ads + [ad]) == Flatten(ads) + Bytes(ad)
  {
    assert (ads + [ad])[..|ads|] == ads;
  }

  lemma {:induction false} FlattenConcat(a: seq<Ad>, b: seq<Ad>)
    ensures Flatten(a + b) == Flatten(a) + Flatten(b)
  {
    if b == [] {
      assert a + b == a;
    } else {
      var front, last := b[..|b| - 1], b[|b| - 1];
      assert a + b == (a + front) + [last];
      calc {
        Flatten(a + b);
        { FlattenAppend(a + front, last); }
        Flatten(a + front) + Bytes(last);
        { FlattenConcat(a, front); }
        (Flatten(a) + Flatten(front)) + Bytes(last);
        Flatten(a) + (Flatten(front) + Bytes(last));
      }
    }
  }

  predicate Sized(ads: seq<Ad>) { forall i :: 0 <= i < |ads| ==> |ads[i].data| <= 254 }

  /** The reader peels off one structure. */
  lemma {:induction false} ParseOne(ad: Ad, rest: seq<Byte>)
    requires |ad.data| <= 254
    ensures Parse(Bytes(ad) + rest) == if Parse(rest).None? then None else Some([ad] + Parse(rest).value)
  {
    var b, n := Bytes(ad) + rest, |ad.data| + 1;
    assert b[0] == n && b[1] == ad.ty && |b| == n + 1 + |rest|;
    assert b[n + 1..] == rest;
    assert b[2..n + 1] == ad.data;
  }

  /** The reader undoes the wire form. */
  lemma {:induction false} ParseFlatten(ads: seq<Ad>)
    requires Sized(ads)
    ensures Parse(Flatten(ads)) == Some(ads)
  {
    if ads != [] {
      var head, tail := ads[0], ads[1..];
      ParseFlatten(tail);
      assert ads == [head] + tail;
      FlattenConcat([head], tail);
      assert Flatten([head]) == Bytes(head) by { FlattenAppend([], head); }
      ParseOne(head, Flatten(tail));
    }
  }

  /** Structures whose wire form fits a payload are small enough to have one. */
  lemma {:induction false} FitsAreSized(ads: seq<Ad>)
    requires |Flatten(ads)| <= EXT_MAX
    ensures Sized(ads)
  {
    if ads != [] {
      FitsAreSized(ads[..|ads| - 1]);
    }
  }

  // ---------------------------------------------------------------------------
  // The legacy builder.
  // ---------------------------------------------------------------------------

  /** What the legacy builder produces: the name whole if it fits, else cut to fill the payload, if 3 bytes remain. */
  function LegacyAds(c: Config): Option<seq<Ad>> {
    var used := |Flatten(Before(c))|;
    if used + 2 + |c.name| <= LEGACY_MAX then Some(Before(c) + [Ad(0x09, c.name)])
    else if used <= 28 then Some(Before(c) + [Ad(0x08, c.name[..29 - used])])
    else None
  }

  /** `push_ad`. */
  method PushAd(dst: array<Byte>, pos: nat, ad: Ad) returns (ok: bool, end: nat)
    requires dst.Length == LEGACY_MAX && pos <= LEGACY_MAX
    modifies dst
    ensures ok <==> pos + |ad.data| + 2 <= LEGACY_MAX
    ensures ok ==> end == pos + |ad.data| + 2 && dst[..end] == old(dst[..pos]) + Bytes(ad)
    ensures ok ==> forall k :: end <= k < LEGACY_MAX ==> dst[k] == old(dst[k])
    ensures !ok ==> end == pos && dst[..] == old(dst[..])
  {
    var need := |ad.data| + 2;
    if pos + need > dst.Length || |ad.data| > 254 {
      return false, pos;
    }
    dst[pos] := |ad.data| + 1;
    dst[pos + 1] := ad.ty;
    for i := 0 to |ad.data|
      invariant forall k :: 0 <= k < pos || pos + need <= k < LEGACY_MAX ==> dst[k] == old(dst[k])
      invariant dst[pos] == |ad.data| + 1 && dst[pos + 1] == ad.ty
      invariant forall k :: 0 <= k < i ==> dst[pos + 2 + k] == ad.data[k]
    {
      dst[pos + 2 + i] := ad.data[i];
    }
    ok, end := true, pos + need;
    ghost var was, b := old(dst[..pos]), Bytes(ad);
    forall k | 0 <= k < end ensures dst[k] == (was + b)[k] {
      if k >= pos + 2 { assert dst[pos + 2 + (k - pos - 2)] == ad.data[k - pos - 2]; }
    }
  }

  /** The structures written so far, with nothing but zeros behind them. */
  ghost predicate Holds(dst: array<Byte>, pos: nat, done: seq<Ad>)
    reads dst
  {
    && dst.Length == LEGACY_MAX && pos <= LEGACY_MAX
    && dst[..pos] == Flatten(done)
    && forall k :: pos <= k < LEGACY_MAX ==> dst[k] == 0
  }

  /** Append one structure; on failure, no payload starting this way fits. */
  method PushNext(dst: array<Byte>, pos: nat, ty: Byte, data: seq<Byte>, ghost done: seq<Ad>)
    returns (ok: bool, end: nat)
    requires Holds(dst, pos, done)
    modifies dst
    ensures ok ==> Holds(dst, end, done + [Ad(ty, data)])
    ensures !ok ==> |Flatten(done + [Ad(ty, data)])| > LEGACY_MAX
  {
    FlattenAppend(done, Ad(ty, data));
    ok, end := PushAd(dst, pos, Ad(ty, data));
  }

  /** The 29-byte scratch buffer in which the data of one structure is put together. */
  method Gather(a: seq<Byte>, b: seq<Byte>) returns (scratch: array<Byte>)
    requires |a| + |b| <= SCRATCH
    ensures fresh(scratch) && scratch.Length == SCRATCH && scratch[..|a| + |b|] == a + b
  {
    scratch := new Byte[SCRATCH](_ => 0);
    for i := 0 to |a|
      invariant scratch[..i] == a[..i]
    {
      scratch[i] := a[i];
    }
    for i := 0 to |b|
      invariant scratch[..|a| + i] == a + b[..i]
    {
      scratch[|a| + i] := b[i];
    }
  }

  /** `build_adv_payload`, which reports the length used of the caller's zeroed array. */
  method BuildLegacy(c: Config, dst: array<Byte>) returns (r: Option<nat>)
    requires dst.Length == LEGACY_MAX && forall k :: 0 <= k < LEGACY_MAX ==> dst[k] == 0
    modifies dst
    ensures var used := |Flatten(Before(c))|;
            r.Some? <==> used <= 31 && (used + 2 + |c.name| <= 31 || used <= 28)
    ensures r.Some? <==> LegacyAds(c).Some?
    ensures r.Some? ==> Holds(dst, r.value, LegacyAds(c).value)
  {
    Prefixes(c);
    var ok, pos := BuildLegacyFront(c, dst);
    if !ok { return None; }
    ghost var front := FlagsPart(c) + ManufacturerPart(c) + UuidPart(c);
    ok, pos := BuildLegacyServiceData(c, dst, pos, front);
    if !ok { return None; }
    ghost var done := front + ServiceDataPart(c);
    if c.advertiseAppearance {
      var appearance := if c.appearance == 0 then c.fallback else c.appearance;
      ok, pos := PushNext(dst, pos, 0x19, Le16(appearance), done);
      if !ok { return None; }
    } else {
      assert done + AppearancePart(c) == done;
    }
    done := done + AppearancePart(c);
    if c.txPower.Some? {
      ok, pos := PushNext(dst, pos, 0x0a, [c.txPower.value], done);
      if !ok { return None; }
    } else {
      assert done + TxPowerPart(c) == done;
    }
    r := PushName(c, dst, pos);
  }

  /** Flags, manufacturer data, service UUID. The scratch buffer refuses only what the payload would refuse as well. */
  method BuildLegacyFront(c: Config, dst: array<Byte>) returns (ok: bool, pos: nat)
    requires Holds(dst, 0, [])
    modifies dst
    ensures var front := FlagsPart(c) + ManufacturerPart(c) + UuidPart(c);
            if ok then Holds(dst, pos, front) else |Flatten(front)| > LEGACY_MAX
  {
    Prefixes(c);
    ghost var f, m := FlagsPart(c), ManufacturerPart(c);
    assert [] + f == f;
    ok, pos := PushNext(dst, 0, 0x01, [c.flags], []);
    if !ok { return; }
    ok, pos := BuildLegacyManufacturer(c, dst, pos, f);
    if !ok { return; }
    if c.serviceUuid.Some? && (|c.serviceUuid.value| == 2 || |c.serviceUuid.value| == 16) {
      var ty: Byte := if |c.serviceUuid.value| == 2 then 0x03 else 0x07;
      ok, pos := PushNext(dst, pos, ty, c.serviceUuid.value, f + m);
    } else {
      assert f + m + UuidPart(c) == f + m;
    }
  }

  method BuildLegacyManufacturer(c: Config, dst: array<Byte>, pos: nat, ghost done: seq<Ad>)
    returns (ok: bool, end: nat)
    requires Holds(dst, pos, done)
    modifies dst
    ensures ok ==> Holds(dst, end, done + ManufacturerPart(c))
    ensures !ok ==> |Flatten(done + ManufacturerPart(c))| > LEGACY_MAX
  {
    if c.manufacturerId != 0 || c.manufacturerData != [] {
      var total := 2 + |c.manufacturerData|;
      if total > SCRATCH {
        FlattenAppend(done, ManufacturerPart(c)[0]);
        return false, pos;
      }
      var man := Gather(Le16(c.manufacturerId), c.manufacturerData);
      ok, end := PushNext(dst, pos, 0xff, man[..total], done);
    } else {
      assert done + ManufacturerPart(c) == done;
      return true, pos;
    }
  }

  method BuildLegacyServiceData(c: Config, dst: array<Byte>, pos: nat, ghost done: seq<Ad>) returns (ok: bool, end: nat)
    requires Holds(dst, pos, done)
    modifies dst
    ensures ok ==> Holds(dst, end, done + ServiceDataPart(c))
    ensures !ok ==> |Flatten(done + ServiceDataPart(c))| > LEGACY_MAX
  {
    if c.serviceDataUuid.Some? && c.serviceData.Some? && |c.serviceData.value| > 0
       && (|c.serviceDataUuid.value| == 2 || |c.serviceDataUuid.value| == 16) {
      var total := |c.serviceDataUuid.value| + |c.serviceData.value|;
      if total > SCRATCH {
        FlattenAppend(done, ServiceDataPart(c)[0]);
        return false, pos;
      }
      var data := Gather(c.serviceDataUuid.value, c.serviceData.value);
      var ty: Byte := if |c.serviceDataUuid.value| == 2 then 0x16 else 0x21;
      ok, end := PushNext(dst, pos, ty, data[..total], done);
    } else {
      assert done + ServiceDataPart(c) == done;
      return true, pos;
    }
  }

  /** The wire form of each prefix of the structures is no longer than that of all of them. */
  lemma {:induction false} Prefixes(c: Config)
    ensures var (f, m, u) := (FlagsPart(c), ManufacturerPart(c), UuidPart(c));
            var (s, a) := (ServiceDataPart(c), AppearancePart(c));
            && |Flatten(f)| <= |Flatten(f + m)| <= |Flatten(f + m + u)| <= |Flatten(f + m + u + s)|
            && |Flatten(f + m + u + s)| <= |Flatten(f + m + u + s + a)| <= |Flatten(Before(c))|
  {
    var f, m, u := FlagsPart(c), ManufacturerPart(c), UuidPart(c);
    var s, a, t := ServiceDataPart(c), AppearancePart(c), TxPowerPart(c);
    FlattenConcat(f, m);
    FlattenConcat(f + m, u);
    FlattenConcat(f + m + u, s);
    FlattenConcat(f + m + u + s, a);
    FlattenConcat(f + m + u + s + a, t);
  }

  /** The name: complete, or shortened into what is left. */
  method PushName(c: Config, dst: array<Byte>, pos: nat) returns (r: Option<nat>)
    requires Holds(dst, pos, Before(c))
    modifies dst
    ensures r.Some? <==> LegacyAds(c).Some?
    ensures r.Some? ==> Holds(dst, r.value, LegacyAds(c).value)
  {
    assert pos == |Flatten(Before(c))|;
    FlattenAppend(Before(c), Ad(0x09, c.name));
    var ok, end := PushAd(dst, pos, Ad(0x09, c.name));
    if !ok {
      var avail := dst.Length - pos;
      if avail < 3 { return None; }
      var short := Min(|c.name|, avail - 2);
      FlattenAppend(Before(c), Ad(0x08, c.name[..short]));
      ok, end := PushAd(dst, pos, Ad(0x08, c.name[..short]));
      if !ok { return None; }
    }
    r := Some(end);
  }

  // ---------------------------------------------------------------------------
  // The extended builder.
  // ---------------------------------------------------------------------------

  function NamePart(c: Config): seq<Ad> { if c.name == [] then [] else [Ad(0x09, c.name)] }

  /** What the extended builder produces: never a cut name, and no structure for an empty one. */
  function ExtAds(c: Config): Option<seq<Ad>> {
    var ads := Before(c) + NamePart(c);
    if |Flatten(ads)| <= EXT_MAX then Some(ads) else None
  }

  /** The fixed-capacity byte vector the extended payload is built in. */
  class ExtVec {
    var data: seq<Byte>

    constructor ()
      ensures data == []
    {
      data := [];
    }

    method Push(b: Byte) returns (ok: bool)
      modifies this
      ensures ok == (old(|data|) < EXT_MAX)
      ensures data == if ok then old(data) + [b] else old(data)
    {
      ok := |data| < EXT_MAX;
      if ok { data := data + [b]; }
    }

    method Extend(s: seq<Byte>) returns (ok: bool)
      modifies this
      ensures ok == (old(|data|) + |s| <= EXT_MAX)
      ensures data == if ok then old(data) + s else old(data)
    {
      ok := |data| + |s| <= EXT_MAX;
      if ok { data := data + s; }
    }

    /** `push_ad_ext`. */
    method PushAdExt(ad: Ad) returns (ok: bool)
      modifies this
      ensures ok <==> old(|data|) + |ad.data| + 2 <= EXT_MAX
      ensures data == if ok then old(data) + Bytes(ad) else old(data)
    {
      if |ad.data| > 254 || |data| + |ad.data| + 2 > EXT_MAX { return false; }
      ok := Push(|ad.data| + 1);
      if ok { ok := Push(ad.ty); }
      if ok { ok := Extend(ad.data); }
      assert data == old(data) + Bytes(ad);
    }

    method PushNextExt(ty: Byte, bytes: seq<Byte>, ghost done: seq<Ad>) returns (ok: bool)
      requires data == Flatten(done) && |data| <= EXT_MAX
      modifies this
      ensures ok ==> data == Flatten(done + [Ad(ty, bytes)]) && |data| <= EXT_MAX
      ensures !ok ==> |Flatten(done + [Ad(ty, bytes)])| > EXT_MAX
    {
      FlattenAppend(done, Ad(ty, bytes));
      ok := PushAdExt(Ad(ty, bytes));
    }
  }

  /** Assemble the data of one structure in a scratch vector of its own. */
  method Scratch(a: seq<Byte>, b: seq<Byte>) returns (r: Option<seq<Byte>>)
    ensures r == if |a| + |b| <= EXT_MAX then Some(a + b) else None
  {
    var v := new ExtVec();
    var ok := v.Extend(a);
    if ok { ok := v.Extend(b); }
    assert [] + a == a;
    r := if ok then Some(v.data) else None;
  }

  /** `build_adv_payload_ext`, into an empty vector. */
  method BuildExt(c: Config, dst: ExtVec) returns (ok: bool)
    requires dst.data == []
    modifies dst
    ensures ok <==> ExtAds(c).Some?
    ensures ok <==> |Flatten(Before(c))| + (if c.name == [] then 0 else 2 + |c.name|) <= 255
    ensures ok ==> dst.data == Flatten(ExtAds(c).value)
  {
    Prefixes(c);
    FlattenConcat(Before(c), NamePart(c));
    ok := BuildExtFront(c, dst);
    if !ok { return; }
    ghost var front := FlagsPart(c) + ManufacturerPart(c) + UuidPart(c);
    ok := BuildExtServiceData(c, dst, front);
    if !ok { return; }
    ok := BuildExtTail(c, dst);
  }

  /** Flags, manufacturer data and service UUID. */
  method BuildExtFront(c: Config, dst: ExtVec) returns (ok: bool)
    requires dst.data == []
    modifies dst
    ensures var front := Flatten(FlagsPart(c) + ManufacturerPart(c) + UuidPart(c));
            if ok then dst.data == front && |front| <= EXT_MAX else |front| > EXT_MAX
  {
    Prefixes(c);
    ghost var f, m := FlagsPart(c), ManufacturerPart(c);
    assert [] + f == f;
    ok := dst.PushNextExt(0x01, [c.flags], []);
    if !ok { return; }
    ok := BuildExtManufacturer(c, dst, f);
    if !ok { return; }
    if c.serviceUuid.Some? && (|c.serviceUuid.value| == 2 || |c.serviceUuid.value| == 16) {
      var ty: Byte := if |c.serviceUuid.value| == 2 then 0x03 else 0x07;
      ok := dst.PushNextExt(ty, c.serviceUuid.value, f + m);
    } else {
      assert f + m + UuidPart(c) == f + m;
    }
  }

  /** Appearance, transmit power and name. */
  method BuildExtTail(c: Config, dst: ExtVec) returns (ok: bool)
    requires |dst.data| <= EXT_MAX
    requires dst.data == Flatten(FlagsPart(c) + ManufacturerPart(c) + UuidPart(c) + ServiceDataPart(c))
    modifies dst
    ensures var all := Flatten(Before(c) + NamePart(c));
            if ok then dst.data == all && |all| <= EXT_MAX else |all| > EXT_MAX
  {
    Prefixes(c);
    FlattenConcat(Before(c), NamePart(c));
    ghost var done := FlagsPart(c) + ManufacturerPart(c) + UuidPart(c) + ServiceDataPart(c);
    if c.advertiseAppearance {
      var appearance := if c.appearance == 0 then c.fallback else c.appearance;
      ok := dst.PushNextExt(0x19, Le16(appearance), done);
      if !ok { return; }
    } else {
      assert done + AppearancePart(c) == done;
    }
    done := done + AppearancePart(c);
    if c.txPower.Some? {
      ok := dst.PushNextExt(0x0a, [c.txPower.value], done);
      if !ok { return; }
    } else {
      assert done + TxPowerPart(c) == done;
    }
    ok := true;
    if c.name != [] {
      ok := dst.PushNextExt(0x09, c.name, Before(c));
    } else {
      assert Before(c) + NamePart(c) == Before(c);
    }
  }

  method BuildExtManufacturer(c: Config, dst: ExtVec, ghost done: seq<Ad>) returns (ok: bool)
    requires dst.data == Flatten(done) && |dst.data| <= EXT_MAX
    modifies dst
    ensures ok ==> dst.data == Flatten(done + ManufacturerPart(c)) && |dst.data| <= EXT_MAX
    ensures !ok ==> |Flatten(done + ManufacturerPart(c))| > EXT_MAX
  {
    if c.manufacturerId != 0 || c.manufacturerData != [] {
      FlattenAppend(done, ManufacturerPart(c)[0]);
      var man := Scratch(Le16(c.manufacturerId), c.manufacturerData);
      if man.None? { return false; }
      ok := dst.PushNextExt(0xff, man.value, done);
    } else {
      assert done + ManufacturerPart(c) == done;
      ok := true;
    }
  }

  method BuildExtServiceData(c: Config, dst: ExtVec, ghost done: seq<Ad>) returns (ok: bool)
    requires dst.data == Flatten(done) && |dst.data| <= EXT_MAX
    modifies dst
    ensures ok ==> dst.data == Flatten(done + ServiceDataPart(c)) && |dst.data| <= EXT_MAX
    ensures !ok ==> |Flatten(done + ServiceDataPart(c))| > EXT_MAX
  {
    if c.serviceDataUuid.Some? && c.serviceData.Some? && |c.serviceData.value| > 0
       && (|c.serviceDataUuid.value| == 2 || |c.serviceDataUuid.value| == 16) {
      FlattenAppend(done, ServiceDataPart(c)[0]);
      var data := Scratch(c.serviceDataUuid.value, c.serviceData.value);
      if data.None? { return false; }
      var ty: Byte := if |c.serviceDataUuid.value| == 2 then 0x16 else 0x21;
      ok := dst.PushNextExt(ty, data.value, done);
    } else {
      assert done + ServiceDataPart(c) == done;
      ok := true;
    }
  }

  // ---------------------------------------------------------------------------
  // What the two builders promise, and how they agree.
  // ---------------------------------------------------------------------------

  /** The advertised bytes: configured raw data as it is, else the built payload. */
  function LegacyPayload(c: Config): Option<seq<Byte>> {
    if c.raw != [] then if |c.raw| <= LEGACY_MAX then Some(c.raw) else None
    else if LegacyAds(c).Some? then Some(Flatten(LegacyAds(c).value)) else None
  }

  function ExtPayload(c: Config): Option<seq<Byte>> {
    if c.raw != [] then if |c.raw| <= EXT_MAX then Some(c.raw) else None
    else if ExtAds(c).Some? then Some(Flatten(ExtAds(c).value)) else None
  }

  /** `advertising_payload`. */
  method AdvertiseLegacy(c: Config) returns (adv: array<Byte>, r: Option<nat>)
    ensures adv.Length == 31
    ensures r.Some? <==> LegacyPayload(c).Some?
    ensures r.Some? ==> r.value <= LEGACY_MAX && adv[..r.value] == LegacyPayload(c).value
    ensures r.Some? ==> forall k :: r.value <= k < LEGACY_MAX ==> adv[k] == 0
  {
    adv := new Byte[LEGACY_MAX](_ => 0);
    if c.raw != [] {
      if |c.raw| > LEGACY_MAX { return adv, None; }
      for i := 0 to |c.raw|
        invariant adv[..i] == c.raw[..i] && forall k :: i <= k < LEGACY_MAX ==> adv[k] == 0
      {
        adv[i] := c.raw[i];
      }
      return adv, Some(|c.raw|);
    }
    r := BuildLegacy(c, adv);
  }

  /** `advertising_payload_ext`. */
  method AdvertiseExt(c: Config) returns (r: Option<seq<Byte>>)
    ensures r == ExtPayload(c)
  {
    var adv := new ExtVec();
    var ok;
    if c.raw != [] {
      ok := adv.Extend(c.raw);
      assert [] + c.raw == c.raw;
    } else {
      ok := BuildExt(c, adv);
    }
    r := if ok then Some(adv.data) else None;
  }

  /** The structures a legacy payload carries are read back from exactly its bytes. */
  lemma {:induction false} LegacyRoundTrip(c: Config)
    requires LegacyAds(c).Some?
    ensures |Flatten(LegacyAds(c).value)| <= 31
    ensures Parse(Flatten(LegacyAds(c).value)) == LegacyAds(c)
  {
    var ads := LegacyAds(c).value;
    FlattenAppend(Before(c), ads[|ads| - 1]);
    assert ads == Before(c) + [ads[|ads| - 1]];
    FitsAreSized(ads);
    ParseFlatten(ads);
  }

  lemma {:induction false} ExtRoundTrip(c: Config)
    requires ExtAds(c).Some?
    ensures Parse(Flatten(ExtAds(c).value)) == ExtAds(c)
  {
    FitsAreSized(ExtAds(c).value);
    ParseFlatten(ExtAds(c).value);
  }

  /** A shortened name is a proper prefix of the name, and fills the payload to its last byte. */
  lemma {:induction false} ShortenedFills(c: Config)
    requires LegacyAds(c).Some?
    ensures var ads := LegacyAds(c).value;
            var last := ads[|ads| - 1];
            && (last.ty == 0x09 || last.ty == 0x08)
            && (last.ty == 0x09 ==> last.data == c.name)
            && (last.ty == 0x08 ==> last.data < c.name && |Flatten(ads)| == 31)
  {
    var ads := LegacyAds(c).value;
    FlattenAppend(Before(c), ads[|ads| - 1]);
  }

  /** The bytes of both payloads: the structures before the name, then what each builder makes of the name. */
  lemma {:induction false} NameBytes(c: Config)
    requires LegacyAds(c).Some?
    ensures var front, ad := Flatten(Before(c)), Bytes(Ad(0x09, c.name));
            && (|front| + 2 + |c.name| <= LEGACY_MAX ==> Flatten(LegacyAds(c).value) == front + ad)
            && front <= Flatten(LegacyAds(c).value)
            && Flatten(Before(c) + NamePart(c)) == (if c.name == [] then front else front + ad)
            && (c.name == [] ==> ad == [0x01, 0x09])
  {
    var ads := LegacyAds(c).value;
    FlattenAppend(Before(c), ads[|ads| - 1]);
    FlattenAppend(Before(c), Ad(0x09, c.name));
    assert c.name == [] ==> Before(c) + NamePart(c) == Before(c);
  }

  /** Without a name nothing is cut: a legacy payload leaves room for the two bytes of an empty name. */
  lemma {:induction false} ShortBefore(c: Config)
    requires LegacyAds(c).Some? && c.name == []
    ensures |Flatten(Before(c))| + 2 <= LEGACY_MAX
  {
  }

  /**
   Legacy against extended. With a name: a legacy payload whose name was not cut is byte for byte
   the extended one, and after a cut any extended payload is the legacy structures before the name
   followed by the whole name. Without a name: the legacy payload is the extended one plus the two
   bytes of an empty name structure.
   */
  lemma {:induction false} LegacyAgreesWithExt(c: Config)
    requires LegacyPayload(c).Some?
    ensures c.raw != [] ==> ExtPayload(c) == LegacyPayload(c)
    ensures c.raw == [] && c.name != [] && |Flatten(Before(c))| + 2 + |c.name| <= LEGACY_MAX
            ==> ExtPayload(c) == LegacyPayload(c)
    ensures c.raw == [] && |Flatten(Before(c))| + 2 + |c.name| > LEGACY_MAX && ExtPayload(c).Some?
            ==> && Flatten(Before(c)) <= LegacyPayload(c).value
                && ExtPayload(c).value == Flatten(Before(c)) + Bytes(Ad(0x09, c.name))
    ensures c.raw == [] && c.name == []
            ==> ExtPayload(c).Some? && LegacyPayload(c).value == ExtPayload(c).value + [0x01, 0x09]
  {
    if c.raw == [] {
      NameBytes(c);
      if c.name == [] {
        ShortBefore(c);
      }
    }
  }
}
