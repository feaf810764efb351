/*
 * Constants, value types and pure helpers of the CARP driver header (carp.h):
 * the state names, the timeout arithmetic, the class-D address test, the
 * timeval ordering and the fixed 36-byte advertisement header layout.
 */
module CarpHeader {

  datatype Option<T> = None | Some(value: T)

  type u4 = x: int | 0 <= x < 0x10
  type u8 = x: int | 0 <= x < 0x100
  type u16 = x: int | 0 <= x < 0x1_0000
  type u32 = x: int | 0 <= x < 0x1_0000_0000

  const CARP_SIG_LEN: nat := 20
  const CARP_VERSION: u4 := 2
  const CARP_ADVERTISEMENT: u4 := 1
  const CARP_DFLTINTV: u8 := 1
  const USEC_PER_SEC: nat := 1_000_000

  /** Number of bytes of struct carp_header: 8 one-byte or two-byte fields, two
      32-bit counter words and the digest. */
  const HEADER_LEN: nat := 16 + CARP_SIG_LEN

  /** The three protocol states of an instance (enum carp_state). */
  datatype State = Init | Backup | Master

  /** carp_state_fmt: the printable name of a state. */
  function StateName(s: State): (name: string)
    ensures |name| >= 4
    ensures name in {"INIT", "BACKUP", "MASTER"}
  {
    match s
    case Master => "MASTER"
    case Init => "INIT"
    case Backup => "BACKUP"
  }

  /** Distinct states have distinct names, so the name identifies the state. */
  lemma StateNameInjective(a: State, b: State)
    ensures StateName(a) == StateName(b) ==> a == b
  {
  }

  /*------------------------------- timevals --------------------------------*/

  datatype Timeval = Timeval(sec: int, usec: int)

  /** A timeval whose microsecond part is a proper fraction of a second. */
  predicate Normalized(tv: Timeval) {
    tv.sec >= 0 && 0 <= tv.usec < USEC_PER_SEC
  }

  /** The length of a timeval in microseconds. */
  function Micros(tv: Timeval): int {
    tv.sec * USEC_PER_SEC + tv.usec
  }

  /** timeval_before: seconds first, microseconds break ties. On normalized
      timevals this is the order of durations. */
  predicate TimevalBefore(before: Timeval, after: Timeval): (b: bool)
    ensures Normalized(before) && Normalized(after) ==> (b <==> Micros(before) < Micros(after))
  {
    if before.sec == after.sec then before.usec < after.usec else before.sec < after.sec
  }

  lemma TimevalBeforeIrreflexive(a: Timeval)
    ensures !TimevalBefore(a, a)
  {
  }

  lemma TimevalBeforeTransitive(a: Timeval, b: Timeval, c: Timeval)
    requires TimevalBefore(a, b) && TimevalBefore(b, c)
    ensures TimevalBefore(a, c)
  {
  }

  /** The order is total: of two different timevals one comes before the other. */
  lemma TimevalBeforeTotal(a: Timeval, b: Timeval)
    ensures a == b || TimevalBefore(a, b) || TimevalBefore(b, a)
  {
  }

  /*--------------------------- timeout arithmetic --------------------------*/

  /** carp_calculate_timeout before the conversion to jiffies: mod * advbase
      seconds plus a skew of advskew/256 s, or mod/256 s when both are zero. */
  function CalculateTimeout(mod: u8, advbase: u8, advskew: u8): (tv: Timeval)
    ensures Normalized(tv)
    ensures mod > 0 ==> Micros(tv) > 0
  {
    var usec := if advbase == 0 && advskew == 0
                then mod * 1000000 / 256
                else advskew * 1000000 / 256;
    Timeval(mod * advbase, usec)
  }

  /** The duration carp_calculate_timeout yields, in microseconds. */
  function TimeoutMicros(mod: u8, advbase: u8, advskew: u8): nat {
    Micros(CalculateTimeout(mod, advbase, advskew))
  }

  /** The master-down timeout (mod 3) is never shorter than the advertisement
      timeout (mod 1), and it is strictly longer exactly when advbase is
      positive or both parameters are zero. */
  lemma MasterDownNotShorter(advbase: u8, advskew: u8)
    ensures TimeoutMicros(3, advbase, advskew) >= TimeoutMicros(1, advbase, advskew)
    ensures TimeoutMicros(3, advbase, advskew) > TimeoutMicros(1, advbase, advskew)
            <==> advbase > 0 || advskew == 0
  {
  }

  /** With advskew fixed, a larger advbase never gives a shorter timeout. */
  lemma TimeoutMonotoneInAdvbase(mod: u8, b1: u8, b2: u8, advskew: u8)
    requires mod == 1 || mod == 3
    requires b1 <= b2
    ensures TimeoutMicros(mod, b1, advskew) <= TimeoutMicros(mod, b2, advskew)
  {
  }

  /** With advbase positive, a larger advskew never gives a shorter timeout. */
  lemma TimeoutMonotoneInAdvskew(mod: u8, advbase: u8, s1: u8, s2: u8)
    requires advbase > 0
    requires s1 <= s2
    ensures TimeoutMicros(mod, advbase, s1) <= TimeoutMicros(mod, advbase, s2)
  {
    DivMonotone256(s1 * 1000000, s2 * 1000000);
  }

  lemma DivMonotone256(a: nat, b: nat)
    requires a <= b
    ensures a / 256 <= b / 256
  {
  }

  /** With advbase zero the timeout is not monotone in advskew: advskew 0
      stands for mod/256 s, so it is longer than advskew 1 for the master-down
      timeout and equal to it for the advertisement timeout. */
  lemma TimeoutNotMonotoneAtZeroBase()
    ensures TimeoutMicros(3, 0, 0) == 11718 && TimeoutMicros(3, 0, 1) == 3906
    ensures TimeoutMicros(1, 0, 0) == TimeoutMicros(1, 0, 1) == 3906
  {
  }

  /*------------------------------- addresses -------------------------------*/

  /** addr2val in host byte order: the dotted quad a1.a2.a3.a4 as a 32-bit word. */
  function Addr2Val(a1: bv8, a2: bv8, a3: bv8, a4: bv8): (addr: bv32)
    ensures addr >> 24 == a1 as bv32
    ensures (addr >> 16) & 0xff == a2 as bv32
    ensures (addr >> 8) & 0xff == a3 as bv32
    ensures addr & 0xff == a4 as bv32
  {
    (a1 as bv32 << 24) | (a2 as bv32 << 16) | (a3 as bv32 << 8) | (a4 as bv32 << 0)
  }

  /** MULTICAST(x), in host byte order: the address lies in 224.0.0.0/4. */
  predicate Multicast(addr: bv32): (m: bool)
    ensures m <==> 224 <= (addr >> 24) as int <= 239
  {
    addr & 0xf000_0000 == 0xe000_0000
  }

  /** MULTICAST_ADDR, the CARP group 224.0.0.18. */
  const MULTICAST_ADDR: bv32 := Addr2Val(224, 0, 0, 18)

  /** MULTICAST holds exactly for class-D addresses: the top four bits are 1110,
      that is, the first octet is 224 to 239. */
  lemma MulticastIsClassD(a1: bv8, a2: bv8, a3: bv8, a4: bv8)
    ensures Multicast(Addr2Val(a1, a2, a3, a4)) <==> a1 >> 4 == 0xe
    ensures Multicast(Addr2Val(a1, a2, a3, a4)) <==> 224 <= a1 as int <= 239
  {
  }

  /** The addresses that carp_dev_setup installs pass carp_dev_init's guard: the
      destination is a non-zero multicast address and the source is non-zero. */
  lemma SetupAddressesPassInitGuard()
    ensures MULTICAST_ADDR != 0 && Multicast(MULTICAST_ADDR)
    ensures Addr2Val(10, 0, 0, 3) != 0
  {
  }

  /*---------------------------- header layout ------------------------------*/

  type Digest = s: seq<u8> | |s| == CARP_SIG_LEN witness seq(20, i => 0)

  /** struct carp_header, field by field. */
  datatype Header = Header(
    version: u4,
    kind: u4,
    vhid: u8,
    advskew: u8,
    authlen: u8,
    demote: u8,
    advbase: u8,
    cksum: u16,
    counter0: u32,
    counter1: u32,
    md: Digest)

  /** A 16-bit word as two bytes, most significant first. */
  function U16Bytes(x: u16): (b: seq<u8>)
    ensures |b| == 2
  {
    [x / 0x100, x % 0x100]
  }

  function U16Of(hi: u8, lo: u8): u16 {
    hi * 0x100 + lo
  }

  /** A 32-bit word as four bytes, most significant first. */
  function U32Bytes(x: u32): (b: seq<u8>)
    ensures |b| == 4
  {
    U16Bytes(x / 0x1_0000) + U16Bytes(x % 0x1_0000)
  }

  function U32Of(b0: u8, b1: u8, b2: u8, b3: u8): u32 {
    U16Of(b0, b1) * 0x1_0000 + U16Of(b2, b3)
  }

  lemma U16RoundTrip(x: u16)
    ensures U16Of(U16Bytes(x)[0], U16Bytes(x)[1]) == x
  {
  }

  lemma U16BytesOf(hi: u8, lo: u8)
    ensures U16Bytes(U16Of(hi, lo)) == [hi, lo]
  {
  }

  lemma U32RoundTrip(x: u32)
    ensures var b := U32Bytes(x); U32Of(b[0], b[1], b[2], b[3]) == x
  {
    var hi, lo := x / 0x1_0000, x % 0x1_0000;
    U16RoundTrip(hi);
    U16RoundTrip(lo);
    var b := U32Bytes(x);
    assert b[..2] == U16Bytes(hi) && b[2..] == U16Bytes(lo);
    assert U16Of(b[0], b[1]) == hi && U16Of(b[2], b[3]) == lo;
  }

  lemma U32BytesOf(b0: u8, b1: u8, b2: u8, b3: u8)
    ensures U32Bytes(U32Of(b0, b1, b2, b3)) == [b0, b1, b2, b3]
  {
    var hi, lo := U16Of(b0, b1), U16Of(b2, b3);
    var x := U32Of(b0, b1, b2, b3);
    assert x / 0x1_0000 == hi && x % 0x1_0000 == lo;
    U16BytesOf(b0, b1);
    U16BytesOf(b2, b3);
  }

  /** The header on the wire: version in the high nibble of the first byte and
      type in the low one, then vhid, advskew, authlen, demote, advbase, the
      checksum, the two counter words and the digest. */
  function Encode(h: Header): (bytes: seq<u8>)
    ensures |bytes| == HEADER_LEN
    ensures bytes[16..] == h.md
  {
    [h.version * 0x10 + h.kind, h.vhid, h.advskew, h.authlen, h.demote, h.advbase]
    + U16Bytes(h.cksum) + U32Bytes(h.counter0) + U32Bytes(h.counter1) + h.md
  }

  /** Reads a header from the first HEADER_LEN bytes of a buffer; a shorter
      buffer holds no header. */
  function Decode(bytes: seq<u8>): (h: Option<Header>)
    ensures h.Some? <==> |bytes| >= HEADER_LEN
  {
    if |bytes| < HEADER_LEN then None
    else
      Some(Header(
        bytes[0] / 0x10, bytes[0] % 0x10,
        bytes[1], bytes[2], bytes[3], bytes[4], bytes[5],
        U16Of(bytes[6], bytes[7]),
        U32Of(bytes[8], bytes[9], bytes[10], bytes[11]),
        U32Of(bytes[12], bytes[13], bytes[14], bytes[15]),
        bytes[16..HEADER_LEN]))
  }

  /** Every header survives encoding and decoding. */
  lemma DecodeEncode(h: Header)
    ensures Decode(Encode(h)) == Some(h)
  {
    var b := Encode(h);
    var c, w0, w1 := U16Bytes(h.cksum), U32Bytes(h.counter0), U32Bytes(h.counter1);
    U16RoundTrip(h.cksum);
    U32RoundTrip(h.counter0);
    U32RoundTrip(h.counter1);
    assert b[0] == h.version * 0x10 + h.kind;
    assert b[0] / 0x10 == h.version && b[0] % 0x10 == h.kind;
    assert b[6] == c[0] && b[7] == c[1];
    assert b[8] == w0[0] && b[9] == w0[1] && b[10] == w0[2] && b[11] == w0[3];
    assert b[12] == w1[0] && b[13] == w1[1] && b[14] == w1[2] && b[15] == w1[3];
    assert b[16..HEADER_LEN] == h.md;
  }

  /** The first byte of an advertisement of this protocol version is 0x21,
      and no other version and type give that byte. */
  lemma AdvertisementFirstByte(h: Header)
    ensures Encode(h)[0] == 0x21 <==> h.version == CARP_VERSION && h.kind == CARP_ADVERTISEMENT
  {
    var b := Encode(h)[0];
    assert b / 0x10 == h.version && b % 0x10 == h.kind;
  }

  /** Every buffer long enough for a header re-encodes to its first HEADER_LEN bytes. */
  lemma EncodeDecode(bytes: seq<u8>)
    requires |bytes| >= HEADER_LEN
    ensures Encode(Decode(bytes).value) == bytes[..HEADER_LEN]
  {
    var h := Decode(bytes).value;
    U16BytesOf(bytes[6], bytes[7]);
    U32BytesOf(bytes[8], bytes[9], bytes[10], bytes[11]);
    U32BytesOf(bytes[12], bytes[13], bytes[14], bytes[15]);
    assert Encode(h) == bytes[..HEADER_LEN];
  }
}
