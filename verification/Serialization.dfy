/** The wire formats: discovery messages and datagram headers. The encoders are methods
    that copy bytes at a moving offset into a caller's buffer; they are proved against the
    byte-sequence functions Encode..., and the decoders against Decode....  A failed
    `Expects` in the program terminates it and is modelled as None. */
module Serialization {
  import opened Types
  import Seqs

  // ---------- little-endian integers ----------

  function Pow256(k: nat): (p: nat)
    ensures p > 0
  {
    if k == 0 then 1 else 256 * Pow256(k - 1)
  }

  function LE(x: nat, k: nat): (bs: seq<byte>)
    ensures |bs| == k
  {
    if k == 0 then [] else [(x % 256) as byte] + LE(x / 256, k - 1)
  }

  function FromLE(bs: seq<byte>): (x: nat)
  {
    if bs == [] then 0 else bs[0] as nat + 256 * FromLE(bs[1..])
  }

  lemma {:induction false} LERoundTrip(x: nat, k: nat)
    requires x < Pow256(k)
    ensures FromLE(LE(x, k)) == x
  {
    if k != 0 {
      LERoundTrip(x / 256, k - 1);
      assert LE(x, k)[1..] == LE(x / 256, k - 1);
    }
  }

  lemma {:induction false} LECanonical(bs: seq<byte>)
    ensures FromLE(bs) < Pow256(|bs|)
    ensures LE(FromLE(bs), |bs|) == bs
  {
    if bs != [] {
      LECanonical(bs[1..]);
      assert FromLE(bs) / 256 == FromLE(bs[1..]) && FromLE(bs) % 256 == bs[0] as nat;
      assert bs == [bs[0]] + bs[1..];
    }
  }

  lemma Pow256Values()
    ensures Pow256(4) == TWO32
    ensures Pow256(1) == 256
    ensures Pow256(8) == TWO32 * TWO32
  {
    assert Pow256(2) == 256 * Pow256(1);
    assert Pow256(3) == 256 * Pow256(2);
    assert Pow256(5) == 256 * Pow256(4);
    assert Pow256(6) == 256 * Pow256(5);
    assert Pow256(7) == 256 * Pow256(6);
  }

  // ---------- bitsets ----------

  function BitsToNat(s: Bitset, k: nat): (x: nat)
    requires k <= 64
    decreases 64 - k
  {
    if k == 64 then 0 else (if k in s then 1 else 0) + 2 * BitsToNat(s, k + 1)
  }

  function NatToBits(x: nat, k: nat): (s: Bitset)
    requires k <= 64
    decreases 64 - k
  {
    if k == 64 then {} else (if x % 2 == 1 then {k} else {}) + NatToBits(x / 2, k + 1)
  }

  function Pow2(n: nat): (p: nat)
    ensures p > 0
  {
    if n == 0 then 1 else 2 * Pow2(n - 1)
  }

  lemma {:induction false} Pow2Is256(k: nat)
    ensures Pow2(8 * k) == Pow256(k)
  {
    if k != 0 {
      Pow2Is256(k - 1);
      var n := 8 * (k - 1);
      assert Pow2(n + 2) == 2 * Pow2(n + 1) == 4 * Pow2(n);
      assert Pow2(n + 4) == 2 * Pow2(n + 3) == 4 * Pow2(n + 2);
      assert Pow2(n + 6) == 2 * Pow2(n + 5) == 4 * Pow2(n + 4);
      assert Pow2(n + 8) == 2 * Pow2(n + 7) == 4 * Pow2(n + 6);
    }
  }

  lemma {:induction false} BitsRoundTrip(s: Bitset, k: nat)
    requires k <= 64
    ensures BitsToNat(s, k) < Pow2(64 - k)
    ensures NatToBits(BitsToNat(s, k), k) == set i | i in s && k <= i
    decreases 64 - k
  {
    if k != 64 {
      BitsRoundTrip(s, k + 1);
      assert BitsToNat(s, k) / 2 == BitsToNat(s, k + 1);
    }
  }

  lemma {:induction false} BitsCanonical(x: nat, k: nat)
    requires k <= 64 && x < Pow2(64 - k)
    ensures BitsToNat(NatToBits(x, k), k) == x
    ensures forall i :: i in NatToBits(x, k) ==> k <= i
    decreases 64 - k
  {
    if k != 64 {
      BitsCanonical(x / 2, k + 1);
      var s := NatToBits(x, k);
      BitsAbove(s, NatToBits(x / 2, k + 1), k + 1);
    }
  }

  lemma {:induction false} BitsAbove(s: Bitset, t: Bitset, k: nat)
    requires k <= 64
    requires forall i :: k <= i ==> (i in s <==> i in t)
    ensures BitsToNat(s, k) == BitsToNat(t, k)
    decreases 64 - k
  {
    if k != 64 {
      BitsAbove(s, t, k + 1);
    }
  }

  // ---------- the formats as byte sequences ----------

  /** A string an iceoryx identifier can hold and whose C string is the whole of it. */
  predicate ValidString(s: IdString) {
    |s| <= ID_STRING_CAPACITY && 0 !in s
  }

  predicate ValidService(s: Service) {
    ValidString(s.service) && ValidString(s.inst) && ValidString(s.event)
  }

  predicate AllValid(ss: seq<Service>) {
    forall i :: 0 <= i < |ss| ==> ValidService(ss[i])
  }

  predicate ValidInfo(info: PubSubInfo) {
    |info.userSubscribers| <= MAX_TOPICS
    && AllValid(info.userSubscribers)
  }

  /** Services as the program holds them: three identifiers within their capacity. */
  predicate Held(ss: seq<Service>) {
    forall i :: 0 <= i < |ss| ==>
      |ss[i].service| <= ID_STRING_CAPACITY && |ss[i].inst| <= ID_STRING_CAPACITY && |ss[i].event| <= ID_STRING_CAPACITY
  }

  function EncodeString(s: IdString): seq<byte> {
    s + [0]
  }

  function EncodeService(s: Service): seq<byte> {
    EncodeString(s.service) + EncodeString(s.inst) + EncodeString(s.event)
  }

  function EncodeServices(ss: seq<Service>): seq<byte> {
    if ss == [] then [] else EncodeService(ss[0]) + EncodeServices(ss[1..])
  }

  function EncodeTail(info: PubSubInfo): (bs: seq<byte>)
    ensures |bs| == 17
  {
    LE(BitsToNat(info.gatewayBitset, 0), 8) + LE(info.gatewayHash, 4) + LE(info.infoHash, 4)
    + [if info.isTermination then 1 else 0]
  }

  function EncodeInfo(info: PubSubInfo): seq<byte>
  {
    LE(|info.userSubscribers|, 8) + EncodeServices(info.userSubscribers) + EncodeTail(info)
  }

  function MaxPubSubInfoSerializationSize(): nat {
    8 + MAX_TOPICS * (3 * (ID_STRING_CAPACITY + 1)) + 8 + 4 + 4 + 1
  }

  function Words(h: DatagramHeader): (ws: seq<uint32>)
    ensures |ws| == 11
  {
    h.serviceHash + [h.messageHash, h.submessageCount, h.submessageOffset, h.submessageSize,
                     h.userPayloadSize, h.userPayloadAlignment, h.userHeaderSize]
  }

  function EncodeWords(ws: seq<uint32>): (bs: seq<byte>)
    ensures |bs| == 4 * |ws|
  {
    if ws == [] then [] else EncodeWords(ws[..|ws| - 1]) + LE(ws[|ws| - 1], 4)
  }

  function EncodeHeader(h: DatagramHeader): (bs: seq<byte>)
  {
    EncodeWords(Words(h))
  }

  function MaxDatagramHeaderSerializationSize(): nat {
    CLASS_HASH_ELEMENT_COUNT * 4 + 4 + 6 * 4
  }

  // ---------- decoding functions ----------

  /** The length of the C string at the start of `bs`, looking at no more than `limit` bytes. */
  function StringLength(bs: seq<byte>, limit: nat): (r: Option<nat>)
    ensures r.Some? ==> r.value < |bs| && r.value < limit && bs[r.value] == 0 && 0 !in bs[..r.value]
    decreases limit
  {
    if limit == 0 || bs == [] then None
    else if bs[0] == 0 then Some(0)
    else
      match StringLength(bs[1..], limit - 1)
      case None => None
      case Some(n) =>
        assert bs[..n + 1] == [bs[0]] + bs[1..][..n];
        Some(n + 1)
  }

  /** Each decoder reads from the start of `bs` and returns the value and the bytes left. */
  function DecodeString(bs: seq<byte>): (r: Option<(IdString, seq<byte>)>)
    ensures r.Some? ==> |r.value.1| <= |bs|
  {
    match StringLength(bs, ID_STRING_CAPACITY + 1)
    case None => None
    case Some(n) => Some((bs[..n], bs[n + 1..]))
  }

  function DecodeService(bs: seq<byte>): (r: Option<(Service, seq<byte>)>)
    ensures r.Some? ==> |r.value.1| <= |bs|
  {
    match DecodeString(bs)
    case None => None
    case Some((a, rest)) =>
      match DecodeString(rest)
      case None => None
      case Some((b, rest)) =>
        match DecodeString(rest)
        case None => None
        case Some((c, rest)) => Some((Service(a, b, c), rest))
  }

  function DecodeServices(bs: seq<byte>, n: nat): (r: Option<(seq<Service>, seq<byte>)>)
    ensures r.Some? ==> |r.value.1| <= |bs| && |r.value.0| == n
  {
    if n == 0 then Some(([], bs))
    else
      match DecodeService(bs)
      case None => None
      case Some((s, rest)) =>
        match DecodeServices(rest, n - 1)
        case None => None
        case Some((ss, rest)) => Some(([s] + ss, rest))
  }

  function DecodeTail(bs: seq<byte>): (r: (Bitset, Hash, Hash, bool))
    requires |bs| == 17
  {
    LECanonical(bs[8..12]);
    LECanonical(bs[12..16]);
    Pow256Values();
    (NatToBits(FromLE(bs[..8]), 0), FromLE(bs[8..12]), FromLE(bs[12..16]), bs[16] != 0)
  }

  /** The decoded message and the number of bytes it took. */
  function DecodeInfo(bs: seq<byte>): (r: Option<(PubSubInfo, nat)>)
    ensures r.Some? ==> 17 <= r.value.1 <= |bs|
  {
    if |bs| < 8 then None
    else
      var n := FromLE(bs[..8]);
      if n > MAX_TOPICS then None
      else
        match DecodeServices(bs[8..], n)
        case None => None
        case Some((ss, rest)) =>
          if |rest| < 17 then None
          else
            var (bits, gateway, hash, termination) := DecodeTail(rest[..17]);
            Some((PubSubInfo(ss, bits, gateway, hash, termination), |bs| - |rest| + 17))
  }

  function DecodeWords(bs: seq<byte>, n: nat): (ws: seq<uint32>)
    requires |bs| >= 4 * n
    ensures |ws| == n
  {
    if n == 0 then []
    else
      LECanonical(bs[4 * n - 4..4 * n]);
      Pow256Values();
      DecodeWords(bs, n - 1) + [FromLE(bs[4 * n - 4..4 * n])]
  }

  function FromWords(ws: seq<uint32>): (h: DatagramHeader)
    requires |ws| == 11
  {
    DatagramHeader(ws[..4], ws[4], ws[5], ws[6], ws[7], ws[8], ws[9], ws[10])
  }

  function DecodeHeader(bs: seq<byte>): (r: Option<DatagramHeader>)
  {
    if |bs| < 44 then None else Some(FromWords(DecodeWords(bs, 11)))
  }

  // ---------- round trips ----------

  lemma {:induction false} WordsRoundTrip(ws: seq<uint32>, suffix: seq<byte>)
    ensures DecodeWords(EncodeWords(ws) + suffix, |ws|) == ws
  {
    hide LE, FromLE, Pow256;
    if ws != [] {
      var n := |ws|;
      var a, b := EncodeWords(ws[..n - 1]), LE(ws[n - 1], 4);
      WordsRoundTrip(ws[..n - 1], b + suffix);
      Seqs.Assoc(a, b, suffix);
      Middle(a, b, suffix);
      Pow256Values();
      LERoundTrip(ws[n - 1], 4);
      Seqs.Split(ws, n - 1);
    }
  }

  lemma Middle(a: seq<byte>, b: seq<byte>, c: seq<byte>)
    ensures (a + b + c)[|a|..|a| + |b|] == b
  {}

  /** The header round trip: any header, any bytes after it, at exactly the fixed size. */
  lemma HeaderRoundTrip(h: DatagramHeader, suffix: seq<byte>)
    ensures |EncodeHeader(h)| == MaxDatagramHeaderSerializationSize() == 44
    ensures DecodeHeader(EncodeHeader(h) + suffix) == Some(h)
  {
    WordsRoundTrip(Words(h), suffix);
    assert Words(h)[..4] == h.serviceHash;
  }

  /** Conversely, every 44 bytes are the encoding of the header they decode to. */
  lemma {:induction false} WordsCanonical(bs: seq<byte>, n: nat)
    requires |bs| >= 4 * n
    ensures EncodeWords(DecodeWords(bs, n)) == bs[..4 * n]
  {
    if n != 0 {
      WordsCanonical(bs, n - 1);
      LECanonical(bs[4 * n - 4..4 * n]);
      Pow256Values();
      var ws := DecodeWords(bs, n);
      assert ws[..n - 1] == DecodeWords(bs, n - 1);
      assert bs[..4 * n] == bs[..4 * n - 4] + bs[4 * n - 4..4 * n];
    }
  }

  lemma HeaderCanonical(bs: seq<byte>)
    requires |bs| >= 44
    ensures DecodeHeader(bs).Some? && EncodeHeader(DecodeHeader(bs).value) == bs[..44]
  {
    WordsCanonical(bs, 11);
    var ws := DecodeWords(bs, 11);
    assert Words(FromWords(ws)) == ws;
  }

  lemma EncodeHeaderInjective(g: DatagramHeader, h: DatagramHeader, x: seq<byte>, y: seq<byte>)
    requires EncodeHeader(g) + x == EncodeHeader(h) + y
    ensures g == h && x == y
  {
    HeaderRoundTrip(g, x);
    HeaderRoundTrip(h, y);
    assert (EncodeHeader(g) + x)[44..] == x && (EncodeHeader(h) + y)[44..] == y;
  }

  // ---------- the layouts ----------

  /** Four bytes at a position, the least significant first. */
  predicate WordAt(bs: seq<byte>, at: nat, x: uint32) {
    && at + 4 <= |bs|
    && x == bs[at] as int + 0x100 * bs[at + 1] as int + 0x1_0000 * bs[at + 2] as int + 0x100_0000 * bs[at + 3] as int
  }

  lemma LE4(x: uint32, before: seq<byte>, after: seq<byte>)
    ensures WordAt(before + LE(x, 4) + after, |before|, x)
  {
    var y, z, u := x / 256, x / 256 / 256, x / 256 / 256 / 256;
    assert LE(x, 4) == [(x % 256) as byte] + LE(y, 3);
    assert LE(y, 3) == [(y % 256) as byte] + LE(z, 2);
    assert LE(z, 2) == [(z % 256) as byte] + LE(u, 1);
    assert LE(u, 1) == [(u % 256) as byte] + LE(u / 256, 0);
    assert LE(x, 4) == [(x % 256) as byte, (y % 256) as byte, (z % 256) as byte, (u % 256) as byte];
  }

  lemma {:induction false} WordsAt(ws: seq<uint32>, k: nat)
    requires k < |ws|
    ensures WordAt(EncodeWords(ws), 4 * k, ws[k])
  {
    var n := |ws| - 1;
    if k == n {
      LE4(ws[n], EncodeWords(ws[..n]), []);
      assert EncodeWords(ws) == EncodeWords(ws[..n]) + LE(ws[n], 4) + [];
    } else {
      WordsAt(ws[..n], k);
    }
  }

  /** The datagram header: eleven words in this order. */
  lemma HeaderLayout(h: DatagramHeader)
    ensures var bs := EncodeHeader(h);
            && |bs| == 44
            && WordAt(bs, 0, h.serviceHash[0]) && WordAt(bs, 4, h.serviceHash[1])
            && WordAt(bs, 8, h.serviceHash[2]) && WordAt(bs, 12, h.serviceHash[3])
            && WordAt(bs, 16, h.messageHash) && WordAt(bs, 20, h.submessageCount) && WordAt(bs, 24, h.submessageOffset)
            && WordAt(bs, 28, h.submessageSize) && WordAt(bs, 32, h.userPayloadSize)
            && WordAt(bs, 36, h.userPayloadAlignment) && WordAt(bs, 40, h.userHeaderSize)
  {
    hide WordAt, EncodeWords;
    forall k: nat | k < 11 ensures WordAt(EncodeWords(Words(h)), 4 * k, Words(h)[k]) {
      WordsAt(Words(h), k);
    }
    var ws := Words(h);
    assert ws[4] == h.messageHash && ws[10] == h.userHeaderSize;
    assert WordAt(EncodeWords(ws), 4 * 0, ws[0]) && WordAt(EncodeWords(ws), 4 * 1, ws[1]) && WordAt(EncodeWords(ws), 4 * 2, ws[2])
        && WordAt(EncodeWords(ws), 4 * 3, ws[3]) && WordAt(EncodeWords(ws), 4 * 4, ws[4]) && WordAt(EncodeWords(ws), 4 * 5, ws[5])
        && WordAt(EncodeWords(ws), 4 * 6, ws[6]) && WordAt(EncodeWords(ws), 4 * 7, ws[7]) && WordAt(EncodeWords(ws), 4 * 8, ws[8])
        && WordAt(EncodeWords(ws), 4 * 9, ws[9]) && WordAt(EncodeWords(ws), 4 * 10, ws[10]);
  }

  /** Bit i of a number. */
  predicate Bit(x: nat, i: nat) {
    if i == 0 then x % 2 == 1 else Bit(x / 2, i - 1)
  }

  lemma {:induction false} BitOf(s: Bitset, k: nat, i: nat)
    requires k <= i < 64
    ensures Bit(BitsToNat(s, k), i - k) <==> i in s
    decreases 64 - k
  {
    if k < i {
      BitOf(s, k + 1, i);
      assert BitsToNat(s, k) / 2 == BitsToNat(s, k + 1);
    }
  }

  /** A C string at a position. */
  predicate StringAt(bs: seq<byte>, at: nat, s: IdString) {
    at + |s| < |bs| && bs[at..at + |s|] == s && bs[at + |s|] == 0
  }

  /** Three of them, one after the other. */
  predicate ServiceAt(bs: seq<byte>, at: nat, s: Service) {
    && StringAt(bs, at, s.service) && StringAt(bs, at + |s.service| + 1, s.inst)
    && StringAt(bs, at + |s.service| + 1 + |s.inst| + 1, s.event)
  }

  lemma StringIsAt(before: seq<byte>, s: IdString, after: seq<byte>)
    ensures StringAt(before + EncodeString(s) + after, |before|, s)
  {}

  lemma ServiceIsAt(before: seq<byte>, s: Service, after: seq<byte>)
    ensures ServiceAt(before + EncodeService(s) + after, |before|, s)
  {
    var a, b, c := EncodeString(s.service), EncodeString(s.inst), EncodeString(s.event);
    StringIsAt(before, s.service, b + c + after);
    StringIsAt(before + a, s.inst, c + after);
    StringIsAt(before + a + b, s.event, after);
    hide StringAt;
    Seqs.Assoc(a, b, c);
    Seqs.Assoc(before, a, b + c);
    Seqs.Assoc(before + a, b + c, after);
    Seqs.Assoc(before + a, b, c);
    Seqs.Assoc(before + a + b, c, after);
  }

  lemma {:induction false} ServicesSplit(ss: seq<Service>, k: nat)
    requires k <= |ss|
    ensures EncodeServices(ss) == EncodeServices(ss[..k]) + EncodeServices(ss[k..])
  {
    if k > 0 {
      ServicesSplit(ss[1..], k - 1);
      assert ss[1..][..k - 1] == ss[..k][1..] && ss[1..][k - 1..] == ss[k..];
    } else {
      assert ss[0..] == ss;
    }
  }

  lemma InfoPieces(count: seq<byte>, a: seq<byte>, s: seq<byte>, b: seq<byte>, tail: seq<byte>)
    ensures count + (a + (s + b)) + tail == (count + a) + s + (b + tail)
  {
    Seqs.Assoc(count, a, s + b);
    Seqs.Assoc(count + a, s + b, tail);
    Seqs.Assoc(s, b, tail);
    Seqs.Assoc(count + a, s, b + tail);
  }

  /** The services of a discovery message follow each other after the first eight bytes. */
  lemma ServiceLayout(info: PubSubInfo, k: nat)
    requires k < |info.userSubscribers|
    ensures ServiceAt(EncodeInfo(info), 8 + |EncodeServices(info.userSubscribers[..k])|, info.userSubscribers[k])
  {
    var ss := info.userSubscribers;
    var a, b := LE(|ss|, 8) + EncodeServices(ss[..k]), EncodeServices(ss[k..][1..]) + EncodeTail(info);
    ServicesSplit(ss, k);
    ServiceIsAt(a, ss[k], b);
    assert EncodeServices(ss[k..]) == EncodeService(ss[k]) + EncodeServices(ss[k..][1..]);
    hide EncodeServices, EncodeService, EncodeTail, LE, ServiceAt;
    InfoPieces(LE(|ss|, 8), EncodeServices(ss[..k]), EncodeService(ss[k]), EncodeServices(ss[k..][1..]), EncodeTail(info));
  }

  lemma CountRead(n: nat)
    requires n <= MAX_TOPICS
    ensures FromLE(LE(n, 8)) == n
  {
    Pow256Values();
    LERoundTrip(n, 8);
  }

  lemma BitsRead(s: Bitset, k: nat, n: nat)
    requires k + 8 * n == 64
    ensures FromLE(LE(BitsToNat(s, k), n)) == BitsToNat(s, k)
    ensures forall i :: k <= i < 64 ==> (i in s <==> Bit(BitsToNat(s, k), i - k))
  {
    Pow2Is256(n);
    BitsRoundTrip(s, k);
    LERoundTrip(BitsToNat(s, k), n);
    hide LE, FromLE, BitsToNat, NatToBits, Bit, Pow256, Pow2;
    forall i | k <= i < 64 ensures i in s <==> Bit(BitsToNat(s, k), i - k) {
      BitOf(s, k, i);
    }
  }

  lemma TailLayout(info: PubSubInfo, before: seq<byte>)
    ensures var bs := before + EncodeTail(info);
            var n := |bs|;
            && bs[n - 17..n - 9] == LE(BitsToNat(info.gatewayBitset, 0), 8)
            && WordAt(bs, n - 9, info.gatewayHash) && WordAt(bs, n - 5, info.infoHash)
            && bs[n - 1] == if info.isTermination then 1 else 0
  {
    var bits, g, h := LE(BitsToNat(info.gatewayBitset, 0), 8), LE(info.gatewayHash, 4), LE(info.infoHash, 4);
    var flag: seq<byte> := if info.isTermination then [1] else [0];
    assert EncodeTail(info) == bits + g + h + flag;
    hide WordAt, LE, BitsToNat, EncodeTail;
    Seqs.FivePieces(before, bits, g, h, flag);
    LE4(info.gatewayHash, before + bits, h + flag);
    LE4(info.infoHash, before + bits + g, flag);
    TailEnds(before, bits, g, h, flag);
  }

  lemma TailEnds(before: seq<byte>, bits: seq<byte>, g: seq<byte>, h: seq<byte>, flag: seq<byte>)
    requires |bits| == 8 && |g| == |h| == 4 && |flag| == 1
    ensures var bs := before + (bits + g + h + flag);
            && |bs| == |before| + 17 && bs[|bs| - 17..|bs| - 9] == bits && bs[|bs| - 1] == flag[0]
  {
    Middle(before, bits, g + h + flag);
    Seqs.FivePieces(before, bits, g, h, flag);
  }

  /** The rest of a discovery message: how many services come first, and last the bitset, the two hashes
      and the flag. */
  lemma InfoLayout(info: PubSubInfo)
    requires ValidInfo(info)
    ensures var bs := EncodeInfo(info);
            var n := |bs|;
            && n >= 25 && FromLE(bs[..8]) == |info.userSubscribers|
            && (forall i :: 0 <= i < 64 ==> (i in info.gatewayBitset <==> Bit(FromLE(bs[n - 17..n - 9]), i)))
            && WordAt(bs, n - 9, info.gatewayHash) && WordAt(bs, n - 5, info.infoHash)
            && bs[n - 1] == if info.isTermination then 1 else 0
  {
    hide WordAt, LE, FromLE, BitsToNat, Bit, EncodeServices;
    CountRead(|info.userSubscribers|);
    BitsRead(info.gatewayBitset, 0, 8);
    var count, middle, tail := LE(|info.userSubscribers|, 8), EncodeServices(info.userSubscribers), EncodeTail(info);
    TailLayout(info, count + middle);
    assert EncodeInfo(info) == count + middle + tail;
    hide EncodeInfo, EncodeTail, ValidInfo;
    Seqs.Assoc(count, middle, tail);
    Seqs.TakeDrop(count, middle + tail);
  }

  lemma {:induction false} StringLengthExact(s: IdString, suffix: seq<byte>, limit: nat)
    ensures StringLength(EncodeString(s) + suffix, limit) == Some(|s|) <==> |s| < limit && 0 !in s
    decreases limit
  {
    var bs := EncodeString(s) + suffix;
    if limit != 0 && s != [] {
      StringLengthExact(s[1..], suffix, limit - 1);
      assert bs[1..] == EncodeString(s[1..]) + suffix;
      assert s == [s[0]] + s[1..];
    }
  }

  /** A string survives the wire exactly when its C string is the whole of it: no zero byte
      inside, and within the capacity of the receiving string. */
  lemma StringRoundTrip(s: IdString, suffix: seq<byte>)
    ensures DecodeString(EncodeString(s) + suffix) == Some((s, suffix)) <==> ValidString(s)
  {
    StringLengthExact(s, suffix, ID_STRING_CAPACITY + 1);
    var bs := EncodeString(s) + suffix;
    Seqs.TakeDrop(EncodeString(s), suffix);
    assert bs[..|s|] == s;
    if !ValidString(s) {
      var r := DecodeString(bs);
      assert r.Some? ==> |r.value.0| != |s|;
    }
  }

  lemma ServiceRoundTrip(s: Service, suffix: seq<byte>)
    requires ValidService(s)
    ensures DecodeService(EncodeService(s) + suffix) == Some((s, suffix))
  {
    var a, b, c := EncodeString(s.service), EncodeString(s.inst), EncodeString(s.event);
    Seqs.Assoc(a + b, c, suffix);
    Seqs.Assoc(a, b, c + suffix);
    StringRoundTrip(s.service, b + (c + suffix));
    StringRoundTrip(s.inst, c + suffix);
    StringRoundTrip(s.event, suffix);
  }

  lemma {:induction false} ServicesSize(ss: seq<Service>)
    requires AllValid(ss)
    ensures |EncodeServices(ss)| <= |ss| * (3 * (ID_STRING_CAPACITY + 1))
  {
    if ss != [] {
      ServicesSize(ss[1..]);
      assert ValidService(ss[0]);
    }
  }

  lemma {:induction false} ServicesRoundTrip(ss: seq<Service>, suffix: seq<byte>)
    requires AllValid(ss)
    ensures DecodeServices(EncodeServices(ss) + suffix, |ss|) == Some((ss, suffix))
  {
    if ss == [] {
      assert EncodeServices(ss) + suffix == suffix;
    } else {
      hide DecodeService, EncodeService, ValidService;
      var rest := EncodeServices(ss[1..]) + suffix;
      Seqs.Assoc(EncodeService(ss[0]), EncodeServices(ss[1..]), suffix);
      assert EncodeServices(ss) + suffix == EncodeService(ss[0]) + rest;
      ServiceRoundTrip(ss[0], rest);
      ServicesRoundTrip(ss[1..], suffix);
      assert ss == [ss[0]] + ss[1..];
    }
  }

  lemma TailRoundTrip(info: PubSubInfo)
    ensures DecodeTail(EncodeTail(info))
            == (info.gatewayBitset, info.gatewayHash, info.infoHash, info.isTermination)
  {
    hide LE, FromLE, BitsToNat, NatToBits, Pow256, Bit;
    var x := BitsToNat(info.gatewayBitset, 0);
    var t := EncodeTail(info);
    assert t[..8] == LE(x, 8);
    assert t[8..12] == LE(info.gatewayHash, 4);
    assert t[12..16] == LE(info.infoHash, 4);
    BitsRoundTrip(info.gatewayBitset, 0);
    BitsRead(info.gatewayBitset, 0, 8);
    Pow256Values();
    LERoundTrip(info.gatewayHash, 4);
    LERoundTrip(info.infoHash, 4);
    assert (set i | i in info.gatewayBitset && 0 <= i) == info.gatewayBitset;
  }

  /** The discovery message round trip and its size bound, for any trailing bytes. */
  lemma InfoRoundTrip(info: PubSubInfo, suffix: seq<byte>)
    requires ValidInfo(info)
    ensures |EncodeInfo(info)| <= MaxPubSubInfoSerializationSize()
    ensures DecodeInfo(EncodeInfo(info) + suffix) == Some((info, |EncodeInfo(info)|))
  {
    hide LE, FromLE, EncodeTail, DecodeTail, Pow256, EncodeServices, DecodeServices, EncodeService;
    hide ValidService;
    var ss := info.userSubscribers;
    var count, body, tail := LE(|ss|, 8), EncodeServices(ss), EncodeTail(info);
    Seqs.Assoc(count + body, tail, suffix);
    Seqs.Assoc(count, body, tail + suffix);
    Seqs.TakeDrop(count, body + (tail + suffix));
    Seqs.TakeDrop(tail, suffix);
    Pow256Values();
    LERoundTrip(|ss|, 8);
    ServicesSize(ss);
    ServicesRoundTrip(ss, tail + suffix);
    TailRoundTrip(info);
  }

  lemma StringCanonical(bs: seq<byte>)
    requires DecodeString(bs).Some?
    ensures var (s, rest) := DecodeString(bs).value; ValidString(s) && bs == EncodeString(s) + rest
  {}

  lemma ServiceCanonical(bs: seq<byte>)
    requires DecodeService(bs).Some?
    ensures var (s, rest) := DecodeService(bs).value; ValidService(s) && bs == EncodeService(s) + rest
  {
    var (a, rest1) := DecodeString(bs).value;
    var (b, rest2) := DecodeString(rest1).value;
    var (c, rest3) := DecodeString(rest2).value;
    StringCanonical(bs);
    StringCanonical(rest1);
    StringCanonical(rest2);
    Seqs.Assoc(EncodeString(a), EncodeString(b), EncodeString(c) + rest3);
    Seqs.Assoc(EncodeString(a) + EncodeString(b), EncodeString(c), rest3);
  }

  lemma {:induction false} ServicesCanonical(bs: seq<byte>, n: nat, ss: seq<Service>, rest: seq<byte>)
    requires DecodeServices(bs, n) == Some((ss, rest))
    ensures AllValid(ss)
    ensures bs == EncodeServices(ss) + rest
    decreases n
  {
    hide DecodeService, EncodeService, ValidService;
    if n == 0 {
      assert bs == [] + rest;
    } else {
      var (s, rest1) := DecodeService(bs).value;
      ServiceCanonical(bs);
      var (tail, _) := DecodeServices(rest1, n - 1).value;
      Seqs.TakeDrop([s], tail);
      ServicesCanonical(rest1, n - 1, tail, rest);
      Seqs.Assoc(EncodeService(s), EncodeServices(tail), rest);
      ConsValid(s, tail);
    }
  }

  lemma ConsValid(s: Service, ss: seq<Service>)
    requires ValidService(s) && AllValid(ss)
    ensures AllValid([s] + ss)
  {}

  lemma TailCanonical(bs: seq<byte>, info: PubSubInfo)
    requires |bs| == 17
    requires DecodeTail(bs) == (info.gatewayBitset, info.gatewayHash, info.infoHash, info.isTermination)
    ensures EncodeTail(info) == bs[..16] + [if bs[16] != 0 then 1 else 0]
  {
    hide LE, FromLE, BitsToNat, NatToBits, Pow2, Pow256;
    LECanonical(bs[..8]);
    LECanonical(bs[8..12]);
    LECanonical(bs[12..16]);
    Pow2Is256(8);
    BitsCanonical(FromLE(bs[..8]), 0);
    assert bs[..16] == bs[..8] + bs[8..12] + bs[12..16];
  }

  /** Conversely: whatever decodes is the encoding of the valid message it decodes to, except
      that every non-zero last byte is read as the termination flag `true`. */
  lemma InfoCanonical(bs: seq<byte>)
    requires DecodeInfo(bs).Some?
    ensures var (info, n) := DecodeInfo(bs).value;
            ValidInfo(info)
            && EncodeInfo(info) == bs[..n - 1] + [if bs[n - 1] != 0 then 1 else 0]
  {
    hide LE, FromLE, EncodeTail, DecodeTail, Pow256, DecodeServices, EncodeServices, AllValid;
    var (info, n) := DecodeInfo(bs).value;
    var ss := info.userSubscribers;
    var (_, rest) := DecodeServices(bs[8..], FromLE(bs[..8])).value;
    LECanonical(bs[..8]);
    ServicesCanonical(bs[8..], FromLE(bs[..8]), ss, rest);
    TailCanonical(rest[..17], info);
    var front := LE(|ss|, 8) + EncodeServices(ss);
    Seqs.Split(bs, 8);
    Seqs.Assoc(LE(|ss|, 8), EncodeServices(ss), rest);
    assert bs == front + rest;
    assert bs[..n - 1] == front + rest[..16];
    Seqs.Assoc(front, rest[..16], [if bs[n - 1] != 0 then 1 else 0]);
  }

  // ---------- the encoders: copying at a moving offset ----------

  method PushBytes(ptr: array<byte>, offset: nat, bs: seq<byte>) returns (next: nat)
    requires offset + |bs| <= ptr.Length
    modifies ptr
    ensures next == offset + |bs|
    ensures ptr[..next] == old(ptr[..offset]) + bs
    ensures forall i :: next <= i < ptr.Length ==> ptr[i] == old(ptr[i])
  {
    forall i | 0 <= i < |bs| {
      ptr[offset + i] := bs[i];
    }
    next := offset + |bs|;
  }

  method PushPrimitive(ptr: array<byte>, offset: nat, x: nat, size: nat) returns (next: nat)
    requires offset + size <= ptr.Length
    modifies ptr
    ensures next == offset + size
    ensures ptr[..next] == old(ptr[..offset]) + LE(x, size)
    ensures forall i :: next <= i < ptr.Length ==> ptr[i] == old(ptr[i])
  {
    next := PushBytes(ptr, offset, LE(x, size));
  }

  /** The C string of `s`, with its null character. */
  method PushString(ptr: array<byte>, offset: nat, s: IdString) returns (next: nat)
    requires offset + |s| + 1 <= ptr.Length
    modifies ptr
    ensures next == offset + |s| + 1
    ensures ptr[..next] == old(ptr[..offset]) + EncodeString(s)
    ensures forall i :: next <= i < ptr.Length ==> ptr[i] == old(ptr[i])
  {
    next := PushBytes(ptr, offset, EncodeString(s));
  }

  method PushService(ptr: array<byte>, offset: nat, s: Service) returns (next: nat)
    requires Held([s]) && offset + 3 * (ID_STRING_CAPACITY + 1) <= ptr.Length
    modifies ptr
    ensures offset <= next <= offset + 3 * (ID_STRING_CAPACITY + 1)
    ensures ptr[..next] == old(ptr[..offset]) + EncodeService(s)
    ensures forall i :: next <= i < ptr.Length ==> ptr[i] == old(ptr[i])
  {
    assert [s][0] == s;
    ghost var front := ptr[..offset];
    var o1 := PushString(ptr, offset, s.service);
    var o2 := PushString(ptr, o1, s.inst);
    next := PushString(ptr, o2, s.event);
    Seqs.Assoc(front, EncodeString(s.service), EncodeString(s.inst));
    Seqs.Assoc(front, EncodeString(s.service) + EncodeString(s.inst), EncodeString(s.event));
  }

  lemma {:induction false} EncodeServicesSnoc(ss: seq<Service>, s: Service)
    ensures EncodeServices(ss + [s]) == EncodeServices(ss) + EncodeService(s)
  {
    if ss == [] {
      assert EncodeServices([s]) == EncodeService(s) + EncodeServices([]);
    } else {
      EncodeServicesSnoc(ss[1..], s);
      assert (ss + [s])[1..] == ss[1..] + [s];
      Seqs.Assoc(EncodeService(ss[0]), EncodeServices(ss[1..]), EncodeService(s));
    }
  }

  method SerializeServices(ptr: array<byte>, offset: nat, ss: seq<Service>) returns (next: nat)
    requires Held(ss)
    requires offset + |ss| * (3 * (ID_STRING_CAPACITY + 1)) <= ptr.Length
    modifies ptr
    ensures offset <= next <= offset + |ss| * (3 * (ID_STRING_CAPACITY + 1))
    ensures ptr[..next] == old(ptr[..offset]) + EncodeServices(ss)
    ensures forall i :: next <= i < ptr.Length ==> ptr[i] == old(ptr[i])
  {
    hide EncodeService;
    next := offset;
    assert ss[..0] == [];
    for i := 0 to |ss|
      invariant offset <= next <= offset + i * (3 * (ID_STRING_CAPACITY + 1))
      invariant ptr[..next] == old(ptr[..offset]) + EncodeServices(ss[..i])
      invariant forall j :: next <= j < ptr.Length ==> ptr[j] == old(ptr[j])
    {
      hide EncodeServices;
      next := PushService(ptr, next, ss[i]);
      EncodeServicesSnoc(ss[..i], ss[i]);
      assert ss[..i + 1] == ss[..i] + [ss[i]];
      Seqs.Assoc(old(ptr[..offset]), EncodeServices(ss[..i]), EncodeService(ss[i]));
    }
    assert ss[..|ss|] == ss;
  }

  /** Serializes a discovery message; the buffer is as long as the size bound. Null characters inside
      an identifier are written like any other. */
  method SerializeInfo(info: PubSubInfo, ptr: array<byte>) returns (size: nat)
    requires |info.userSubscribers| <= MAX_TOPICS && Held(info.userSubscribers) && ptr.Length >= MaxPubSubInfoSerializationSize()
    modifies ptr
    ensures size <= MaxPubSubInfoSerializationSize()
    ensures ptr[..size] == EncodeInfo(info)
    ensures forall i :: size <= i < ptr.Length ==> ptr[i] == old(ptr[i])
  {
    hide LE, BitsToNat, EncodeServices, Held;
    var count := LE(|info.userSubscribers|, 8);
    var services := EncodeServices(info.userSubscribers);
    size := PushPrimitive(ptr, 0, |info.userSubscribers|, 8);
    size := SerializeServices(ptr, size, info.userSubscribers);
    assert ptr[..size] == count + services;
    var bits := LE(BitsToNat(info.gatewayBitset, 0), 8);
    size := PushPrimitive(ptr, size, BitsToNat(info.gatewayBitset, 0), 8);
    Seqs.Assoc(count, services, bits);
    size := PushPrimitive(ptr, size, info.gatewayHash, 4);
    size := PushPrimitive(ptr, size, info.infoHash, 4);
    size := PushBytes(ptr, size, [if info.isTermination then 1 else 0]);
    assert ptr[..size] == count + services + EncodeTail(info);
    assert size <= MaxPubSubInfoSerializationSize();
  }

  /** Serializes a datagram header, the class hash word by word. */
  method SerializeHeader(h: DatagramHeader, ptr: array<byte>) returns (size: nat)
    requires ptr.Length >= MaxDatagramHeaderSerializationSize()
    modifies ptr
    ensures size == MaxDatagramHeaderSerializationSize()
    ensures ptr[..size] == EncodeHeader(h)
    ensures forall i :: size <= i < ptr.Length ==> ptr[i] == old(ptr[i])
  {
    hide EncodeWords;
    ghost var ws := Words(h);
    assert EncodeWords([]) == [] by { EmptyWords(); }
    size := 0;
    for i := 0 to CLASS_HASH_ELEMENT_COUNT
      invariant size == 4 * i
      invariant ptr[..size] == EncodeWords(ws[..i])
      invariant forall j :: size <= j < ptr.Length ==> ptr[j] == old(ptr[j])
    {
      size := PushWord(ptr, size, h.serviceHash[i], ws, i);
    }
    size := PushWord(ptr, size, h.messageHash, ws, 4);
    size := PushWord(ptr, size, h.submessageCount, ws, 5);
    size := PushWord(ptr, size, h.submessageOffset, ws, 6);
    size := PushWord(ptr, size, h.submessageSize, ws, 7);
    size := PushWord(ptr, size, h.userPayloadSize, ws, 8);
    size := PushWord(ptr, size, h.userPayloadAlignment, ws, 9);
    size := PushWord(ptr, size, h.userHeaderSize, ws, 10);
    assert ws[..11] == ws;
  }

  lemma EmptyWords()
    ensures EncodeWords([]) == []
  {}

  /** Pushes the next of the words `ws`, of which the first `k` are in the buffer. */
  method PushWord(ptr: array<byte>, offset: nat, w: uint32, ghost ws: seq<uint32>, ghost k: nat)
    returns (next: nat)
    requires k < |ws| && w == ws[k]
    requires offset + 4 <= ptr.Length && ptr[..offset] == EncodeWords(ws[..k])
    modifies ptr
    ensures next == offset + 4
    ensures ptr[..next] == EncodeWords(ws[..k + 1])
    ensures forall i :: next <= i < ptr.Length ==> ptr[i] == old(ptr[i])
  {
    hide LE;
    next := PushPrimitive(ptr, offset, w, 4);
    assert ws[..k + 1][..k] == ws[..k];
  }

  // ---------- the decoders ----------

  method LoadString(ptr: seq<byte>, offset: nat) returns (r: Option<(IdString, nat)>)
    requires offset <= |ptr|
    ensures r.Some? ==> offset < r.value.1 <= |ptr|
    ensures DecodeString(ptr[offset..])
            == if r.Some? then Some((r.value.0, ptr[r.value.1..])) else None
  {
    hide StringLength;
    ghost var bs := ptr[offset..];
    var n := 0;
    while n <= ID_STRING_CAPACITY && offset + n < |ptr| && ptr[offset + n] != 0
      invariant n <= ID_STRING_CAPACITY + 1 && offset + n <= |ptr|
      invariant forall i :: 0 <= i < n ==> bs[i] != 0
    {
      n := n + 1;
    }
    if n > ID_STRING_CAPACITY || offset + n == |ptr| {
      return None;
    }
    StringLengthExact(bs[..n], bs[n + 1..], ID_STRING_CAPACITY + 1);
    assert bs == EncodeString(bs[..n]) + bs[n + 1..];
    assert bs[..n] == ptr[offset..offset + n] && bs[n + 1..] == ptr[offset + n + 1..];
    return Some((ptr[offset..offset + n], offset + n + 1));
  }

  method LoadService(ptr: seq<byte>, offset: nat) returns (r: Option<(Service, nat)>)
    requires offset <= |ptr|
    ensures r.Some? ==> offset < r.value.1 <= |ptr|
    ensures DecodeService(ptr[offset..])
            == if r.Some? then Some((r.value.0, ptr[r.value.1..])) else None
  {
    hide DecodeString;
    var a := LoadString(ptr, offset);
    if a.None? { return None; }
    var b := LoadString(ptr, a.value.1);
    if b.None? { return None; }
    var c := LoadString(ptr, b.value.1);
    if c.None? { return None; }
    return Some((Service(a.value.0, b.value.0, c.value.0), c.value.1));
  }

  ghost function Prepend(ss: seq<Service>, r: Option<(seq<Service>, seq<byte>)>): Option<(seq<Service>, seq<byte>)> {
    match r
    case None => None
    case Some((rest, bs)) => Some((ss + rest, bs))
  }

  lemma PrependStep(ss: seq<Service>, bs: seq<byte>, n: nat)
    requires n > 0
    ensures Prepend(ss, DecodeServices(bs, n))
            == match DecodeService(bs)
               case None => None
               case Some((s, rest)) => Prepend(ss + [s], DecodeServices(rest, n - 1))
  {
    hide DecodeService;
    var r := DecodeService(bs);
    if r.Some? {
      var t := DecodeServices(r.value.1, n - 1);
      if t.Some? {
        Seqs.Assoc(ss, [r.value.0], t.value.0);
      }
    }
  }

  method LoadServices(ptr: seq<byte>, offset: nat, n: nat) returns (r: Option<(seq<Service>, nat)>)
    requires offset <= |ptr|
    ensures r.Some? ==> offset <= r.value.1 <= |ptr|
    ensures DecodeServices(ptr[offset..], n)
            == if r.Some? then Some((r.value.0, ptr[r.value.1..])) else None
  {
    hide DecodeService;
    var ss, o := [], offset;
    ghost var all := DecodeServices(ptr[offset..], n);
    assert all.Some? ==> [] + all.value.0 == all.value.0;
    for i := 0 to n
      invariant offset <= o <= |ptr|
      invariant all == Prepend(ss, DecodeServices(ptr[o..], n - i))
    {
      var s := LoadService(ptr, o);
      if s.None? { return None; }
      PrependStep(ss, ptr[o..], n - i);
      ss, o := ss + [s.value.0], s.value.1;
    }
    assert ss + [] == ss;
    return Some((ss, o));
  }

  /** Deserializes a discovery message; the result is None where the program terminates. */
  method DeserializeInfo(ptr: seq<byte>) returns (r: Option<(PubSubInfo, nat)>)
    ensures r == DecodeInfo(ptr)
  {
    hide LE, FromLE, DecodeServices, DecodeTail;
    if |ptr| < 8 { return None; }
    var n := FromLE(ptr[..8]);
    if n > MAX_TOPICS { return None; }
    var services := LoadServices(ptr, 8, n);
    if services.None? { return None; }
    var (ss, o) := services.value;
    if o + 17 > |ptr| { return None; }
    assert ptr[o..][..17] == ptr[o..o + 17];
    var (bits, gateway, hash, termination) := DecodeTail(ptr[o..o + 17]);
    return Some((PubSubInfo(ss, bits, gateway, hash, termination), o + 17));
  }

  method LoadWord(ptr: seq<byte>, offset: nat) returns (r: Option<uint32>)
    requires offset <= |ptr|
    ensures r.None? <==> offset + 4 > |ptr|
    ensures r.Some? ==> r.value == FromLE(ptr[offset..offset + 4])
  {
    if offset + 4 > |ptr| { return None; }
    LECanonical(ptr[offset..offset + 4]);
    Pow256Values();
    return Some(FromLE(ptr[offset..offset + 4]));
  }

  /** Deserializes a datagram header, word by word in field order; the result is None where the
      program terminates. */
  method DeserializeHeader(ptr: seq<byte>) returns (r: Option<DatagramHeader>)
    ensures r == DecodeHeader(ptr)
  {
    hide FromLE;
    var ws: seq<uint32> := [];
    while |ws| < 11
      invariant |ws| <= 11 && 4 * |ws| <= |ptr| && ws == DecodeWords(ptr, |ws|)
    {
      var w := LoadWord(ptr, 4 * |ws|);
      if w.None? { return None; }
      ws := ws + [w.value];
    }
    return Some(FromWords(ws));
  }
}
