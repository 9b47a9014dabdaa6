/** Cutting a message into datagrams of bounded size. */
module DataWriter {
  import opened Types
  import opened Transports
  import Serialization
  import Arith
  import Seqs

  /** A taken sample, as the writer reads it: both sizes are 32-bit fields. */
  datatype Message = Message(
    serviceHash: ClassHash, hash: Hash, header: seq<byte>, payload: seq<byte>, alignment: uint32)
  {
    predicate Valid() {
      |header| < TWO32 && |payload| < TWO32
    }

    function Content(): seq<byte> {
      header + payload
    }
  }

  /** A contiguous piece of header + payload, starting at `offset`. */
  datatype Segment = Segment(offset: nat, data: seq<byte>)

  function Min(a: nat, b: nat): nat {
    if a <= b then a else b
  }

  // ---------- the number of segments: 32-bit arithmetic ----------

  function DivideAndRoundUp(dividend: uint32, divisor: uint32): uint32
    requires divisor > 0
  {
    Wrap32(dividend + divisor - 1) / divisor
  }

  /** The value of the submessageCount field. */
  function SubmessageCount(m: Message, max: uint32): uint32
    requires m.Valid() && max > 0
  {
    Wrap32(DivideAndRoundUp(|m.header|, max) + DivideAndRoundUp(|m.payload|, max))
  }

  /** How many pieces of at most `max` bytes `n` bytes take. */
  function Pieces(n: nat, max: nat): nat
    requires max > 0
  {
    if n == 0 then 0 else 1 + Pieces(n - Min(max, n), max)
  }

  // ---------- the segments ----------

  /** The segments from `offset` on: header and payload are cut separately. */
  function Cuts(m: Message, max: nat, offset: nat): (c: seq<Segment>)
    requires max > 0 && offset <= |m.Content()|
    decreases |m.Content()| - offset
  {
    if offset == |m.Content()| then []
    else
      var end := if offset < |m.header| then |m.header| else |m.Content()|;
      var size := Min(max, end - offset);
      [Segment(offset, m.Content()[offset..offset + size])] + Cuts(m, max, offset + size)
  }

  function Segments(m: Message, max: nat): seq<Segment>
    requires max > 0
  {
    Cuts(m, max, 0)
  }

  /** What one segment must satisfy: in bounds, within the transport's size, holding the right
      bytes, and on one side of the header/payload boundary. */
  predicate GoodSegment(m: Message, max: nat, s: Segment) {
    && 0 < |s.data| <= max
    && s.offset + |s.data| <= |m.Content()|
    && s.data == m.Content()[s.offset..s.offset + |s.data|]
    && (s.offset < |m.header| ==> s.offset + |s.data| <= |m.header|)
  }

  lemma {:induction false} CutsAreGood(m: Message, max: nat, offset: nat, i: nat)
    requires max > 0 && offset <= |m.Content()|
    requires i < |Cuts(m, max, offset)|
    ensures GoodSegment(m, max, Cuts(m, max, offset)[i])
    ensures Cuts(m, max, offset)[i].offset >= offset
    decreases i
  {
    var c := Cuts(m, max, offset);
    if i > 0 {
      var next := offset + |c[0].data|;
      assert c[i] == Cuts(m, max, next)[i - 1];
      CutsAreGood(m, max, next, i - 1);
    }
  }

  /** Consecutive segments meet: each starts where the one before it ended, the first at
      `offset`, and the last ends at the end of the message. */
  lemma {:induction false} CutsMeet(m: Message, max: nat, offset: nat, i: nat)
    requires max > 0 && offset <= |m.Content()|
    requires i < |Cuts(m, max, offset)|
    ensures var c := Cuts(m, max, offset);
            c[0].offset == offset
            && c[i].offset + |c[i].data|
               == if i + 1 < |c| then c[i + 1].offset else |m.Content()|
    decreases i
  {
    var c := Cuts(m, max, offset);
    var next := offset + |c[0].data|;
    var d := Cuts(m, max, next);
    assert c == [c[0]] + d;
    if i > 0 {
      CutsMeet(m, max, next, i - 1);
    }
  }

  /** Every byte of the message lies in some segment. */
  lemma {:induction false} CutsCover(m: Message, max: nat, offset: nat, p: nat) returns (i: nat)
    requires max > 0 && offset <= p < |m.Content()|
    ensures i < |Cuts(m, max, offset)|
    ensures var s := Cuts(m, max, offset)[i]; s.offset <= p < s.offset + |s.data|
    decreases |m.Content()| - offset
  {
    var c := Cuts(m, max, offset);
    var next := offset + |c[0].data|;
    if p < next {
      i := 0;
    } else {
      var j := CutsCover(m, max, next, p);
      assert c == [c[0]] + Cuts(m, max, next);
      i := j + 1;
    }
  }

  /** Segments start at increasing positions, so they are told apart by their offsets and do
      not overlap. */
  lemma {:induction false} CutsDisjoint(m: Message, max: nat, offset: nat, i: nat, j: nat)
    requires max > 0 && offset <= |m.Content()|
    requires i < j < |Cuts(m, max, offset)|
    ensures var c := Cuts(m, max, offset); c[i].offset + |c[i].data| <= c[j].offset
    ensures var c := Cuts(m, max, offset); c[i].offset < c[j].offset
    decreases i
  {
    var c := Cuts(m, max, offset);
    var next := offset + |c[0].data|;
    var d := Cuts(m, max, next);
    assert c == [c[0]] + d;
    assert c[j] == d[j - 1];
    if i == 0 {
      CutsAreGood(m, max, next, j - 1);
    } else {
      assert c[i] == d[i - 1];
      CutsDisjoint(m, max, next, i - 1, j - 1);
    }
  }

  lemma {:induction false} CutsCount(m: Message, max: nat, offset: nat)
    requires max > 0 && offset <= |m.Content()|
    ensures |Cuts(m, max, offset)|
            == if offset < |m.header| then Pieces(|m.header| - offset, max) + Pieces(|m.payload|, max)
               else Pieces(|m.Content()| - offset, max)
    decreases |m.Content()| - offset
  {
    if offset != |m.Content()| {
      CutsCount(m, max, offset + |Cuts(m, max, offset)[0].data|);
    }
  }

  // ---------- when the 32-bit count is the real count ----------

  lemma {:induction false} PiecesIsCeiling(n: nat, max: nat)
    requires max > 0
    ensures Pieces(n, max) == (n + max - 1) / max
    decreases n
  {
    if n > max {
      PiecesIsCeiling(n - max, max);
      Arith.DivPlusOne(n - 1, max);
    } else if n > 0 {
      Arith.DivPlusOne(n - 1, max);
      Arith.DivUnique(n - 1, max, 0, n - 1);
    } else {
      Arith.DivUnique(max - 1, max, 0, max - 1);
    }
  }

  lemma DivideAndRoundUpExact(n: uint32, max: uint32)
    requires max > 0
    ensures DivideAndRoundUp(n, max) <= Pieces(n, max)
    ensures DivideAndRoundUp(n, max) == Pieces(n, max) <==> n + max - 1 < TWO32
  {
    hide Pieces;
    PiecesIsCeiling(n, max);
    if n + max - 1 >= TWO32 {
      var w := n + max - 1 - TWO32;
      assert Wrap32(n + max - 1) == w;
      Arith.DivPlusOne(w, max);
      Arith.DivMonotone(w + max, n + max - 1, max);
    }
  }

  /** The condition under which no 32-bit sum of the count wraps around. */
  predicate CountFits(m: Message, max: uint32)
    requires max > 0
  {
    && |m.header| + max - 1 < TWO32
    && |m.payload| + max - 1 < TWO32
    && Pieces(|m.header|, max) + Pieces(|m.payload|, max) < TWO32
  }

  /** The submessageCount field is the number of datagrams exactly when no sum wraps. */
  lemma CountExact(m: Message, max: uint32)
    requires m.Valid() && max > 0
    ensures SubmessageCount(m, max) == |Segments(m, max)| <==> CountFits(m, max)
  {
    hide Cuts, Pieces, DivideAndRoundUp;
    CutsCount(m, max, 0);
    assert Pieces(0, max) == 0 by { PiecesOfNone(max); }
    DivideAndRoundUpExact(|m.header|, max);
    DivideAndRoundUpExact(|m.payload|, max);
  }

  lemma PiecesOfNone(max: nat)
    requires max > 0
    ensures Pieces(0, max) == 0
  {}

  /** A header of 2^32-1 bytes and datagrams of 2 bytes: the field says 0, many are sent. */
  lemma CountWrongExample(m: Message)
    requires m.Valid() && |m.header| == TWO32 - 1 && m.payload == []
    ensures SubmessageCount(m, 2) == 0 && |Segments(m, 2)| > 0
  {}

  // ---------- the datagrams ----------

  /** Every segment's offset can be written in the 32-bit offset field. */
  predicate OffsetsFit(m: Message, max: nat)
    requires max > 0
  {
    forall i :: 0 <= i < |Segments(m, max)| ==> Segments(m, max)[i].offset < TWO32
  }

  lemma OffsetsFitIfContentFits(m: Message, max: nat)
    requires max > 0 && |m.Content()| <= TWO32
    ensures OffsetsFit(m, max)
  {
    forall i: nat | i < |Segments(m, max)| ensures Segments(m, max)[i].offset < TWO32 {
      CutsAreGood(m, max, 0, i);
    }
  }

  function HeaderOf(m: Message, max: uint32, s: Segment): DatagramHeader
    requires m.Valid() && max > 0 && s.offset < TWO32 && |s.data| < TWO32
  {
    DatagramHeader(m.serviceHash, m.hash, SubmessageCount(m, max), s.offset, |s.data|,
                   |m.payload|, m.alignment, |m.header|)
  }

  function Datagram(m: Message, max: uint32, s: Segment): seq<byte>
    requires m.Valid() && max > 0 && s.offset < TWO32 && |s.data| < TWO32
  {
    Serialization.EncodeHeader(HeaderOf(m, max, s)) + s.data
  }

  /** What the receiver reads off a datagram: every field of the header, the message's alignment among
      them, and the data after it. */
  lemma DatagramSays(m: Message, max: uint32, s: Segment)
    requires m.Valid() && max > 0 && s.offset < TWO32 && |s.data| < TWO32
    ensures var h := Serialization.DecodeHeader(Datagram(m, max, s));
            && h.Some? && |Datagram(m, max, s)| == 44 + |s.data| && Datagram(m, max, s)[44..] == s.data
            && h.value.serviceHash == m.serviceHash && h.value.messageHash == m.hash
            && h.value.submessageOffset == s.offset && h.value.submessageSize == |s.data|
            && h.value.userHeaderSize == |m.header| && h.value.userPayloadSize == |m.payload|
            && h.value.userPayloadAlignment == m.alignment
            && (CountFits(m, max) ==> h.value.submessageCount == |Segments(m, max)|)
  {
    hide Serialization.EncodeHeader, Serialization.DecodeHeader, Segments;
    Serialization.HeaderRoundTrip(HeaderOf(m, max, s), s.data);
    Seqs.TakeDrop(Serialization.EncodeHeader(HeaderOf(m, max, s)), s.data);
    if CountFits(m, max) {
      CountExact(m, max);
    }
  }

  // ---------- the writer ----------

  /** What was `sent` after what was sent `before` are the datagrams of the first `k` segments. */
  ghost predicate Carries(m: Message, max: uint32, device: uint32, before: seq<Sent>, sent: seq<Sent>, k: nat)
    requires m.Valid() && max > 0 && OffsetsFit(m, max)
  {
    && k <= |Segments(m, max)|
    && before <= sent && |sent| == |before| + k
    && forall i :: 0 <= i < k ==> sent[|before| + i] == SentSegment(m, max, device, Segments(m, max)[i])
  }

  /** What is handed to the transport for one segment; no segment too long for its size field
      exists. */
  ghost function SentSegment(m: Message, max: uint32, device: uint32, s: Segment): Sent
    requires m.Valid() && max > 0 && s.offset < TWO32
  {
    if |s.data| < TWO32 then Sent(Datagram(m, max, s), device) else Sent([], device)
  }

  /** Each is the datagram of its segment, to the one device. */
  lemma CarriesDatagrams(m: Message, max: uint32, device: uint32, before: seq<Sent>, sent: seq<Sent>, k: nat)
    requires m.Valid() && max > 0 && OffsetsFit(m, max) && Carries(m, max, device, before, sent, k)
    ensures forall i :: 0 <= i < k ==>
              |Segments(m, max)[i].data| < TWO32 && sent[|before| + i] == Sent(Datagram(m, max, Segments(m, max)[i]), device)
  {
    hide Segments, Datagram;
    forall i | 0 <= i < k ensures |Segments(m, max)[i].data| < TWO32 {
      SegmentShort(m, max, i);
    }
  }

  lemma SegmentShort(m: Message, max: uint32, i: nat)
    requires max > 0 && i < |Segments(m, max)|
    ensures |Segments(m, max)[i].data| < TWO32
  {
    CutsAreGood(m, max, 0, i);
  }

  /** How many payload segments the transport said are pending; those of the user header do not count. */
  ghost function PendingPayloads(m: Message, c: seq<Segment>, answers: seq<bool>): nat
    requires |c| == |answers|
  {
    if c == [] then 0
    else
      var n := |c| - 1;
      PendingPayloads(m, c[..n], answers[..n]) + if c[n].offset >= |m.header| && answers[n] then 1 else 0
  }

  /** The position of the loops: `k` segments are sent and `offset` bytes are covered. */
  ghost predicate Progress(m: Message, max: uint32, device: uint32, before: seq<Sent>, sent: seq<Sent>, k: nat, offset: nat)
    requires m.Valid() && max > 0 && OffsetsFit(m, max)
  {
    && offset <= |m.Content()|
    && Carries(m, max, device, before, sent, k)
    && Cuts(m, max, offset) == Segments(m, max)[k..]
  }

  /** Of the answers to the first `k` segments, so many count as pending. */
  ghost predicate Counted(m: Message, max: uint32, before: seq<bool>, answers: seq<bool>, k: nat, pendingCount: nat)
    requires max > 0
  {
    && k <= |Segments(m, max)| && |answers| == |before| + k && before <= answers
    && PendingPayloads(m, Segments(m, max)[..k], answers[|before|..]) == pendingCount
  }

  lemma NoneCounted(m: Message, max: uint32, answers: seq<bool>)
    requires max > 0
    ensures Counted(m, max, answers, answers, 0, 0)
  {}

  lemma AllCounted(m: Message, max: uint32, before: seq<bool>, answers: seq<bool>, pendingCount: nat)
    requires max > 0 && Counted(m, max, before, answers, |Segments(m, max)|, pendingCount)
    ensures |answers| == |before| + |Segments(m, max)| && before <= answers
    ensures PendingPayloads(m, Segments(m, max), answers[|before|..]) == pendingCount
  {
    assert Segments(m, max)[..|Segments(m, max)|] == Segments(m, max);
  }

  lemma CountOne(m: Message, max: uint32, before: seq<bool>, answers: seq<bool>, k: nat, pendingCount: nat, pending: bool)
    requires max > 0 && Counted(m, max, before, answers, k, pendingCount) && k < |Segments(m, max)|
    ensures Counted(m, max, before, answers + [pending], k + 1,
                    pendingCount + if Segments(m, max)[k].offset >= |m.header| && pending then 1 else 0)
  {
    hide Segments;
    var c, a := Segments(m, max), answers + [pending];
    assert c[..k + 1][..k] == c[..k];
    assert a[|before|..] == answers[|before|..] + [pending];
    assert a[|before|..][..k] == answers[|before|..];
  }

  lemma NextSegment(m: Message, max: uint32, device: uint32, before: seq<Sent>, sent: seq<Sent>, k: nat, offset: nat)
    requires m.Valid() && max > 0 && OffsetsFit(m, max)
    requires Progress(m, max, device, before, sent, k, offset) && offset < |m.Content()|
    ensures k < |Segments(m, max)| && Segments(m, max)[k].offset == offset
  {
    assert Segments(m, max)[k] == Cuts(m, max, offset)[0];
  }

  /** One step of either loop: the next segment starts at `offset`; once it is sent, so many
      more bytes are covered. */
  lemma Advance(m: Message, max: uint32, device: uint32, before: seq<Sent>, sent: seq<Sent>, k: nat, offset: nat, size: nat)
    requires m.Valid() && max > 0 && OffsetsFit(m, max)
    requires Progress(m, max, device, before, sent, k, offset) && offset < |m.Content()|
    requires size == Min(max, (if offset < |m.header| then |m.header| else |m.Content()|) - offset)
    ensures offset < TWO32
    ensures var s := Segment(offset, m.Content()[offset..offset + size]);
            Progress(m, max, device, before, sent + [SentSegment(m, max, device, s)], k + 1, offset + size)
  {
    hide HeaderOf, Datagram;
    var c := Cuts(m, max, offset);
    assert Segments(m, max)[k] == c[0];
    assert c[1..] == Segments(m, max)[k + 1..];
  }

  /** Sends header and payload in segments over transport `t` if it is good. What is handed to
      the transport is exactly one datagram per segment, in order. */
  method WriteSegmentedInternal(t: Transport, m: Message, device: uint32) returns (pending: bool)
    requires m.Valid()
    requires 44 < t.maxMessageSize < TWO32 + 44
    requires OffsetsFit(m, t.maxMessageSize - 44)
    modifies t`status, t`userData, t`answers
    ensures !old(t.IsGood()) ==> t.userData == old(t.userData) && !pending
    ensures old(t.IsGood()) ==>
              var max := t.maxMessageSize - 44;
              Carries(m, max, device, old(t.userData), t.userData, |Segments(m, max)|)
    ensures old(t.IsGood()) ==>
              var c := Segments(m, t.maxMessageSize - 44);
              && |t.answers| == |old(t.answers)| + |c| && old(t.answers) <= t.answers
              && (pending <==> PendingPayloads(m, c, t.answers[|old(t.answers)|..]) == 1)
    ensures t.status == old(t.status) || (old(t.status) == GOOD && t.status == FAILED)
  {
    if !t.IsGood() {
      return false;
    }
    var max: uint32 := t.maxMessageSize - 44;
    var buffer := new byte[44];
    AtStart(m, max, device, t.userData);
    var submessageOffset, k := WriteUserHeader(t, m, max, buffer, device);
    var pendingCount := WriteUserPayload(t, m, max, submessageOffset, buffer, device, old(t.userData), old(t.answers), k);
    AllCounted(m, max, old(t.answers), t.answers, pendingCount);
    return pendingCount == 1;
  }

  /** The first loop. */
  method WriteUserHeader(t: Transport, m: Message, max: uint32, buffer: array<byte>, device: uint32)
    returns (submessageOffset: uint32, ghost k: nat)
    requires m.Valid() && max > 0 && OffsetsFit(m, max) && buffer.Length == 44
    requires t.status != DISABLED
    modifies t`status, t`userData, t`answers, buffer
    ensures submessageOffset == |m.header|
    ensures Progress(m, max, device, old(t.userData), t.userData, k, |m.header|)
    ensures Counted(m, max, old(t.answers), t.answers, k, 0)
    ensures t.status == old(t.status) || (old(t.status) == GOOD && t.status == FAILED)
  {
    var remaining := |m.header|;
    submessageOffset, k := 0, 0;
    AtStart(m, max, device, t.userData);
    NoneCounted(m, max, t.answers);
    hide Progress, OffsetsFit, Wrap32, Counted;
    while remaining != 0
      invariant 0 <= remaining <= |m.header| && submessageOffset == |m.header| - remaining
      invariant Progress(m, max, device, old(t.userData), t.userData, k, submessageOffset)
      invariant Counted(m, max, old(t.answers), t.answers, k, 0)
      invariant t.status == old(t.status) || (old(t.status) == GOOD && t.status == FAILED)
    {
      var size := Min(max, remaining);
      Slices(m, submessageOffset, size);
      WrapSmall(submessageOffset + size, 0);
      var data := m.header[submessageOffset..submessageOffset + size];
      var isPending := SendSegment(t, m, max, submessageOffset, data, buffer, device,
                                   old(t.userData), old(t.answers), k, submessageOffset, 0);
      submessageOffset := Wrap32(submessageOffset + size);
      remaining := remaining - size;
      k := k + 1;
    }
  }

  /** The second loop: only here may a send stay pending. The offset may wrap around after the
      last segment. */
  method WriteUserPayload(t: Transport, m: Message, max: uint32, offset: uint32, buffer: array<byte>,
                          device: uint32, ghost before: seq<Sent>, ghost asked: seq<bool>, ghost sofar: nat)
    returns (pendingCount: nat)
    requires m.Valid() && max > 0 && OffsetsFit(m, max) && buffer.Length == 44
    requires offset == |m.header| && Progress(m, max, device, before, t.userData, sofar, |m.header|)
    requires Counted(m, max, asked, t.answers, sofar, 0)
    modifies t`status, t`userData, t`answers, buffer
    ensures Carries(m, max, device, before, t.userData, |Segments(m, max)|)
    ensures Counted(m, max, asked, t.answers, |Segments(m, max)|, pendingCount)
    ensures t.status == old(t.status) || (old(t.status) == GOOD && t.status == FAILED)
  {
    var remaining, submessageOffset := |m.payload|, offset;
    ghost var k, covered := sofar, |m.header|;
    pendingCount := 0;
    assert Wrap32(covered) == covered by { WrapSmall(covered, 0); }
    hide Progress, OffsetsFit, Wrap32, Counted, Segments, Carries, NextData, Message.Content;
    while remaining != 0
      invariant 0 <= remaining <= |m.payload| && covered == |m.header| + |m.payload| - remaining
      invariant submessageOffset == Wrap32(covered)
      invariant Progress(m, max, device, before, t.userData, k, covered)
      invariant Counted(m, max, asked, t.answers, k, pendingCount)
      invariant t.status == old(t.status) || (old(t.status) == GOOD && t.status == FAILED)
    {
      var size := Min(max, remaining);
      var isPending := SendPayload(t, m, max, submessageOffset, size, buffer, device, before, asked, k, covered, pendingCount);
      if isPending {
        pendingCount := pendingCount + 1;
      }
      assert Wrap32(submessageOffset + size) == Wrap32(covered + size) by { WrapSmall(covered, size); }
      submessageOffset := Wrap32(submessageOffset + size);
      remaining := remaining - size;
      covered := covered + size;
      k := k + 1;
    }
    assert covered == |m.Content()| by { ContentSize(m); }
    AtEnd(m, max, device, before, t.userData, k);
  }

  /** One turn of the second loop. */
  method SendPayload(t: Transport, m: Message, max: uint32, offset: uint32, size: uint32, buffer: array<byte>, device: uint32,
                     ghost before: seq<Sent>, ghost asked: seq<bool>, ghost k: nat, ghost covered: nat, ghost sofar: nat)
    returns (pending: bool)
    requires m.Valid() && max > 0 && OffsetsFit(m, max) && buffer.Length == 44 && offset == Wrap32(covered)
    requires |m.header| <= covered < |m.header| + |m.payload| && size == Min(max, |m.header| + |m.payload| - covered)
    requires Progress(m, max, device, before, t.userData, k, covered) && Counted(m, max, asked, t.answers, k, sofar)
    modifies t`status, t`userData, t`answers, buffer
    ensures Progress(m, max, device, before, t.userData, k + 1, covered + size)
    ensures Counted(m, max, asked, t.answers, k + 1, sofar + if pending then 1 else 0)
    ensures t.status == old(t.status) || (old(t.status) == GOOD && t.status == FAILED)
  {
    hide Progress, OffsetsFit, Wrap32, Counted, NextData, Message.Content;
    NextPayload(m, max, covered, size);
    StartFits(m, max, device, before, t.userData, k, covered);
    WrapSmall(covered, 0);
    var at := offset - |m.header|;
    pending := SendSegment(t, m, max, offset, m.payload[at..at + size], buffer, device, before, asked, k, covered, sofar);
  }

  lemma ContentSize(m: Message)
    ensures |m.Content()| == |m.header| + |m.payload|
  {}

  lemma NextPayload(m: Message, max: uint32, covered: nat, size: nat)
    requires max > 0 && |m.header| <= covered < |m.header| + |m.payload|
    requires size == Min(max, |m.header| + |m.payload| - covered)
    ensures covered < |m.Content()|
    ensures NextData(m, max, covered, m.payload[covered - |m.header|..covered - |m.header| + size])
  {
    Slices(m, covered, size);
  }

  lemma WrapSmall(x: nat, size: nat)
    ensures x < TWO32 ==> Wrap32(x) == x
    ensures Wrap32(Wrap32(x) + size) == Wrap32(x + size)
  {}

  lemma Slices(m: Message, offset: nat, size: nat)
    ensures offset + size <= |m.header| ==>
              m.Content()[offset..offset + size] == m.header[offset..offset + size]
    ensures |m.header| <= offset && offset + size <= |m.Content()| ==>
              m.Content()[offset..offset + size]
              == m.payload[offset - |m.header|..offset - |m.header| + size]
  {}

  lemma StartFits(m: Message, max: uint32, device: uint32, before: seq<Sent>, sent: seq<Sent>, k: nat, offset: nat)
    requires m.Valid() && max > 0 && OffsetsFit(m, max) && offset < |m.Content()|
    requires Progress(m, max, device, before, sent, k, offset)
    ensures offset < TWO32
  {
    assert Cuts(m, max, offset)[0] == Segments(m, max)[k];
  }

  lemma AtStart(m: Message, max: uint32, device: uint32, sent: seq<Sent>)
    requires m.Valid() && max > 0 && OffsetsFit(m, max)
    ensures Progress(m, max, device, sent, sent, 0, 0)
  {}

  lemma AtEnd(m: Message, max: uint32, device: uint32, before: seq<Sent>, sent: seq<Sent>, k: nat)
    requires m.Valid() && max > 0 && OffsetsFit(m, max)
    requires Progress(m, max, device, before, sent, k, |m.Content()|)
    ensures k == |Segments(m, max)| && Carries(m, max, device, before, sent, k)
  {}

  /** Serializes the datagram header for the next segment and hands both to the transport. */
  method SendSegment(t: Transport, m: Message, max: uint32, offset: uint32, data: seq<byte>,
                     buffer: array<byte>, device: uint32,
                     ghost before: seq<Sent>, ghost asked: seq<bool>, ghost k: nat, ghost covered: nat, ghost sofar: nat)
    returns (pending: bool)
    requires m.Valid() && max > 0 && OffsetsFit(m, max) && |data| < TWO32 && buffer.Length == 44
    requires Progress(m, max, device, before, t.userData, k, covered) && covered < |m.Content()|
    requires offset == covered && NextData(m, max, covered, data) && Counted(m, max, asked, t.answers, k, sofar)
    modifies t`status, t`userData, t`answers, buffer
    ensures Progress(m, max, device, before, t.userData, k + 1, covered + |data|)
    ensures Counted(m, max, asked, t.answers, k + 1, sofar + if covered >= |m.header| && pending then 1 else 0)
    ensures t.status == old(t.status) || (old(t.status) == GOOD && t.status == FAILED)
  {
    hide Counted;
    Advance(m, max, device, before, t.userData, k, covered, |data|);
    NextSegment(m, max, device, before, t.userData, k, covered);
    var header := HeaderOf(m, max, Segment(offset, data));
    var size := Serialization.SerializeHeader(header, buffer);
    pending := t.SendUserData(buffer[..size], data, device);
    CountOne(m, max, asked, old(t.answers), k, sofar, pending);
  }

  /** `data` is what the segment at `offset` holds. */
  ghost predicate NextData(m: Message, max: uint32, offset: nat, data: seq<byte>)
    requires offset < |m.Content()|
  {
    && |data| == Min(max, (if offset < |m.header| then |m.header| else |m.Content()|) - offset)
    && data == m.Content()[offset..offset + |data|]
  }

  ghost predicate Covered(c: seq<Segment>, p: nat) {
    exists i :: 0 <= i < |c| && c[i].offset <= p < c[i].offset + |c[i].data|
  }

  /** The whole of tiling, for all sizes: what the segments are, jointly. */
  lemma SegmentsTile(m: Message, max: nat)
    requires max > 0
    ensures var c := Segments(m, max);
            && |c| == Pieces(|m.header|, max) + Pieces(|m.payload|, max)
            && (forall i :: 0 <= i < |c| ==> GoodSegment(m, max, c[i]))
            && (forall i, j :: 0 <= i < j < |c| ==> c[i].offset + |c[i].data| <= c[j].offset)
            && (forall p :: 0 <= p < |m.Content()| ==> Covered(c, p))
  {
    hide Pieces;
    var c := Segments(m, max);
    CutsCount(m, max, 0);
    PiecesOfNone(max);
    forall i | 0 <= i < |c| ensures GoodSegment(m, max, c[i]) {
      CutsAreGood(m, max, 0, i);
    }
    forall i, j | 0 <= i < j < |c| ensures c[i].offset + |c[i].data| <= c[j].offset {
      CutsDisjoint(m, max, 0, i, j);
    }
    forall p | 0 <= p < |m.Content()|
      ensures Covered(c, p)
    {
      var i := CutsCover(m, max, 0, p);
    }
  }
}
