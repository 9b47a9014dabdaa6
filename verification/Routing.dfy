/** Where a message goes: the lookup over the device records, and what happens to its cached
    results when gateways terminate. */
module Routing {
  import opened Types
  import opened TransportInfos
  import opened VectorMaps

  datatype DeviceRecord = DeviceRecord(info: PubSubInfo, deviceIndices: seq<DeviceIndex>)

  /** What a lookup reads besides the records: the class hash of a service is given by iceoryx. */
  datatype View = View(classHash: Service -> ClassHash, good: set<nat>, bitset: Bitset, preferred: TransportType)

  predicate Subscribes(v: View, services: seq<Service>, hash: ClassHash) {
    exists i :: 0 <= i < |services| && v.classHash(services[i]) == hash
  }

  /** The first device index of a type, as a list of at most one. */
  function IndexOfType(indices: seq<DeviceIndex>, t: TransportType): (r: seq<DeviceIndex>)
    ensures |r| <= 1
    ensures r == [] <==> forall i :: 0 <= i < |indices| ==> indices[i].transport != t
    ensures r != [] ==> r[0] in indices && r[0].transport == t
  {
    if indices == [] then [] else if indices[0].transport == t then [indices[0]] else IndexOfType(indices[1..], t)
  }

  function Target(v: View, r: DeviceRecord): (d: seq<DeviceIndex>)
    ensures |d| <= 1
  {
    var t := MatchingType(v.good, v.bitset, v.preferred, r.info.gatewayBitset);
    if t == NONE then [] else IndexOfType(r.deviceIndices, t)
  }

  /** What one record contributes to the destinations of a service. */
  function Contribution(v: View, r: DeviceRecord, hash: ClassHash): (d: seq<DeviceIndex>)
    ensures |d| <= 1
  {
    if Subscribes(v, r.info.userSubscribers, hash) then Target(v, r) else []
  }

  function ComputeDeviceIndices(v: View, records: seq<DeviceRecord>, hash: ClassHash): (d: seq<DeviceIndex>)
    ensures |d| <= |records|
  {
    if records == [] then [] else Contribution(v, records[0], hash) + ComputeDeviceIndices(v, records[1..], hash)
  }

  /** The bitset of the last record with this device index, or the empty one. */
  function BitsetFrom(records: seq<DeviceRecord>, from: DeviceIndex): Bitset {
    if records == [] then {}
    else
      var n := |records| - 1;
      if from in records[n].deviceIndices then records[n].info.gatewayBitset else BitsetFrom(records[..n], from)
  }

  /** Forwarding goes to subscribed devices that share no transport with the source device. */
  function ForwardContribution(v: View, r: DeviceRecord, hash: ClassHash, source: Bitset): (d: seq<DeviceIndex>)
    ensures |d| <= 1
  {
    if source * r.info.gatewayBitset == {} then Contribution(v, r, hash) else []
  }

  function ForwardTargets(v: View, records: seq<DeviceRecord>, hash: ClassHash, source: Bitset): (d: seq<DeviceIndex>)
    ensures |d| <= |records|
  {
    if records == [] then []
    else ForwardContribution(v, records[0], hash, source) + ForwardTargets(v, records[1..], hash, source)
  }

  function ForwardIndices(v: View, records: seq<DeviceRecord>, hash: ClassHash, from: DeviceIndex): (d: seq<DeviceIndex>)
    ensures |d| <= |records|
  {
    var source := BitsetFrom(records, from);
    if source == {} then [] else ForwardTargets(v, records, hash, source)
  }

  // ---------- records that came and went ----------

  /** The records of gateways that are not among the gone. */
  function Survivors(records: seq<DeviceRecord>, gone: set<Hash>): seq<DeviceRecord> {
    if records == [] then []
    else if records[0].info.gatewayHash in gone then Survivors(records[1..], gone)
    else [records[0]] + Survivors(records[1..], gone)
  }

  function Casualties(records: seq<DeviceRecord>, gone: set<Hash>): seq<DeviceRecord> {
    if records == [] then []
    else if records[0].info.gatewayHash !in gone then Casualties(records[1..], gone)
    else [records[0]] + Casualties(records[1..], gone)
  }

  predicate IsSubsequence<T(==)>(a: seq<T>, b: seq<T>) {
    if a == [] then true
    else if b == [] then false
    else if a[0] == b[0] then IsSubsequence(a[1..], b[1..]) else IsSubsequence(a, b[1..])
  }

  lemma {:induction false} SubsequenceSkip<T>(a: seq<T>, b: seq<T>)
    requires IsSubsequence(a, b)
    ensures a != [] ==> IsSubsequence(a[1..], b)
    decreases |b|
  {
    if a != [] {
      if a[0] == b[0] {
        if a[1..] != [] && a[1..][0] == b[0] {
          SubsequenceSkip(a[1..], b[1..]);
        }
      } else {
        SubsequenceSkip(a, b[1..]);
        if a[1..] != [] && a[1..][0] == b[0] {
          SubsequenceSkip(a[1..], b[1..]);
        }
      }
    }
  }

  lemma SubsequenceCons<T>(e: T, a: seq<T>, b: seq<T>)
    requires IsSubsequence(a, b)
    ensures IsSubsequence([e] + a, [e] + b) && IsSubsequence(a, [e] + b)
  {
    assert ([e] + a)[1..] == a && ([e] + b)[1..] == b;
    if a != [] {
      SubsequenceSkip(a, b);
    }
  }

  /** `a` and `x` partition `c`, and `a` keeps the order. */
  predicate Parts<T(==)>(a: seq<T>, x: seq<T>, c: seq<T>) {
    IsSubsequence(a, c) && multiset(c) == multiset(a) + multiset(x) && |c| == |a| + |x|
  }

  lemma PartsStep<T>(d: seq<T>, a: seq<T>, x: seq<T>, c: seq<T>)
    requires Parts(a, x, c) && |d| <= 1
    ensures Parts(d + a, x, d + c) && Parts(a, d + x, d + c)
  {
    if d == [] {
      assert d + a == a && d + c == c && d + x == x;
    } else {
      SubsequenceCons(d[0], a, c);
      assert d == [d[0]];
    }
  }

  /** A result computed before some gateways terminated, against one computed now: the one now is
      a subsequence, and what is missing from it came from the terminated gateways. */
  lemma {:induction false} TerminationsOnlyRemove(v: View, base: seq<DeviceRecord>, gone: set<Hash>, hash: ClassHash)
    ensures Parts(ComputeDeviceIndices(v, Survivors(base, gone), hash),
                  ComputeDeviceIndices(v, Casualties(base, gone), hash),
                  ComputeDeviceIndices(v, base, hash))
  {
    hide Contribution, Parts;
    if base == [] {
      PartsOfNothing<DeviceIndex>();
    } else {
      TerminationsOnlyRemove(v, base[1..], gone, hash);
      PartsStep(Contribution(v, base[0], hash),
                ComputeDeviceIndices(v, Survivors(base[1..], gone), hash),
                ComputeDeviceIndices(v, Casualties(base[1..], gone), hash),
                ComputeDeviceIndices(v, base[1..], hash));
    }
  }

  lemma PartsOfNothing<T>()
    ensures Parts<T>([], [], [])
  {}

  /** The cached result is still right exactly when no terminated gateway had a part in it. */
  lemma CachedIsFreshIff(v: View, base: seq<DeviceRecord>, gone: set<Hash>, hash: ClassHash)
    ensures ComputeDeviceIndices(v, base, hash) == ComputeDeviceIndices(v, Survivors(base, gone), hash)
       <==> ComputeDeviceIndices(v, Casualties(base, gone), hash) == []
  {
    TerminationsOnlyRemove(v, base, gone, hash);
    SubsequenceFull(ComputeDeviceIndices(v, Survivors(base, gone), hash), ComputeDeviceIndices(v, base, hash));
  }

  lemma {:induction false} SubsequenceFull<T>(a: seq<T>, b: seq<T>)
    requires IsSubsequence(a, b)
    ensures |a| <= |b| && (|a| == |b| ==> a == b)
    decreases |b|
  {
    if a != [] {
      if a[0] == b[0] {
        SubsequenceFull(a[1..], b[1..]);
      } else {
        SubsequenceFull(a, b[1..]);
      }
    }
  }

  lemma {:induction false} SurvivorsTwice(records: seq<DeviceRecord>, gone: set<Hash>, gone': set<Hash>)
    ensures Survivors(Survivors(records, gone), gone') == Survivors(records, gone + gone')
  {
    if records != [] {
      SurvivorsTwice(records[1..], gone, gone');
    }
  }

  lemma {:induction false} SurvivorsNone(records: seq<DeviceRecord>)
    ensures Survivors(records, {}) == records
  {
    if records != [] {
      SurvivorsNone(records[1..]);
    }
  }

  predicate DistinctGateways(records: seq<DeviceRecord>) {
    forall i, j :: 0 <= i < j < |records| ==> records[i].info.gatewayHash != records[j].info.gatewayHash
  }

  /** Erasing the one record of a gateway. */
  lemma {:induction false} EraseSurvivors(records: seq<DeviceRecord>, i: nat)
    requires DistinctGateways(records) && i < |records|
    ensures records[..i] + records[i + 1..] == Survivors(records, {records[i].info.gatewayHash})
  {
    var hash := records[i].info.gatewayHash;
    if i == 0 {
      AllSurvive(records[1..], {hash});
    } else {
      EraseSurvivors(records[1..], i - 1);
      assert records[1..][..i - 1] == records[..i][1..];
      assert records[1..][i..] == records[i + 1..];
      assert records[..i] + records[i + 1..] == [records[0]] + (records[1..][..i - 1] + records[1..][i..]);
    }
  }

  lemma {:induction false} AllSurvive(records: seq<DeviceRecord>, gone: set<Hash>)
    requires forall i :: 0 <= i < |records| ==> records[i].info.gatewayHash !in gone
    ensures Survivors(records, gone) == records
  {
    if records != [] {
      AllSurvive(records[1..], gone);
    }
  }

  // ---------- what the lookups return ----------

  /** Every destination is the device of a subscribed record, over a type both ends have. */
  lemma {:induction false} ComputedFrom(v: View, records: seq<DeviceRecord>, hash: ClassHash, d: DeviceIndex)
    ensures d in ComputeDeviceIndices(v, records, hash) <==>
            exists i :: 0 <= i < |records| && d in Contribution(v, records[i], hash)
  {
    hide Contribution;
    if records != [] {
      ComputedFrom(v, records[1..], hash, d);
      if exists i :: 0 <= i < |records| && d in Contribution(v, records[i], hash) {
        var i :| 0 <= i < |records| && d in Contribution(v, records[i], hash);
        assert i > 0 ==> records[1..][i - 1] == records[i];
      }
      if exists i :: 0 <= i < |records| - 1 && d in Contribution(v, records[1..][i], hash) {
        var i :| 0 <= i < |records| - 1 && d in Contribution(v, records[1..][i], hash);
        assert records[i + 1] == records[1..][i];
      }
    }
  }

  lemma {:induction false} ForwardedFrom(v: View, records: seq<DeviceRecord>, hash: ClassHash, source: Bitset, d: DeviceIndex)
    ensures d in ForwardTargets(v, records, hash, source) <==>
            exists i :: 0 <= i < |records| && d in ForwardContribution(v, records[i], hash, source)
  {
    hide ForwardContribution;
    if records != [] {
      ForwardedFrom(v, records[1..], hash, source, d);
      if exists i :: 0 <= i < |records| && d in ForwardContribution(v, records[i], hash, source) {
        var i :| 0 <= i < |records| && d in ForwardContribution(v, records[i], hash, source);
        assert i > 0 ==> records[1..][i - 1] == records[i];
      }
      if exists i :: 0 <= i < |records| - 1 && d in ForwardContribution(v, records[1..][i], hash, source) {
        var i :| 0 <= i < |records| - 1 && d in ForwardContribution(v, records[1..][i], hash, source);
        assert records[i + 1] == records[1..][i];
      }
    }
  }

  // ---------- who receives a message ----------

  /** Record r has d as a destination of messages of this class that came from a device with bitset
      `source`, the empty one for a local message: a subscribed service has the class, the two devices
      share no transport, and d is the record's first index of the type that matches. */
  predicate Reaches(v: View, r: DeviceRecord, hash: ClassHash, source: Bitset, d: DeviceIndex) {
    && (exists i :: 0 <= i < |r.info.userSubscribers| && v.classHash(r.info.userSubscribers[i]) == hash)
    && source * r.info.gatewayBitset == {}
    && Matches(v.good, v.bitset, v.preferred, r.info.gatewayBitset, d.transport)
    && exists j :: 0 <= j < |r.deviceIndices| && r.deviceIndices[j] == d
                   && forall i :: 0 <= i < j ==> r.deviceIndices[i].transport != d.transport
  }

  /** `d` is one destination for each record that has one, in record order; `at` says whose. */
  ghost predicate DestinationsAt(v: View, records: seq<DeviceRecord>, hash: ClassHash, source: Bitset,
                                 d: seq<DeviceIndex>, at: seq<nat>)
  {
    && |at| == |d|
    && (forall k :: 0 <= k < |at| ==> at[k] < |records| && Reaches(v, records[at[k]], hash, source, d[k]))
    && (forall j, k :: 0 <= j < k < |at| ==> at[j] < at[k])
    && (forall i, e :: 0 <= i < |records| && Reaches(v, records[i], hash, source, e) ==> i in at)
  }

  ghost predicate Destinations(v: View, records: seq<DeviceRecord>, hash: ClassHash, source: Bitset, d: seq<DeviceIndex>) {
    exists at :: DestinationsAt(v, records, hash, source, d, at)
  }

  lemma {:induction false} FirstOfType(indices: seq<DeviceIndex>, t: TransportType)
    ensures IndexOfType(indices, t) != [] ==>
              exists j :: 0 <= j < |indices| && indices[j] == IndexOfType(indices, t)[0]
                          && forall i :: 0 <= i < j ==> indices[i].transport != t
  {
    if indices != [] && indices[0].transport != t && IndexOfType(indices, t) != [] {
      FirstOfType(indices[1..], t);
      var j :| 0 <= j < |indices| - 1 && indices[1..][j] == IndexOfType(indices[1..], t)[0]
               && forall i :: 0 <= i < j ==> indices[1..][i].transport != t;
      assert forall i :: 0 < i < j + 1 ==> indices[i] == indices[1..][i - 1];
      assert indices[j + 1] == indices[1..][j];
    }
  }

  lemma ContributionReaches(v: View, r: DeviceRecord, hash: ClassHash, source: Bitset)
    ensures forall d :: Reaches(v, r, hash, source, d) <==> ForwardContribution(v, r, hash, source) == [d]
  {
    var t := MatchingType(v.good, v.bitset, v.preferred, r.info.gatewayBitset);
    FirstOfType(r.deviceIndices, t);
    hide MatchingType, IndexOfType;
  }

  /** The positions seen from one record earlier. */
  function Later(c: seq<DeviceIndex>, at: seq<nat>): seq<nat> {
    (if c == [] then [] else [0]) + seq(|at|, k requires 0 <= k < |at| => at[k] + 1)
  }

  lemma LaterAt(c: seq<DeviceIndex>, at: seq<nat>)
    requires |c| <= 1
    ensures |Later(c, at)| == |c| + |at|
    ensures forall k :: 0 <= k < |at| ==> Later(c, at)[|c| + k] == at[k] + 1
    ensures forall i: nat :: i in at ==> i + 1 in Later(c, at)
    ensures c != [] ==> Later(c, at)[0] == 0
  {
    forall i: nat | i in at ensures i + 1 in Later(c, at) {
      var k :| 0 <= k < |at| && at[k] == i;
      assert Later(c, at)[|c| + k] == i + 1;
    }
  }

  lemma LaterIncreases(c: seq<DeviceIndex>, at: seq<nat>)
    requires |c| <= 1 && forall j, k :: 0 <= j < k < |at| ==> at[j] < at[k]
    ensures forall j, k :: 0 <= j < k < |Later(c, at)| ==> Later(c, at)[j] < Later(c, at)[k]
  {}

  lemma ReachedAt(v: View, records: seq<DeviceRecord>, hash: ClassHash, source: Bitset, d: seq<DeviceIndex>, at: seq<nat>)
    requires DestinationsAt(v, records, hash, source, d, at)
    ensures |at| == |d| && forall m :: 0 <= m < |at| ==> at[m] < |records| && Reaches(v, records[at[m]], hash, source, d[m])
  {
    hide Reaches;
  }

  lemma CoveredBy(v: View, records: seq<DeviceRecord>, hash: ClassHash, source: Bitset, d: seq<DeviceIndex>, at: seq<nat>,
                  i: nat, x: DeviceIndex)
    requires DestinationsAt(v, records, hash, source, d, at) && i < |records| && Reaches(v, records[i], hash, source, x)
    ensures i in at
  {
    hide Reaches;
  }

  lemma LaterReached(v: View, records: seq<DeviceRecord>, hash: ClassHash, source: Bitset, d: seq<DeviceIndex>, at: seq<nat>,
                     c: seq<DeviceIndex>, k: nat)
    requires records != [] && DestinationsAt(v, records[1..], hash, source, d, at)
    requires |c| <= 1 && (c != [] ==> Reaches(v, records[0], hash, source, c[0])) && k < |Later(c, at)|
    ensures Later(c, at)[k] < |records| && Reaches(v, records[Later(c, at)[k]], hash, source, (c + d)[k])
  {
    hide Reaches, Later, DestinationsAt;
    LaterAt(c, at);
    ReachedAt(v, records[1..], hash, source, d, at);
    if k >= |c| {
      var m := k - |c|;
      assert Later(c, at)[|c| + m] == at[m] + 1;
      assert records[1..][at[m]] == records[at[m] + 1];
    }
  }

  lemma LaterCovers(v: View, records: seq<DeviceRecord>, hash: ClassHash, source: Bitset, d: seq<DeviceIndex>, at: seq<nat>,
                    c: seq<DeviceIndex>, i: nat, x: DeviceIndex)
    requires records != [] && DestinationsAt(v, records[1..], hash, source, d, at)
    requires |c| <= 1 && (Reaches(v, records[0], hash, source, x) ==> c != [])
    requires i < |records| && Reaches(v, records[i], hash, source, x)
    ensures i in Later(c, at)
  {
    hide Reaches, Later, DestinationsAt;
    LaterAt(c, at);
    if i > 0 {
      assert records[1..][i - 1] == records[i];
      CoveredBy(v, records[1..], hash, source, d, at, i - 1, x);
    } else {
      assert Later(c, at)[0] == 0;
    }
  }

  lemma OneRecordMore(v: View, records: seq<DeviceRecord>, hash: ClassHash, source: Bitset, d: seq<DeviceIndex>, at: seq<nat>)
    requires records != [] && DestinationsAt(v, records[1..], hash, source, d, at)
    ensures var c := ForwardContribution(v, records[0], hash, source);
            DestinationsAt(v, records, hash, source, c + d, Later(c, at))
  {
    var c := ForwardContribution(v, records[0], hash, source);
    ContributionReaches(v, records[0], hash, source);
    LaterAt(c, at);
    LaterIncreases(c, at);
    hide Reaches, ForwardContribution, Later;
    forall k | 0 <= k < |Later(c, at)|
      ensures Later(c, at)[k] < |records| && Reaches(v, records[Later(c, at)[k]], hash, source, (c + d)[k])
    {
      LaterReached(v, records, hash, source, d, at, c, k);
    }
    forall i, x | 0 <= i < |records| && Reaches(v, records[i], hash, source, x) ensures i in Later(c, at) {
      LaterCovers(v, records, hash, source, d, at, c, i, x);
    }
  }

  lemma {:induction false} TargetsAt(v: View, records: seq<DeviceRecord>, hash: ClassHash, source: Bitset) returns (at: seq<nat>)
    ensures DestinationsAt(v, records, hash, source, ForwardTargets(v, records, hash, source), at)
  {
    hide Reaches, ForwardContribution;
    if records == [] {
      at := [];
    } else {
      var later := TargetsAt(v, records[1..], hash, source);
      OneRecordMore(v, records, hash, source, ForwardTargets(v, records[1..], hash, source), later);
      at := Later(ForwardContribution(v, records[0], hash, source), later);
    }
  }

  lemma {:induction false} LocalTargets(v: View, records: seq<DeviceRecord>, hash: ClassHash)
    ensures ComputeDeviceIndices(v, records, hash) == ForwardTargets(v, records, hash, {})
  {
    hide Contribution;
    if records != [] {
      LocalTargets(v, records[1..], hash);
    }
  }

  /** A local message goes to each gateway with a service of its class among its subscribers, over the
      type that matches, if the gateway is known over it: once, in record order, and to no other. */
  lemma WhoReceives(v: View, records: seq<DeviceRecord>, hash: ClassHash)
    ensures Destinations(v, records, hash, {}, ComputeDeviceIndices(v, records, hash))
  {
    hide DestinationsAt;
    LocalTargets(v, records, hash);
    var at := TargetsAt(v, records, hash, {});
  }

  /** The source of a forwarded message is the last record that has its device index. */
  predicate IsSource(records: seq<DeviceRecord>, from: DeviceIndex, i: nat) {
    && i < |records| && from in records[i].deviceIndices
    && forall j :: i < j < |records| ==> from !in records[j].deviceIndices
  }

  /** A message is forwarded if its source is known with a bitset that is not empty. */
  ghost predicate Forwarded(v: View, records: seq<DeviceRecord>, hash: ClassHash, from: DeviceIndex, d: seq<DeviceIndex>) {
    && (forall i: nat :: IsSource(records, from, i) && records[i].info.gatewayBitset != {} ==>
          Destinations(v, records, hash, records[i].info.gatewayBitset, d))
    && ((forall i: nat :: IsSource(records, from, i) ==> records[i].info.gatewayBitset == {}) ==> d == [])
  }

  lemma {:induction false} SourceBitset(records: seq<DeviceRecord>, from: DeviceIndex)
    ensures forall i: nat :: IsSource(records, from, i) ==> BitsetFrom(records, from) == records[i].info.gatewayBitset
    ensures BitsetFrom(records, from) != {} ==> exists i: nat :: IsSource(records, from, i)
  {
    if records != [] {
      var n := |records| - 1;
      if from in records[n].deviceIndices {
        assert IsSource(records, from, n);
      } else {
        SourceBitset(records[..n], from);
        forall i: nat | IsSource(records, from, i) ensures IsSource(records[..n], from, i) {}
        if i: nat :| IsSource(records[..n], from, i) {
          assert IsSource(records, from, i);
        }
      }
    }
  }

  /** A forwarded message goes to exactly the subscribed gateways that share no type with its source. */
  lemma WhoIsForwarded(v: View, records: seq<DeviceRecord>, hash: ClassHash, from: DeviceIndex)
    ensures Forwarded(v, records, hash, from, ForwardIndices(v, records, hash, from))
  {
    hide DestinationsAt, IsSource, ForwardTargets, BitsetFrom;
    SourceBitset(records, from);
    var at := TargetsAt(v, records, hash, BitsetFrom(records, from));
  }

  lemma {:induction false} BitsetFromRecord(records: seq<DeviceRecord>, from: DeviceIndex)
    requires BitsetFrom(records, from) != {}
    ensures exists i :: 0 <= i < |records| && from in records[i].deviceIndices
                        && records[i].info.gatewayBitset == BitsetFrom(records, from)
  {
    var n := |records| - 1;
    if from !in records[n].deviceIndices {
      BitsetFromRecord(records[..n], from);
      var i :| 0 <= i < n && from in records[..n][i].deviceIndices
               && records[..n][i].info.gatewayBitset == BitsetFrom(records[..n], from);
      assert records[i] == records[..n][i];
    }
  }

  // ---------- how a discovery message changes the records ----------

  /** Position of the gateway's record, or the length. */
  function FindRecord(records: seq<DeviceRecord>, hash: Hash): (i: nat)
    ensures i <= |records|
    ensures i < |records| ==> records[i].info.gatewayHash == hash
    ensures forall j :: 0 <= j < i ==> records[j].info.gatewayHash != hash
  {
    if records == [] || records[0].info.gatewayHash == hash then 0 else 1 + FindRecord(records[1..], hash)
  }

  /** A device index is stored if the record has none of its type yet; see IndicesLearnt. */
  function StoreIndex(indices: seq<DeviceIndex>, d: DeviceIndex): seq<DeviceIndex> {
    if IndexOfType(indices, d.transport) == [] then indices + [d] else indices
  }

  /** The record of a gateway seen for the first time is put at the end; when the table is full that
      fails unnoticed, and the last record there is is taken for it. */
  function RecordsAfter(records: seq<DeviceRecord>, info: PubSubInfo, from: DeviceIndex): seq<DeviceRecord> {
    var i := FindRecord(records, info.gatewayHash);
    if info.isTermination then
      if i < |records| then records[..i] + records[i + 1..] else records
    else if i < |records| then records[i := DeviceRecord(info, StoreIndex(records[i].deviceIndices, from))]
    else if |records| < MAX_DEVICE_COUNT then records + [DeviceRecord(info, [from])]
    else
      var last := |records| - 1;
      records[last := DeviceRecord(info, StoreIndex(records[last].deviceIndices, from))]
  }

  /** The message needs no new record, or there is room for one. */
  predicate Room(records: seq<DeviceRecord>, info: PubSubInfo) {
    info.isTermination || FindRecord(records, info.gatewayHash) < |records| || |records| < MAX_DEVICE_COUNT
  }

  /** One record for a gateway, holding its last message; and, exactly if there is room, the others as
      they were. */
  lemma RecordsAfterMeaning(records: seq<DeviceRecord>, info: PubSubInfo, from: DeviceIndex)
    requires DistinctGateways(records) && |records| <= MAX_DEVICE_COUNT
    ensures var s := RecordsAfter(records, info, from);
            && DistinctGateways(s) && |s| <= MAX_DEVICE_COUNT
            && (info.isTermination ==> forall j :: 0 <= j < |s| ==> s[j].info.gatewayHash != info.gatewayHash)
            && (!info.isTermination ==>
                  exists j :: 0 <= j < |s| && s[j].info == info && from.transport in TypesIn(s[j].deviceIndices))
            && (Room(records, info) <==> forall r :: r in records && r.info.gatewayHash != info.gatewayHash ==> r in s)
            && (forall r :: r in s && r.info.gatewayHash != info.gatewayHash ==> r in records)
  {
    if info.isTermination {
      ErasedMeaning(records, info, from);
    } else {
      StoredMeaning(records, info, from);
    }
  }

  /** Erasing position i keeps every element that is at another one. */
  lemma ErasedKeeps<T>(s: seq<T>, i: nat, j: nat)
    requires i < |s| && j < |s| && j != i
    ensures s[j] in Without(s, i)
  {
    assert Without(s, i)[if j < i then j else j - 1] == s[j];
    hide Without;
  }

  lemma ErasedMeaning(records: seq<DeviceRecord>, info: PubSubInfo, from: DeviceIndex)
    requires DistinctGateways(records) && info.isTermination
    ensures var s := RecordsAfter(records, info, from);
            && DistinctGateways(s)
            && (forall j :: 0 <= j < |s| ==> s[j].info.gatewayHash != info.gatewayHash)
            && (forall r :: r in records && r.info.gatewayHash != info.gatewayHash ==> r in s)
            && (forall r :: r in s ==> r in records)
  {
    var i := FindRecord(records, info.gatewayHash);
    var s := RecordsAfter(records, info, from);
    if i < |records| {
      assert s == Without(records, i);
      hide RecordsAfter, FindRecord, Without;
      forall r | r in records && r.info.gatewayHash != info.gatewayHash ensures r in s {
        var j :| 0 <= j < |records| && records[j] == r;
        ErasedKeeps(records, i, j);
      }
    }
  }

  lemma StoredMeaning(records: seq<DeviceRecord>, info: PubSubInfo, from: DeviceIndex)
    requires DistinctGateways(records) && |records| <= MAX_DEVICE_COUNT && !info.isTermination
    ensures var s := RecordsAfter(records, info, from);
            && DistinctGateways(s) && |s| <= MAX_DEVICE_COUNT
            && (exists j :: 0 <= j < |s| && s[j].info == info && from.transport in TypesIn(s[j].deviceIndices))
            && (Room(records, info) <==> forall r :: r in records && r.info.gatewayHash != info.gatewayHash ==> r in s)
            && (forall r :: r in s && r.info.gatewayHash != info.gatewayHash ==> r in records)
  {
    var i := FindRecord(records, info.gatewayHash);
    var s := RecordsAfter(records, info, from);
    var at := if i == |records| == MAX_DEVICE_COUNT then i - 1 else i;
    assert s[at].info == info;
    StoredType(if at < |records| then records[at].deviceIndices else [], from);
    assert forall j :: 0 <= j < |records| && j != at ==> records[j] == s[j];
    if !Room(records, info) {
      assert records[at] in records && records[at] !in s;
    }
  }

  function TypesIn(indices: seq<DeviceIndex>): set<TransportType> {
    set i | 0 <= i < |indices| :: indices[i].transport
  }

  lemma StoredType(indices: seq<DeviceIndex>, d: DeviceIndex)
    ensures d.transport in TypesIn(StoreIndex(indices, d))
    ensures indices == [] ==> StoreIndex(indices, d) == [d]
  {
    var s := StoreIndex(indices, d);
    if IndexOfType(indices, d.transport) == [] {
      assert s[|indices|] == d;
    }
  }

  // ---------- what is learnt of a gateway's devices ----------

  predicate OnePerType(indices: seq<DeviceIndex>) {
    forall j, k :: 0 <= j < k < |indices| ==> indices[j].transport != indices[k].transport
  }

  /** Every record has at most one device index for each type. */
  predicate OneIndexPerType(records: seq<DeviceRecord>) {
    forall i :: 0 <= i < |records| ==> OnePerType(records[i].deviceIndices)
  }

  /** The indices known before stay where they are, and only an index of a new type is added. */
  predicate Learnt(before: seq<DeviceIndex>, after: seq<DeviceIndex>, from: DeviceIndex) {
    && before <= after
    && (if from.transport in TypesIn(before) then |after| == |before|
        else |after| == |before| + 1 && after[|before|] == from)
  }

  /** What a message that is not a termination makes of the records' device indices: its gateway's record
      keeps what it had and learns the sender's; a first one learns it alone; and when the table is full a
      new gateway takes over the last record with the indices in it. */
  lemma IndicesLearnt(records: seq<DeviceRecord>, info: PubSubInfo, from: DeviceIndex)
    requires !info.isTermination && |records| <= MAX_DEVICE_COUNT
    ensures var i, s := FindRecord(records, info.gatewayHash), RecordsAfter(records, info, from);
            var at := if Room(records, info) then i else |records| - 1;
            && at < |s| && s[at].info == info
            && Learnt(if at < |records| then records[at].deviceIndices else [], s[at].deviceIndices, from)
            && |s| == (if at == |records| then at + 1 else |records|)
            && forall j :: 0 <= j < |records| && j != at ==> s[j] == records[j]
  {}

  lemma LearntOnePerType(before: seq<DeviceIndex>, after: seq<DeviceIndex>, from: DeviceIndex)
    requires Learnt(before, after, from) && OnePerType(before)
    ensures OnePerType(after)
  {
    forall j | 0 <= j < |before| && from.transport !in TypesIn(before) ensures before[j].transport != from.transport {}
  }

  lemma OneIndexPerTypeKept(records: seq<DeviceRecord>, info: PubSubInfo, from: DeviceIndex)
    requires OneIndexPerType(records) && |records| <= MAX_DEVICE_COUNT
    ensures OneIndexPerType(RecordsAfter(records, info, from))
  {
    if !info.isTermination {
      IndicesLearnt(records, info, from);
      var i, s := FindRecord(records, info.gatewayHash), RecordsAfter(records, info, from);
      var at := if Room(records, info) then i else |records| - 1;
      LearntOnePerType(if at < |records| then records[at].deviceIndices else [], s[at].deviceIndices, from);
      hide RecordsAfter, Learnt, OnePerType;
    }
  }

  predicate HasRecord(records: seq<DeviceRecord>, g: Hash) {
    exists i :: 0 <= i < |records| && records[i].info.gatewayHash == g
  }

  /** The gateway is known to have this device. */
  predicate Knows(records: seq<DeviceRecord>, g: Hash, d: DeviceIndex) {
    exists i :: 0 <= i < |records| && records[i].info.gatewayHash == g && d in records[i].deviceIndices
  }

  /** The message costs gateway g its record: it is its termination, or it takes over the last record of
      a full table. */
  predicate Loses(records: seq<DeviceRecord>, info: PubSubInfo, g: Hash) {
    if info.isTermination then info.gatewayHash == g
    else !Room(records, info) && records[|records| - 1].info.gatewayHash == g
  }

  /** A known device stays known until its gateway's record is lost, and that happens in no other way. */
  lemma KnownStays(records: seq<DeviceRecord>, info: PubSubInfo, from: DeviceIndex, g: Hash, d: DeviceIndex)
    requires DistinctGateways(records) && |records| <= MAX_DEVICE_COUNT && Knows(records, g, d)
    ensures Knows(RecordsAfter(records, info, from), g, d) <==> HasRecord(RecordsAfter(records, info, from), g)
    ensures HasRecord(RecordsAfter(records, info, from), g) <==> !Loses(records, info, g)
  {
    var s := RecordsAfter(records, info, from);
    var i :| 0 <= i < |records| && records[i].info.gatewayHash == g && d in records[i].deviceIndices;
    RecordsAfterMeaning(records, info, from);
    if info.isTermination {
      hide RecordsAfter, FindRecord;
      if info.gatewayHash != g {
        assert records[i] in s;
        var j :| 0 <= j < |s| && s[j] == records[i];
      }
    } else {
      IndicesLearnt(records, info, from);
      hide RecordsAfter, Learnt;
      if !Loses(records, info, g) {
        assert s[i].info.gatewayHash == g && d in s[i].deviceIndices by {
          LearntKeeps(records[i].deviceIndices, s[i].deviceIndices, from, d);
        }
      }
    }
  }

  lemma LearntKeeps(before: seq<DeviceIndex>, after: seq<DeviceIndex>, from: DeviceIndex, d: DeviceIndex)
    requires d in before
    ensures Learnt(before, after, from) || after == before ==> d in after
  {}

  /** The records after a run of discovery messages. */
  function RecordsAfterAll(records: seq<DeviceRecord>, ms: seq<(PubSubInfo, DeviceIndex)>): seq<DeviceRecord> {
    if ms == [] then records
    else
      var n := |ms| - 1;
      RecordsAfter(RecordsAfterAll(records, ms[..n]), ms[n].0, ms[n].1)
  }

  lemma {:induction false} RecordsFit(records: seq<DeviceRecord>, ms: seq<(PubSubInfo, DeviceIndex)>)
    requires DistinctGateways(records) && |records| <= MAX_DEVICE_COUNT
    ensures var s := RecordsAfterAll(records, ms); DistinctGateways(s) && |s| <= MAX_DEVICE_COUNT
  {
    hide DistinctGateways, RecordsAfter;
    if ms != [] {
      var n := |ms| - 1;
      RecordsFit(records, ms[..n]);
      RecordsAfterMeaning(RecordsAfterAll(records, ms[..n]), ms[n].0, ms[n].1);
    }
  }

  /** Over any run of messages: as long as the gateway has a record, every device once learnt is in it. */
  lemma {:induction false} DevicesStayKnown(records: seq<DeviceRecord>, ms: seq<(PubSubInfo, DeviceIndex)>, g: Hash, d: DeviceIndex)
    requires DistinctGateways(records) && |records| <= MAX_DEVICE_COUNT && Knows(records, g, d)
    requires forall k :: 0 <= k <= |ms| ==> HasRecord(RecordsAfterAll(records, ms[..k]), g)
    ensures Knows(RecordsAfterAll(records, ms), g, d)
  {
    hide DistinctGateways, RecordsAfter, Knows, HasRecord;
    if ms != [] {
      var n := |ms| - 1;
      assert forall k :: 0 <= k <= n ==> ms[..n][..k] == ms[..k];
      DevicesStayKnown(records, ms[..n], g, d);
      RecordsFit(records, ms[..n]);
      assert ms[..|ms|] == ms;
      KnownStays(RecordsAfterAll(records, ms[..n]), ms[n].0, ms[n].1, g, d);
    }
  }

  // ---------- the cache ----------

  /** Every cached result is the lookup on the records of its time, and since then records have
      only gone. `base` and `gone` keep, for each result, those records and the gateways whose
      record has been erased since. */
  ghost predicate CacheSound(m: map<ClassHash, seq<DeviceIndex>>, v: View, records: seq<DeviceRecord>,
                             base: map<ClassHash, seq<DeviceRecord>>, gone: map<ClassHash, set<Hash>>)
  {
    forall h :: h in m ==>
      && h in base && h in gone
      && m[h] == ComputeDeviceIndices(v, base[h], h)
      && records == Survivors(base[h], gone[h])
  }

  function AlsoGone(gone: map<ClassHash, set<Hash>>, g: Hash): map<ClassHash, set<Hash>> {
    map h | h in gone :: gone[h] + {g}
  }

  lemma EmptyCacheSound(v: View, records: seq<DeviceRecord>,
                        base: map<ClassHash, seq<DeviceRecord>>, gone: map<ClassHash, set<Hash>>)
    ensures CacheSound(map[], v, records, base, gone)
  {}

  /** A termination erases one record and leaves the cache. */
  lemma TerminationKeepsSound(m: map<ClassHash, seq<DeviceIndex>>, v: View, records: seq<DeviceRecord>, i: nat,
                              base: map<ClassHash, seq<DeviceRecord>>, gone: map<ClassHash, set<Hash>>)
    requires CacheSound(m, v, records, base, gone) && DistinctGateways(records) && i < |records|
    ensures CacheSound(m, v, records[..i] + records[i + 1..], base,
                       AlsoGone(gone, records[i].info.gatewayHash))
  {
    hide ComputeDeviceIndices, Survivors, DistinctGateways;
    var g := {records[i].info.gatewayHash};
    EraseSurvivors(records, i);
    forall h | h in m ensures records[..i] + records[i + 1..] == Survivors(base[h], gone[h] + g) {
      SurvivorsTwice(base[h], gone[h], g);
    }
  }

  /** A query that finds nothing cached adds the lookup on the present records. */
  lemma QueryKeepsSound(m: map<ClassHash, seq<DeviceIndex>>, v: View, records: seq<DeviceRecord>, hash: ClassHash,
                        base: map<ClassHash, seq<DeviceRecord>>, gone: map<ClassHash, set<Hash>>)
    requires CacheSound(m, v, records, base, gone)
    ensures CacheSound(m[hash := ComputeDeviceIndices(v, records, hash)], v, records, base[hash := records], gone[hash := {}])
  {
    hide ComputeDeviceIndices, Survivors;
    SurvivorsNone(records);
  }

  /** What a cached result is worth now: the present lookup is a subsequence of it, the extras are
      destinations in gateways terminated since, and there are none exactly when no such gateway
      was a destination. */
  lemma CachedResult(m: map<ClassHash, seq<DeviceIndex>>, v: View, records: seq<DeviceRecord>, hash: ClassHash,
                     base: map<ClassHash, seq<DeviceRecord>>, gone: map<ClassHash, set<Hash>>)
    requires CacheSound(m, v, records, base, gone) && hash in m
    ensures Parts(ComputeDeviceIndices(v, records, hash),
                  ComputeDeviceIndices(v, Casualties(base[hash], gone[hash]), hash), m[hash])
    ensures m[hash] == ComputeDeviceIndices(v, records, hash)
       <==> ComputeDeviceIndices(v, Casualties(base[hash], gone[hash]), hash) == []
  {
    TerminationsOnlyRemove(v, base[hash], gone[hash], hash);
    CachedIsFreshIff(v, base[hash], gone[hash], hash);
  }
}
