/** Discovery among more gateways than a record table has room for: the exchange of announcements need
    not end, and agreement is out of reach. */
module CrowdedNetwork {
  import opened Types
  import opened Helpers
  import opened Routing
  import opened Discovery
  import opened DiscoveryNetwork

  // ---------- who is in a record table ----------

  function Hashes(records: seq<DeviceRecord>): (r: seq<Hash>)
    ensures |r| == |records| && forall i :: 0 <= i < |r| ==> r[i] == records[i].info.gatewayHash
  {
    seq(|records|, i requires 0 <= i < |records| => records[i].info.gatewayHash)
  }

  lemma Found(records: seq<DeviceRecord>, hash: Hash)
    ensures FindRecord(records, hash) < |records| ==> hash in Hashes(records)
  {
    var i := FindRecord(records, hash);
    if i < |records| {
      assert Hashes(records)[i] == hash;
    }
  }

  /** A first message is put at the end, or at the last place of a full table. */
  lemma NewHash(records: seq<DeviceRecord>, m: PubSubInfo, from: DeviceIndex)
    requires m.gatewayHash !in Hashes(records) && !m.isTermination && |records| <= MAX_DEVICE_COUNT
    ensures Hashes(RecordsAfter(records, m, from))
            == (if |records| == MAX_DEVICE_COUNT then Hashes(records)[..|records| - 1] else Hashes(records)) + [m.gatewayHash]
  {
    Found(records, m.gatewayHash);
  }

  // ---------- three gateways that keep forgetting each other ----------

  /** What is under way from i to j are announcements of i. */
  ghost predicate Own(w: Network, i: nat, j: nat)
    requires w.Shaped() && i < |w.nodes| && j < |w.nodes|
  {
    forall k :: 0 <= k < |w.chans[(i, j)]| ==>
      w.chans[(i, j)][k].gatewayHash == w.nodes[i].hash && !w.chans[(i, j)][k].isTermination
  }

  /** Three running gateways that send each other announcements. */
  ghost predicate Trio(w: Network, x: nat, y: nat, z: nat) {
    && w.Shaped() && x < |w.nodes| && y < |w.nodes| && z < |w.nodes| && x != y && y != z && z != x
    && w.nodes[x].hash != w.nodes[y].hash && w.nodes[y].hash != w.nodes[z].hash && w.nodes[z].hash != w.nodes[x].hash
    && w.nodes[x].phase == On && w.nodes[y].phase == On && w.nodes[z].phase == On
    && Own(w, x, y) && Own(w, y, x) && Own(w, y, z) && Own(w, z, y) && Own(w, z, x) && Own(w, x, z)
  }

  /** Gateway i knows the gateways in `others` and, in the last place of its table, gateway j. */
  ghost predicate Knows(w: Network, i: nat, others: seq<Hash>, j: nat)
    requires i < |w.nodes| && j < |w.nodes|
  {
    Hashes(w.nodes[i].records) == others + [w.nodes[j].hash]
  }

  /** Of three gateways each knows one other, and of an announcement under way to one who does not
      know its sender. */
  ghost predicate Ring(w: Network, x: nat, y: nat, z: nat, others: seq<Hash>) {
    && Trio(w, x, y, z) && |others| == MAX_DEVICE_COUNT - 1
    && w.nodes[x].hash !in others && w.nodes[y].hash !in others && w.nodes[z].hash !in others
    && Knows(w, x, others, y) && Knows(w, y, others, z) && Knows(w, z, others, x)
    && w.chans[(x, y)] != []
  }

  /** A first message is delivered: its receiver answers everyone. */
  lemma FirstMessage(w: Network, x: nat, y: nat)
    requires w.Shaped() && x < |w.nodes| && y < |w.nodes| && x != y && w.chans[(x, y)] != [] && Own(w, x, y)
    requires w.nodes[y].phase == On && |w.nodes[y].records| <= MAX_DEVICE_COUNT
    requires w.nodes[x].hash !in Hashes(w.nodes[y].records)
    ensures var e, rs := Deliver(x, y, 0), w.nodes[y].records;
            && Enabled(w, e) && ChangedAt(w, After(w, e), y)
            && After(w, e).nodes[y] == w.nodes[y].(records := After(w, e).nodes[y].records)
            && Hashes(After(w, e).nodes[y].records)
               == (if |rs| == MAX_DEVICE_COUNT then Hashes(rs)[..|rs| - 1] else Hashes(rs)) + [w.nodes[x].hash]
            && After(w, e).chans[(x, y)] == w.chans[(x, y)][1..]
            && (forall k: nat :: k < |w.nodes| && k != x && k != y ==> After(w, e).chans[(k, y)] == w.chans[(k, y)])
            && (forall k: nat :: k < |w.nodes| && k != y && w.nodes[k].phase == On ==>
                  After(w, e).chans[(y, k)] == w.chans[(y, k)] + [Info(w.nodes[y], w.bits, 0)])
  {
    var e, m, n := Deliver(x, y, 0), w.chans[(x, y)][0], w.nodes[y];
    Found(n.records, m.gatewayHash);
    NewHash(n.records, m, DeviceIndex(UDP, Wrap32(x)));
    DeliverShape(w, e);
    hide RecordsAfter, Info, After;
  }

  lemma OwnMore(w: Network, v: Network, i: nat, j: nat, infoHash: Hash)
    requires w.Shaped() && v.Shaped() && i < |w.nodes| == |v.nodes| && j < |w.nodes| && Own(w, i, j)
    requires v.nodes[i].hash == w.nodes[i].hash
    requires v.chans[(i, j)] == w.chans[(i, j)] || v.chans[(i, j)] == w.chans[(i, j)] + [Info(w.nodes[i], w.bits, infoHash)]
             || (w.chans[(i, j)] != [] && v.chans[(i, j)] == w.chans[(i, j)][1..])
    ensures Own(v, i, j)
  {}

  /** One delivery in a ring of three: y comes to know x and forgets z. */
  lemma Bump(w: Network, x: nat, y: nat, z: nat, others: seq<Hash>)
    requires Trio(w, x, y, z) && |others| == MAX_DEVICE_COUNT - 1 && w.nodes[x].hash !in others
    requires Knows(w, y, others, z) && w.chans[(x, y)] != []
    ensures var e := Deliver(x, y, 0);
            && Enabled(w, e) && Trio(After(w, e), x, y, z) && Knows(After(w, e), y, others, x)
            && |After(w, e).nodes| == |w.nodes|
            && (forall k :: 0 <= k < |w.nodes| ==> After(w, e).nodes[k].hash == w.nodes[k].hash)
            && After(w, e).nodes[x] == w.nodes[x] && After(w, e).nodes[z] == w.nodes[z]
            && After(w, e).chans[(y, z)] != [] && After(w, e).chans[(y, x)] != []
  {
    var e, rs := Deliver(x, y, 0), w.nodes[y].records;
    assert w.nodes[x].hash !in Hashes(rs);
    FirstMessage(w, x, y);
    assert Hashes(rs)[..|rs| - 1] == others;
    var v := After(w, e);
    hide After, Enabled, Info, Own, Hashes;
    OwnMore(w, v, x, y, 0);
    OwnMore(w, v, y, x, 0);
    OwnMore(w, v, y, z, 0);
    OwnMore(w, v, z, y, 0);
    OwnMore(w, v, z, x, 0);
    OwnMore(w, v, x, z, 0);
  }

  function Round(x: nat, y: nat, z: nat): seq<Event> {
    [Deliver(x, y, 0), Deliver(y, z, 0), Deliver(z, x, 0)]
  }

  /** Three deliveries turn the ring round. */
  lemma RingTurns(w: Network, x: nat, y: nat, z: nat, others: seq<Hash>)
    requires Ring(w, x, y, z, others)
    ensures AnyRuns(w, Round(x, y, z)) && Ring(AnyEnd(w, Round(x, y, z)), x, z, y, others)
  {
    Bump(w, x, y, z, others);
    var u := After(w, Deliver(x, y, 0));
    hide After, Enabled, Own, Hashes;
    Bump(u, y, z, x, others);
    var t := After(u, Deliver(y, z, 0));
    Bump(t, z, x, y, others);
    var v := After(t, Deliver(z, x, 0));
    var es := Round(x, y, z);
    assert es[1..] == [Deliver(y, z, 0), Deliver(z, x, 0)];
    assert es[1..][1..] == [Deliver(z, x, 0)] && es[1..][1..][1..] == [];
    assert AnyRuns(v, []) && AnyEnd(v, []) == v;
    assert AnyRuns(t, es[1..][1..]) && AnyEnd(t, es[1..][1..]) == v;
    assert AnyRuns(u, es[1..]) && AnyEnd(u, es[1..]) == v;
  }

  // ---------- runs put together ----------

  lemma {:induction false} RunsOn(w: Network, es: seq<Event>, fs: seq<Event>)
    requires AnyRuns(w, es) && AnyRuns(AnyEnd(w, es), fs)
    ensures AnyRuns(w, es + fs) && AnyEnd(w, es + fs) == AnyEnd(AnyEnd(w, es), fs)
    decreases |es|
  {
    hide After, Enabled;
    if es == [] {
      assert es + fs == fs;
    } else {
      RunsOn(After(w, es[0]), es[1..], fs);
      assert (es + fs)[1..] == es[1..] + fs;
    }
  }

  lemma RunsOne(w: Network, e: Event)
    requires Enabled(w, e)
    ensures AnyRuns(w, [e]) && AnyEnd(w, [e]) == After(w, e)
  {
    hide After, Enabled;
    assert AnyRuns(After(w, e), [e][1..]) && AnyEnd(After(w, e), [e][1..]) == After(w, e);
  }

  /** So the ring goes on for as long as anybody likes, by deliveries alone. */
  lemma {:induction false} RingGoesOn(w: Network, x: nat, y: nat, z: nat, others: seq<Hash>, n: nat) returns (es: seq<Event>)
    requires Ring(w, x, y, z, others)
    ensures AnyRuns(w, es) && OnlyDeliveries(es) && |es| >= n
    decreases n
  {
    if n == 0 {
      es := [];
    } else {
      hide Ring, After, Enabled;
      RingTurns(w, x, y, z, others);
      var more := RingGoesOn(AnyEnd(w, Round(x, y, z)), x, z, y, others, n - 1);
      RunsOn(w, Round(x, y, z), more);
      es := Round(x, y, z) + more;
    }
  }

  // ---------- from the start into the ring ----------

  /** A gateway is started: it announces itself to those that run. */
  lemma StartShape(w: Network, j: nat)
    requires w.Shaped() && j < |w.nodes| && w.nodes[j].phase == Off
    ensures var e, v := Start(j, 0), After(w, Start(j, 0));
            && Enabled(w, e) && ChangedAt(w, v, j)
            && v.nodes[j] == w.nodes[j].(phase := On)
            && (forall k: nat :: k < |w.nodes| && k != j ==> v.chans[(k, j)] == w.chans[(k, j)])
            && (forall k: nat :: k < |w.nodes| && k != j && w.nodes[k].phase == On ==>
                  v.chans[(j, k)] == w.chans[(j, k)] + [Info(w.nodes[j], w.bits, 0)])
            && (forall k: nat :: k < |w.nodes| && k != j && !w.nodes[k].Alive() ==> v.chans[(j, k)] == w.chans[(j, k)])
  {
    hide Info;
    InfoSame(w.nodes[j], w.bits);
  }

  lemma InfoSame(n: Node, bits: Bitset)
    ensures Info(n.(phase := On), bits, 0) == Info(n, bits, 0)
  {}

  /** The first r gateways have been started and have received nothing yet. */
  ghost predicate Started(w: Network, r: nat) {
    && w.Shaped() && r <= |w.nodes|
    && (forall i, j :: 0 <= i < j < |w.nodes| ==> w.nodes[i].hash != w.nodes[j].hash)
    && (forall i :: 0 <= i < |w.nodes| ==> w.nodes[i].phase == (if i < r then On else Off) && w.nodes[i].records == [])
    && (forall i: nat, j: nat :: i < |w.nodes| && j < |w.nodes| && i != j ==>
          if i < r then Own(w, i, j) else w.chans[(i, j)] == [])
  }

  lemma StartOne(w: Network, r: nat)
    requires Started(w, r) && r < |w.nodes|
    ensures Enabled(w, Start(r, 0)) && Started(After(w, Start(r, 0)), r + 1) && |After(w, Start(r, 0)).nodes| == |w.nodes|
  {
    StartShape(w, r);
    var v := After(w, Start(r, 0));
    hide After, Enabled, Info, Own;
    forall i: nat, j: nat | i < |w.nodes| && j < |w.nodes| && i != j
      ensures if i < r + 1 then Own(v, i, j) else v.chans[(i, j)] == []
    {
      if i < r {
        OwnMore(w, v, i, j, 0);
      } else if i == r {
        OwnNone(w, i, j);
        OwnMore(w, v, i, j, 0);
      }
    }
  }

  lemma OwnNone(w: Network, i: nat, j: nat)
    requires w.Shaped() && i < |w.nodes| && j < |w.nodes| && w.chans[(i, j)] == []
    ensures Own(w, i, j)
  {}

  lemma {:induction false} StartMany(w: Network, r: nat) returns (es: seq<Event>)
    requires Init(w) && r <= |w.nodes|
    ensures AnyRuns(w, es) && Started(AnyEnd(w, es), r) && |AnyEnd(w, es).nodes| == |w.nodes|
  {
    if r == 0 {
      es := [];
    } else {
      var fs := StartMany(w, r - 1);
      var v := AnyEnd(w, fs);
      StartOne(v, r - 1);
      hide After, Enabled, Init, Started;
      RunsOne(v, Start(r - 1, 0));
      RunsOn(w, fs, [Start(r - 1, 0)]);
      es := fs + [Start(r - 1, 0)];
    }
  }

  /** The hashes of gateways 3 to 2 + k. */
  ghost function Next(w: Network, k: nat): (r: seq<Hash>)
    requires 3 + k <= |w.nodes|
    ensures |r| == k && forall i :: 0 <= i < k ==> r[i] == w.nodes[3 + i].hash
  {
    seq(k, i requires 0 <= i < k => w.nodes[3 + i].hash)
  }

  /** Gateways 0, 1 and 2 are running and have recorded the k gateways after them; the first r of the
      three also the one after those. The others have not been started. */
  ghost predicate Gathered(w: Network, k: nat, r: nat) {
    && w.Shaped() && 3 + k + (if r > 0 then 1 else 0) <= |w.nodes|
    && (forall i, j :: 0 <= i < j < |w.nodes| ==> w.nodes[i].hash != w.nodes[j].hash)
    && Trio(w, 0, 1, 2)
    && (forall i :: 3 + k < i < |w.nodes| ==> w.nodes[i].phase == Off)
    && (forall i: nat, j: nat :: 3 + k < i < |w.nodes| && j < |w.nodes| && i != j ==> w.chans[(i, j)] == [])
    && (forall i :: 0 <= i < 3 ==> Hashes(w.nodes[i].records) == Next(w, k) + if i < r then [w.nodes[3 + k].hash] else [])
    && (forall i: nat, j: nat :: i < 3 && j < 3 && i != j && (k > 0 || i < r) ==> w.chans[(i, j)] != [])
  }

  /** The one after those is running, and its announcement is under way to the rest of the three. */
  ghost predicate Calling(w: Network, d: nat, r: nat) {
    && w.Shaped() && 3 <= d < |w.nodes| && w.nodes[d].phase == On
    && forall i: nat :: r <= i < 3 ==> w.chans[(d, i)] != [] && Own(w, d, i)
  }

  /** It has not been started. */
  ghost predicate Silent(w: Network, d: nat) {
    && w.Shaped() && (d < |w.nodes| ==>
          w.nodes[d].phase == Off && forall j: nat :: j < |w.nodes| && j != d ==> w.chans[(d, j)] == [])
  }

  lemma TrioStays(w: Network, v: Network, y: nat)
    requires Trio(w, 0, 1, 2) && v.Shaped() && |v.nodes| == |w.nodes|
    requires forall i :: 0 <= i < 3 ==> v.nodes[i].hash == w.nodes[i].hash && v.nodes[i].phase == w.nodes[i].phase
    requires forall i: nat, j: nat :: i < 3 && j < 3 && i != j ==>
               v.chans[(i, j)] == w.chans[(i, j)] || v.chans[(i, j)] == w.chans[(i, j)] + [Info(w.nodes[i], w.bits, 0)]
    ensures Trio(v, 0, 1, 2)
  {
    hide Own, Info;
    OwnMore(w, v, 0, 1, 0);
    OwnMore(w, v, 1, 0, 0);
    OwnMore(w, v, 1, 2, 0);
    OwnMore(w, v, 2, 1, 0);
    OwnMore(w, v, 2, 0, 0);
    OwnMore(w, v, 0, 2, 0);
  }

  lemma StartGathered(w: Network, v: Network, k: nat, d: nat)
    requires Gathered(w, k, 0) && d == 3 + k < |w.nodes| && ChangedAt(w, v, d)
    requires v.nodes[d] == w.nodes[d].(phase := On)
    requires forall j: nat :: j < |w.nodes| && j != d ==> v.chans[(j, d)] == w.chans[(j, d)]
    ensures Gathered(v, k, 0)
  {
    hide Info, Own, Hashes;
    TrioStays(w, v, d);
    assert Next(v, k) == Next(w, k);
    hide Trio;
  }

  lemma StartCalls(w: Network, v: Network, d: nat)
    requires Silent(w, d) && 3 <= d < |w.nodes| && ChangedAt(w, v, d) && v.nodes[d] == w.nodes[d].(phase := On)
    requires forall i: nat :: i < 3 ==> v.chans[(d, i)] == w.chans[(d, i)] + [Info(w.nodes[d], w.bits, 0)]
    ensures Calling(v, d, 0)
  {
    hide Info, Own;
    forall i: nat | i < 3 ensures v.chans[(d, i)] != [] && Own(v, d, i) {
      OwnNone(w, d, i);
      OwnMore(w, v, d, i, 0);
    }
  }

  lemma StartNext(w: Network, k: nat)
    requires Gathered(w, k, 0) && Silent(w, 3 + k) && 3 + k < |w.nodes|
    ensures var e, v := Start(3 + k, 0), After(w, Start(3 + k, 0));
            Enabled(w, e) && Gathered(v, k, 0) && |v.nodes| == |w.nodes| && Calling(v, 3 + k, 0)
  {
    var d := 3 + k;
    StartShape(w, d);
    var v := After(w, Start(d, 0));
    GatherNodes(w, k, 0);
    hide After, Enabled, Info, Own, Hashes, Gathered, Calling;
    StartGathered(w, v, k, d);
    StartCalls(w, v, d);
  }

  lemma GatherNodes(w: Network, k: nat, r: nat)
    requires Gathered(w, k, r)
    ensures forall i :: 0 <= i < 3 ==> w.nodes[i].phase == On
  {
    hide Own, Hashes;
  }

  /** Gateway r has recorded the one after those, and has announced itself. */
  lemma GatherShape(w: Network, v: Network, k: nat, r: nat)
    requires Gathered(w, k, r) && r < 3 && 3 + k < |w.nodes| && ChangedAt(w, v, r)
    requires v.nodes[r] == w.nodes[r].(records := v.nodes[r].records)
    requires Hashes(v.nodes[r].records) == Hashes(w.nodes[r].records) + [w.nodes[3 + k].hash]
    requires forall j: nat :: j < |w.nodes| && j != 3 + k && j != r ==> v.chans[(j, r)] == w.chans[(j, r)]
    requires forall j: nat :: j < 3 && j != r ==> v.chans[(r, j)] == w.chans[(r, j)] + [Info(w.nodes[r], w.bits, 0)]
    ensures Gathered(v, k, r + 1)
  {
    hide Info, Own, Hashes;
    TrioStays(w, v, r);
    assert Next(v, k) == Next(w, k);
    hide Trio;
  }

  lemma GatherOne(w: Network, k: nat, r: nat)
    requires Gathered(w, k, r) && r < 3 && k < MAX_DEVICE_COUNT && 3 + k < |w.nodes| && Calling(w, 3 + k, r)
    ensures var e, v := Deliver(3 + k, r, 0), After(w, Deliver(3 + k, r, 0));
            Enabled(w, e) && Gathered(v, k, r + 1) && Calling(v, 3 + k, r + 1) && |v.nodes| == |w.nodes|
  {
    var d := 3 + k;
    assert w.nodes[d].hash !in Next(w, k);
    FirstMessage(w, d, r);
    var v := After(w, Deliver(d, r, 0));
    hide After, Enabled, Info, Own, Hashes, Gathered, Trio;
    GatherNodes(w, k, r);
    GatherShape(w, v, k, r);
    forall i: nat | r + 1 <= i < 3 ensures v.chans[(d, i)] != [] && Own(v, d, i) {
      OwnMore(w, v, d, i, 0);
    }
  }

  lemma GatherDone(w: Network, k: nat)
    requires Gathered(w, k, 3)
    ensures Gathered(w, k + 1, 0) && Silent(w, 3 + (k + 1))
  {
    hide Own, Hashes;
    assert Next(w, k + 1) == Next(w, k) + [w.nodes[3 + k].hash];
  }

  lemma StartedGathered(w: Network)
    requires Started(w, 3) && 3 <= |w.nodes|
    ensures Gathered(w, 0, 0) && Silent(w, 3)
  {
    hide Own;
    assert Next(w, 0) == [];
  }

  /** The next gateway is started and recorded by the three. */
  lemma {:induction false} GatherNext(w: Network, k: nat) returns (es: seq<Event>)
    requires Gathered(w, k, 0) && Silent(w, 3 + k) && 3 + k < |w.nodes| && k < MAX_DEVICE_COUNT
    ensures AnyRuns(w, es) && |AnyEnd(w, es).nodes| == |w.nodes|
    ensures Gathered(AnyEnd(w, es), k + 1, 0) && Silent(AnyEnd(w, es), 3 + (k + 1))
  {
    hide Gathered, Silent, Calling, After, Enabled;
    StartNext(w, k);
    var e := Start(3 + k, 0);
    RunsOne(w, e);
    var w0 := After(w, e);
    GatherOne(w0, k, 0);
    RunsOne(w0, Deliver(3 + k, 0, 0));
    var w1 := After(w0, Deliver(3 + k, 0, 0));
    GatherOne(w1, k, 1);
    RunsOne(w1, Deliver(3 + k, 1, 0));
    var w2 := After(w1, Deliver(3 + k, 1, 0));
    GatherOne(w2, k, 2);
    RunsOne(w2, Deliver(3 + k, 2, 0));
    var w3 := After(w2, Deliver(3 + k, 2, 0));
    GatherDone(w3, k);
    RunsOn(w2, [Deliver(3 + k, 2, 0)], []);
    RunsOn(w1, [Deliver(3 + k, 1, 0)], [Deliver(3 + k, 2, 0)]);
    RunsOn(w0, [Deliver(3 + k, 0, 0)], [Deliver(3 + k, 1, 0)] + [Deliver(3 + k, 2, 0)]);
    RunsOn(w, [e], [Deliver(3 + k, 0, 0)] + ([Deliver(3 + k, 1, 0)] + [Deliver(3 + k, 2, 0)]));
    es := [e] + ([Deliver(3 + k, 0, 0)] + ([Deliver(3 + k, 1, 0)] + [Deliver(3 + k, 2, 0)]));
  }

  lemma {:induction false} GatherMany(w: Network, k: nat) returns (es: seq<Event>)
    requires Init(w) && 3 + k <= |w.nodes| && k <= MAX_DEVICE_COUNT
    ensures AnyRuns(w, es) && |AnyEnd(w, es).nodes| == |w.nodes|
    ensures Gathered(AnyEnd(w, es), k, 0) && Silent(AnyEnd(w, es), 3 + k)
  {
    hide Init, Started, Gathered, Silent, After, Enabled;
    if k == 0 {
      es := StartMany(w, 3);
      StartedGathered(AnyEnd(w, es));
    } else {
      var fs := GatherMany(w, k - 1);
      var gs := GatherNext(AnyEnd(w, fs), k - 1);
      RunsOn(w, fs, gs);
      es := fs + gs;
    }
  }

  /** The last place of y's table is taken by x. */
  lemma Fill(w: Network, x: nat, y: nat, z: nat, others: seq<Hash>)
    requires Trio(w, x, y, z) && |others| == MAX_DEVICE_COUNT - 1 && w.nodes[x].hash !in others
    requires Hashes(w.nodes[y].records) == others && w.chans[(x, y)] != []
    ensures var e, v := Deliver(x, y, 0), After(w, Deliver(x, y, 0));
            && Enabled(w, e) && Trio(v, x, y, z) && Knows(v, y, others, x) && |v.nodes| == |w.nodes|
            && (forall k :: 0 <= k < |w.nodes| ==> v.nodes[k].hash == w.nodes[k].hash)
            && v.nodes[x] == w.nodes[x] && v.nodes[z] == w.nodes[z]
            && v.chans[(y, x)] != [] && v.chans[(y, z)] != []
            && v.chans[(z, x)] == w.chans[(z, x)] && v.chans[(x, z)] == w.chans[(x, z)] && v.chans[(z, y)] == w.chans[(z, y)]
  {
    FirstMessage(w, x, y);
    var v := After(w, Deliver(x, y, 0));
    hide After, Enabled, Info, Own, Hashes;
    OwnMore(w, v, x, y, 0);
    OwnMore(w, v, y, x, 0);
    OwnMore(w, v, y, z, 0);
    OwnMore(w, v, z, y, 0);
    OwnMore(w, v, z, x, 0);
    OwnMore(w, v, x, z, 0);
  }

  function Close(): seq<Event> {
    [Deliver(1, 0, 0)] + ([Deliver(2, 1, 0)] + [Deliver(0, 2, 0)])
  }

  /** With one place left in each of their tables, the three make a ring. */
  lemma RingCloses(w: Network)
    requires Gathered(w, MAX_DEVICE_COUNT - 1, 0)
    ensures AnyRuns(w, Close()) && Ring(AnyEnd(w, Close()), 0, 1, 2, Next(w, MAX_DEVICE_COUNT - 1))
  {
    var others := Next(w, MAX_DEVICE_COUNT - 1);
    assert w.nodes[0].hash !in others && w.nodes[1].hash !in others && w.nodes[2].hash !in others;
    GatheredTables(w);
    hide After, Enabled, Own, Hashes, Gathered;
    Fill(w, 1, 0, 2, others);
    RunsOne(w, Deliver(1, 0, 0));
    var u := After(w, Deliver(1, 0, 0));
    Fill(u, 2, 1, 0, others);
    RunsOne(u, Deliver(2, 1, 0));
    var t := After(u, Deliver(2, 1, 0));
    Fill(t, 0, 2, 1, others);
    RunsOne(t, Deliver(0, 2, 0));
    RunsOn(u, [Deliver(2, 1, 0)], [Deliver(0, 2, 0)]);
    RunsOn(w, [Deliver(1, 0, 0)], [Deliver(2, 1, 0)] + [Deliver(0, 2, 0)]);
  }

  lemma GatheredTables(w: Network)
    requires Gathered(w, MAX_DEVICE_COUNT - 1, 0)
    ensures Trio(w, 0, 1, 2)
    ensures forall i :: 0 <= i < 3 ==> Hashes(w.nodes[i].records) == Next(w, MAX_DEVICE_COUNT - 1)
    ensures forall i: nat, j: nat :: i < 3 && j < 3 && i != j ==> w.chans[(i, j)] != []
  {
    hide Hashes, Own;
  }

  // ---------- exactly how many gateways discovery is good for ----------

  ghost predicate Bounded(w: Network, bound: nat) {
    forall es: seq<Event> :: AnyRuns(w, es) && OnlyDeliveries(es) ==> |es| <= bound
  }

  /** No run of deliveries alone is longer than some bound. */
  ghost predicate ExchangeEnds(w: Network) {
    exists bound: nat :: Bounded(w, bound)
  }

  lemma RingNeverEnds(w: Network, x: nat, y: nat, z: nat, others: seq<Hash>)
    requires Ring(w, x, y, z, others)
    ensures !ExchangeEnds(w)
  {
    hide Ring;
    forall bound: nat ensures !Bounded(w, bound) {
      var es := RingGoesOn(w, x, y, z, others, bound + 1);
      assert AnyRuns(w, es) && OnlyDeliveries(es) && |es| > bound;
    }
  }

  /** After any run the exchange of announcements ends, in whatever order they are delivered, if and
      only if there are at most MAX_DEVICE_COUNT + 1 gateways. */
  lemma ExchangeEndsExactly(w: Network)
    requires Init(w)
    ensures |w.nodes| <= MAX_DEVICE_COUNT + 1 <==>
              forall es: seq<Event> :: AnyRuns(w, es) ==> ExchangeEnds(AnyEnd(w, es))
  {
    if |w.nodes| <= MAX_DEVICE_COUNT + 1 {
      forall es: seq<Event> | AnyRuns(w, es) ensures ExchangeEnds(AnyEnd(w, es)) {
        SmallEnds(w, es);
      }
    } else {
      var es := GatherMany(w, MAX_DEVICE_COUNT - 1);
      hide Init, Gathered, Ring, After, Enabled, ExchangeEnds;
      RingCloses(AnyEnd(w, es));
      RunsOn(w, es, Close());
      RingNeverEnds(AnyEnd(w, es + Close()), 0, 1, 2, Next(AnyEnd(w, es), MAX_DEVICE_COUNT - 1));
    }
  }

  lemma {:induction false} RunsAny(w: Network, es: seq<Event>)
    requires Runs(w, es)
    ensures AnyRuns(w, es) && AnyEnd(w, es) == End(w, es)
    decreases |es|
  {
    hide After, Enabled, Roomy;
    if es != [] {
      RunsAny(After(w, es[0]), es[1..]);
    }
  }

  /** What holds after any run of a small network. */
  lemma SmallState(w: Network, es: seq<Event>)
    requires Init(w) && |w.nodes| <= MAX_DEVICE_COUNT + 1 && AnyRuns(w, es)
    ensures var v := AnyEnd(w, es); Inv(v) && KnownPeers(v) && |v.nodes| <= MAX_DEVICE_COUNT + 1
  {
    InitInv(w);
    assert KnownPeers(w);
    hide Inv, Init, KnownPeers, After, Enabled;
    RoomInEveryRun(w, es);
    RunsAny(w, es);
  }

  lemma SmallEnds(w: Network, es: seq<Event>)
    requires Init(w) && |w.nodes| <= MAX_DEVICE_COUNT + 1 && AnyRuns(w, es)
    ensures ExchangeEnds(AnyEnd(w, es))
  {
    hide Inv, Init, KnownPeers, After, Enabled, Chatter;
    SmallState(w, es);
    var v := AnyEnd(w, es);
    InvShaped(v);
    forall ds: seq<Event> | AnyRuns(v, ds) && OnlyDeliveries(ds) ensures |ds| <= Chatter(v) {
      RoomInEveryRun(v, ds);
      DeliveriesAreBounded(v, ds);
    }
    assert Bounded(v, Chatter(v));
  }

  /** Some deliveries lead to agreement. */
  ghost predicate CanAgree(w: Network) {
    exists es: seq<Event> :: AnyRuns(w, es) && OnlyDeliveries(es) && Converged(AnyEnd(w, es))
  }

  lemma {:induction false} PhasesStay(w: Network, es: seq<Event>)
    requires AnyRuns(w, es) && OnlyDeliveries(es)
    ensures |AnyEnd(w, es).nodes| == |w.nodes|
    ensures forall i :: 0 <= i < |w.nodes| ==>
              AnyEnd(w, es).nodes[i].phase == w.nodes[i].phase && AnyEnd(w, es).nodes[i].hash == w.nodes[i].hash
    decreases |es|
  {
    if es != [] {
      DeliveryPhases(w, es[0]);
      hide After, Enabled;
      PhasesStay(After(w, es[0]), es[1..]);
    }
  }

  lemma DeliveryPhases(w: Network, e: Event)
    requires Enabled(w, e) && e.Deliver?
    ensures |After(w, e).nodes| == |w.nodes|
    ensures forall i :: 0 <= i < |w.nodes| ==>
              After(w, e).nodes[i].phase == w.nodes[i].phase && After(w, e).nodes[i].hash == w.nodes[i].hash
  {
    hide RecordsAfter, Info, Answers;
  }

  /** The hashes of gateways 1 to n - 1. */
  ghost function Peers(w: Network, n: nat): set<Hash>
    requires n <= |w.nodes|
  {
    set i | 1 <= i < n :: w.nodes[i].hash
  }

  lemma {:induction false} ManyPeers(w: Network, n: nat)
    requires 1 <= n <= |w.nodes|
    requires forall i, j :: 0 <= i < j < |w.nodes| ==> w.nodes[i].hash != w.nodes[j].hash
    ensures |Peers(w, n)| == n - 1
  {
    if n == 1 {
      assert Peers(w, n) == {};
    } else {
      ManyPeers(w, n - 1);
      assert Peers(w, n) == Peers(w, n - 1) + {w.nodes[n - 1].hash};
    }
  }

  /** After any run some deliveries lead to agreement if and only if there are at most
      MAX_DEVICE_COUNT + 1 gateways. */
  lemma AgreementExactly(w: Network)
    requires Init(w)
    ensures |w.nodes| <= MAX_DEVICE_COUNT + 1 <==> forall es: seq<Event> :: AnyRuns(w, es) ==> CanAgree(AnyEnd(w, es))
  {
    if |w.nodes| <= MAX_DEVICE_COUNT + 1 {
      forall es: seq<Event> | AnyRuns(w, es) ensures CanAgree(AnyEnd(w, es)) {
        hide Inv, Init, KnownPeers, After, Enabled, Chatter, Converged;
        SmallState(w, es);
        InvShaped(AnyEnd(w, es));
        var ds := Settles(AnyEnd(w, es));
        RunsAny(AnyEnd(w, es), ds);
      }
    } else {
      var es := StartMany(w, |w.nodes|);
      hide After, Enabled, Converged, Init, Own;
      var v := AnyEnd(w, es);
      forall ds: seq<Event> | AnyRuns(v, ds) && OnlyDeliveries(ds) ensures !Converged(AnyEnd(v, ds)) {
        NoAgreement(w, es, ds);
      }
      assert !CanAgree(v);
    }
  }

  lemma NoAgreement(w: Network, es: seq<Event>, ds: seq<Event>)
    requires Init(w) && AnyRuns(w, es) && Started(AnyEnd(w, es), |w.nodes|) && |w.nodes| > MAX_DEVICE_COUNT + 1
    requires |AnyEnd(w, es).nodes| == |w.nodes| && AnyRuns(AnyEnd(w, es), ds) && OnlyDeliveries(ds)
    ensures !Converged(AnyEnd(AnyEnd(w, es), ds))
  {
    var v := AnyEnd(w, es);
    var u := AnyEnd(v, ds);
    PhasesStay(v, ds);
    hide After, Enabled, Converged, Own;
    RunsOn(w, es, ds);
    ManyPeers(u, |u.nodes|);
    assert RunningPeers(u, 0) == Peers(u, |u.nodes|);
    TooManyNeverAgree(w, es + ds, 0);
  }
}
