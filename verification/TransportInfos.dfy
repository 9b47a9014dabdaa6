/** The enabled transports: one slot for each type, and the bitset the gateway advertises. */
module TransportInfos {
  import opened Types
  import opened Transports

  /** The type of a message to a gateway with bitset `remote`: the preferred type if both ends have
      it; otherwise the first type both have whose transport here is good. */
  predicate Matches(good: set<nat>, bitset: Bitset, preferred: TransportType, remote: Bitset, t: TransportType) {
    && t < NONE && t in remote
    && if preferred < NONE && preferred in remote && preferred in bitset then t == preferred
       else t in good && forall u :: 1 <= u < t ==> u !in good || u !in remote
  }

  /** findMatchingType: the one type that matches, NONE if there is none. */
  function MatchingType(good: set<nat>, bitset: Bitset, preferred: TransportType, remote: Bitset): (t: TransportType)
    ensures forall u: TransportType :: Matches(good, bitset, preferred, remote, u) <==> u == t != NONE
    ensures t != NONE ==> t in remote && (t in good || t in bitset)
    ensures t == NONE ==> good * remote * {1, 2, 3} == {}
  {
    if preferred != NONE && preferred in remote && preferred in bitset then preferred
    else if PCIE in good && PCIE in remote then PCIE
    else if UDP in good && UDP in remote then UDP
    else if TCP in good && TCP in remote then TCP
    else NONE
  }

  class TransportInfo {
    /** One slot for each index below TRANSPORT_TYPE_COUNT; the enumeration starts at 1, so the
        slot 0 stays empty. */
    const transports: seq<Transport?>
    var bitset: Bitset

    ghost predicate Slots() {
      && |transports| == TRANSPORT_TYPE_COUNT && transports[0] == null
      && (forall i :: 0 <= i < TRANSPORT_TYPE_COUNT && transports[i] != null ==> transports[i].kind == i)
      && (forall i, j :: 0 <= i < j < TRANSPORT_TYPE_COUNT && transports[i] != null ==> transports[i] != transports[j])
    }

    ghost function Objects(): set<Transport?> {
      set i | 0 <= i < |transports| && transports[i] != null :: transports[i]
    }

    /** The bitset is exactly the set of transports that are not disabled. */
    ghost predicate Valid()
      reads this, Objects()
    {
      && Slots()
      && (forall i :: i in bitset ==> i < TRANSPORT_TYPE_COUNT && transports[i] != null)
      && (forall i :: 0 <= i < TRANSPORT_TYPE_COUNT && transports[i] != null ==>
            (i in bitset <==> transports[i].status != DISABLED))
    }

    ghost predicate NoneFailed()
      reads Objects()
    {
      forall i :: 0 <= i < |transports| && transports[i] != null ==> transports[i].status != FAILED
    }

    ghost function Good(): set<nat>
      reads Objects()
    {
      set i | 0 <= i < |transports| && transports[i] != null && transports[i].status == GOOD
    }

    constructor (transports: seq<Transport?>)
      requires |transports| == TRANSPORT_TYPE_COUNT && transports[0] == null
      requires forall i :: 0 <= i < TRANSPORT_TYPE_COUNT && transports[i] != null ==>
                 transports[i].kind == i && transports[i].status == GOOD
      requires forall i, j :: 0 <= i < j < TRANSPORT_TYPE_COUNT && transports[i] != null ==> transports[i] != transports[j]
      ensures Valid() && NoneFailed() && this.transports == transports
    {
      this.transports := transports;
      bitset := set i | 0 <= i < TRANSPORT_TYPE_COUNT && transports[i] != null;
    }

    method FindMatchingType(remote: Bitset, preferred: TransportType) returns (t: TransportType)
      requires Valid()
      ensures t == MatchingType(Good(), bitset, preferred, remote)
    {
      if preferred != NONE && preferred in remote && preferred in bitset {
        return preferred;
      }
      for i := 0 to TRANSPORT_TYPE_COUNT
        invariant forall j :: 0 <= j < i ==> j !in Good() || j !in remote
      {
        if transports[i] != null && transports[i].IsGood() && i in remote {
          return transports[i].kind;
        }
      }
      return NONE;
    }

    /** The first loop of doForAllEnabled: every good transport is handed the message, and may
        fail at it. */
    method SendToAll(info: PubSubInfo)
      requires Valid()
      modifies Objects()
      ensures Valid()
      ensures forall j :: 0 <= j < TRANSPORT_TYPE_COUNT && transports[j] != null ==>
                var t := transports[j];
                if old(t.status) == GOOD then t.broadcasts == old(t.broadcasts) + [info] && t.status != DISABLED
                else t.broadcasts == old(t.broadcasts) && t.status == old(t.status)
    {
      for i := 0 to TRANSPORT_TYPE_COUNT
        invariant Valid()
        invariant forall j :: i <= j < TRANSPORT_TYPE_COUNT && transports[j] != null ==> unchanged(transports[j])
        invariant forall j :: 0 <= j < i && transports[j] != null ==>
                    var t := transports[j];
                    if old(t.status) == GOOD then t.broadcasts == old(t.broadcasts) + [info] && t.status != DISABLED
                    else t.broadcasts == old(t.broadcasts) && t.status == old(t.status)
      {
        if transports[i] != null && transports[i].IsGood() {
          transports[i].SendBroadcast(info);
        }
      }
    }

    /** hasFailedSetDisabled on one slot, with the bit cleared when it says so. */
    method DisableIfFailed(i: nat) returns (r: bool)
      requires Valid() && i < TRANSPORT_TYPE_COUNT
      modifies `bitset, Objects()
      ensures Valid()
      ensures i < |transports|
      ensures r <==> transports[i] != null && old(transports[i].status) == FAILED
      ensures r ==> i in old(bitset) && bitset == old(bitset) - {i} && transports[i].status == DISABLED
      ensures |bitset| == if r then |old(bitset)| - 1 else |old(bitset)|
      ensures forall j :: 0 <= j < |transports| && transports[j] != null ==>
                && transports[j].broadcasts == old(transports[j].broadcasts)
                && (j != i ==> transports[j].status == old(transports[j].status))
      ensures !r ==> bitset == old(bitset) && (transports[i] != null ==> transports[i].status == old(transports[i].status))
    {
      r := false;
      if transports[i] != null {
        r := transports[i].HasFailedSetDisabled();
        if r {
          bitset := bitset - {i};
        }
      }
    }
  }
}
