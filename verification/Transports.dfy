/** One transport layer as the gateway sees it: its status machine and the datagrams handed
    to it. Whether a send fails is the transport's own business: it may fail at any send. */
module Transports {
  import opened Types

  datatype Status = GOOD | FAILED | DISABLED

  datatype Sent = Sent(bytes: seq<byte>, device: uint32)

  class Transport {
    const kind: TransportType
    const maxMessageSize: nat
    var status: Status
    /** User data and discovery messages handed to this transport, oldest first. */
    var userData: seq<Sent>
    /** For each of the user data: whether the transport said it was pending. */
    var answers: seq<bool>
    var broadcasts: seq<PubSubInfo>

    constructor (kind: TransportType, maxMessageSize: nat)
      ensures this.kind == kind && this.maxMessageSize == maxMessageSize
      ensures status == GOOD && userData == [] && answers == [] && broadcasts == []
    {
      this.kind, this.maxMessageSize := kind, maxMessageSize;
      status, userData, answers, broadcasts := GOOD, [], [], [];
    }

    predicate IsGood()
      reads this
    {
      status == GOOD
    }

    /** The last discovery message handed to this transport. */
    function LastBroadcast(): Option<PubSubInfo>
      reads this
    {
      if broadcasts == [] then None else Some(broadcasts[|broadcasts| - 1])
    }

    method SetFailed()
      modifies this`status
      ensures status == if old(status) == GOOD then FAILED else old(status)
    {
      if status == GOOD {
        status := FAILED;
      }
    }

    /** True exactly when this call moves the status from FAILED to DISABLED. */
    method HasFailedSetDisabled() returns (r: bool)
      modifies this`status
      ensures r <==> old(status) == FAILED
      ensures status == if r then DISABLED else old(status)
    {
      r := status == FAILED;
      if r {
        status := DISABLED;
      }
    }

    /** Sending may fail the transport; it may also leave the message pending. */
    method SendUserData(header: seq<byte>, payload: seq<byte>, device: uint32) returns (pending: bool)
      modifies this`status, this`userData, this`answers
      ensures userData == old(userData) + [Sent(header + payload, device)] && answers == old(answers) + [pending]
      ensures status == old(status) || (old(status) == GOOD && status == FAILED)
    {
      userData := userData + [Sent(header + payload, device)];
      if * {
        SetFailed();
      }
      pending := *;
      answers := answers + [pending];
    }

    /** The gateway looks at the status before each broadcast. */
    method SendBroadcast(info: PubSubInfo)
      requires IsGood()
      modifies this`status, this`broadcasts
      ensures broadcasts == old(broadcasts) + [info]
      ensures status == old(status) || (old(status) == GOOD && status == FAILED)
    {
      broadcasts := broadcasts + [info];
      if * {
        SetFailed();
      }
    }
  }
}
