/** The value types shared by all components: fixed-width integers, services, discovery
    messages and the datagram header. */
module Types {

  datatype Option<+T> = None | Some(value: T)

  const TWO32: nat := 0x1_0000_0000

  type uint32 = x: int | 0 <= x < 0x1_0000_0000

  newtype byte = x: int | 0 <= x < 256

  /** The value of a C++ uint32_t after arithmetic: reduced modulo 2^32. */
  function Wrap32(x: int): uint32 {
    x % TWO32
  }

  type Hash = uint32

  /** Number of 32-bit words in the class hash of a service. */
  const CLASS_HASH_ELEMENT_COUNT := 4

  type ClassHash = h: seq<uint32> | |h| == CLASS_HASH_ELEMENT_COUNT witness [0, 0, 0, 0]

  const MAX_TOPICS := 32
  const MAX_DEVICE_COUNT := 10
  const TRANSPORT_TYPE_COUNT := 4

  /** Capacity of an iceoryx identifier string (iceoryx v2.0.3). */
  const ID_STRING_CAPACITY := 100

  type IdString = seq<byte>

  datatype Service = Service(service: IdString, inst: IdString, event: IdString)

  /** Transport types are the values of the C++ enumeration; 4 stands for "none". */
  type TransportType = t: nat | 1 <= t <= 4 witness 4

  const PCIE: TransportType := 1
  const UDP: TransportType := 2
  const TCP: TransportType := 3
  const NONE: TransportType := 4

  datatype DeviceIndex = DeviceIndex(transport: TransportType, device: uint32)

  /** A std::bitset<64>, as the set of its set positions. */
  type Bitset = s: set<nat> | forall i :: i in s ==> i < 64

  datatype PubSubInfo = PubSubInfo(
    userSubscribers: seq<Service>,
    gatewayBitset: Bitset,
    gatewayHash: Hash,
    infoHash: Hash,
    isTermination: bool)

  datatype DatagramHeader = DatagramHeader(
    serviceHash: ClassHash,
    messageHash: Hash,
    submessageCount: uint32,
    submessageOffset: uint32,
    submessageSize: uint32,
    userPayloadSize: uint32,
    userPayloadAlignment: uint32,
    userHeaderSize: uint32)
}
