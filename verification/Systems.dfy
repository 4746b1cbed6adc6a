/** What the configuration says of each onboard system (include/Systems.h, DataLinkLayer.h, DirectMemoryAccess.h, Parameters.h). */
module Systems {
  import opened Options
  import opened Bytes

  datatype BufferType = PC | QL | TPX | PCAP | HK | POW | RTD | INTRO | PING | REPLY | NONE

  function TypeCode(t: BufferType): Byte {
    match t
    case PC => 0x00
    case QL => 0x01
    case TPX => 0x02
    case PCAP => 0x03
    case HK => 0x10
    case POW => 0x11
    case RTD => 0x12
    case INTRO => 0x13
    case PING => 0x20
    case REPLY => 0x30
    case NONE => 0xff
  }

  /** Sizes of one link, and what of each packet on it is header and footer rather than data. */
  datatype LinkLayer = LinkLayer(
    maxPayloadSize: nat, frameSize: nat,
    staticHeader: nat, initialHeader: nat, subsequentHeader: nat,
    staticFooter: nat, initialFooter: nat, subsequentFooter: nat
  )

  datatype SpaceWire = SpaceWire(
    targetPath: seq<Byte>, replyPath: seq<Byte>, targetLogical: Byte, sourceLogical: Byte, key: Byte, crcVersion: char,
    link: LinkLayer
  )

  datatype RingBufferParameters = RingBufferParameters(
    frameSize: nat, startAddress: nat, framesPerRing: nat, writePointerAddress: nat, writePointerWidth: nat
  )

  datatype System = System(
    name: string, hex: Byte, spacewire: Option<SpaceWire>, ethernet: Option<LinkLayer>,
    rings: map<BufferType, RingBufferParameters>
  )

  /** What lookups return when they find nothing. */
  const NULL_SYSTEM := System("null", 0xff, None, None, map[])
}
