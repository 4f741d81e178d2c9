/** The message values that pass between the parts of the broker. */
module Messages {
  import opened Bytes

  /** The fixed header without the packet type, which each message kind settles. */
  datatype Header = Header(dupe: bool, qosLevel: int, retain: int, remainingLength: int)

  datatype Will = Will(qos: byte, topic: bytes, message: bytes, retain: bool)

  datatype Connect = Connect(header: Header, magic: bytes, version: byte, flag: bv8, keepAlive: u16,
                             identifier: bytes, will: Option<Will>, cleanSession: bool,
                             userName: bytes, password: bytes)

  datatype Connack = Connack(header: Header, reserved: byte, returnCode: byte)

  datatype Publish = Publish(header: Header, topicName: bytes, packetId: u16, payload: bytes)

  /** The messages that carry a packet identifier and nothing else. */
  datatype AckKind = Puback | Pubrec | Pubrel | Pubcomp | Unsuback

  datatype Ack = Ack(kind: AckKind, header: Header, packetId: u16)

  datatype TopicFilter = TopicFilter(topicPath: bytes, requestedQos: byte)

  datatype Subscribe = Subscribe(header: Header, packetId: u16, payload: seq<TopicFilter>)

  datatype Suback = Suback(header: Header, packetId: u16, qos: seq<byte>)

  datatype Unsubscribe = Unsubscribe(header: Header, packetId: u16, payload: seq<bytes>)

  /** The messages without a body. */
  datatype BareKind = Pingreq | Pingresp | Disconnect

  datatype Bare = Bare(kind: BareKind, header: Header)

  datatype Message =
    | MConnect(connect: Connect)
    | MConnack(connack: Connack)
    | MPublish(publish: Publish)
    | MAck(ack: Ack)
    | MSubscribe(subscribe: Subscribe)
    | MSuback(suback: Suback)
    | MUnsubscribe(unsubscribe: Unsubscribe)
    | MBare(bare: Bare)
}
