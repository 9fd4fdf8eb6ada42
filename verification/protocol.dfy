/**
 * Value types shared by the transport and the gossip engine: network and
 * cluster identities, messages, and the gossip records they carry.
 */
module Protocol {
  import opened Wrappers

  /** A raw network address, `scheme://host:port`. */
  datatype TransportEndpoint = TransportEndpoint(host: string, port: int)

  /** A logical cluster member, `scheme://id@host:port`; equality is on all three fields. */
  datatype ClusterEndpoint = ClusterEndpoint(id: string, host: string, port: int) {

    /** The network address a channel to this member targets. */
    function Address(): (e: TransportEndpoint) {
      TransportEndpoint(host, port)
    }
  }

  /** The payload of a message: nothing, opaque text, or a batch of gossips. */
  datatype Data = NoData | Text(text: string) | Gossips(request: GossipRequest)

  /** A message with its optional qualifier header and its payload. */
  datatype Message = Message(qualifier: Option<string>, data: Data)

  /** One fact: a globally unique id (the dedup key) and an opaque payload. */
  datatype Gossip = Gossip(id: string, payload: Message)

  /** An ordered batch of gossips, sent as one message. */
  datatype GossipRequest = GossipRequest(gossips: seq<Gossip>)

  /** An inbound envelope as the transport's listen stream delivers it. */
  datatype TransportMessage = TransportMessage(message: Message, source: TransportEndpoint, correlationId: string)

  /** How many times a gossip has been sent to a member. */
  datatype GossipLocalState = GossipLocalState(gossip: Gossip, member: ClusterEndpoint, sentCount: nat)
}
