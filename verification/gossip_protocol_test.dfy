/**
 * The two scenarios of the gossip engine's unit test, replayed against the
 * model: their outcomes follow from the contracts of `GossipProtocol` and the
 * lemmas about them alone.
 */
module GossipProtocolTest {
  import opened Wrappers
  import opened Protocol
  import opened Gossip

  const MaxGossipSent: nat := 2
  const GossipTime: nat := 200
  const MaxEndpointsToSelect: nat := 2

  /** The fixture: a protocol for `id@host:1` with three members, configured and started. */
  method Init() returns (protocol: GossipProtocol, members: seq<ClusterEndpoint>)
    ensures fresh(protocol)
    ensures members == [ClusterEndpoint("id1", "host", 11), ClusterEndpoint("id2", "host", 22), ClusterEndpoint("id3", "host", 33)]
    ensures protocol.local == ClusterEndpoint("id", "host", 1)
    ensures protocol.maxEndpointsToSelect == MaxEndpointsToSelect && protocol.members == members
    ensures protocol.listenCalls == 1 && protocol.schedules == [FixedDelay(GossipTime, GossipTime)]
    ensures protocol.Valid()
    ensures protocol.seen == {} && protocol.pending == [] && protocol.received == [] && protocol.calls == []
  {
    protocol := new GossipProtocol(ClusterEndpoint("id", "host", 1));
    protocol.SetMaxGossipSent(MaxGossipSent);
    protocol.SetGossipTime(GossipTime);
    protocol.SetMaxEndpointsToSelect(MaxEndpointsToSelect);
    members := [ClusterEndpoint("id1", "host", 11), ClusterEndpoint("id2", "host", 22), ClusterEndpoint("id3", "host", 33)];
    protocol.SetClusterMembers(members);
    protocol.Start();
  }

  const Payload := Message(None, Text("data"))
  const First := [Gossip("1", Payload), Gossip("2", Payload), Gossip("3", Payload)]
  const Second := [Gossip("2", Payload), Gossip("4", Payload), Gossip("5", Payload)]

  /** Batch {1,2,3} from one peer, a non-gossip message, the same batch from another peer, then {2,4,5}. */
  const Stream: seq<TransportMessage> := [
    TransportMessage(Message(None, Gossips(GossipRequest(First))), TransportEndpoint("host", 2), "2"),
    TransportMessage(Message(Some("com.pt.openapi.hello/"), NoData), TransportEndpoint("host", 1), "1"),
    TransportMessage(Message(None, Gossips(GossipRequest(First))), TransportEndpoint("host", 1), "1"),
    TransportMessage(Message(None, Gossips(GossipRequest(Second))), TransportEndpoint("host", 1), "1")]

  lemma StreamIds()
    ensures AllIds(Stream) == {"1", "2", "3", "4", "5"}
  {
    IdsOfAppend([First[0]], First[1..]);
    IdsOfAppend([First[1]], First[2..]);
    IdsOfAppend([Second[0]], Second[1..]);
    IdsOfAppend([Second[1]], Second[2..]);
    assert IdsOf([First[2]]) == {"3"} && IdsOf([Second[2]]) == {"5"};
    assert IdsOf(First) == {"1", "2", "3"};
    assert IdsOf(Second) == {"2", "4", "5"};
    assert AllIds(Stream[3..]) == IdsOf(Second) by {
      assert Stream[3..][1..] == [];
    }
    assert AllIds(Stream[2..]) == IdsOf(First) + AllIds(Stream[3..]) by {
      assert Stream[2..][1..] == Stream[3..];
    }
    assert AllIds(Stream[1..]) == AllIds(Stream[2..]) by {
      assert Stream[1..][1..] == Stream[2..];
      assert BatchOf(Stream[1]) == [];
    }
  }

  lemma FiveIds()
    ensures |{"1", "2", "3", "4", "5"}| == 5
  {
    var ids: set<string> := {};
    assert |ids + {"1"}| == 1;
    ids := ids + {"1"};
    assert "2" != "1";
    assert |ids + {"2"}| == 2;
    ids := ids + {"2"};
    assert "3" !in ids;
    assert |ids + {"3"}| == 3;
    ids := ids + {"3"};
    assert "4" !in ids;
    assert |ids + {"4"}| == 4;
    ids := ids + {"4"};
    assert "5" !in ids;
    assert |ids + {"5"}| == 5;
    ids := ids + {"5"};
    assert ids == {"1", "2", "3", "4", "5"};
  }

  /** The stream carries five distinct gossip ids, none seen before, so five gossips are queued. */
  lemma StreamDeliversFive(msgs: seq<TransportMessage>)
    requires msgs == Stream
    ensures |Inbound({}, msgs)| == 5
  {
    InboundExactlyOnce({}, msgs);
    StreamIds();
    assert AllIds(msgs) - {} == {"1", "2", "3", "4", "5"};
    FiveIds();
  }

  /**
   * After the inbound messages and a drain of the queue, a listener that
   * subscribed first has received exactly five payloads, one per gossip id.
   */
  method TestListenGossips() returns (received: nat)
    ensures received == 5
  {
    var protocol, _ := Init();
    var listener := protocol.Listen();
    protocol.OnMessages(Stream);
    protocol.ProcessGossipQueue();
    received := |protocol.received[listener]|;

    StreamDeliversFive(Stream);
  }

  /**
   * The same stream arriving again after the drain delivers nothing more:
   * every id it carries was recorded the first time.
   */
  method TestReplayDeliversNothing() returns (received: nat)
    ensures received == 5
  {
    var protocol, _ := Init();
    var listener := protocol.Listen();
    protocol.OnMessages(Stream);
    protocol.ProcessGossipQueue();
    ghost var seen := protocol.seen;
    protocol.OnMessages(Stream);
    protocol.ProcessGossipQueue();
    received := |protocol.received[listener]|;

    StreamDeliversFive(Stream);
    KnownStreamAddsNothing(seen, Stream);
  }

  /** All three members may be picked: none of them is the local member. */
  lemma MembersAreCandidates(members: seq<ClusterEndpoint>)
    requires members == [ClusterEndpoint("id1", "host", 11), ClusterEndpoint("id2", "host", 22), ClusterEndpoint("id3", "host", 33)]
    ensures |Candidates(members, ClusterEndpoint("id", "host", 1))| == 3
  {
    assert Candidates(members, ClusterEndpoint("id", "host", 1)) == {members[0], members[1], members[2]};
  }

  /**
   * One round over the three members with a single pending gossip opens
   * exactly two channels and sends exactly two messages.
   */
  method TestSendGossips() returns (toCalls: nat, sendCalls: nat)
    ensures toCalls == MaxEndpointsToSelect && sendCalls == MaxEndpointsToSelect
  {
    var protocol, members := Init();
    var states := [GossipLocalState(Gossip("2", Payload), ClusterEndpoint("id2", "host", 22), 0)];
    var targets := protocol.SendGossips(members, states, 42);
    toCalls := CountTo(protocol.calls);
    sendCalls := CountSend(protocol.calls);

    RoundCallsShape(targets, RoundMessage(states));
    MembersAreCandidates(members);
    assert protocol.calls == RoundCalls(targets, RoundMessage(states));
  }
}
