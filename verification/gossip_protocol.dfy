/**
 * The gossip engine as its unit test pins it down: inbound gossip batches are
 * deduplicated by gossip id into a pending queue, the queue is drained into the
 * stream that local listeners observe, and a dissemination round opens one
 * channel and sends one message to each of a fixed number of distinct members.
 * Which members a round picks is left open.
 */
module Gossip {
  import opened Wrappers
  import opened Protocol

  // ---------------------------------------------------------------------------
  // Inbound deduplication, as functions of the ids seen so far

  function IdsOf(gs: seq<Gossip>): (ids: set<string>)
    decreases |gs|
  {
    if gs == [] then {} else {gs[0].id} + IdsOf(gs[1..])
  }

  /** No gossip id occurs twice. */
  predicate DistinctIds(gs: seq<Gossip>) {
    forall i, j :: 0 <= i < j < |gs| ==> gs[i].id != gs[j].id
  }

  function Payloads(gs: seq<Gossip>): (r: seq<Message>)
    ensures |r| == |gs|
  {
    seq(|gs|, i requires 0 <= i < |gs| => gs[i].payload)
  }

  /** The first gossip of `gs` that carries `id`, if any. */
  function FirstWithId(gs: seq<Gossip>, id: string): (r: Option<Gossip>)
    ensures r.Some? ==> r.value in gs && r.value.id == id
    ensures r.None? ==> id !in IdsOf(gs)
    decreases |gs|
  {
    if gs == [] then None
    else if gs[0].id == id then Some(gs[0])
    else FirstWithId(gs[1..], id)
  }

  /**
   * The gossips a message carries. A message is recognised as a gossip batch by
   * its payload being a GossipRequest; its qualifier, sender and correlation id
   * play no part.
   */
  function BatchOf(m: TransportMessage): (batch: seq<Gossip>)
    ensures !m.message.data.Gossips? ==> batch == []
    ensures m.message.data.Gossips? ==> batch == m.message.data.request.gossips
  {
    if m.message.data.Gossips? then m.message.data.request.gossips else []
  }

  /** The gossips of a batch that are new, in batch order: an id already seen, or repeated earlier in the batch, is dropped. */
  function NewGossips(seen: set<string>, gs: seq<Gossip>): (r: seq<Gossip>)
    ensures |r| <= |gs|
    decreases |gs|
  {
    if gs == [] then []
    else if gs[0].id in seen then NewGossips(seen, gs[1..])
    else [gs[0]] + NewGossips(seen + {gs[0].id}, gs[1..])
  }

  /** The gossip ids carried by a stream of inbound messages. */
  function AllIds(msgs: seq<TransportMessage>): (ids: set<string>)
    decreases |msgs|
  {
    if msgs == [] then {} else IdsOf(BatchOf(msgs[0])) + AllIds(msgs[1..])
  }

  /** The batches of a stream of inbound messages, one after the other. */
  function AllGossips(msgs: seq<TransportMessage>): (gs: seq<Gossip>)
    decreases |msgs|
  {
    if msgs == [] then [] else BatchOf(msgs[0]) + AllGossips(msgs[1..])
  }

  /** What a stream of inbound messages adds to the pending queue. */
  function Inbound(seen: set<string>, msgs: seq<TransportMessage>): (r: seq<Gossip>)
    decreases |msgs|
  {
    if msgs == [] then []
    else NewGossips(seen, BatchOf(msgs[0])) + Inbound(seen + IdsOf(BatchOf(msgs[0])), msgs[1..])
  }

  lemma {:induction false} IdsOfAppend(a: seq<Gossip>, b: seq<Gossip>)
    ensures IdsOf(a + b) == IdsOf(a) + IdsOf(b)
    decreases |a|
  {
    if a == [] {
      assert a + b == b;
    } else {
      assert (a + b)[1..] == a[1..] + b;
      IdsOfAppend(a[1..], b);
    }
  }

  /** An id is among a sequence's ids exactly when some gossip of it carries that id. */
  lemma {:induction false} IdsOfMember(gs: seq<Gossip>, x: string)
    ensures x in IdsOf(gs) <==> exists i :: 0 <= i < |gs| && gs[i].id == x
    decreases |gs|
  {
    if gs != [] {
      IdsOfMember(gs[1..], x);
      if exists i :: 0 <= i < |gs[1..]| && gs[1..][i].id == x {
        var i :| 0 <= i < |gs[1..]| && gs[1..][i].id == x;
        assert gs[i + 1].id == x;
      }
      if exists i :: 0 <= i < |gs| && gs[i].id == x {
        var i :| 0 <= i < |gs| && gs[i].id == x;
        if i > 0 {
          assert gs[1..][i - 1].id == x;
        }
      }
    }
  }

  /** Sequences with disjoint, internally distinct ids concatenate to distinct ids. */
  lemma DistinctAppend(a: seq<Gossip>, b: seq<Gossip>)
    requires DistinctIds(a) && DistinctIds(b) && IdsOf(a) !! IdsOf(b)
    ensures DistinctIds(a + b)
  {
    forall i, j | 0 <= i < j < |a + b| ensures (a + b)[i].id != (a + b)[j].id {
      if i < |a| && j >= |a| {
        IdsOfMember(a, a[i].id);
        IdsOfMember(b, b[j - |a|].id);
      } else if i >= |a| {
        assert (a + b)[i] == b[i - |a|] && (a + b)[j] == b[j - |a|];
      }
    }
  }

  /** With distinct ids, the number of ids is the number of gossips. */
  lemma {:induction false} DistinctIdsCount(gs: seq<Gossip>)
    requires DistinctIds(gs)
    ensures |IdsOf(gs)| == |gs|
    decreases |gs|
  {
    if gs != [] {
      var rest := gs[1..];
      assert DistinctIds(rest) by {
        forall i, j | 0 <= i < j < |rest| ensures rest[i].id != rest[j].id {
          assert rest[i] == gs[i + 1] && rest[j] == gs[j + 1];
        }
      }
      DistinctIdsCount(rest);
      IdsOfMember(rest, gs[0].id);
      forall k | 0 <= k < |rest| ensures rest[k].id != gs[0].id {
        assert rest[k] == gs[k + 1];
      }
    }
  }

  /**
   * A batch yields each of its unseen ids exactly once: the new gossips have
   * distinct ids, none of them already seen, together exactly the batch's ids
   * minus those seen.
   */
  lemma {:induction false} NewGossipsExactlyOnce(seen: set<string>, gs: seq<Gossip>)
    ensures DistinctIds(NewGossips(seen, gs))
    ensures IdsOf(NewGossips(seen, gs)) == IdsOf(gs) - seen
    ensures |NewGossips(seen, gs)| == |IdsOf(gs) - seen|
    decreases |gs|
  {
    var r := NewGossips(seen, gs);
    if gs != [] {
      var g := gs[0];
      if g.id in seen {
        NewGossipsExactlyOnce(seen, gs[1..]);
      } else {
        var rest := NewGossips(seen + {g.id}, gs[1..]);
        NewGossipsExactlyOnce(seen + {g.id}, gs[1..]);
        assert r == [g] + rest;
        DistinctAppend([g], rest);
      }
    }
    DistinctIdsCount(r);
  }

  /** Taking one gossip of a batch at position `i`. */
  lemma UnfoldAt(seen: set<string>, gs: seq<Gossip>, i: nat)
    requires i < |gs|
    ensures IdsOf(gs[i..]) == {gs[i].id} + IdsOf(gs[i + 1..])
    ensures NewGossips(seen, gs[i..]) ==
      (if gs[i].id in seen then [] else [gs[i]]) + NewGossips(seen + {gs[i].id}, gs[i + 1..])
  {
    assert gs[i..][1..] == gs[i + 1..];
    if gs[i].id in seen {
      assert seen + {gs[i].id} == seen;
    }
  }

  /** Taking one message of a stream at position `i`. */
  lemma UnfoldStreamAt(seen: set<string>, msgs: seq<TransportMessage>, i: nat)
    requires i < |msgs|
    ensures AllIds(msgs[i..]) == IdsOf(BatchOf(msgs[i])) + AllIds(msgs[i + 1..])
    ensures Inbound(seen, msgs[i..]) ==
      NewGossips(seen, BatchOf(msgs[i])) + Inbound(seen + IdsOf(BatchOf(msgs[i])), msgs[i + 1..])
  {
    assert msgs[i..][1..] == msgs[i + 1..];
  }

  /** What is left of a stream after its message at `i` is taken in. */
  lemma StreamStep(seen: set<string>, queued: seq<Gossip>, msgs: seq<TransportMessage>, i: nat)
    requires i < |msgs|
    ensures var batch := BatchOf(msgs[i]);
      seen + IdsOf(batch) + AllIds(msgs[i + 1..]) == seen + AllIds(msgs[i..]) &&
      queued + NewGossips(seen, batch) + Inbound(seen + IdsOf(batch), msgs[i + 1..]) == queued + Inbound(seen, msgs[i..])
  {
    UnfoldStreamAt(seen, msgs, i);
  }

  /** A batch whose ids have all been seen adds nothing, whoever sends it. */
  lemma {:induction false} KnownBatchAddsNothing(seen: set<string>, gs: seq<Gossip>)
    requires IdsOf(gs) <= seen
    ensures NewGossips(seen, gs) == []
    decreases |gs|
  {
    if gs != [] {
      KnownBatchAddsNothing(seen, gs[1..]);
    }
  }

  /**
   * Deduplication over any inbound stream, however its batches overlap and
   * whoever sends them: the pending gossips have distinct ids, exactly the
   * stream's ids not seen before, one gossip per such id.
   */
  lemma {:induction false} InboundExactlyOnce(seen: set<string>, msgs: seq<TransportMessage>)
    ensures DistinctIds(Inbound(seen, msgs))
    ensures IdsOf(Inbound(seen, msgs)) == AllIds(msgs) - seen
    ensures |Inbound(seen, msgs)| == |AllIds(msgs) - seen|
    decreases |msgs|
  {
    if msgs != [] {
      var batch := BatchOf(msgs[0]);
      var first := NewGossips(seen, batch);
      var rest := Inbound(seen + IdsOf(batch), msgs[1..]);
      NewGossipsExactlyOnce(seen, batch);
      InboundExactlyOnce(seen + IdsOf(batch), msgs[1..]);
      IdsOfAppend(first, rest);
      DistinctAppend(first, rest);
    }
    DistinctIdsCount(Inbound(seen, msgs));
  }

  /** Only the messages matter, not who sent them or under which correlation id. */
  lemma {:induction false} SenderIsIrrelevant(seen: set<string>, msgs: seq<TransportMessage>, others: seq<TransportMessage>)
    requires |msgs| == |others|
    requires forall i :: 0 <= i < |msgs| ==> msgs[i].message == others[i].message
    ensures Inbound(seen, msgs) == Inbound(seen, others)
    decreases |msgs|
  {
    if msgs != [] {
      assert msgs[0].message == others[0].message;
      SenderIsIrrelevant(seen + IdsOf(BatchOf(msgs[0])), msgs[1..], others[1..]);
    }
  }

  /** Each new gossip is unseen and is the first gossip of the batch that carries its id. */
  lemma {:induction false} NewGossipsFirstOfEachId(seen: set<string>, gs: seq<Gossip>)
    ensures forall k :: 0 <= k < |NewGossips(seen, gs)| ==>
      NewGossips(seen, gs)[k].id !in seen && FirstWithId(gs, NewGossips(seen, gs)[k].id) == Some(NewGossips(seen, gs)[k])
    decreases |gs|
  {
    if gs != [] {
      var g := gs[0];
      if g.id in seen {
        NewGossipsFirstOfEachId(seen, gs[1..]);
      } else {
        var rest := NewGossips(seen + {g.id}, gs[1..]);
        NewGossipsFirstOfEachId(seen + {g.id}, gs[1..]);
        assert NewGossips(seen, gs) == [g] + rest;
        forall k | 0 <= k < |rest| ensures FirstWithId(gs, rest[k].id) == Some(rest[k]) {
          assert rest[k].id != g.id;
        }
      }
    }
  }

  /** Deduplicating two batches in a row is deduplicating the first, then the second against what the first added. */
  lemma {:induction false} NewGossipsAppend(seen: set<string>, a: seq<Gossip>, b: seq<Gossip>)
    ensures NewGossips(seen, a + b) == NewGossips(seen, a) + NewGossips(seen + IdsOf(a), b)
    decreases |a|
  {
    if a == [] {
      assert a + b == b && seen + IdsOf(a) == seen;
    } else {
      var g := a[0];
      assert (a + b)[0] == g && (a + b)[1..] == a[1..] + b;
      if g.id in seen {
        NewGossipsAppend(seen, a[1..], b);
        assert seen + IdsOf(a) == seen + IdsOf(a[1..]);
      } else {
        NewGossipsAppend(seen + {g.id}, a[1..], b);
        assert seen + IdsOf(a) == seen + {g.id} + IdsOf(a[1..]);
      }
    }
  }

  /** A stream is deduplicated as the one batch its messages' batches form together. */
  lemma {:induction false} InboundFlattens(seen: set<string>, msgs: seq<TransportMessage>)
    ensures Inbound(seen, msgs) == NewGossips(seen, AllGossips(msgs))
    decreases |msgs|
  {
    if msgs != [] {
      InboundFlattens(seen + IdsOf(BatchOf(msgs[0])), msgs[1..]);
      NewGossipsAppend(seen, BatchOf(msgs[0]), AllGossips(msgs[1..]));
    }
  }

  /** Each queued gossip is unseen and is the first gossip of the stream that carries its id, whoever sent it. */
  lemma InboundFirstOfEachId(seen: set<string>, msgs: seq<TransportMessage>)
    ensures forall k :: 0 <= k < |Inbound(seen, msgs)| ==>
      Inbound(seen, msgs)[k].id !in seen && FirstWithId(AllGossips(msgs), Inbound(seen, msgs)[k].id) == Some(Inbound(seen, msgs)[k])
  {
    InboundFlattens(seen, msgs);
    NewGossipsFirstOfEachId(seen, AllGossips(msgs));
  }

  /**
   * Streams compose: what two streams in a row queue is what the first queues,
   * then what the second queues given every id the first carried.
   */
  lemma {:induction false} InboundAppend(seen: set<string>, a: seq<TransportMessage>, b: seq<TransportMessage>)
    ensures Inbound(seen, a + b) == Inbound(seen, a) + Inbound(seen + AllIds(a), b)
    decreases |a|
  {
    if a == [] {
      assert a + b == b && seen + AllIds(a) == seen;
    } else {
      var batch := BatchOf(a[0]);
      var next := seen + IdsOf(batch);
      assert (a + b)[0] == a[0] && (a + b)[1..] == a[1..] + b;
      assert Inbound(seen, a + b) == NewGossips(seen, batch) + Inbound(next, a[1..] + b);
      InboundAppend(next, a[1..], b);
      assert next + AllIds(a[1..]) == seen + AllIds(a);
    }
  }

  lemma {:induction false} AllIdsAppend(a: seq<TransportMessage>, b: seq<TransportMessage>)
    ensures AllIds(a + b) == AllIds(a) + AllIds(b)
    decreases |a|
  {
    if a == [] {
      assert a + b == b;
    } else {
      assert (a + b)[0] == a[0] && (a + b)[1..] == a[1..] + b;
      AllIdsAppend(a[1..], b);
    }
  }

  /**
   * A message that carries no gossips, wherever it falls in a stream, changes
   * neither what the stream queues nor the ids it records.
   */
  lemma NonGossipIsIgnored(seen: set<string>, a: seq<TransportMessage>, m: TransportMessage, b: seq<TransportMessage>)
    requires !m.message.data.Gossips?
    ensures Inbound(seen, a + [m] + b) == Inbound(seen, a + b)
    ensures AllIds(a + [m] + b) == AllIds(a + b)
  {
    var rest := [m] + b;
    assert a + [m] + b == a + rest;
    assert rest[0] == m && rest[1..] == b;
    var next := seen + AllIds(a);
    assert BatchOf(m) == [] && IdsOf(BatchOf(m)) == {};
    assert Inbound(next, rest) == NewGossips(next, []) + Inbound(next + {}, b);
    assert NewGossips(next, []) == [] && next + {} == next;
    assert Inbound(next, rest) == Inbound(next, b);
    InboundAppend(seen, a, rest);
    InboundAppend(seen, a, b);
    AllIdsAppend(a, rest);
    AllIdsAppend(a, b);
  }

  /** A stream whose ids have all been seen queues nothing. */
  lemma {:induction false} KnownStreamAddsNothing(seen: set<string>, msgs: seq<TransportMessage>)
    requires AllIds(msgs) <= seen
    ensures Inbound(seen, msgs) == []
    decreases |msgs|
  {
    if msgs != [] {
      var batch := BatchOf(msgs[0]);
      KnownBatchAddsNothing(seen, batch);
      assert seen + IdsOf(batch) == seen;
      KnownStreamAddsNothing(seen, msgs[1..]);
    }
  }

  /**
   * The engine's invariant survives a batch: if the queued gossips have
   * distinct ids that, with the delivered ids, make up exactly `seen`, then
   * the same holds with the batch's new gossips queued behind them and the
   * batch's ids added to `seen`.
   */
  lemma QueueBatch(deliveredIds: set<string>, queued: seq<Gossip>, seen: set<string>, gs: seq<Gossip>)
    requires DistinctIds(queued) && deliveredIds !! IdsOf(queued) && deliveredIds + IdsOf(queued) == seen
    ensures DistinctIds(queued + NewGossips(seen, gs))
    ensures deliveredIds !! IdsOf(queued + NewGossips(seen, gs))
    ensures deliveredIds + IdsOf(queued + NewGossips(seen, gs)) == seen + IdsOf(gs)
  {
    NewGossipsExactlyOnce(seen, gs);
    IdsOfAppend(queued, NewGossips(seen, gs));
    DistinctAppend(queued, NewGossips(seen, gs));
  }

  lemma PayloadsAppend(a: seq<Gossip>, b: seq<Gossip>)
    ensures Payloads(a + b) == Payloads(a) + Payloads(b)
  {
    assert forall i :: 0 <= i < |a + b| ==> Payloads(a + b)[i] == (Payloads(a) + Payloads(b))[i];
  }

  /**
   * Listeners that have received everything delivered since they subscribed
   * still have, once each receives the drained payloads too.
   */
  lemma ListenersAfterDrain(before: seq<seq<Message>>, after: seq<seq<Message>>, joinedAt: seq<nat>,
                            delivered: seq<Gossip>, drained: seq<Gossip>)
    requires |joinedAt| == |before| == |after|
    requires forall k :: 0 <= k < |before| ==>
      joinedAt[k] <= |delivered| && before[k] == Payloads(delivered[joinedAt[k]..])
    requires forall k :: 0 <= k < |after| ==> after[k] == before[k] + Payloads(drained)
    ensures forall k :: 0 <= k < |after| ==>
      joinedAt[k] <= |delivered + drained| && after[k] == Payloads((delivered + drained)[joinedAt[k]..])
  {
    forall k | 0 <= k < |after|
      ensures after[k] == Payloads((delivered + drained)[joinedAt[k]..])
    {
      var j := joinedAt[k];
      assert (delivered + drained)[j..] == delivered[j..] + drained;
      PayloadsAppend(delivered[j..], drained);
    }
  }

  // ---------------------------------------------------------------------------
  // Dissemination rounds

  function Min(a: nat, b: nat): (m: nat) {
    if a <= b then a else b
  }

  /** The members a round may pick from: the snapshot's members other than the local one. */
  function Candidates(members: seq<ClusterEndpoint>, local: ClusterEndpoint): (c: set<ClusterEndpoint>) {
    set m | m in members && m != local
  }

  /** The gossips of the pending local states, in order. */
  function PendingGossips(localStates: seq<GossipLocalState>): (gs: seq<Gossip>) {
    seq(|localStates|, i requires 0 <= i < |localStates| => localStates[i].gossip)
  }

  /**
   * The one message a round sends: a GossipRequest with one gossip per pending
   * local state and no qualifier.
   */
  function RoundMessage(localStates: seq<GossipLocalState>): (m: Message)
    ensures m.qualifier.None? && m.data.Gossips?
  {
    Message(None, Gossips(GossipRequest(PendingGossips(localStates))))
  }

  /**
   * What a round sends is what a receiver takes in: a receiver that has seen
   * none of its (distinct) gossips queues all of them, in order, whoever the
   * sender is.
   */
  lemma RoundMessageIsReceived(localStates: seq<GossipLocalState>, source: TransportEndpoint, correlationId: string)
    requires DistinctIds(PendingGossips(localStates))
    ensures Inbound({}, [TransportMessage(RoundMessage(localStates), source, correlationId)]) == PendingGossips(localStates)
  {
    var gs := PendingGossips(localStates);
    DistinctNewGossips({}, gs);
    assert {} + IdsOf(gs) == IdsOf(gs);
  }

  /** A batch of distinct, unseen ids is queued whole. */
  lemma {:induction false} DistinctNewGossips(seen: set<string>, gs: seq<Gossip>)
    requires DistinctIds(gs) && IdsOf(gs) !! seen
    ensures NewGossips(seen, gs) == gs
    decreases |gs|
  {
    if gs != [] {
      var rest := gs[1..];
      assert DistinctIds(rest) by {
        forall i, j | 0 <= i < j < |rest| ensures rest[i].id != rest[j].id {
          assert rest[i] == gs[i + 1] && rest[j] == gs[j + 1];
        }
      }
      IdsOfMember(rest, gs[0].id);
      forall k | 0 <= k < |rest| ensures rest[k].id != gs[0].id {
        assert rest[k] == gs[k + 1];
      }
      DistinctNewGossips(seen + {gs[0].id}, rest);
    }
  }

  /** A call made on the transport (`to`) or on the channel it returned (`send`). */
  datatype TransportCall = To(endpoint: TransportEndpoint) | Send(endpoint: TransportEndpoint, message: Message)

  /** The calls of a round that targets `targets` in order: open a channel, then send once on it. */
  function RoundCalls(targets: seq<ClusterEndpoint>, m: Message): (calls: seq<TransportCall>)
    decreases |targets|
  {
    if targets == [] then []
    else
      var last := targets[|targets| - 1];
      RoundCalls(targets[..|targets| - 1], m) + [To(last.Address()), Send(last.Address(), m)]
  }

  lemma RoundCallsSnoc(targets: seq<ClusterEndpoint>, member: ClusterEndpoint, m: Message)
    ensures RoundCalls(targets + [member], m) == RoundCalls(targets, m) + [To(member.Address()), Send(member.Address(), m)]
  {
    assert (targets + [member])[..|targets|] == targets;
  }

  function CountTo(calls: seq<TransportCall>): (n: nat)
    decreases |calls|
  {
    if calls == [] then 0 else CountTo(calls[..|calls| - 1]) + (if calls[|calls| - 1].To? then 1 else 0)
  }

  function CountSend(calls: seq<TransportCall>): (n: nat)
    decreases |calls|
  {
    if calls == [] then 0 else CountSend(calls[..|calls| - 1]) + (if calls[|calls| - 1].Send? then 1 else 0)
  }
  /**
   * A round opens one channel per target and sends exactly once on each, so
   * `to` calls, `send` calls and targets are equally many, and each send goes
   * to the endpoint just opened.
   */
  lemma {:induction false} RoundCallsShape(targets: seq<ClusterEndpoint>, m: Message)
    ensures |RoundCalls(targets, m)| == 2 * |targets|
    ensures CountTo(RoundCalls(targets, m)) == |targets|
    ensures CountSend(RoundCalls(targets, m)) == |targets|
    ensures forall i :: 0 <= i < |targets| ==>
      RoundCalls(targets, m)[2 * i] == To(targets[i].Address()) &&
      RoundCalls(targets, m)[2 * i + 1] == Send(targets[i].Address(), m)
    decreases |targets|
  {
    if targets != [] {
      var front := targets[..|targets| - 1];
      var last := targets[|targets| - 1];
      RoundCallsShape(front, m);
      var prefix := RoundCalls(front, m);
      var calls := RoundCalls(targets, m);
      assert calls == prefix + [To(last.Address()), Send(last.Address(), m)];
      assert calls[..|calls| - 1] == prefix + [To(last.Address())];
      assert (prefix + [To(last.Address())])[..|prefix|] == prefix;
      forall i | 0 <= i < |targets|
        ensures calls[2 * i] == To(targets[i].Address()) && calls[2 * i + 1] == Send(targets[i].Address(), m)
      {
        if i < |front| {
          assert targets[i] == front[i];
        }
      }
    }
  }

  /** A fixed-delay schedule, in milliseconds. */
  datatype Schedule = FixedDelay(initialDelay: nat, period: nat)

  class GossipProtocol {
    const local: ClusterEndpoint
    var maxGossipSent: nat
    var gossipTime: nat
    var maxEndpointsToSelect: nat
    var members: seq<ClusterEndpoint>
    /** The ids of every gossip recorded in the local table. */
    var seen: set<string>
    /** Newly seen gossips waiting to be delivered to listeners. */
    var pending: seq<Gossip>
    /** What each listener has received, in subscription order. */
    var received: seq<seq<Message>>
    /** Every gossip whose payload was emitted on the listen stream, in order. */
    ghost var delivered: seq<Gossip>
    /** For each listener, how many gossips had been delivered when it subscribed. */
    ghost var joinedAt: seq<nat>
    /** Subscriptions made to the transport's inbound stream. */
    var listenCalls: nat
    /** Schedules registered with the executor. */
    var schedules: seq<Schedule>
    /** Calls made on the transport and on the channels it returned. */
    var calls: seq<TransportCall>

    /** Every gossip id recorded is delivered or queued, and none of them twice. */
    ghost predicate ExactlyOnce()
      reads this`seen, this`pending, this`delivered
    {
      && DistinctIds(delivered) && DistinctIds(pending)
      && IdsOf(delivered) !! IdsOf(pending)
      && IdsOf(delivered) + IdsOf(pending) == seen
    }

    /**
     * Every listener has received exactly the payloads delivered since it
     * subscribed, in order, with no replay of earlier ones.
     */
    ghost predicate NoReplay()
      reads this`received, this`joinedAt, this`delivered
    {
      && |joinedAt| == |received|
      && forall k :: 0 <= k < |received| ==>
           joinedAt[k] <= |delivered| && received[k] == Payloads(delivered[joinedAt[k]..])
    }

    ghost predicate Valid()
      reads this`seen, this`pending, this`delivered, this`received, this`joinedAt
    {
      ExactlyOnce() && NoReplay()
    }

    constructor (local: ClusterEndpoint)
      ensures Valid()
      ensures this.local == local
      ensures maxGossipSent == 0 && gossipTime == 0 && maxEndpointsToSelect == 0 && members == []
      ensures seen == {} && pending == [] && received == [] && delivered == []
      ensures listenCalls == 0 && schedules == [] && calls == []
    {
      this.local := local;
      maxGossipSent, gossipTime, maxEndpointsToSelect, members := 0, 0, 0, [];
      seen, pending, received := {}, [], [];
      delivered, joinedAt := [], [];
      listenCalls, schedules, calls := 0, [], [];
      assert IdsOf([]) == {};
    }

    method SetMaxGossipSent(n: nat)
      modifies this`maxGossipSent
      ensures maxGossipSent == n
    {
      maxGossipSent := n;
    }

    method SetGossipTime(millis: nat)
      modifies this`gossipTime
      ensures gossipTime == millis
    {
      gossipTime := millis;
    }

    method SetMaxEndpointsToSelect(n: nat)
      modifies this`maxEndpointsToSelect
      ensures maxEndpointsToSelect == n
    {
      maxEndpointsToSelect := n;
    }

    method SetClusterMembers(snapshot: seq<ClusterEndpoint>)
      modifies this`members
      ensures members == snapshot
    {
      members := snapshot;
    }

    /** Subscribes once to the inbound stream and schedules rounds every `gossipTime`, first after `gossipTime`. */
    method Start()
      modifies this`listenCalls, this`schedules
      ensures listenCalls == old(listenCalls) + 1
      ensures schedules == old(schedules) + [FixedDelay(gossipTime, gossipTime)]
    {
      listenCalls := listenCalls + 1;
      schedules := schedules + [FixedDelay(gossipTime, gossipTime)];
    }

    /** A new listener, numbered `k`: it has received nothing yet. */
    method Listen() returns (k: nat)
      requires Valid()
      modifies this`received, this`joinedAt
      ensures Valid()
      ensures k == |old(received)| && received == old(received) + [[]]
      ensures joinedAt == old(joinedAt) + [|delivered|]
    {
      k := |received|;
      received := received + [[]];
      joinedAt := joinedAt + [|delivered|];
      assert delivered[|delivered|..] == [];
    }

    /** One inbound message: its new gossips, in batch order, are recorded and queued. */
    method OnMessage(m: TransportMessage)
      requires ExactlyOnce() && listenCalls > 0
      modifies this`seen, this`pending
      ensures ExactlyOnce()
      ensures seen == old(seen) + IdsOf(BatchOf(m))
      ensures pending == old(pending) + NewGossips(old(seen), BatchOf(m))
    {
      var gs := BatchOf(m);
      var i := 0;
      assert gs[0..] == gs;
      while i < |gs|
        invariant 0 <= i <= |gs|
        invariant seen + IdsOf(gs[i..]) == old(seen) + IdsOf(gs)
        invariant pending + NewGossips(seen, gs[i..]) == old(pending) + NewGossips(old(seen), gs)
      {
        var g := gs[i];
        UnfoldAt(seen, gs, i);
        if g.id !in seen {
          seen := seen + {g.id};
          pending := pending + [g];
        }
        i := i + 1;
      }
      assert gs[i..] == [];
      assert IdsOf([]) == {};
      assert seen == old(seen) + IdsOf(gs);
      assert pending == old(pending) + NewGossips(old(seen), gs);
      QueueBatch(IdsOf(delivered), old(pending), old(seen), gs);
    }

    /** The inbound stream, message by message. */
    method OnMessages(msgs: seq<TransportMessage>)
      requires ExactlyOnce() && listenCalls > 0
      modifies this`seen, this`pending
      ensures ExactlyOnce()
      ensures seen == old(seen) + AllIds(msgs)
      ensures pending == old(pending) + Inbound(old(seen), msgs)
    {
      var i := 0;
      assert msgs[0..] == msgs;
      while i < |msgs|
        invariant 0 <= i <= |msgs|
        invariant ExactlyOnce()
        invariant seen + AllIds(msgs[i..]) == old(seen) + AllIds(msgs)
        invariant pending + Inbound(seen, msgs[i..]) == old(pending) + Inbound(old(seen), msgs)
      {
        StreamStep(seen, pending, msgs, i);
        OnMessage(msgs[i]);
        i := i + 1;
      }
      assert msgs[i..] == [];
    }

    /**
     * Drains the pending queue, in order, into the listen stream: every
     * listener receives every queued payload. Afterwards every id ever seen
     * has been delivered, and none twice.
     */
    method ProcessGossipQueue()
      requires Valid()
      modifies this`pending, this`delivered, this`received
      ensures Valid()
      ensures pending == [] && delivered == old(delivered) + old(pending)
      ensures |received| == |old(received)|
      ensures forall k :: 0 <= k < |received| ==> received[k] == old(received)[k] + Payloads(old(pending))
      ensures DistinctIds(delivered) && IdsOf(delivered) == seen
    {
      while pending != []
        invariant delivered + pending == old(delivered) + old(pending)
        invariant |received| == |old(received)|
        invariant forall k :: 0 <= k < |received| ==>
          received[k] + Payloads(pending) == old(received)[k] + Payloads(old(pending))
        decreases |pending|
      {
        var g := pending[0];
        assert Payloads(pending) == [g.payload] + Payloads(pending[1..]);
        var listeners := received;
        received := seq(|listeners|, k requires 0 <= k < |listeners| => listeners[k] + [g.payload]);
        delivered := delivered + [g];
        pending := pending[1..];
      }
      assert delivered == old(delivered) + old(pending);
      IdsOfAppend(old(delivered), old(pending));
      DistinctAppend(old(delivered), old(pending));
      assert IdsOf(pending) == {};
      ListenersAfterDrain(old(received), received, joinedAt, old(delivered), old(pending));
    }

    /**
     * One round: when gossips are pending, picks `maxEndpointsToSelect`
     * distinct members other than the local one (all of them when there are
     * fewer), and for each opens a channel and sends the round's message once;
     * with nothing pending it makes no call.
     */
    method SendGossips(snapshot: seq<ClusterEndpoint>, localStates: seq<GossipLocalState>, period: int)
      returns (targets: seq<ClusterEndpoint>)
      modifies this`calls
      ensures localStates == [] ==> targets == [] && calls == old(calls)
      ensures localStates != [] ==> |targets| == Min(maxEndpointsToSelect, |Candidates(snapshot, local)|)
      ensures forall i, j :: 0 <= i < j < |targets| ==> targets[i] != targets[j]
      ensures forall i :: 0 <= i < |targets| ==> targets[i] in snapshot && targets[i] != local
      ensures calls == old(calls) + RoundCalls(targets, RoundMessage(localStates))
    {
      targets := [];
      if localStates != [] {
        var message := RoundMessage(localStates);
        var candidates := Candidates(snapshot, local);
        var remaining := candidates;
        while |targets| < maxEndpointsToSelect && remaining != {}
          invariant remaining <= candidates
          invariant forall i :: 0 <= i < |targets| ==> targets[i] in candidates && targets[i] !in remaining
          invariant forall i, j :: 0 <= i < j < |targets| ==> targets[i] != targets[j]
          invariant |targets| + |remaining| == |candidates|
          invariant |targets| <= maxEndpointsToSelect
          invariant calls == old(calls) + RoundCalls(targets, message)
          decreases remaining
        {
          var member :| member in remaining;
          RoundCallsSnoc(targets, member, message);
          remaining := remaining - {member};
          calls := calls + [To(member.Address()), Send(member.Address(), message)];
          targets := targets + [member];
        }
      }
    }
  }
}
