/**
  `ryu_file_db.py`: the SmartCityController variant with the statistics and
  telemetry layer. Its `add_flow` defaults to idle_timeout=30, hard_timeout=60,
  so the forward rule of every pair expires.
 */
module RyuFileDb {
  import opened Wrappers
  import opened Subnet
  import opened Classifier
  import opened OpenFlow
  import opened Rules
  import opened Stats
  import opened Ranking

  /** The default timeouts of this file's `add_flow`. */
  const AddFlowDefaults: Timeouts := Timeouts(30, 60)

  class SmartCityController {
    /** `self.datapaths`: the registered switches by id. */
    var datapaths: map<DatapathId, Datapath>
    /** Everything handed to a switch's `send_msg`, in the order it was sent. */
    var outbox: seq<Sent>
    /** `self.traffic_counter`: its counts and the insertion order of its keys. */
    var trafficCounter: map<IpKey, nat>
    var trafficOrder: seq<IpKey>

    function Traffic(): TrafficCounter
      reads this
    {
      TrafficCounter(trafficCounter, trafficOrder)
    }

    ghost predicate Valid()
      reads this
    {
      Traffic().Valid()
    }

    constructor ()
      ensures Valid()
      ensures datapaths == map[] && outbox == [] && Traffic() == EmptyCounter
    {
      datapaths := map[];
      outbox := [];
      trafficCounter := map[];
      trafficOrder := [];
    }

    /** `datapath.send_msg(m)`. */
    method SendMsg(dp: Datapath, m: Message)
      modifies this`outbox
      ensures outbox == old(outbox) + [Sent(dp.id, m)]
    {
      outbox := outbox + [Sent(dp.id, m)];
    }

    /** `switch_features_handler`: register the switch, clear its table, install the catch-all rule. */
    method SwitchFeaturesHandler(dp: Datapath)
      modifies this`datapaths, this`outbox
      ensures datapaths == old(datapaths)[dp.id := dp]
      ensures datapaths.Keys == old(datapaths).Keys + {dp.id}
      ensures outbox == old(outbox) + Addressed(dp.id, ConnectMessages)
    {
      datapaths := datapaths[dp.id := dp];
      ClearFlows(dp);
      SendMsg(dp, FlowAdd(0, MatchAll, [Output(PortController, Some(MaxLenNoBuffer))], 0, 0));
    }

    /** `clear_flows`. */
    method ClearFlows(dp: Datapath)
      modifies this`outbox
      ensures outbox == old(outbox) + [Sent(dp.id, ClearFlowsMessage)]
    {
      SendMsg(dp, FlowDelete(MatchAll, PortAny, GroupAny));
    }

    /** `add_flow`, with this file's default timeouts. */
    method AddFlow(dp: Datapath, priority: nat, m: Match, actions: seq<Action>,
                   idleTimeout: nat := AddFlowDefaults.idle, hardTimeout: nat := AddFlowDefaults.hard)
      modifies this`outbox
      ensures outbox == old(outbox) + [Sent(dp.id, AddFlowMessage(priority, m, actions, Timeouts(idleTimeout, hardTimeout)))]
    {
      SendMsg(dp, FlowAdd(priority, m, actions, idleTimeout, hardTimeout));
    }

    /** `install_priority_flow`: the forward rule with `add_flow`'s defaults, the reverse one with 30/60. */
    method InstallPriorityFlow(dp: Datapath, src: Addr, dst: Addr, inPort: Uint32, queueId: nat, priority: nat)
      modifies this`outbox
      ensures outbox == old(outbox) + Addressed(dp.id, PriorityFlowMessages(AddFlowDefaults, src, dst, queueId, priority))
    {
      var actions := [SetQueue(queueId), Output(PortNormal, None)];
      AddFlow(dp, priority, IpPairMatch(src, dst), actions);
      AddFlow(dp, priority, IpPairMatch(dst, src), actions, idleTimeout := 30, hardTimeout := 60);
    }

    /** `install_default_flow`: priority 50, the forward rule with `add_flow`'s defaults, the reverse one with 20/40. */
    method InstallDefaultFlow(dp: Datapath, src: Addr, dst: Addr, inPort: Uint32)
      modifies this`outbox
      ensures outbox == old(outbox) + Addressed(dp.id, DefaultFlowMessages(AddFlowDefaults, src, dst))
    {
      var actions := [Output(PortNormal, None)];
      AddFlow(dp, 50, IpPairMatch(src, dst), actions);
      AddFlow(dp, 50, IpPairMatch(dst, src), actions, idleTimeout := 20, hardTimeout := 40);
    }

    /** `send_packet_out`. */
    method SendPacketOut(dp: Datapath, ev: PacketIn, inPort: Uint32, outputPort: Uint32)
      modifies this`outbox
      ensures outbox == old(outbox) + [Sent(dp.id, PacketOutMessage(ev, inPort, outputPort))]
    {
      var data := None;
      if ev.bufferId == NoBuffer {
        data := Some(ev.data);
      }
      SendMsg(dp, PacketOut(ev.bufferId, inPort, [Output(outputPort, None)], data));
    }

    /** `_packet_in_handler`. */
    method PacketInHandler(dp: Datapath, ev: PacketIn)
      modifies this`outbox
      ensures outbox == old(outbox) + Addressed(dp.id, PacketInMessages(AddFlowDefaults, ev))
    {
      var inPort := ev.inPort;
      if ev.ethType == EthTypeArp {
        SendPacketOut(dp, ev, inPort, PortFlood);
        return;
      }
      if ev.ethType != EthTypeIp {
        return;
      }
      if ev.ipv4.None? {
        return;
      }
      var src, dst := ev.ipv4.value.src, ev.ipv4.value.dst;
      var cls := Classify(Some(src), Some(dst));
      ghost var pair := ClassFlowMessages(AddFlowDefaults, cls, src, dst);
      match QueueOf(cls) {
        case Some(q) => InstallPriorityFlow(dp, src, dst, inPort, q, Priority(cls));
        case None => InstallDefaultFlow(dp, src, dst, inPort);
      }
      SendPacketOut(dp, ev, inPort, PortFlood);
      AddressedConcat(dp.id, pair, [PacketOutMessage(ev, inPort, PortFlood)]);
    }

    /**
      `flow_stats_reply_handler`: the `flow_stats` payload it publishes, and
      the per-source accumulation into the traffic counter.
     */
    method FlowStatsReplyHandler(dp: Datapath, body: seq<FlowStat>) returns (payload: FlowStatsEvent)
      requires Valid()
      modifies this`trafficCounter, this`trafficOrder
      ensures Valid()
      ensures payload == FlowStatsSnapshot(dp.id, body)
      ensures Traffic() == Accumulate(old(Traffic()), body)
    {
      var totalFlows := |body|;
      var totalBytes := TotalBytes(body);
      var totalPackets := TotalPackets(body);
      var name := SwitchName(dp.id);
      var bandwidth := ((totalBytes * 8) as real / (1024 * 1024) as real) / 10.0;
      for i := 0 to |body|
        invariant Traffic() == Accumulate(old(Traffic()), body[..i])
      {
        var e := body[i];
        if e.ipv4Src.Some? && e.ipv4Src.value != "" {
          var srcIp := e.ipv4Src.value;
          if srcIp !in trafficCounter {
            trafficOrder := trafficOrder + [srcIp];
          }
          trafficCounter := trafficCounter[srcIp := Get(trafficCounter, srcIp) + e.packetCount];
        }
        assert body[..i + 1][..i] == body[..i];
      }
      assert body[..|body|] == body;
      AccumulateValid(old(Traffic()), body);
      payload := FlowStatsEvent(dp.id, name, totalFlows, bandwidth, totalPackets);
    }

    /** `reset_inactive_traffic`, with the clock reading `now` as a parameter. */
    method ResetInactiveTraffic(now: int)
      requires Valid()
      modifies this`trafficCounter
      ensures Valid()
      ensures Traffic() == ResetInactive(old(Traffic()), now)
    {
      var snapshot := Items(Traffic());
      ghost var before := trafficCounter;
      ghost var seen: set<IpKey> := {};
      for i := 0 to |snapshot|
        invariant trafficCounter.Keys == before.Keys
        invariant forall j :: 0 <= j < i ==> trafficOrder[j] in seen
        invariant forall k :: k in before ==>
                    trafficCounter[k] == if k in seen && now - before[k] > 10 then 0 else before[k]
      {
        var (ip, lastSeen) := snapshot[i];
        assert ip == trafficOrder[i] && ip in before && lastSeen == before[ip];
        if now - lastSeen > 10 {
          trafficCounter := trafficCounter[ip := 0];
        }
        seen := seen + {ip};
      }
      assert forall k :: k in before ==> k in seen;
      ResetInactiveDetermined(TrafficCounter(before, trafficOrder), now, trafficCounter);
    }

    /**
      One pass of the `emit_top_talkers` loop: the `top_talkers` payload
      ranked from the counter as it stands, then the inactivity reset.
     */
    method TopTalkersTick(now: int) returns (top: seq<Talker>)
      requires Valid()
      modifies this`trafficCounter
      ensures Valid()
      ensures top == TopTalkers(Items(old(Traffic())))
      ensures Traffic() == ResetInactive(old(Traffic()), now)
    {
      top := TopTalkers(Items(Traffic()));
      ResetInactiveTraffic(now);
    }
  }

  /**
    In this file every rule of a pair expires: a service class's pair gets
    30/60 in both directions; a Default pair gets 30/60 forward and 20/40 in
    reverse.
   */
  lemma PacketInTimeouts(ev: PacketIn)
    requires ev.ethType == EthTypeIp && ev.ipv4.Some?
    ensures var r := PacketInMessages(AddFlowDefaults, ev);
            var c := Classify(Some(ev.ipv4.value.src), Some(ev.ipv4.value.dst));
            && r[0].FlowAdd? && r[1].FlowAdd?
            && r[0].idleTimeout == 30 && r[0].hardTimeout == 60
            && (c != Default ==> r[1].idleTimeout == 30 && r[1].hardTimeout == 60)
            && (c == Default ==> r[1].idleTimeout == 20 && r[1].hardTimeout == 40)
  {
    var h := ev.ipv4.value;
    PairTimeouts(AddFlowDefaults, Classify(Some(h.src), Some(h.dst)), h.src, h.dst);
  }
}
