/**
  The statistics layer of the telemetry variant of the controller: totals of
  one flow-stats reply, the per-switch snapshot it publishes, the per-source
  packet counter that replies accumulate into, and the inactivity reset.
 */
module Stats {
  import opened Wrappers
  import opened OpenFlow

  /** The key of the traffic counter: the `ipv4_src` string of a stats entry. */
  type IpKey = string

  /** One entry of a flow-stats reply: `match.get('ipv4_src')`, `byte_count`, `packet_count`. */
  datatype FlowStat = FlowStat(ipv4Src: Option<string>, byteCount: nat, packetCount: nat)

  /** `if src_ip:` — the source is present and, as a Python string, truthy. */
  predicate HasSource(e: FlowStat) {
    e.ipv4Src.Some? && e.ipv4Src.value != ""
  }

  /** The `byte_count` sum of a reply: at least the count of any one entry. */
  function TotalBytes(body: seq<FlowStat>): (r: nat)
    ensures forall i :: 0 <= i < |body| ==> body[i].byteCount <= r
  {
    if body == [] then 0
    else
      var rest := TotalBytes(body[1..]);
      assert forall i :: 1 <= i < |body| ==> body[i] == body[1..][i - 1];
      body[0].byteCount + rest
  }

  /** The `packet_count` sum of a reply: at least the count of any one entry. */
  function TotalPackets(body: seq<FlowStat>): (r: nat)
    ensures forall i :: 0 <= i < |body| ==> body[i].packetCount <= r
  {
    if body == [] then 0
    else
      var rest := TotalPackets(body[1..]);
      assert forall i :: 1 <= i < |body| ==> body[i] == body[1..][i - 1];
      body[0].packetCount + rest
  }

  /** Totals are additive: a reply split in two has the totals of its halves added. */
  lemma {:induction false} TotalsSplit(a: seq<FlowStat>, b: seq<FlowStat>)
    ensures TotalBytes(a + b) == TotalBytes(a) + TotalBytes(b)
    ensures TotalPackets(a + b) == TotalPackets(a) + TotalPackets(b)
  {
    if a != [] {
      assert (a + b)[1..] == a[1..] + b;
      TotalsSplit(a[1..], b);
    } else {
      assert a + b == b;
    }
  }

  /**
    `((total_bytes * 8) / (1024 * 1024)) / 10`, exactly: the divisor 10 is
    fixed and does not follow the poll interval.
   */
  function BandwidthMbps(body: seq<FlowStat>): (r: real)
    ensures r >= 0.0
    ensures r * 10485760.0 == (8 * TotalBytes(body)) as real
  {
    ((TotalBytes(body) * 8) as real / (1024 * 1024) as real) / 10.0
  }

  /** `dpid_name_map`. */
  const DpidNameMap: map<DatapathId, string> := map[
    1 := "Traffic Control Switch",
    2 := "Healthcare Switch",
    3 := "Public Safety Switch",
    4 := "Energy Grid Switch",
    5 := "Smart Homes Switch",
    6 := "Education Switch"
  ]

  function DigitChar(d: nat): (c: char)
    requires d < 10
    ensures '0' <= c <= '9' && c as int - '0' as int == d
  {
    ('0' as int + d) as char
  }

  predicate AllDigits(s: string) {
    forall i :: 0 <= i < |s| ==> '0' <= s[i] <= '9'
  }

  /** The decimal numeral of `n`, as `f"{n}"` writes it. */
  function Decimal(n: nat): (s: string)
    ensures |s| >= 1 && AllDigits(s)
  {
    if n < 10 then [DigitChar(n)] else Decimal(n / 10) + [DigitChar(n % 10)]
  }

  /** The value of a string of decimal digits. */
  function DecimalValue(s: string): nat
    requires AllDigits(s)
  {
    if s == [] then 0 else DecimalValue(s[..|s| - 1]) * 10 + (s[|s| - 1] as int - '0' as int)
  }

  lemma {:induction false} DecimalRoundTrip(n: nat)
    ensures DecimalValue(Decimal(n)) == n
  {
    if n >= 10 {
      var s := Decimal(n);
      assert s[..|s| - 1] == Decimal(n / 10);
      DecimalRoundTrip(n / 10);
    }
  }

  /** `dpid_name_map.get(dpid, f"Switch {dpid}")`. */
  function SwitchName(dpid: DatapathId): (r: string)
    ensures dpid in DpidNameMap ==> r == DpidNameMap[dpid]
    ensures dpid !in DpidNameMap ==> |r| > 7 && r[..7] == "Switch " && AllDigits(r[7..]) && DecimalValue(r[7..]) == dpid
  {
    DecimalRoundTrip(dpid);
    assert ("Switch " + Decimal(dpid))[7..] == Decimal(dpid);
    if dpid in DpidNameMap then DpidNameMap[dpid] else "Switch " + Decimal(dpid)
  }

  /** Different switches are published under different names. */
  lemma SwitchNameInjective(a: DatapathId, b: DatapathId)
    requires SwitchName(a) == SwitchName(b)
    ensures a == b
  {
    if a !in DpidNameMap && b !in DpidNameMap {
      assert SwitchName(a)[7..] == SwitchName(b)[7..];
    }
  }

  /** The `flow_stats` event payload. */
  datatype FlowStatsEvent = FlowStatsEvent(dpid: DatapathId, name: string, flows: nat, bandwidth: real, packets: nat)

  /** The payload `flow_stats_reply_handler` publishes for one reply (before `round(…, 2)`). */
  function FlowStatsSnapshot(dpid: DatapathId, body: seq<FlowStat>): (r: FlowStatsEvent)
    ensures r.dpid == dpid && r.name == SwitchName(dpid) && r.flows == |body|
    ensures r.packets == TotalPackets(body)
    ensures r.bandwidth * 10485760.0 == (8 * TotalBytes(body)) as real
  {
    FlowStatsEvent(dpid, SwitchName(dpid), |body|, BandwidthMbps(body), TotalPackets(body))
  }

  /** A reply of two entries of 125000 bytes and of 100 and 50 packets from an unnamed switch 7. */
  lemma TwoEntryReply()
    ensures var e := FlowStatsSnapshot(7, [FlowStat(Some("10.2.0.1"), 125000, 100), FlowStat(None, 125000, 50)]);
            && e.flows == 2 && e.packets == 150 && e.name == "Switch 7"
            && e.bandwidth == 2000000.0 / 10485760.0
            && 0.19 <= e.bandwidth < 0.191
  {
    var body := [FlowStat(Some("10.2.0.1"), 125000, 100), FlowStat(None, 125000, 50)];
    assert body[1..][1..] == [];
  }

  /**
    The traffic counter: a dictionary from source to packet count, with the
    order in which its keys were first inserted (Python dictionaries keep it,
    and the stable top-talkers sort breaks ties by it).
   */
  datatype TrafficCounter = TrafficCounter(counts: map<IpKey, nat>, order: seq<IpKey>) {

    /** The key order lists every key exactly once. */
    ghost predicate Valid() {
      && (forall i, j :: 0 <= i < j < |order| ==> order[i] != order[j])
      && (forall k :: k in counts <==> k in order)
    }
  }

  const EmptyCounter: TrafficCounter := TrafficCounter(map[], [])

  /** `counts.get(k, 0)`. */
  function Get(m: map<IpKey, nat>, k: IpKey): nat {
    if k in m then m[k] else 0
  }

  /** `traffic_counter[k] = traffic_counter.get(k, 0) + n`; a new key goes last. */
  function Bump(t: TrafficCounter, k: IpKey, n: nat): TrafficCounter {
    TrafficCounter(t.counts[k := Get(t.counts, k) + n], if k in t.counts then t.order else t.order + [k])
  }

  /** One iteration of the accumulation loop. */
  function AddSample(t: TrafficCounter, e: FlowStat): TrafficCounter {
    if HasSource(e) then Bump(t, e.ipv4Src.value, e.packetCount) else t
  }

  /** The accumulation loop of `flow_stats_reply_handler` over a whole reply, entry by entry. */
  function Accumulate(t: TrafficCounter, body: seq<FlowStat>): (r: TrafficCounter)
    ensures t.counts.Keys <= r.counts.Keys
  {
    if body == [] then t else AddSample(Accumulate(t, body[..|body| - 1]), body[|body| - 1])
  }

  /** Reference definition: the packets a reply carries for source `k`. */
  function PacketsFrom(body: seq<FlowStat>, k: IpKey): nat {
    if body == [] then 0
    else
      var e := body[|body| - 1];
      PacketsFrom(body[..|body| - 1], k) + (if HasSource(e) && e.ipv4Src.value == k then e.packetCount else 0)
  }

  /** The sources a reply names. */
  function SourcesOf(body: seq<FlowStat>): set<IpKey> {
    set i | 0 <= i < |body| && HasSource(body[i]) :: body[i].ipv4Src.value
  }

  lemma BumpValid(t: TrafficCounter, k: IpKey, n: nat)
    requires t.Valid()
    ensures Bump(t, k, n).Valid()
  {
  }

  /** Accumulation keeps the counter well formed. */
  lemma {:induction false} AccumulateValid(t: TrafficCounter, body: seq<FlowStat>)
    requires t.Valid()
    ensures Accumulate(t, body).Valid()
  {
    if body != [] {
      AccumulateValid(t, body[..|body| - 1]);
      var e := body[|body| - 1];
      if HasSource(e) {
        BumpValid(Accumulate(t, body[..|body| - 1]), e.ipv4Src.value, e.packetCount);
      }
    }
  }

  /** Each source's count grows by exactly the packets the reply reports for it. */
  lemma {:induction false} AccumulateCounts(t: TrafficCounter, body: seq<FlowStat>, k: IpKey)
    ensures Get(Accumulate(t, body).counts, k) == Get(t.counts, k) + PacketsFrom(body, k)
  {
    if body != [] {
      AccumulateCounts(t, body[..|body| - 1], k);
    }
  }

  /** The keys afterwards are the old keys and the sources the reply names: none is removed. */
  lemma {:induction false} AccumulateKeys(t: TrafficCounter, body: seq<FlowStat>)
    ensures Accumulate(t, body).counts.Keys == t.counts.Keys + SourcesOf(body)
  {
    if body != [] {
      var front, e := body[..|body| - 1], body[|body| - 1];
      AccumulateKeys(t, front);
      assert SourcesOf(body) == SourcesOf(front) + (if HasSource(e) then {e.ipv4Src.value} else {}) by {
        forall x | x in SourcesOf(body) ensures x in SourcesOf(front) + (if HasSource(e) then {e.ipv4Src.value} else {}) {
          var i :| 0 <= i < |body| && HasSource(body[i]) && body[i].ipv4Src.value == x;
          if i < |front| {
            assert front[i] == body[i];
          }
        }
        forall x | x in SourcesOf(front) ensures x in SourcesOf(body) {
          var i :| 0 <= i < |front| && HasSource(front[i]) && front[i].ipv4Src.value == x;
          assert body[i] == front[i];
        }
      }
    }
  }

  /** The old insertion order survives as a prefix: keys already present keep their place. */
  lemma {:induction false} AccumulateKeepsOrder(t: TrafficCounter, body: seq<FlowStat>)
    ensures |t.order| <= |Accumulate(t, body).order|
    ensures Accumulate(t, body).order[..|t.order|] == t.order
  {
    if body != [] {
      AccumulateKeepsOrder(t, body[..|body| - 1]);
      var before := Accumulate(t, body[..|body| - 1]).order;
      var e := body[|body| - 1];
      if HasSource(e) {
        assert (before + [e.ipv4Src.value])[..|t.order|] == before[..|t.order|];
      }
    }
  }

  /** Entry `e` of a reply counts towards source `k`. */
  predicate Names(e: FlowStat, k: IpKey) {
    HasSource(e) && e.ipv4Src.value == k
  }

  /** Reference definition: the index of the first entry of a reply naming `k`, or `|body|` when none does. */
  function FirstNaming(body: seq<FlowStat>, k: IpKey): (r: nat)
    ensures r <= |body|
    ensures r < |body| ==> Names(body[r], k)
    ensures forall m :: 0 <= m < r ==> !Names(body[m], k)
  {
    if body == [] then 0
    else if Names(body[0], k) then 0
    else
      var rest := FirstNaming(body[1..], k);
      assert forall m :: 1 <= m <= rest ==> body[m] == body[1..][m - 1];
      1 + rest
  }

  /** The three properties of `FirstNaming` pin it down. */
  lemma FirstNamingUnique(body: seq<FlowStat>, k: IpKey, n: nat)
    requires n <= |body|
    requires n < |body| ==> Names(body[n], k)
    requires forall m :: 0 <= m < n ==> !Names(body[m], k)
    ensures FirstNaming(body, k) == n
  {
  }

  /**
    Keys a reply adds to a well-formed counter are appended in the order of
    the first entries naming them, as insertion into a Python dict orders them.
   */
  lemma {:induction false} AccumulateFirstSeenOrder(t: TrafficCounter, body: seq<FlowStat>)
    requires t.Valid()
    ensures var o := Accumulate(t, body).order;
            forall i :: |t.order| <= i < |o| ==> FirstNaming(body, o[i]) < |body|
    ensures var o := Accumulate(t, body).order;
            forall i, j :: |t.order| <= i < j < |o| ==> FirstNaming(body, o[i]) < FirstNaming(body, o[j])
  {
    if body != [] {
      var front, e := body[..|body| - 1], body[|body| - 1];
      AccumulateFirstSeenOrder(t, front);
      AccumulateKeepsOrder(t, front);
      AccumulateValid(t, front);
      var a := Accumulate(t, front);
      var o := Accumulate(t, body).order;
      forall i | |t.order| <= i < |a.order|
        ensures FirstNaming(body, a.order[i]) == FirstNaming(front, a.order[i])
      {
        var x := a.order[i];
        var n := FirstNaming(front, x);
        assert body[n] == front[n];
        assert forall m :: 0 <= m < n ==> body[m] == front[m];
        FirstNamingUnique(body, x, n);
      }
      if HasSource(e) && e.ipv4Src.value !in a.counts {
        var k := e.ipv4Src.value;
        assert o == a.order + [k];
        AccumulateKeys(t, front);
        assert forall m :: 0 <= m < |front| ==> body[m] == front[m];
        FirstNamingUnique(body, k, |front|);
      } else {
        assert o == a.order;
      }
    }
  }

  /** Accumulation never removes a key and never lowers a count. */
  lemma AccumulateMonotone(t: TrafficCounter, body: seq<FlowStat>, k: IpKey)
    requires k in t.counts
    ensures k in Accumulate(t, body).counts
    ensures t.counts[k] <= Accumulate(t, body).counts[k]
  {
    AccumulateKeys(t, body);
    AccumulateCounts(t, body, k);
  }

  /**
    `reset_inactive_traffic` at time `now`: an entry whose value `v` has
    `now - v > 10` is set to 0. The value is compared as if it were a
    timestamp, as the controller does; every other entry, the key set and
    the key order stay as they were.
   */
  function ResetInactive(t: TrafficCounter, now: int): (r: TrafficCounter)
    ensures r.order == t.order && r.counts.Keys == t.counts.Keys
    ensures forall k :: k in t.counts && now - t.counts[k] > 10 ==> r.counts[k] == 0
    ensures forall k :: k in t.counts && now - t.counts[k] <= 10 ==> r.counts[k] == t.counts[k]
    ensures forall k :: k in t.counts ==> r.counts[k] <= t.counts[k]
    ensures forall k :: k in r.counts ==> (r.counts[k] == 0 || now - r.counts[k] <= 10)
    ensures t.Valid() ==> r.Valid()
  {
    TrafficCounter(map k | k in t.counts :: if now - t.counts[k] > 10 then 0 else t.counts[k], t.order)
  }

  /** A map with the reset's keys and the reset's value at every key is the reset's map. */
  lemma ResetInactiveDetermined(t: TrafficCounter, now: int, m: map<IpKey, nat>)
    requires m.Keys == t.counts.Keys
    requires forall k :: k in t.counts ==> m[k] == if now - t.counts[k] > 10 then 0 else t.counts[k]
    ensures ResetInactive(t, now).counts == m
  {
  }

  /** Resetting twice at the same time changes nothing more. */
  lemma ResetIdempotent(t: TrafficCounter, now: int)
    ensures ResetInactive(ResetInactive(t, now), now) == ResetInactive(t, now)
  {
    var r := ResetInactive(t, now);
    var rr := ResetInactive(r, now);
    assert rr.counts == r.counts;
  }
}
