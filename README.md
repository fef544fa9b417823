# SmartCityController in Dafny

A model of the decision logic of the Ryu "SmartCityController", an OpenFlow 1.3
controller that sorts city traffic into service classes by subnet. It exists in
two variants: `ryu_file_db.py`, which adds a statistics and telemetry layer, and
the plain `ryu_file.py`. The model covers four parts:

- **Subnet classifier.** `is_in_network` checks membership in a CIDR block, using
  prefix notation as in section 3.1 of RFC 4632. A first-match-wins chain over
  five `/24` service networks then picks the traffic class of a (source,
  destination) pair: Healthcare, Public Safety, Energy Grid, Smart Homes,
  Education, or Default (modules `Subnet`, `Classifier`).
- **Packet-in handling and rule pairs.** ARP frames are flooded. Other non-IPv4
  frames are dropped. An IPv4 frame gets a forward rule and a reverse rule with
  the class's queue, priority and timeouts, and is then flooded (module `Rules`).
- **Switch connection.** The switch is registered, its table is cleared, and a
  priority-0 catch-all rule that sends packets to the controller is installed.
- **Statistics** (`ryu_file_db.py` only). This gives the totals and bandwidth
  of a flow-stats reply, the per-source traffic counter, the top-3 ranking
  and the inactivity reset (modules `Stats`, `Ranking`).

Each source file is a class `SmartCityController` in its own module
(`RyuFileDb`, `RyuFile`). The class has the source's fields: `datapaths`, the
traffic counter, and an outbox, which is a `seq<Sent>` standing for every
`send_msg` call, in order. Each handler is a method. Its `ensures` ties the new
outbox and state to a pure function in `Rules` or `Stats`, and the lemmas about
those functions state what the controller promises.

The two files hold the same classifier, the same rule-pair code and the same
packet-out code. These are modelled once. The one difference is the default
timeouts of `add_flow`: 30/60 in `ryu_file_db.py`, 0/0 in `ryu_file.py`. The
shared rule functions take those defaults as a parameter, and each module
supplies its own `AddFlowDefaults`. So the forward rule of every pair (the
Default class's pair included) expires after 30/60 in one file and never
expires in the other. The reverse rule always gets the explicit 30/60
(service classes) or 20/40 (Default).

Where the code's own comments and the code disagree, the model follows the code:

- `ryu_file_db.py:271` says the Default class's rule gets a "shorter timeout".
  In fact its forward rule gets `add_flow`'s defaults (30/60), as every
  service class's forward rule does. Only its reverse rule gets 20/40.
- `ryu_file.py:164` says the rule pair has a "30-second timeout". There
  `add_flow` defaults to 0/0, so the forward rule never expires. Only the
  reverse rule gets 30/60.
- `ryu_file_db.py:117` calls the test a "10 seconds inactivity threshold".
  The code compares the current time with the counter value itself
  (`now - count > 10`). The model does the same, with `now` as a parameter.
  Real clock readings are far larger than packet counts, so in practice every
  entry is reset on every pass.

Two further points follow from the code as written:

- Ties among top talkers stay in the counter's insertion order. The ranking
  is Python's stable sort by count alone (`ryu_file_db.py:104`).
- The bandwidth figure divides by a fixed 10 (`ryu_file_db.py:58`). The poll
  loop sleeps 3 seconds (`ryu_file_db.py:48`).

Inputs the model takes instead of computing:

- The clock reading.
- The decoded frame: its Ethernet type, and its IPv4 header if there is one.
- Whether a dotted-quad string parses. An address is `Option<Addr>`: `None`
  is the `ValueError` path.
- The published telemetry payloads. These are returned values.

## Model

| member | source | states |
|---|---|---|
| Subnet.Dotted | ryu_file_db.py:29-33 | the 32-bit value of `a.b.c.d` gives back each of its four octets |
| Subnet.IsInNetwork | ryu_file_db.py:218-225 | an address or network that does not parse, or a prefix longer than 32, is a non-match (the `ValueError` path) |
| Subnet.IsInNetworkIffInBlock | ryu_file_db.py:221-222 | an address is in a network exactly when it lies in the block from the network address over 2^(32-prefix) addresses, host bits of the base ignored |
| Subnet.ContainsIffInBlock | ryu_file.py:140-141 | prefix membership is membership of the address block starting at the network address |
| Subnet.Slash24 | ryu_file.py:16-20 | for the /24 service networks, membership means `addr / 256 == net / 256` |
| Classifier.Classify | ryu_file_db.py:185-188 | a source in the Healthcare network selects Healthcare, whatever the destination |
| Classifier.ClassifyIff | ryu_file_db.py:185-208 | a service class is chosen exactly when one of the two addresses is in its network and no network earlier in the chain holds either address |
| Classifier.ClassifyDefaultIff | ryu_file_db.py:185-213 | Default is chosen exactly when none of the five service networks holds either address |
| Classifier.ClassifyIsFirstHit | ryu_file_db.py:185-213 | the class chosen holds one of the addresses (unless Default) and every class before it in the chain holds neither |
| Classifier.NetworkBases | ryu_file_db.py:28-33 | the five network bases are 10.2.0.0 through 10.6.0.0 |
| Classifier.FirstMatchIsLeast | ryu_file_db.py:190-213 | first match wins: the table lookup returns the least matching row, and nothing only when no row matches |
| Classifier.ClassifyIsTableLookup | ryu_file_db.py:184-213 | the if/elif chain equals a first-match lookup in the ordered table of (class, network, queue, priority) |
| Classifier.TableMatchesChain | ryu_file_db.py:188-208 | the table's rows carry the chain's networks, queues 1-5, priorities 200/150/100/80/60 and order |
| Classifier.ClassifySymmetric | ryu_file.py:104-127 | swapping source and destination gives the same class |
| Classifier.InvalidAddressIsNonMatch | ryu_file.py:142-144 | an address that does not parse never selects a class; two such addresses give Default |
| Classifier.NetworksDisjoint | ryu_file_db.py:28-33 | no address lies in two of the five service networks |
| Classifier.PriorityFollowsChain | ryu_file_db.py:188-213 | priorities strictly decrease along the chain (Default 50 last), all lie above the catch-all's 0, and queues are distinct |
| Classifier.QueueOf | ryu_file_db.py:210-213 | exactly the Default class installs no queue |
| Rules.ClassActions | ryu_file_db.py:240-243 | a service class gets exactly two actions, SetQueue(its queue) then output NORMAL; Default gets the single action output NORMAL |
| Rules.ClassFlowMessages | ryu_file_db.py:227-280 | a class's rule pair is two installs with equal priority and action list, forward matching (IP, src, dst) and reverse (IP, dst, src) |
| Rules.PairTimeouts | ryu_file_db.py:246-280 | the forward rule gets `add_flow`'s defaults for every class; the reverse rule gets 30/60 for service classes and 20/40 for Default |
| Rules.PacketOutMessage | ryu_file_db.py:282-300 | one Output(port) action from the given in-port; the raw data travels exactly when the buffer id is OFP_NO_BUFFER |
| Rules.PacketInMessages | ryu_file_db.py:166-216 | a packet-in sends nothing, one message or three, and whatever it sends ends with the flood packet-out |
| Rules.ConnectInstallsCatchAll | ryu_file_db.py:85-100 | `ConnectMessages` first deletes every rule (any port, any group), then installs `CatchAllRule`: priority 0, no field matched, whole packets to the controller (OFPCML_NO_BUFFER), never expiring |
| Rules.PacketInDispatch | ryu_file_db.py:166-216 | ARP gives only a flood packet-out; another non-IP frame or a missing IPv4 header gives nothing; IPv4 gives the class's symmetric pair, then a flood packet-out |
| Rules.PacketInKeepsCatchAll | ryu_file_db.py:88-100 | packet-in handling never deletes a rule and installs only rules above the catch-all's priority 0 |
| RyuFileDb.SmartCityController.constructor | ryu_file_db.py:16-38 | no switch registered, nothing sent, an empty traffic counter |
| RyuFileDb.SmartCityController.SwitchFeaturesHandler | ryu_file_db.py:76-100 | `datapaths[id] := dp` (overwrites, never removes), then delete-all with OFPP_ANY/OFPG_ANY, then one priority-0 match-all CONTROLLER/NO_BUFFER rule with timeouts 0/0 |
| RyuFileDb.SmartCityController.ClearFlows | ryu_file_db.py:121-137 | sends one delete of every rule, any out port, any group |
| RyuFileDb.SmartCityController.AddFlow | ryu_file_db.py:140-154 | sends one rule install, with idle 30 and hard 60 unless given |
| RyuFileDb.SmartCityController.InstallPriorityFlow | ryu_file_db.py:227-254 | sends the forward rule with the defaults, then the reverse rule with 30/60 |
| RyuFileDb.SmartCityController.InstallDefaultFlow | ryu_file_db.py:256-280 | sends the priority-50 forward rule with the defaults, then the reverse rule with 20/40 |
| RyuFileDb.SmartCityController.SendPacketOut | ryu_file_db.py:282-300 | sends the packet-out `PacketOutMessage` describes |
| RyuFileDb.SmartCityController.PacketInHandler | ryu_file_db.py:157-216 | appends exactly the messages `PacketInMessages` gives for the event, to the event's switch |
| RyuFileDb.PacketInTimeouts | ryu_file_db.py:140-280 | in this file both rules of a service-class pair get 30/60; a Default pair gets 30/60 forward and 20/40 in reverse |
| RyuFileDb.SmartCityController.FlowStatsReplyHandler | ryu_file_db.py:50-73 | the published payload is the reply's snapshot, and the counter afterwards is the old one with the reply accumulated |
| RyuFileDb.SmartCityController.ResetInactiveTraffic | ryu_file_db.py:110-119 | the counter afterwards is the reset of the old one at the given time |
| RyuFileDb.SmartCityController.TopTalkersTick | ryu_file_db.py:102-108 | one reporting pass: the top-3 of the counter as it stood, then the reset |
| Stats.TotalsSplit | ryu_file_db.py:52-54 | byte and packet totals are additive over a reply split in two |
| Stats.TotalBytes | ryu_file_db.py:53 | the byte total of a reply is at least the byte count of each of its entries |
| Stats.TotalPackets | ryu_file_db.py:54 | the packet total of a reply is at least the packet count of each of its entries |
| Stats.BandwidthMbps | ryu_file_db.py:58 | bandwidth × 10 × 2^20 equals total bytes × 8, exactly |
| Stats.DecimalRoundTrip | ryu_file_db.py:57 | the decimal numeral used in `"Switch {dpid}"` reads back as the id |
| Stats.SwitchName | ryu_file_db.py:57 | a mapped id gets its `dpid_name_map` name; any other id gets `Switch ` followed by a decimal numeral that reads back as the id |
| Stats.FlowStatsSnapshot | ryu_file_db.py:67-73 | the payload carries the switch id, its name, the number of entries, the packet total, and a bandwidth whose value × 10 × 2^20 is the byte total × 8 |
| Stats.SwitchNameInjective | ryu_file_db.py:19-26 | no two switch ids are published under the same name, mapped or fallback |
| Stats.TwoEntryReply | ryu_file_db.py:50-58 | two entries of 125000 bytes with 100 and 50 packets give flows 2, packets 150, bandwidth 2000000/10485760 (about 0.19), name "Switch 7" |
| Stats.AccumulateValid | ryu_file_db.py:61-65 | accumulation keeps every key listed once in insertion order |
| Stats.Accumulate | ryu_file_db.py:61-65 | accumulating a reply removes no key from the counter |
| Stats.AccumulateCounts | ryu_file_db.py:61-65 | each source's count grows by exactly the sum of `packet_count` over the entries naming it; entries without a source change nothing |
| Stats.AccumulateKeys | ryu_file_db.py:63-65 | the keys afterwards are the old keys plus the sources the reply names; none is removed |
| Stats.AccumulateKeepsOrder | ryu_file_db.py:65 | the old insertion order stays a prefix; new keys go last |
| Stats.AccumulateFirstSeenOrder | ryu_file_db.py:61-65 | every key a reply adds is named by one of its entries, and the added keys come in the order of the first entries naming them |
| Stats.FirstNaming | ryu_file_db.py:61-64 | the index found is the first entry naming the source, or the reply's length when none does |
| Stats.AccumulateMonotone | ryu_file_db.py:65 | no key disappears and no count decreases |
| Stats.ResetInactive | ryu_file_db.py:115-118 | an entry with `now - v > 10` becomes 0 and every other entry keeps its value; keys and order are unchanged, and no count grows |
| Stats.ResetIdempotent | ryu_file_db.py:115-118 | a second reset at the same time changes nothing |
| Ranking.ItemsOfCounter | ryu_file_db.py:104 | `items()` lists exactly the counter's entries: every entry is an item, every item is an entry with its count, and no key appears twice |
| Ranking.Items | ryu_file_db.py:104 | the items are the counter's keys in insertion order, one item per key |
| Ranking.SortDesc | ryu_file_db.py:104 | the sort keeps the number of items |
| Ranking.SortDescPermutes | ryu_file_db.py:104 | the sort is a permutation |
| Ranking.SortDescSorted | ryu_file_db.py:104 | the sort is non-increasing in count |
| Ranking.SortDescStable | ryu_file_db.py:104 | the sort is stable: items of equal count keep their order |
| Ranking.TopTalkers | ryu_file_db.py:104 | the snapshot has min(3, n) items, is non-increasing and is drawn from the items |
| Ranking.TopTalkersAreTop | ryu_file_db.py:104 | an item left out has no larger count than any item kept |
| Ranking.TopTalkersKeepTieOrder | ryu_file_db.py:104 | the snapshot's items of each count are the first ones of that count in insertion order |
| Ranking.SortSecondPoll | ryu_file_db.py:104 | sorting (A 15, B 50, C 25) by count, largest first, gives B 50, C 25, A 15 |
| Ranking.TwoPollRanking | ryu_file_db.py:61-65 | polls of (10, 50, 5) then (+5, +0, +20) packets rank the sources by running total: 50, 25, 15 |
| RyuFile.SmartCityController.constructor | ryu_file.py:12-20 | no switch registered, nothing sent |
| RyuFile.SmartCityController.SwitchFeaturesHandler | ryu_file.py:23-39 | registers the switch, sends delete-all, then installs the catch-all through `add_flow`'s 0/0 defaults |
| RyuFile.SmartCityController.ClearFlows | ryu_file.py:41-58 | sends one delete of every rule, any out port, any group |
| RyuFile.SmartCityController.AddFlow | ryu_file.py:60-74 | sends one rule install that never expires unless timeouts are given |
| RyuFile.SmartCityController.InstallPriorityFlow | ryu_file.py:146-173 | sends the never-expiring forward rule, then the reverse rule with 30/60 |
| RyuFile.SmartCityController.InstallDefaultFlow | ryu_file.py:175-199 | sends the never-expiring priority-50 forward rule, then the reverse rule with 20/40 |
| RyuFile.SmartCityController.SendPacketOut | ryu_file.py:201-219 | data only when the buffer id is OFP_NO_BUFFER; one Output(port) action; the given in-port |
| RyuFile.SmartCityController.PacketInHandler | ryu_file.py:77-135 | appends exactly the messages `PacketInMessages` gives for the event, with this file's defaults |
| RyuFile.PacketInTimeouts | ryu_file.py:165-199 | the forward rule never expires (0/0); the reverse rule gets 30/60 for service classes and 20/40 at priority 50 for Default |
| RyuFile.PacketInRulePair | ryu_file.py:104-173 | an IPv4 packet-in sends a pair with equal priority and actions and swapped addresses, the class being the first-matching row of the table |

## Left out

- The statistics poll loop (`poll_stats`) and the loop of `emit_top_talkers`, with their thread, `hub.spawn` and sleeps: they add only concurrency; one pass of the reporter is `TopTalkersTick`, and the stats request the poller sends is not modelled.
- Concurrency between handlers and background loops, and locking: every method runs alone.
- The Socket.IO client, its connection and `emit`: the `flow_stats` and `top_talkers` payloads are returned values instead.
- `time.time()`: the clock reading is the parameter `now`, an integer.
- Stats.BandwidthMbps: is the exact real value; float division and `round(…, 2)` are not modelled.
- Logging and `print`.
- The Ryu OpenFlow codec and packet library: messages are abstract datatypes and keep only the fields the controller sets; a frame is given as its Ethernet type and optional IPv4 header. A frame with no Ethernet header, on which the handler would raise, is not modelled.
- Dotted-quad parsing of `ipaddress`: a parsed address is `Option<Addr>`. The packet library always yields well-formed addresses, so the handlers pass `Some`. The network constants are given already parsed.
- Disconnection: the source never removes registry entries, and neither does the model.
- The Mininet topology scripts, the iperf test script and the Flask dashboard are not part of this model.
