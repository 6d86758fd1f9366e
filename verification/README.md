# Verification of the SGSN and the GTP hub

Dafny models of the stateful parts of this SGSN and of its GTP hub, with proofs of what they promise. `dafny verify dfyconfig.toml`
checks everything.

- **GTP hub** (`Gtphub*.dfy`). The hub sits between SGSNs and GGSNs and replaces tunnel endpoint identifiers and sequence numbers.
  `GtphubState` has the tables: peers and their ports, tunnels, mappings, resolved GGSNs, pending deletes, and the two expiry
  queues. `GtphubExpiry`, `GtphubTei`, `GtphubOps`, `GtphubSeq`, `GtphubEvents` and `GtphubPackets` have the operations, up to the
  handling of whole packets, `GtphubCreate` what a create exchange leaves behind, `GtphubRuns`, `GtphubDwindles`, `GtphubClash` and
  `GtphubDistinct` what holds of every run, `GtphubMoved` a run that shows where that ends, `GtphubRoutes` whom packets are taken
  from and where they go, `GtphubStops` which of them end the program, and `GtphubCode` the loops over lists and queues as methods.
- **SNDCP** (`SndcpFrag.dfy`, `SndcpXid.dfy`). Cutting N-PDUs into fragments and putting them together again; the codec for the
  negotiation of compression (3GPP TS 44.065, sections 6.5 to 6.8).
- **LLC** (`Crc24.dfy`, `LlcFrame.dfy`, `LlcXid.dfy`). The frame check sequence, UI frames with their counters, the XID codec.
- **Mobility management** (`MmRegistry.dfy`, `SgsnAuth.dfy`, `Attach*.dfy`). The contexts with their hash tables and P-TMSIs; the
  attach procedure with its authorization, as a machine whose nested event dispatches are an agenda of calls.
- **HTTP interface** (`ApiHandoff.dfy`). The hand-over of requests from the API thread to the main loop, every interleaving.
- **Routing areas** (`RoutingArea.dfy`). The registry of areas and cells.

## How it is built

An operation is a function from state to state, and its properties are lemmas about that function. Where the source works by
loops and assignments there is also a class or a method that does the same in place, proved equal to the function. Inputs from
outside (packets, clocks, random numbers, whether a message could be sent, what the home register answers) are parameters, and
every run is any sequence of them; the hub's clock does not run backwards, as its own clock is monotonic.

## Promises that hold only in part

Each is kept as the code has it, with the exact condition under which the promise holds.

- Endpoints of checked tunnels of the hub stay distinct throughout a run exactly if none of its create responses takes an endpoint,
  without a TEI, to where another checked tunnel has the same one (`GtphubDistinct.DistinctExact`); that is so when none moves an
  announced endpoint at all (`GtphubDistinct.DistinctEveryRun`). Such a response is not checked, and a run of five packets shows
  what it can do (`GtphubMoved.MoveBreaks`, `GtphubRuns.PlaneIeExact`). Replacement TEIs always stay distinct.
- The search for a replacement TEI can give up with nearly all of them free (`GtphubTei.PickFails`, `GtphubTei.ThreeSuffice`), and
  the hub then aborts. Assertions stop it on a packet that has a destination but no tunnel, on one of protocol version 0 from a
  known sender, and on one from port zero when its sender's port is looked up (`GtphubStops.StopsExact`); for the last two any
  SGSN will do on a hub just started (`GtphubStops.StartedStops`).
- `gtphub_free` finds no peers exactly when no proxy is set up (`GtphubExpiry.FreeExact`).
- Segment numbers are taken modulo 15, so an N-PDU of more than 15 fragments is handed up with octets missing
  (`SndcpFrag.InOrderExact`, `SndcpFrag.ReassemblyExact`).
- ROHC profiles survive the codec only if there are none or sixteen, and V.44 values P1T and P1R only from 265 on, although the
  encoder takes them from 256 on (`SndcpXid.FieldExact`).
- An XID message that compiles to more than 255 octets, or to none, does not parse (`LlcXid.RoundTrip`).
- Sender and receiver count overflows one frame apart (`LlcFrame.OcAgreement`).
- The message about a repeated UI frame says that it is dropped; one whose number was not seen behind the window before is passed
  up again (`LlcFrame.RepeatedFrame`), and with N(U) 511 that puts the overflow counter out of step (`LlcFrame.RepetitionInStep`).
- The lookup by TLLI misses contexts for keys that are not entered in the tables (`MmRegistry.ValidKeysNeeded`).
- `check_auth_resp` says that UTRAN always needs a UMTS answer, but its only caller passes false for UTRAN, so a handset on Iu may
  answer with the four octets of GSM; a UMTS answer of four octets is checked as a GSM one (`SgsnAuth.AuthRespExact`).
- The promise that an ATTACH ACCEPT needs an answered challenge holds under exactly one configuration (`AttachRuns.PromiseIff`).
- If another thread than the main loop shuts the interface down, the API thread frees a connection that the main loop uses or will
  still use, unless no job is running and none can be taken any more (`ApiHandoff.ForeignStopExact`); the comment there says that
  the running job is waited for.
- A cell identity is said to be unique in its location area; a reset that makes a new routing area does not look for an older cell
  (`RoutingArea.ResetUniqueIff`, `RoutingArea.UniqueEveryRun`).

## Model

| member | source | states |
|---|---|---|
| `GtphubRuns.CountsEveryRun` | src/gtphub/gtphub.c:944-956 | In every reachable hub each peer port's reference count is the number of tunnel endpoints, sequence mappings, resolved GGSNs and proxies that point to it; no count was ever taken below zero, and a collection frees no port that is pointed to |
| `GtphubRuns.QueuesEveryRun` | src/gtphub/gtphub.c:601-657 | In every reachable hub nothing was ever queued out of order, both expiry queues are sorted, and a tunnel (a mapping) is in its list exactly when it is queued for slow (quick) expiry |
| `GtphubRuns.TeisEveryRun` | src/gtphub/gtphub.c:1284-1356 | In every reachable hub the replacement TEIs of two checked tunnels are nonzero and different |
| `GtphubRuns.NumbersEveryRun` | src/gtphub/gtphub.c:662-754 | In every reachable hub the live replacement sequence numbers of a peer are distinct while its pool has not run once around since the oldest of them, and each unmaps to the number and port it came from |
| `GtphubRuns.FreeEveryRun` | src/gtphub/gtphub.c:2479-2493 | gtphub_free leaves every reachable hub without records, and without peers exactly when no proxy is set up |
| `GtphubRuns.RunOk` | src/gtphub/gtphub.c:2103-2326 | Every run of packets, collections and lookup results under non-decreasing time keeps the invariants of all tables |
| `GtphubRuns.AnnounceDistinct` | src/gtphub/gtphub.c:1597-1613 | Announcing a TEI leaves the endpoints of all checked tunnels distinct, whatever the tunnel shared before |
| `GtphubDistinct.DistinctExact` | src/gtphub/gtphub.c:1284-1356 | Over every timed run from initialisation, proxies or not: no two checked tunnels share address and TEI at an endpoint, at the beginning and after every event, if and only if no packet of the run is a create response that takes an endpoint of its tunnel, without telling a TEI for it, to the address where another checked tunnel has the same TEI |
| `GtphubDistinct.StepExact` | src/gtphub/gtphub.c:2103-2326 | For each single event, from any tables with distinct endpoints: they are distinct afterwards if and only if the event is not such a response |
| `GtphubClash.PlanesExact` | src/gtphub/gtphub.c:1525-1621 | For each create message, from any such tables and in terms of them alone: both planes leave endpoints distinct exactly if no plane without a TEI puts its endpoint onto another checked tunnel's, a later plane with a TEI, which drops the other, and an earlier one, which drops some first, taken into account |
| `GtphubClash.SpentExact` | src/gtphub/gtphub.c:1295-1356 | A plane finds no TEI exactly if it tells one and the search among the replacement TEIs of the tunnels that do not share an endpoint with it, in the order of the list, gets stuck |
| `GtphubDistinct.DisplacesMoves` | src/gtphub/gtphub.c:1576-1613 | Such a response moves an endpoint that was announced to another address, which can be told from its own tunnel |
| `GtphubDistinct.DistinctEveryRun` | src/gtphub/gtphub.c:1284-1356 | From initialisation, proxies or not, over every timed run of packets, collections and lookup results in which no create response that omits a TEI moves an already announced endpoint to another address, no two checked tunnels ever share address and TEI at an endpoint |
| `GtphubDistinct.StepDistinct` | src/gtphub/gtphub.c:2103-2326 | Every single event keeps endpoints distinct, unless it is such a response |
| `GtphubDwindles.RestartDwindles` | src/gtphub/gtphub.c:1849-1897 | A peer's restart gives no endpoint another address |
| `GtphubDwindles.GcDwindles` | src/gtphub/gtphub.c:2422-2436 | A collection adds no checked tunnel and gives no endpoint another address |
| `GtphubMoved.MoveBreaks` | src/gtphub/gtphub.c:1576-1613 | The condition is needed: from a hub with a proxy for its GGSNs two create exchanges leave endpoints distinct, and a further create response without TEIs and with another address for user packets makes two checked tunnels share one |
| `GtphubMoved.ReqStep` | src/gtphub/gtphub.c:1454-1503 | A create request with unused TEIs makes one new checked tunnel, with its TEIs and the destination's control endpoint, and leaves all other tunnels alone |
| `GtphubMoved.RspStep` | src/gtphub/gtphub.c:1504-1621 | A create response with the tunnel's header TEI puts the tunnel's GGSN endpoints where the message says, keeps the TEIs it omits, and leaves all other tunnels alone |
| `GtphubRuns.PlaneIeExact` | src/gtphub/gtphub.c:1576-1613 | The single step behind this, exactly: one plane of a create message keeps the endpoints (side, plane, address, TEI) of checked tunnels distinct in every table if and only if it carries a TEI, or none was announced, or the address stays |
| `GtphubState.SetRefOk` | src/gtphub/gtphub.c:1045-1053 | Setting or clearing a pointer to a port moves exactly one reference and keeps every count equal to the number of pointers |
| `GtphubState.AddOk` | src/gtphub/gtphub.c:601-612 | Under non-decreasing time the ordering assertion holds when an item is queued, and the queue stays sorted with exactly that item added |
| `GtphubState.RemoveOk` | src/gtphub/gtphub.c:646-657 | Taking an item out keeps the queue sorted and removes exactly that item |
| `GtphubState.DelItemOk` | src/gtphub/gtphub.c:646-657 | Deleting any queued item with its call back keeps every invariant, drops exactly the pointers the record owned, and no assertion of a call back fails |
| `GtphubExpiry.TickExact` | src/gtphub/gtphub.c:614-630 | A tick removes exactly the items that are due, returns how many those were, leaves the other queue alone and keeps the invariants |
| `GtphubExpiry.ClearExact` | src/gtphub/gtphub.c:632-638 | Clearing a queue empties it and leaves the other queue and the proxies alone |
| `GtphubExpiry.CollectOk` | src/gtphub/gtphub.c:2377-2420 | Collecting ports, addresses and peers keeps the invariants and every pointer, and never frees a port that is pointed to |
| `GtphubExpiry.GcOk` | src/gtphub/gtphub.c:2422-2436 | A collection leaves exactly the items not yet due in both queues, and all pointers live |
| `GtphubExpiry.FreeExact` | src/gtphub/gtphub.c:2479-2493 | After clearing both queues and collecting, all lists are empty; no peer is left, as the code asserts, exactly when there is no proxy |
| `GtphubTei.PickFresh` | src/gtphub/gtphub.c:1250-1282 | The TEI picked while the list is walked is in range and differs from all TEIs seen |
| `GtphubTei.PickFails` | src/gtphub/gtphub.c:1250-1282 | The walk gives up exactly if some TEI in the list is the number picked from those before it and both the least and the greatest TEI are among those up to it |
| `GtphubTei.CheckReusedFails` | src/gtphub/gtphub.c:1341-1353 | The check for reused TEIs fails exactly then, for the TEIs of the tunnels that are not stale |
| `GtphubTei.ThreeSuffice` | src/gtphub/gtphub.c:1341-1353 | Three tunnels, with the least TEI, the greatest and the new tunnel's own, are enough for that, however many numbers are free |
| `GtphubTei.DropStaleExact` | src/gtphub/gtphub.c:1305-1341 | Exactly the listed tunnels that share an endpoint address and TEI with the new one are deleted |
| `GtphubTei.CheckReusedOk` | src/gtphub/gtphub.c:1284-1356 | When the check succeeds the tunnel's replacement TEI is its own and no survivor shares an endpoint with it; exactly the tunnels that shared one are gone |
| `GtphubTei.PutTunnelOk` | src/gtphub/gtphub.c:1250-1356 | Changing a tunnel's record keeps the invariants as long as its replacement TEI stays its own among checked tunnels |
| `GtphubOps.PortHaveOk` | src/gtphub/gtphub.c:2679-2746 | Looking up or adding a peer, address and port, of any number but zero, on which the code asserts, gives a live port and keeps the invariants and every earlier port and peer |
| `GtphubOps.SetEndpointOk` | src/gtphub/gtphub.c:1045-1053 | Giving an endpoint another port keeps the invariants and all ports |
| `GtphubOps.NewTunnelOk` | src/gtphub/gtphub.c:1484-1503 | A new tunnel is listed and queued together, with a replacement TEI from the pool, and keeps the invariants |
| `GtphubOps.PlaneIeOk` | src/gtphub/gtphub.c:1576-1613 | One plane of a create message keeps the invariants, error and abort paths included |
| `GtphubSeq.LiveNumbersDistinct` | src/gtphub/gtphub.c:662-679 | Two live mappings of a peer with the same replacement number are the same mapping, while its pool has not run once around |
| `GtphubSeq.NumberRepeatsExactly` | src/gtphub/gtphub.c:671-679 | Two numbers of a pool are equal exactly when a multiple of its size was drawn between them |
| `GtphubSeq.UnmapLive` | src/gtphub/gtphub.c:1235-1248 | Unmapping the replacement number of a live mapping gives the original number and the port it came from |
| `GtphubSeq.MapUnmap` | src/gtphub/gtphub.c:1194-1248 | Mapping a number and unmapping the reply's number leads back to the number and its port |
| `GtphubSeq.MappingPresent` | src/gtphub/gtphub.c:1194-1218 | After a number was mapped there is a mapping with the number, its replacement and the port it came from |
| `GtphubSeq.MappingHaveOk` | src/gtphub/gtphub.c:1194-1218 | Finding or making a mapping keeps every invariant |
| `GtphubSeq.InvFinds` | src/gtphub/gtphub.c:744-754 | The inverse search finds the mapping with a replacement number if no other has it |
| `GtphubEvents.FindsChecked` | src/gtphub/gtphub.c:1367-1395 | A packet with a checked tunnel's replacement TEI from the address of its endpoint finds that tunnel, unless an unchecked one has the same number |
| `GtphubEvents.RequestRemembered` | src/gtphub/gtphub.c:1666-1712 | After a delete request it is remembered, what was remembered stays, and nothing else of the lists changes |
| `GtphubEvents.ResponseExact` | src/gtphub/gtphub.c:1718-1761 | A delete response removes its tunnel and no other exactly when it accepts and a request is remembered; without one it changes nothing |
| `GtphubEvents.DeleteResponseOk` | src/gtphub/gtphub.c:1718-1761 | A delete response keeps every invariant |
| `GtphubEvents.RestartTunnelsOk` | src/gtphub/gtphub.c:1849-1897 | Handling a restarted peer keeps every invariant and all records |
| `GtphubEvents.RestartClears` | src/gtphub/gtphub.c:1849-1897 | When a peer has restarted, a pointer is gone exactly if it was an endpoint, of either plane, on a side where the peer stood at the control endpoint and whose other side had announced a control TEI; all other pointers, ports and records stay |
| `GtphubEvents.AddNoteOk` | src/gtphub/gtphub.c:2342-2375 | Listing and queueing a pending delete, a lookup or a resolved GGSN keeps every invariant |
| `GtphubPackets.UnmapsTunnel` | src/gtphub/gtphub.c:1412-1452 | The header TEI of a user packet leads to the checked tunnel it belongs to |
| `GtphubPackets.TunnelJoins` | src/gtphub/gtphub.c:1993-2056 | A user packet with a tunnel's replacement TEI from one endpoint goes to the other endpoint with the TEI that endpoint announced, unless it is a reply to a mapped number or a proxy is set up |
| `GtphubPackets.ResolveOk` | src/gtphub/gtphub.c:2778-2801 | Resolving a GGSN keeps the invariants, gives a live port or starts a lookup, and never does both |
| `GtphubPackets.CheckRestartOk` | src/gtphub/gtphub.c:1908-1928 | Taking note of a restart counter keeps every invariant |
| `GtphubPackets.HandleCreateOk` | src/gtphub/gtphub.c:1454-1634 | Handling a create message, on every error path too, keeps every invariant |
| `GtphubPackets.HandleBufOk` | src/gtphub/gtphub.c:2103-2326 | Handling any decoded packet keeps every invariant of the tables |
| `GtphubStops.StopsExact` | src/gtphub/gtphub.c:2103-2326 | A packet other than an echo request ends the program, by an assertion or by abort, if and only if a port number of zero is looked up for it (no proxy on its socket, and its address listed there or an SGSN on the control plane), or its sender is known and it is of protocol version 0, or its sender is known, there is somewhere to send it, and it belongs to no tunnel where it must or the check for reused TEIs has no number left |
| `GtphubStops.StartedStops` | src/gtphub/gtphub.c:2177-2215 | No tunnel and no listed peer is needed for that: any packet but an echo request from an SGSN on the control plane ends a hub just started, without a proxy there, if it comes from port zero or is of version 0 |
| `GtphubRoutes.ArrivesExact` | src/gtphub/gtphub.c:2165-2232 | In terms of the tables before the packet: it is taken exactly if its sender is the proxy of its socket or, without one, listed there or an SGSN on the control plane, with a port number; afterwards exactly the pointers are gone that a restart of that sender takes |
| `GtphubRoutes.LocatedExact` | src/gtphub/gtphub.c:1993-2056 | In terms of the same tables: a destination is found exactly if the header TEI, unless zero, is that of a tunnel of the sender, and there is a proxy on the other side, else an origin of the sequence number, else another endpoint, else a resolved GGSN; the first of these it is |
| `GtphubStops.DeliverStops` | src/gtphub/gtphub.c:2271-2287 | Delivery ends the program exactly for a message without a tunnel, delete responses and refused messages aside, or for want of a TEI |
| `GtphubStops.CreateStops` | src/gtphub/gtphub.c:1504-1517 | A create message ends it exactly if it is a GGSN's response without a tunnel or a plane finds no TEI |
| `GtphubStops.PlaneAborts` | src/gtphub/gtphub.c:1595-1612 | A plane aborts exactly if it carries a TEI and the check, with the endpoint set and the TEI announced, fails |
| `GtphubPackets.LookupDoneOk` | src/gtphub/gtphub.c:2342-2375 | The end of a lookup keeps every invariant |
| `GtphubPackets.MakeProxyOk` | src/gtphub/gtphub.c:2505-2522 | Setting up a proxy keeps every invariant |
| `GtphubPackets.InitOk` | src/gtphub/gtphub.c:2452-2474 | The hub starts with all invariants |
| `GtphubCreate.PortNamed` | src/gtphub/gtphub.c:2679-2746 | There is always a port, found or added, and it has the wanted address and number |
| `GtphubCreate.PlaneSets` | src/gtphub/gtphub.c:1576-1613 | One plane sets exactly one endpoint: its port, and its TEI if the message has one; the three others and all ports stay |
| `GtphubCreate.CheckedEnds` | src/gtphub/gtphub.c:1284-1356 | The check for reused TEIs leaves the new tunnel's own endpoints as they are |
| `GtphubCreate.CreatePlanesSets` | src/gtphub/gtphub.c:1525-1621 | A create message that goes through sets both endpoints of its sender's side as it says and leaves the other side |
| `GtphubCreate.RequestSets` | src/gtphub/gtphub.c:1454-1503 | A create request that goes through makes a new tunnel with the SGSN's endpoints as it says and the GGSN's control endpoint where it is sent to |
| `GtphubCreate.ExchangeSets` | src/gtphub/gtphub.c:1454-1634 | Request and response together set all four endpoints: the SGSN's as the request says, the GGSN's as the response says, whatever happened to other tunnels in between |
| `GtphubCode.GtpHub.SetPeer` | src/gtphub/gtphub.c:1045-1053 | The method in place: one pointer is cleared or set, with both counts; afterwards every port is pointed to as often as it counts |
| `GtphubCode.GtpHub.ItemDel` | src/gtphub/gtphub.c:646-657 | The method in place: a queued item is afterwards queued and listed nowhere, exactly its own pointers are gone, ports stay and every invariant holds |
| `GtphubCode.GtpHub.ExpiryTick` | src/gtphub/gtphub.c:614-630 | The method in place: the loop over the head of a queue is the tick of which TickExact is proved |
| `GtphubCode.GtpHub.ExpiryClear` | src/gtphub/gtphub.c:632-638 | The method in place: the loop is the clearing of which ClearExact is proved |
| `GtphubCode.GtpHub.CheckReusedTeis` | src/gtphub/gtphub.c:1284-1356 | The method in place: the one pass that deletes stale tunnels while it looks for a TEI gives what deleting and then looking gives |
| `GtphubCode.GtpHub.UnmapTei` | src/gtphub/gtphub.c:1367-1395 | The method in place: the search gives the first tunnel that matches and refreshes it |
| `GtphubCode.GtpHub.Restarted` | src/gtphub/gtphub.c:1849-1897 | The method in place: the walk over tunnels and sides, a delete request counted from the other side's pool, takes away exactly the pointers of RestartClears |
| `GtphubCode.GtpHub.GcPorts` | src/gtphub/gtphub.c:2377-2380 | The method in place: the walk deletes exactly the ports without references |
| `GtphubCode.GtpHub.GcPeers` | src/gtphub/gtphub.c:2382-2410 | The method in place: the walk deletes exactly the peers left without address and mappings |
| `GtphubCode.GtpHub.GcBinds` | src/gtphub/gtphub.c:2412-2420 | The method in place: ports, addresses and peers in order are the collection of CollectOk |
| `GtphubCode.GtpHub.GtphubGc` | src/gtphub/gtphub.c:2422-2436 | The method in place: both ticks and the collection, as GcOk has it |
| `GtphubCode.GtpHub.GtphubFree` | src/gtphub/gtphub.c:2479-2493 | The method in place: the clearing and collecting of FreeExact |
| `GtphubCode.PoolNext` | src/gtphub/gtphub.c:671-679 | The next number is in the pool's range, one up or back at the least |
| `GtphubCode.NrMapGet` | src/gtphub/gtphub.c:731-742 | The search loop gives the first mapping of that origin and number |
| `GtphubCode.NrMapGetInv` | src/gtphub/gtphub.c:744-754 | The search loop gives the first mapping with that replacement number |
| `SndcpFrag.ParseWire` | src/sgsn/gprs_sndcp.c:798-889 | Parsing the octets of an SN-UNITDATA PDU gives the PDU that was written |
| `SndcpFrag.FragmentFits` | src/sgsn/gprs_sndcp.c:592-685 | Every fragment is well formed and takes at most N201-U octets |
| `SndcpFrag.CountFills` | src/sgsn/gprs_sndcp.c:688-795 | The number of fragments is the one that the length fills, one exactly when the N-PDU fits, and at most 246 for 16-bit lengths |
| `SndcpFrag.LastFragment` | src/sgsn/gprs_sndcp.c:592-685 | The last fragment begins within the N-PDU and reaches its end |
| `SndcpFrag.AssembleAccounts` | src/sgsn/gprs_sndcp.c:346-414 | If every segment is there, assembling copies one fragment of each number, loses no octet and leaves the rest in the queue |
| `SndcpFrag.RunCollects` | src/sgsn/gprs_sndcp.c:416-488 | While a fragment is missing nothing is handed up and exactly the arrived fragments are queued |
| `SndcpFrag.CollectedAll` | src/sgsn/gprs_sndcp.c:267-294 | When the last missing fragment is queued the bit mask is complete and assembling gives the N-PDU |
| `SndcpFrag.AnyOrder` | src/sgsn/gprs_sndcp.c:416-488 | From any leftover state, an N-PDU of 2 to 15 fragments, the first first and the others in any order, is handed up once, equal to the original, on the last arrival |
| `SndcpFrag.InOrderExact` | src/sgsn/gprs_sndcp.c:630-640 | Delivered in order, an N-PDU of n fragments is handed up once with its whole length; its octets were all copied exactly when n is at most 15 |
| `SndcpFrag.ReassemblyExact` | src/sgsn/gprs_sndcp.c:630-640 | For each leftover state and each order of the later fragments, by itself: the N-PDU is handed up once and whole if and only if it has at most 15 fragments |
| `SndcpFrag.NeverWhole` | src/sgsn/gprs_sndcp.c:346-488 | With more than 15 fragments no sequence of arrivals after the first fragment, repetitions and gaps included, ever hands up all octets |
| `SndcpFrag.AccountedComplete` | src/sgsn/gprs_sndcp.c:267-414 | With a queue as queueing keeps it, a complete mask means that no segment is found missing, and the announced length is that of the copied octets exactly if no segment number came twice |
| `SndcpFrag.Unfragmented` | src/sgsn/gprs_sndcp.c:861-889 | An N-PDU that fits one PDU comes out whole unless it is empty, and disturbs no reassembly |
| `SndcpFrag.SndcpEntity.DefragEnqueue` | src/sgsn/gprs_sndcp.c:237-264 | The method in place: the new fragment is the one found for its number, the rest of the queue stays, and length, mask and highest number go on describing the queue |
| `SndcpFrag.SndcpEntity.DefragHaveAllSegments` | src/sgsn/gprs_sndcp.c:267-280 | The method in place: the bit loop is true exactly when all segments up to the highest are there |
| `SndcpFrag.SndcpEntity.DefragGetSeg` | src/sgsn/gprs_sndcp.c:282-294 | The method in place: takes the first fragment of that number out of the queue, if there is one |
| `SndcpFrag.SndcpEntity.DefragSegments` | src/sgsn/gprs_sndcp.c:346-414 | The method in place: copies the fragments in order and consumes them, or reports a missing one |
| `SndcpFrag.SndcpEntity.Input` | src/sgsn/gprs_sndcp.c:416-488 | The method in place: does what the reassembly specification says, flushing on a first segment |
| `SndcpFrag.SndcpEntity.UnitdataInd` | src/sgsn/gprs_sndcp.c:798-889 | The method in place: parses the header and routes to reassembly or straight up |
| `SndcpFrag.SndcpEntity.SendUdFrag` | src/sgsn/gprs_sndcp.c:592-685 | The method in place: sends fragment k, advances, and says whether more follow or sending failed |
| `SndcpFrag.SndcpEntity.Unfragment` | src/sgsn/gprs_sndcp.c:688-795 | The method in place: the one PDU of an N-PDU that fits, numbered once |
| `SndcpFrag.SndcpEntity.UnitdataReq` | src/sgsn/gprs_sndcp.c:688-795 | The method in place: sends exactly the fragments of the N-PDU in order until the link layer refuses, and counts the N-PDU number once |
| `SndcpXid.NsapisBack` | src/sgsn/gprs_sndcp_xid.c:619-654 | An ascending list of NSAPIs is read back from its 16-bit mask |
| `SndcpXid.ValuesBack` | src/sgsn/gprs_sndcp_xid.c:657-731 | Numeric parameters within the limits are read back; if the octets end early, exactly the first of them |
| `SndcpXid.ProfilesBack` | src/sgsn/gprs_sndcp_xid.c:862-884 | ROHC profiles are read back pair by pair |
| `SndcpXid.ParamsBack` | src/sgsn/gprs_sndcp_xid.c:734-1019 | All parameters of every algorithm come back; ROHC profiles only if there are none or sixteen |
| `SndcpXid.NibblesBack` | src/sgsn/gprs_sndcp_xid.c:1061-1125 | PCOMP or DCOMP values come back from their nibbles, padding aside |
| `SndcpXid.FieldExact` | src/sgsn/gprs_sndcp_xid.c:1217-1303 | A proposed field comes back unchanged if and only if its algorithm fits, it has all its PCOMP or DCOMP values, its NSAPIs ascend, P1T and P1R are at least 265, and it has no or sixteen ROHC profiles |
| `SndcpXid.DecodedParams` | src/sgsn/gprs_sndcp_xid.c:734-1019 | Whatever the octets, decoded parameters lie within the decoder's limits and NSAPIs ascend |
| `SndcpXid.DecodedField` | src/sgsn/gprs_sndcp_xid.c:1217-1303 | A field decodes from exactly its own octets, whatever follows |
| `SndcpXid.BlockBack` | src/sgsn/gprs_sndcp_xid.c:1306-1343 | A block of proposed fields decodes to the fields of its class, in order |
| `SndcpXid.MessageBack` | src/sgsn/gprs_sndcp_xid.c:1346-1418 | A compiled message decodes to its version and fields, protocol compression first, order kept within each class |
| `SndcpXid.ProposalRoundTrip` | src/sgsn/gprs_sndcp_xid.c:1625-1684 | Parsing a compiled proposal gives version and fields as that stable partition |
| `SndcpXid.LookupFinds` | src/sgsn/gprs_sndcp_xid.c:1022-1057 | With distinct entity numbers the table gives each field's algorithm back |
| `SndcpXid.CompletionFinds` | src/sgsn/gprs_sndcp_xid.c:1576-1601 | A field is completed from the request field of its entity |
| `SndcpXid.AnswerCompleted` | src/sgsn/gprs_sndcp_xid.c:1462-1573 | An answer completed from the request keeps what it gave and gets what it left out |
| `SndcpXid.ConfirmationMeaning` | src/sgsn/gprs_sndcp_xid.c:1604-1684 | Parsing a non-proposing confirmation against its request gives every entity its algorithm and PCOMP or DCOMP values, keeps each parameter given and fills every omitted one |
| `SndcpXid.DecodeApplicableSapis` | src/sgsn/gprs_sndcp_xid.c:619-654 | The loop gives what the codec specification proved above gives: the bit loops give the NSAPIs of the mask |
| `SndcpXid.EncodeValues` | src/sgsn/gprs_sndcp_xid.c:88-376 | The loop gives what the codec specification proved above gives: the parameter octets of every algorithm |
| `SndcpXid.EncodeProfiles` | src/sgsn/gprs_sndcp_xid.c:228-246 | The loop gives what the codec specification proved above gives: the profile octets |
| `SndcpXid.EncodeParams` | src/sgsn/gprs_sndcp_xid.c:88-376 | The loop gives what the codec specification proved above gives: the parameter octets with NSAPI mask and profiles |
| `SndcpXid.EncodeCompValues` | src/sgsn/gprs_sndcp_xid.c:415-489 | The loop gives what the codec specification proved above gives: the nibble loop |
| `SndcpXid.EncodeCompField` | src/sgsn/gprs_sndcp_xid.c:381-513 | The loop gives what the codec specification proved above gives: header, values and parameters of a field |
| `SndcpXid.PackFields` | src/sgsn/gprs_sndcp_xid.c:537-561 | The loop gives what the codec specification proved above gives: the fields of one class in order |
| `SndcpXid.GprsSndcpCompileXid` | src/sgsn/gprs_sndcp_xid.c:564-614 | The loop gives what the codec specification proved above gives: version and the two blocks |
| `SndcpXid.DecodeParamValues` | src/sgsn/gprs_sndcp_xid.c:657-731 | The loop gives what the codec specification proved above gives: parameters until the octets or the limits end |
| `SndcpXid.DecodeXidBlock` | src/sgsn/gprs_sndcp_xid.c:1306-1343 | The loop gives what the codec specification proved above gives: the fields of a block |
| `SndcpXid.GprsSndcpDecodeXid` | src/sgsn/gprs_sndcp_xid.c:1346-1418 | The loop gives what the codec specification proved above gives: the elements of a message |
| `SndcpXid.GprsSndcpFillTable` | src/sgsn/gprs_sndcp_xid.c:1421-1458 | The loop gives what the codec specification proved above gives: the lookup table of a request |
| `SndcpXid.LookupAlgorithm` | src/sgsn/gprs_sndcp_xid.c:1022-1057 | The loop gives what the codec specification proved above gives: the entry of an entity and class |
| `SndcpXid.CompleteInPlace` | src/sgsn/gprs_sndcp_xid.c:1604-1622 | The loop gives what the codec specification proved above gives: the fields completed where they stand, up to the first that cannot be |
| `LlcXid.DecodeEncoded` | src/sgsn/gprs_llc_xid.c:56-139 | A field decodes from its encoding, short or extended header, whatever follows within 255 octets |
| `LlcXid.ParseLength` | src/sgsn/gprs_llc_xid.c:170-215 | Only messages of 1 to 255 octets parse |
| `LlcXid.RoundTrip` | src/sgsn/gprs_llc_xid.c:142-215 | Parsing undoes compiling, order included, exactly when the message has 1 to 255 octets |
| `LlcXid.Recompile` | src/sgsn/gprs_llc_xid.c:142-215 | What was parsed compiles again into no more octets with the same meaning |
| `LlcXid.CopyReverses` | src/sgsn/gprs_llc_xid.c:237-255 | A copied list is in reverse order: compiled it parses to the reversed list, and a copy of the copy is the original |
| `LlcXid.EncodeXidField` | src/sgsn/gprs_llc_xid.c:102-139 | Writes the field at its place in the buffer, nothing before it, or fails if it does not fit |
| `LlcXid.CompileXid` | src/sgsn/gprs_llc_xid.c:142-167 | Writes all fields in order, or fails if they do not fit |
| `LlcXid.DecodeXidField` | src/sgsn/gprs_llc_xid.c:56-99 | Whatever follows an encoded field within 255 octets, the field is read from exactly its own octets, and encoding what was read needs no more octets than were taken |
| `LlcXid.ParseXid` | src/sgsn/gprs_llc_xid.c:170-215 | The loop with its guard counter gives the unguarded parse: the guard never ends a parse |
| `LlcXid.CopyXid` | src/sgsn/gprs_llc_xid.c:237-255 | Prepending every duplicate reverses the list |
| `MmRegistry.RehashOk` | src/sgsn/mmctx.c:85-115 | Unhashing and hashing one context keeps a table in agreement with the wanted keys |
| `MmRegistry.PutImsiOk` | src/sgsn/mmctx.c:85-91 | Writing an IMSI with its rehash keeps all five tables right |
| `MmRegistry.PutPtmsiOk` | src/sgsn/mmctx.c:93-103 | Writing P-TMSIs with their rehash keeps all five tables right |
| `MmRegistry.PutTlliOk` | src/sgsn/mmctx.c:105-115 | Writing TLLIs with their rehash keeps all five tables right |
| `MmRegistry.AllocOk` | src/sgsn/mmctx.c:317-393 | A new context keeps all tables right |
| `MmRegistry.RemoveOk` | src/sgsn/mmctx.c:117-141 | Unlinking a context keeps all tables right |
| `MmRegistry.ByImsiExact` | src/sgsn/mmctx.c:298-314 | A lookup by IMSI finds a context exactly if a scan of the list would, and the right one |
| `MmRegistry.ByPtmsiExact` | src/sgsn/mmctx.c:277-296 | A lookup by P-TMSI finds a context exactly if a scan for it as current or old P-TMSI would, for every key |
| `MmRegistry.ByTlliExact` | src/sgsn/mmctx.c:148-170 | For a valid key a lookup by TLLI and routing area finds a context exactly if a scan would, and the right one |
| `MmRegistry.ValidKeysNeeded` | src/sgsn/mmctx.c:148-170 | The lookup by TLLI agrees with a scan in every registry if and only if the key is valid |
| `MmRegistry.TakenExact` | src/sgsn/mmctx.c:277-296 | The lookup by P-TMSI tells whether any context has the number |
| `MmRegistry.AllocatedFresh` | src/sgsn/mmctx.c:538-583 | An allocated P-TMSI is the reserved value, or has its two top bits set and belongs to no context |
| `MmRegistry.AllocatedFails` | src/sgsn/mmctx.c:538-583 | It is the reserved value exactly if none of the first 101 draws before a failure can be used |
| `MmRegistry.AttachContextGood` | src/sgsn/gprs_gmm.c:1405-1445 | Finding or making the context of an attach request keeps P-TMSIs disjoint |
| `MmRegistry.RenewGood` | src/sgsn/gprs_gmm.c:1451-1510 | An attach or routing area update, with the TLLI on Gb, the routing area an attach writes on Iu too, and the P-TMSI update, keeps tables right and P-TMSIs disjoint |
| `MmRegistry.CompleteGood` | src/sgsn/gprs_gmm.c:1552-1553 | Completing an attach or update keeps P-TMSIs disjoint |
| `MmRegistry.IdentifiedGood` | src/sgsn/gprs_gmm.c:1225-1248 | An identity response, which may remove an older context of the same IMSI, keeps P-TMSIs disjoint |
| `MmRegistry.StepGood` | src/sgsn/mmctx.c:85-170 | Every event keeps tables and list in agreement and P-TMSIs of two contexts disjoint |
| `MmRegistry.EveryRun` | src/sgsn/mmctx.c:538-583 | After every run the tables agree with the list and current and old P-TMSIs of two contexts are disjoint, zero and the reserved value aside |
| `MmRegistry.MmTables.ByImsiKey` | src/sgsn/mmctx.c:298-314 | The walk over a bucket gives the context that ByImsiExact is about |
| `MmRegistry.MmTables.ByPtmsiKey` | src/sgsn/mmctx.c:277-296 | The two walks give the context that ByPtmsiExact is about |
| `MmRegistry.MmTables.AllocPtmsi` | src/sgsn/mmctx.c:538-583 | The retry loop gives the number that AllocatedFresh and AllocatedFails are about |
| `MmRegistry.MmTables.PtmsiUpdateOf` | src/sgsn/gprs_gmm.c:1266-1280 | The update in place keeps the registry good and moves the current number to the old one |
| `MmRegistry.MmTables.CleanupFree` | src/sgsn/mmctx.c:446-509 | Unlinking from the five tables and from the list in place: no lookup by any key finds the context any more, the others stay, and the registry stays good |
| `Crc24.TableEntry` | src/gprs/crc24.c:27-60 | Each of the 256 table entries is the bitwise register's response to its index |
| `Crc24.TableRound` | src/gprs/crc24.c:62-67 | One round of the table loop is eight steps of the bitwise register |
| `Crc24.Crc24Calc` | src/gprs/crc24.c:62-67 | The table loop computes the bitwise reflected CRC with polynomial 0xad85dd over any octets from any start value |
| `Crc24.LlcFcs` | src/gprs/gprs_llc_parse.c:58-67 | The frame check sequence is the complement of the CRC from all ones |
| `Crc24.BitwiseCrcInjective` | src/gprs/crc24.c:62-67 | Registers that differ stay different over any common octets |
| `Crc24.WindowInjective` | src/gprs/crc24.c:62-67 | Two strings of at most three octets that lead from one register to the same register are equal |
| `Crc24.BurstDetected` | src/gprs/gprs_llc_parse.c:58-67 | Two strings of equal length that differ, and only within three consecutive octets, never have the same frame check sequence |
| `LlcFrame.UiFrameParses` | src/gprs/gprs_llc_parse.c:93-208 | A built UI frame parses to exactly its SAPI, N(U), payload and a matching FCS, the C/R bit inverted; with a reserved SAPI it is refused |
| `LlcFrame.CipheredFrameParses` | src/sgsn/gprs_llc.c:723-760 | With the same key stream on both sides the receiver recovers N(U), payload and a matching FCS |
| `LlcFrame.PairRepeats` | src/sgsn/gprs_llc.c:794-801 | Two frames share N(U) and OC exactly when their numbers agree modulo 2^32 |
| `LlcFrame.OcAgreement` | src/sgsn/gprs_llc.c:909-913 | Sender and receiver take the same OC for frame k exactly when N(U) is not 511 |
| `LlcFrame.NextSend` | src/sgsn/gprs_llc.c:794-801 | One frame moves N(U) and OC of the closed form as the code moves its counters |
| `LlcFrame.NextRecv` | src/sgsn/gprs_llc.c:909-913 | One frame moves the receiver's closed form as the code moves its counters |
| `LlcFrame.InOrderPasses` | src/sgsn/gprs_llc.c:885-914 | An undisturbed sequence after a reset is passed up completely, whatever was received before |
| `LlcFrame.RepeatedFrame` | src/sgsn/gprs_llc.c:885-914 | The i-th repetition of a frame just taken is passed up again exactly if: for a number not seen behind the window before, i is 1 or i - 1 modulo 2^16 is at least 3; for the one seen there last, the duplicates counted before plus i, modulo 2^16, are at least 3 |
| `LlcFrame.RepetitionInStep` | src/sgsn/gprs_llc.c:885-914 | Repeating the last frame of an undisturbed sequence leaves the counters in step exactly if the repetition is dropped or N(U) is not 511; otherwise the receiver's OC is a whole round ahead |
| `LlcFrame.BuildUi` | src/sgsn/gprs_llc.c:766-842 | Header in front and check sequence behind, octet by octet |
| `LlcFrame.XorInPlace` | src/sgsn/gprs_llc.c:723-760 | The loop combines exactly the octets from the offset on with the key stream |
| `LlcFrame.Lle.Reset` | src/sgsn/gprs_llc.c:1155-1189 | Both directions' counters are zero; duplicate tracking stays |
| `LlcFrame.Lle.TxUi` | src/sgsn/gprs_llc.c:766-842 | The k-th frame since the reset carries N(U) and OC of the closed form; a too long message changes nothing |
| `LlcFrame.Lle.RxUiFrame` | src/sgsn/gprs_llc.c:885-914 | The next frame of an undisturbed sequence is always passed up and leaves the counters in step; a dropped frame moves neither V(UR) nor OC |
| `SgsnAuth.AuthRespExact` | src/sgsn/gprs_gmm.c:655-705 | Exactly the answers a vector expects authenticate, each as its own kind; four octets never count as a UMTS answer |
| `SgsnAuth.ExtensionExact` | src/sgsn/gprs_gmm.c:769-794 | An answer with an extension element authenticates exactly if both parts are those of an expected answer longer than four octets |
| `SgsnAuth.FindFromExact` | src/sgsn/sgsn_auth.c:330-347 | The tuple found is the first usable one going round from the key sequence number on |
| `SgsnAuth.FoundIff` | src/sgsn/sgsn_auth.c:315-350 | A tuple is found exactly when one of the five is valid and unused |
| `SgsnAuth.DrawUsesUp` | src/sgsn/sgsn_auth.c:341-345 | Each draw uses up exactly one tuple |
| `SgsnAuth.GetTuple` | src/sgsn/sgsn_auth.c:315-350 | The search loop gives that tuple and marks it, and changes no other |
| `AttachRuns.AuthResponseReady` | src/sgsn/gprs_gmm.c:712-807 | A response keeps the invariant: it is trusted only if it matches the current vector, which was drawn since the procedure started |
| `AttachRuns.DispatchedReady` | src/sgsn/gprs_gmm_attach.c:428-473 | Dispatching any event, all-state action first, keeps the invariant |
| `AttachRuns.EnteredReady` | src/sgsn/gprs_gmm_attach.c:68-345 | Every on-enter action keeps the invariant |
| `AttachRuns.AuthRequestedReady` | src/sgsn/sgsn_auth.c:161-235 | sgsn_auth_request keeps the invariant |
| `AttachRuns.AuthUpdatedReady` | src/sgsn/sgsn_auth.c:237-313 | sgsn_auth_update keeps the invariant: acceptance rests on an authenticated handset |
| `AttachRuns.AuthorizedReady` | src/sgsn/gprs_gmm.c:994-1117 | With no attach waiting, the older authorization path keeps the invariant, so it sends no ATTACH ACCEPT |
| `AttachRuns.RestartingOk` | src/sgsn/gprs_gmm_attach.c:32-66 | Every call made while an attach request starts the procedure again keeps the invariant, under which no trust outlives the restart |
| `AttachRuns.AttachTimedOutReady` | src/sgsn/gprs_gmm_attach.c:475-534 | The attach timer keeps the invariant; it repeats the ATTACH ACCEPT only in the accepting state |
| `AttachRuns.MmTimedOutReady` | src/sgsn/gprs_gmm.c:2296-2380 | The MM timer keeps the invariant |
| `AttachRuns.StepOk` | src/sgsn/gprs_gmm_attach.c:363-426 | Every step of every input keeps the invariant |
| `AttachRuns.RunOk` | src/sgsn/gprs_gmm_attach.c:428-534 | The invariant holds after every run |
| `AttachRuns.AcceptsAnswered` | src/sgsn/gprs_gmm_attach.c:230-240 | With the remote policy and authentication required, every ATTACH ACCEPT, first or repeated, follows an expected answer to a vector drawn since the ATTACH REQUEST that last started the procedure, and the older procedure never sends one |
| `AttachRuns.PromiseIff` | src/sgsn/gprs_gmm_attach.c:126-174 | That holds of every run if and only if the policy is remote and authentication is required both of the machine and of the network |
| `AttachRuns.AcceptHappens` | src/sgsn/gprs_gmm_attach.c:230-240 | Under every configuration for which that is promised an attach does come to its ATTACH ACCEPT: from the request over vectors, challenge and answer, and the location update where it is required |
| `AttachCode.MmContext.StInit` | src/sgsn/gprs_gmm_attach.c:32-66 | Forgets all trust: no security context, key sequence or authorization is left, no earlier answer counts, and where authentication is required the accepting state is not entered first; the invariant of the runs holds afterwards |
| `AttachCode.MmContext.StAuthOnEnter` | src/sgsn/gprs_gmm_attach.c:126-174 | Enters the accepting state at once only for a handset that has answered, sends a challenge only with a valid vector, and keeps the invariant |
| `AttachCode.MmContext.TakeTuple` | src/sgsn/sgsn_auth.c:315-350 | The array search makes the next tuple the current one, if there is one, and changes nothing otherwise |
| `AttachCode.MmContext.SgsnAuthRequest` | src/sgsn/sgsn_auth.c:161-235 | Trusts no more than before: a vector taken was unused, the security context is kept or dropped, nothing is sent; the invariant is kept |
| `AttachCode.MmContext.SgsnAuthUpdate` | src/sgsn/sgsn_auth.c:237-313 | The handset becomes accepted only with a security context, a vector taken was unused, nothing is sent; the invariant is kept |
| `AttachCode.MmContext.RxAuthCiphResp` | src/sgsn/gprs_gmm.c:712-807 | A response not waited for changes nothing; one that is authenticates, and is noted, exactly if it is expected of the current vector, and otherwise ends the context; with the invariant before, a noted answer makes the handset answered |
| `AttachCode.MmContext.AttachTimerCb` | src/sgsn/gprs_gmm_attach.c:475-534 | Repeats the ATTACH ACCEPT exactly in the accepting state before the fifth expiry, with its connection there; a challenge only in the authenticating state; the fifth expiry ends the attach |
| `ApiHandoff.ExecOk` | src/sgsn/sgsn_api.c:1033-1095 | Every step of either thread keeps the invariant of the job fields |
| `ApiHandoff.EveryInterleaving` | src/sgsn/sgsn_api.c:1033-1095 | In every interleaving in which the main loop does the shutdown, the main loop uses a connection only while the API thread is blocked on it, each answered request got exactly one reply, a pending job has a wake-up on its way unless that could not be written, and no wait misses its signal |
| `ApiHandoff.NeverStuck` | src/sgsn/sgsn_api.c:1050-1068 | From every reachable state with a request in hand, whatever the outcome of the write to the pipe, steps of the two threads alone answer it with one reply |
| `ApiHandoff.ForeignStopExact` | src/sgsn/sgsn_api.c:2129-2133 | A shutdown from a third thread is followed by exclusive use and one reply in every continuation without further requests if and only if the main loop has shut the interface down already, or no job is running and none is pending that the main loop can still be woken for |
| `ApiHandoff.ForeignStopNever` | src/sgsn/sgsn_api.c:1071-1095 | With further requests such a shutdown is safe in every continuation if and only if the main loop has shut the interface down already |
| `RoutingArea.AssertionHolds` | src/sgsn/gprs_routing_area.c:353-362 | The assertion before an old cell is freed never fires: that cell belongs to another area |
| `RoutingArea.CellResetOk` | src/sgsn/gprs_routing_area.c:313-378 | A cell reset keeps identities distinct, back pointers right and no GERAN area empty |
| `RoutingArea.ResetLookup` | src/sgsn/gprs_routing_area.c:313-378 | What a cell reset does to every lookup: the cell is on the given link, a moved cell is gone from its old area, nothing else changes; it fails exactly on a UTRAN area |
| `RoutingArea.NseiFailureOk` | src/sgsn/gprs_routing_area.c:381-406 | The failure of a link keeps the registry in order |
| `RoutingArea.FailureLookup` | src/sgsn/gprs_routing_area.c:381-406 | The failure of a link takes away exactly its cells, in every area |
| `RoutingArea.UtranRegisterOk` | src/sgsn/gprs_routing_area.c:439-473 | Registering a UTRAN area keeps the registry in order and every cell lookup, sets the RNC, and fails exactly on a GERAN area |
| `RoutingArea.EveryRun` | src/sgsn/gprs_routing_area.c:313-473 | Every reachable registry is in order, so the assertion never fires |
| `RoutingArea.ResetUniqueIff` | src/sgsn/gprs_routing_area.c:330-369 | A reset keeps cell identities unique in their location area if and only if it does not make a new routing area while the location area has such a cell |
| `RoutingArea.UniqueEveryRun` | src/sgsn/gprs_routing_area.c:313-473 | Over whole runs: cell identities stay unique in their location areas throughout exactly if no event makes a new routing area for a cell that the location area has elsewhere |
| `RoutingArea.SplitHappens` | src/sgsn/gprs_routing_area.c:330-343 | Two resets from the empty registry, for two routing areas of one location area, break it |
| `RoutingArea.RaRegistry.GetRa` | src/sgsn/gprs_routing_area.c:136-145 | The loop gives what the specification proved above gives: the first area of that identity |
| `RoutingArea.RaRegistry.GetCellByRa` | src/sgsn/gprs_routing_area.c:236-252 | The loop gives what the specification proved above gives: the first cell of that identity |
| `RoutingArea.RaRegistry.GetCellByLai` | src/sgsn/gprs_routing_area.c:255-279 | The loop gives what the specification proved above gives: the first cell of that identity in the location area |
| `RoutingArea.RaRegistry.NseiFailureInd` | src/sgsn/gprs_routing_area.c:381-406 | The loop gives what the specification proved above gives: the nested walks that unlink cells in place remove what FailureLookup is about; found tells whether there was one |
| `RoutingArea.RaRegistry.RemoveLink` | src/sgsn/gprs_routing_area.c:389-399 | The loop gives what the specification proved above gives: the walk over the cells of an area |
| `RoutingArea.RaRegistry.FreeCell` | src/sgsn/gprs_routing_area.c:42-61 | Afterwards exactly that cell is found nowhere, every other lookup is as before, and the registry stays in order |
| `RoutingArea.RaRegistry.CellResetInd` | src/sgsn/gprs_routing_area.c:313-378 | The reset in place, with the assertion of the code, is the one of ResetLookup and keeps the registry in order |
| `RoutingArea.RaRegistry.UtranRegisterInd` | src/sgsn/gprs_routing_area.c:439-473 | Afterwards the area is a UTRAN one with that RNC, or nothing changed and it is a GERAN one; every cell lookup is as before and the registry stays in order |

## Left out

- GtphubState.DelItemOk: records are values with names that are never used again, in maps and sequences, not linked objects; a
  pending delete whose tunnel's memory was reused by another tunnel is therefore not modelled.
- GtphubState.SetRefOk: counts are unbounded, so the limit of an unsigned int is not modelled.
- GtphubOps.PortHaveOk: peers, addresses and ports are looked up in one map each, where the code walks a list for each; which of two
  equal entries comes first does not arise, as there is one. The socket address kept with a port is left out: a sender's is taken
  to be readable, and for an address in a message that has neither 4 nor 16 octets it is the loopback address.
- GtphubPackets.HandleBufOk: packets are decoded records, so rewriting their octets is left out; that it fails for an address
  whose length is not that of the hub's own is kept.
- GtphubPackets.RunOk: creating, resolving and deleting are functions on values; only the loops over lists and queues are also
  methods in place. A run goes on past a packet that ends the program, with the tables as that packet left them.
- GtphubPackets.MakeProxyOk: a proxy is configured with a port other than zero, on which the code asserts when it starts.
- GtphubExpiry.FreeExact: gtphub_stop, which frees the sockets before it clears the tables, is left out.
- GtphubEvents.RestartTunnelsOk: the delete requests that are sent out have no content; the numbers they use up are counted.
- SndcpFrag.UnitdataInd: a first segment of exactly three octets is left out, as the code reads a fourth one.
- SndcpFrag.ReassemblyExact: interleaved N-PDUs are left out, since the code does not promise them; N201-U is at least
  270, above what the fragmenter needs; decompression of segments is off.
- SndcpXid.ProposalRoundTrip: blocks have at most 255 octets, one length octet; a decoder that would read past the message fails, and
  what it would find there is left out; the helpers of the core library for tag, length and value are taken at their documented word.
- LlcFrame.CipheredFrameParses: the cipher stream is any sequence of octets; how it comes from key, N(U) and OC is left out.
- LlcFrame.Lle.TxUi: ciphering and the choice of the destination cell are left out.
- MmRegistry.EveryRun: contexts are named by numbers and tables are maps of sequences; the rest of a context's data is left out.
- AttachRuns.AcceptsAnswered: allocation succeeds; the timers may fire at any time; calls after the context was freed are left out;
  whatever the home register sends may change the subscriber's record in any way; the state of the GMM machine is free in each step.
- AttachCode.MmContext.SgsnAuthUpdate: the class keeps the context as one record; calls of other handlers are put on the agenda.
- ApiHandoff.EveryInterleaving: a step relation only, without methods; a request's reply is stored once by the handler, memory
  suffices, and connections without a request in hand are left out.
- RoutingArea.CellResetOk: areas and cells are values with keys for addresses; allocation succeeds.
- Sockets, name resolution, SCCP and RANAP, the transport to the home register, command line and control interfaces, HTTP routes and
  JSON texts: input and output over libraries that are not part of this model.
- Compression of headers and data, and the GEA ciphers: their code is not part of this model.
- Logging, counters, charging records: no effect on the promises above.
- Small conversions, access point names, cause tables and the two three-state MM machines: easy members.
