# SmartGuard, modelled and proved in Dafny

SmartGuard drives a WireGuard tunnel: it decides which routes to lay over the host's routing table and takes them away
again, which peer a packet belongs to, how a packet is padded and framed in place, when a keepalive is due, and how one
smart card serves Diffie-Hellman requests for all of it. This project models those five parts and proves what they are
for. Run `dafny verify dfyconfig.toml`.

| module | subject |
|---|---|
| `Prefixes` | prefixes as bit sequences, longest-prefix match over a table |
| `Kernel` | the shared routing table, one tick of a clock per `route` command |
| `Routes` | the route procedures, on values and as methods on the machine |
| `RouteUndo`, `RouteRecheck`, `RouteForwarding` | exact undo, re-checks, where every address goes |
| `RouteAttempts`, `ExemptRanges` | no failure costs another route; the exempt addresses byte by byte |
| `RadixTries`, `PeerNets` | radix trie, its compressed form, the cryptokey-routing table, `build_sessions` |
| `Handle` | the packet path in its buffers |
| `Card`, `CardProtocol` | card operations; client, queue and worker as a transition system |
| `Tunnel` | event loop, keepalive, endpoint index, the whole life of a tunnel |
| `TunnelForwarding` | where addresses go in every state of a running tunnel |

How the outside is modelled:

- A *world* decides, for each command, what the rest of the host does to the routing table just before it and whether the
  command fails. Lemmas over all worlds therefore hold for every failure pattern and every interleaving. The rest of the
  host leaves keys that this program has recorded alone, and `route delete` fails only on absent keys. `Quiet(w, from, to)`
  says that nothing fails and nobody interferes at these ticks; only the lemmas on start-up forwarding need it, for the
  ticks of start-up. `AddsOk(w, from, to)` says that adds fail only on existing keys; convergence needs no more.
- `route get` reports a gateway together with the interface behind it, if the world names one.
- The kernel's bookkeeping fields `foreign` and `owned` only serve statements: `foreign` is the initial table with the
  host's changes. `Tunnel.UndoExact` also ties it to `EnvTable`, which is made from the world alone.
- The session manager is a pair of arbitrary functions with size laws; the round trip assumes that one end opens what the
  other seals. X25519 is an arbitrary deterministic function. Peer ids are positions in the peer list.
- The cryptokey table is a trie of this project's own: radix trie, then path and level compression. Re-inserting a prefix
  overwrites.
- Each operation on the card service is a tick as well: the world says what the readers show and what fails. A card's
  ident, public key and secret belong to the physical card; `CacheAgreement` and `PrimedThenHit` assume that equal idents mean equal
  secrets.
  A correct PIN restores the three tries, a wrong one costs one, a blocked card refuses.
- Time is a monotone clock; the select loop's choice of the next event is an arbitrary list of passes. Bounds on silence
  are for intervals above 0: an interval of 0 is turned into none before the tunnel starts
  (`smartguard/src/main.rs:92-95`).

Where the code and its comments differ, the model follows the code:

- `recheck_routes` is said to leave interface-mode bypasses alone (`smartguard/src/route.rs:414-415`); it replaces them as
  soon as a default gateway exists. `RecheckRepairsIff` and `RecheckConverges` cover these records.
- A failed re-add is said to be retried (`smartguard/src/route.rs:469`). It is, unless the default returns to the stored
  gateway first: then the record is skipped for good. `RecheckAgreesIff` gives the exact condition, `StaysMissing` the
  failing case, and `LostBypass` a run of the loop from start-up that ends in it.
- Endpoints are said to stay out of the tunnel in a family the TUN has no address of (`smartguard/src/route.rs:337-340`).
  That bypass comes after the routes for AllowedIPs and copies what it finds. `EndpointKeepsHopIff` gives the exact
  condition for an endpoint to keep its hop; `HalvesCaptureEndpoint` is an input that fails it.
- Passthroughs are said to see an untouched family (`smartguard/src/route.rs:126-130`). With a catch-all in AllowedIPs and
  no TUN address of the family the halves come first. `ExemptEscapesIff` gives the exact condition.
- The IPv6 side is said to cover only `2000::/3` (`smartguard/src/route.rs:82-85`); the code adds `::/1` and `8000::/1`,
  and the model does the same.
- `ss` is said to be cached after the first hit (`smartguard-crypto/src/thread.rs:31-33`); only priming caches it, see
  `OnlyPrimingCaches`.

## Model

| member | source | states |
|---|---|---|
| `Kernel.Machine.RouteAdd` | smartguard/src/route.rs:88-103 | one `route add` against the shared table: fails on an existing key or when the world says so, after the host's own changes at that tick |
| `Kernel.Machine.RouteDelete` | smartguard/src/route.rs:88-103 | one `route delete`: the key is gone afterwards, everything else is as the host left it |
| `Kernel.Machine.RouteGet` | smartguard/src/route.rs:474-506 | `route get <ip>`: the longest match of the table, or nothing |
| `Kernel.Machine.RouteGetDefault` | smartguard/src/route.rs:401-408 | `route get default`: the length-0 entry itself, whatever halves lie above it |
| `Kernel.PatchedAt` | smartguard/src/route.rs:88-103 | the host's own changes set and remove exactly what they name, and never a key this program has added |
| `Prefixes.LookupIsLongest` | smartguard/src/route.rs:474-506 | a lookup gives the value of the longest key that covers the address |
| `Prefixes.OverlayLookup` | smartguard/src/route.rs:255-260 | why add-if-absent routes compose: the longer match wins, and on a tie the entry that was there first |
| `Routes.BypassEndpoint` | smartguard/src/route.rs:197-250 | one endpoint of the bypass loop changes kernel and record list exactly as `BypassOne` says |
| `Routes.InstallEndpointBypass` | smartguard/src/route.rs:195-253 | the loop refines the value-level bypass over all endpoints |
| `Routes.InstallPassthroughs` | smartguard/src/route.rs:131-190 | probe, then one route per exempt prefix, recorded only if added |
| `Routes.AddNets` | smartguard/src/route.rs:284-314 | the AllowedIPs loop adds every prefix to the TUN, a catch-all as its two halves |
| `Routes.SetupRoutes` | smartguard/src/route.rs:261-317 | bypasses before nets; refines `Setup` |
| `Routes.SetupUnconfiguredFamily` | smartguard/src/route.rs:341-359 | bypass, passthroughs, halves, in this order; refines `Unconfigured` |
| `Routes.StartRoutes` | smartguard/src/tunnel.rs:203-230 | the guard holds exactly the records of the whole start-up sequence |
| `Routes.CleanupGuard.RecheckRoute` | smartguard/src/route.rs:424-471 | one record: skipped, torn down, replaced, or kept with its old gateway when the re-add fails |
| `Routes.CleanupGuard.RecheckRoutes` | smartguard/src/route.rs:420-472 | the in-place loop refines `Recheck` |
| `Routes.CleanupGuard.CleanupRoutes` | smartguard/src/route.rs:361-394 | deletes every recorded key; refines `Cleanup` |
| `RouteUndo.AddKeeps` | smartguard/src/route.rs:105-124 | an add and its record keep: recorded keys are distinct, were absent when added, and are all that is ours in the table |
| `RouteUndo.BypassKeeps` | smartguard/src/route.rs:195-253 | the endpoint bypass keeps the set-up invariant under any failures and interference |
| `RouteUndo.PassthroughsKeep` | smartguard/src/route.rs:131-190 | the passthroughs keep the set-up invariant |
| `RouteUndo.SetupKeeps` | smartguard/src/route.rs:261-317 | `setup_routes` keeps the set-up invariant |
| `RouteUndo.UnconfiguredKeeps` | smartguard/src/route.rs:341-359 | `setup_unconfigured_family` keeps the set-up invariant, whatever was recorded before it |
| `RouteUndo.StartKeeps` | smartguard/src/tunnel.rs:203-230 | after start-up every record and the kernel agree, and every recorded key is live, from any initial table |
| `RouteUndo.RecheckOneFrame` | smartguard/src/route.rs:424-471 | a re-check of one record touches no other key and leaves no record naming a gateway the kernel contradicts |
| `RouteUndo.RecheckKeeps` | smartguard/src/route.rs:420-472 | one-sided invariant: if the kernel holds a recorded bypass through g, the record stores exactly g; failures and interference included |
| `RouteUndo.RecheckAllShape` | smartguard/src/route.rs:424-471 | a re-check preserves the list's length, order, addresses and families, and every record that is not a host route |
| `RouteUndo.CleanupUndoes` | smartguard/src/route.rs:361-394 | clean-up of the recorded keys leaves exactly the host's own table |
| `RouteRecheck.RecheckConverges` | smartguard/src/route.rs:406-472 | from agreement, and if adds fail only on existing keys while it runs, a re-check makes every host record equal to the default gateway it read, keeps agreement, and every endpoint with a stored gateway is forwarded to it, with interference at every tick |
| `RouteRecheck.RecheckRepairsIff` | smartguard/src/route.rs:437-467 | when it reads the default g, the bypass runs through g afterwards if and only if the record stored something else or the kernel already had it; covers interface-mode records, with interference at every tick |
| `RouteRecheck.RecheckExact` | smartguard/src/route.rs:420-472 | exactly what becomes of every record and its entry under any failures and interference: left alone, torn down, replaced, or lost with the old gateway stored; one failed add costs no other record its repair |
| `RouteRecheck.RecheckIdempotent` | smartguard/src/route.rs:420-472 | a second re-check that reads the same gateways issues two reads and no delete or add, whatever else the host changes |
| `RouteRecheck.OthersKeepForwarding` | smartguard/src/route.rs:420-472 | every address but the recorded endpoints is forwarded as if the re-check had only looked, whatever fails and whatever the host changes meanwhile |
| `RouteRecheck.RecheckAgreesIff` | smartguard/src/route.rs:444-471 | records and kernel still agree after the loop if and only if every re-add of a record that stored a gateway succeeds |
| `RouteRecheck.StaysMissing` | smartguard/src/route.rs:437-439 | a missing bypass whose record equals the default that the re-checks read stays missing through any number of them, whatever else happens |
| `TunnelForwarding.LostBypass` | smartguard/src/route.rs:444-471 | that situation is reachable from start-up: two failed sends, the host moves away and back, one re-add fails |
| `RouteForwarding.BypassIsNeutral` | smartguard/src/route.rs:192-253 | the bypass alone changes where no address goes |
| `RouteForwarding.SetupForwarding` | smartguard/src/route.rs:261-317 | exactly where `setup_routes` sends every address, for every table, AllowedIPs and endpoints |
| `RouteForwarding.CatchallCapture` | smartguard/src/route.rs:255-317 | catch-all capture: reachable endpoints keep their hop, default-routed and unrouted addresses go to the TUN, longer original routes win, the default entry stays |
| `RouteForwarding.TunKeysHold` | smartguard/src/route.rs:284-314 | the prefixes sent to the TUN are the AllowedIPs other than catch-alls, and both halves of each family with a catch-all |
| `RouteForwarding.PassthroughsForwarding` | smartguard/src/route.rs:131-190 | the exempt ranges take over the probe's hop where they are the strictly longest match |
| `RouteForwarding.UnconfiguredForwarding` | smartguard/src/route.rs:319-359 | exactly where `setup_unconfigured_family` sends every address, and that the other family is untouched |
| `RouteForwarding.StartForwarding` | smartguard/src/tunnel.rs:203-230 | the forwarding of either family after the whole start-up |
| `RouteForwarding.ThreeTiers` | smartguard/src/route.rs:319-359 | three-tier forwarding with the order of precedence on ties |
| `RouteForwarding.EndpointKeepsHopIff` | smartguard/src/route.rs:331-359 | an endpoint keeps its hop through start-up if and only if AllowedIPs have a catch-all of its family or no AllowedIPs prefix is longer than its original route; otherwise it goes into its own tunnel |
| `RouteForwarding.HalvesCaptureEndpoint` | smartguard/src/route.rs:331-359 | the input: AllowedIPs written as the two halves over a default route send the endpoint into the tunnel |
| `RouteForwarding.ExemptEscapesIff` | smartguard/src/route.rs:126-148 | an exempt, default-routed address keeps its hop if and only if nothing sent to the TUN covers the probe (or the probe is a bypassed endpoint) |
| `RouteForwarding.ExemptionsLostUnderCatchall` | smartguard/src/tunnel.rs:203-223 | with a catch-all and no TUN address of the family the exempt ranges go into the tunnel |
| `ExemptRanges.ExemptAddresses` | smartguard/src/route.rs:75-86 | byte by byte, which addresses are exempt, and by a prefix of which length |
| `ExemptRanges.ProbeAddress` | smartguard/src/route.rs:142-145 | the IPv4 probe is 1.1.1.1 |
| `RouteAttempts.AddAllTriesEach` | smartguard/src/route.rs:151-188 | every prefix of a list is tried at its own tick whatever became of those before it, and its route stays for the rest of the list |
| `RouteAttempts.BypassTriesEach` | smartguard/src/route.rs:197-251 | every endpoint is tried whatever became of those before it, and its bypass stays for the rest of the list |
| `RouteAttempts.FirstRecordIsFirstEndpoint` | smartguard/src/tunnel.rs:203-252 | with an IPv4 catch-all the first record, on which ticks depend, is that of the first endpoint |
| `RadixTries.InsertIsUpdate` | smartguard-crypto/src/session/peer_net.rs:47-67 | inserting is a map update: the new key has the new value, all others keep theirs |
| `RadixTries.DescendIsLongest` | smartguard-crypto/src/session/peer_net.rs:3-8 | descending the radix trie finds the longest stored prefix |
| `RadixTries.CompressWellFormed` | smartguard-crypto/src/session/peer_net.rs:69-74 | no lookup in the compressed trie runs out of address bits or children |
| `RadixTries.CompressPreserves` | smartguard-crypto/src/session/peer_net.rs:69-74 | path and level compression change no lookup |
| `PeerNets.PeerNetBuilder.constructor` | smartguard-crypto/src/session/peer_net.rs:40-45 | both families start with the sentinel at the root |
| `PeerNets.PeerNetBuilder.Insert` | smartguard-crypto/src/session/peer_net.rs:47-67 | appends to the insert log and keeps both tries equal to the table of that log |
| `PeerNets.PeerNetBuilder.Build` | smartguard-crypto/src/session/peer_net.rs:69-74 | every lookup in the built table equals longest-prefix match over the insert log |
| `PeerNets.LookupIsWinner` | smartguard-crypto/src/session/peer_net.rs:23-31 | longest match over the log is a plain scan: longest prefix, latest insert on a tie, sentinel if none |
| `PeerNets.FamiliesIndependent` | smartguard-crypto/src/session/peer_net.rs:26-31 | dropping all inserts of the other family changes no lookup |
| `PeerNets.BuildSessions` | smartguard-crypto/src/lib.rs:48-71 | ids follow the input order and the table is that of all peers' prefixes in order |
| `PeerNets.LookupIsOwner` | smartguard-crypto/src/lib.rs:56-67 | an address is looked up as peer i exactly if peer i owns it, and as the sentinel exactly if nobody does |
| `Handle.HandleIntern` | smartguard-crypto/src/session/handle.rs:105-149 | the in-place outbound handler: outcome and whole buffer as `Intern` says, panics included |
| `Handle.HandleExtern` | smartguard-crypto/src/session/handle.rs:52-101 | the in-place inbound handler: outcome and whole buffer as `Extern` says |
| `Prefixes.ByteValue` | smartguard-crypto/src/session/handle.rs:21-47 | the bits of a byte spell it, most significant first |
| `Prefixes.BytePrefix` | smartguard-crypto/src/session/handle.rs:21-47 | a prefix of whole bytes covers exactly the addresses that begin with these bytes |
| `Handle.AddressesOfV4` | smartguard-crypto/src/session/handle.rs:21-47 | source and destination are bytes 12-15 and 16-19 of an IPv4 packet, in order, byte by byte |
| `Handle.AddressesOfV6` | smartguard-crypto/src/session/handle.rs:21-47 | source and destination are bytes 8-23 and 24-39 of an IPv6 packet, in order, byte by byte |
| `Handle.NoAddresses` | smartguard-crypto/src/session/handle.rs:21-47 | packets of other versions, or shorter than the fixed header, have no addresses |
| `Handle.BitsDetermineBytes` | smartguard-crypto/src/session/handle.rs:21-47 | two packets whose address bits agree have the same address bytes |
| `Handle.PadInPlace` | smartguard-crypto/src/session/handle.rs:116-118 | the payload slot becomes the packet followed by zeros up to a multiple of 16 |
| `Handle.WriteFrame` | smartguard-crypto/src/session/handle.rs:133-147 | header and tag around the payload that is already in place give the whole frame |
| `Handle.InternFrames` | smartguard-crypto/src/session/handle.rs:105-149 | the data path emits header, ciphertext of the padded packet, tag, and changes nothing behind the frame |
| `Handle.FramingRoundTrip` | smartguard-crypto/src/session/handle.rs:52-149 | what one end reads from its TUN arrives at the other: kernel header, the packet, fewer than 16 zero bytes |
| `Handle.DataPathBound` | smartguard-crypto/src/session/handle.rs:111-147 | with the 2048-byte buffer a data packet goes through if and only if it has at most 2016 bytes |
| `Handle.SmallPacketsSafe` | smartguard-crypto/src/session/handle.rs:105-149 | up to 2016 bytes nothing leaves the buffer; something is sent exactly if there is a destination and the session manager sends, nothing goes back to the TUN, and a packet without destination leaves no trace |
| `Handle.ShortReadPanics` | smartguard/src/tunnel.rs:333-335 | a TUN read shorter than the kernel header stops the program |
| `Handle.InboundSafe` | smartguard-crypto/src/session/handle.rs:80-91 | the inbound slice always stays inside the datagram |
| `Handle.PaddingShape` | smartguard-crypto/src/session/handle.rs:116-118 | padding goes to the least multiple of 16 that holds the packet, with zeros only |
| `Handle.InboundIffOwner` | smartguard-crypto/src/session/handle.rs:66-91 | a datagram reaches the TUN if and only if it opens as data of a configured peer that owns the inner source address |
| `Handle.OutboundAsksOwner` | smartguard-crypto/src/session/handle.rs:111-130 | an outgoing packet concerns only the session of the owner of its destination, or the sentinel if nobody owns it |
| `Handle.CryptokeyRouting` | smartguard-crypto/src/session/handle.rs:52-149 | both directions agree: every later packet to an address goes to the peer whose packet from it was let through, whatever has become of the other sessions |
| `Card.CardReader.TryDecipherNow` | smartguard-crypto/src/thread.rs:178-205 | verify, decipher, take 32 bytes, refuse the zero secret; refines `TryDecipher` |
| `Card.CardReader.ReconnectNow` | smartguard-crypto/src/thread.rs:207-227 | takes the first reader showing the ident, else leaves the held card; refines `Reconnect` |
| `Card.CardReader.DecipherNow` | smartguard-crypto/src/thread.rs:161-176 | one attempt, one reconnect, one more attempt; refines `DecipherWithRetry` |
| `Card.CardReader.OpenNow` | smartguard-crypto/src/thread.rs:123-155 | search, then one PIN verification on the card found; refines `OpenAndVerify` |
| `Card.FirstDecides` | smartguard-crypto/src/thread.rs:130-147 | the first reader that settles the search is taken, including the no-key error for an explicit ident |
| `Card.OpenSpends` | smartguard-crypto/src/thread.rs:123-155 | an opened card is eligible and accepted the PIN; a wrong PIN costs that card exactly one try and opens nothing |
| `Card.OpenOutcome` | smartguard-crypto/src/thread.rs:123-155 | exactly how opening ends, for the first reader that decides: opened, no key, PIN refused or panic; card not found if none decides |
| `Card.AttemptOutcome` | smartguard-crypto/src/thread.rs:178-205 | exactly when one attempt succeeds, with which key, and which failure is reported for what |
| `Card.RequestSucceedsIff` | smartguard-crypto/src/thread.rs:161-227 | a request succeeds if and only if the held card answers at once or the first card shown with the ident does after one reconnect |
| `Card.FailedReconnectEnds` | smartguard-crypto/src/thread.rs:161-227 | a failed reconnect ends the request with its own error and no second attempt |
| `Card.HeldKeepsIdent` | smartguard-crypto/src/thread.rs:161-227 | the held card always has the ident fixed at open; a failed reconnect changes no card |
| `Card.RequestBudget` | smartguard-crypto/src/thread.rs:161-176 | at most two verify attempts and one reconnect per request, and no card loses more tries than were spent |
| `Card.RightPinNeverCosts` | smartguard-crypto/src/thread.rs:157-205 | while the PIN is right no card ever loses a try |
| `Card.WrongPinCostsTwo` | smartguard-crypto/src/thread.rs:161-176 | once the PIN is wrong, one request costs two tries |
| `Card.RetryRecovers` | smartguard-crypto/src/thread.rs:157-176 | a single failure of any kind is absorbed by the retry, and the card found again is kept |
| `Card.SuccessIsSharedSecret` | smartguard-crypto/src/thread.rs:178-205 | success returns the non-zero shared secret with the request's own peer, from a card that accepted the PIN |
| `CardProtocol.OpenOrNothing` | smartguard-crypto/src/thread.rs:58-96 | serving starts only after a successful open, with that card's ident and PIN; after any other open nothing is ever accepted, served or returned and the PIN was tried at most once |
| `CardProtocol.RunKeeps` | smartguard-crypto/src/thread.rs:98-118 | the protocol invariant holds in every reachable state |
| `CardProtocol.WorkerProtocol` | smartguard-crypto/src/thread.rs:31-35 | accepted requests are those answered, in service and queued, in order and once each; at most 32 queued and 33 in flight; every answer is a right one for its own request |
| `CardProtocol.AnswersReachTheirCallers` | smartguard-crypto/src/card.rs:112-135 | what callers are handed are the recorded answers to their own requests, none twice; every cached secret was handed to a caller that primed it |
| `CardProtocol.AcceptedIffRoom` | smartguard-crypto/src/card.rs:112-135 | a call that needs the card is accepted, at the end of the queue and for its own purpose, exactly while the worker lives and fewer than 32 are queued; else it returns the reason |
| `CardProtocol.ServeSucceedsIff` | smartguard-crypto/src/thread.rs:98-105 | the worker answers with a key exactly when the held card, or after one reconnect the card shown again, can give one |
| `CardProtocol.ServeRecovers` | smartguard-crypto/src/thread.rs:157-176 | one failure of whatever kind is absorbed by the worker, which keeps the card it found again |
| `CardProtocol.ServesPublicKey` | smartguard-crypto/src/thread.rs:106-115 | a public-key request is answered with the held card's key, or dropped |
| `CardProtocol.WaiterGetsOwnAnswer` | smartguard-crypto/src/card.rs:123-135 | a caller that keeps waiting gets the answer to its own request, and no other answer disturbs it |
| `CardProtocol.CancelledIsServedAnyway` | smartguard-crypto/src/thread.rs:100-105 | over any continuation a cancelled request is served in its turn, queued or in service, and nobody is ever handed its answer |
| `CardProtocol.PrimedThenHit` | smartguard-crypto/src/card.rs:110-121 | after a successful priming every later handshake returns the primed secret at once, over any run until the peer is forgotten or the handle dropped |
| `CardProtocol.OnlyPrimingCaches` | smartguard-crypto/src/card.rs:112-116 | without a priming of the peer its secret stays out of the cache over any run |
| `CardProtocol.ForgottenMisses` | smartguard-crypto/src/card.rs:118-121 | after forgetting, over any run, every handshake with the peer asks the card again until it is primed anew; no other peer is forgotten |
| `CardProtocol.CacheAgreement` | smartguard-crypto/src/card.rs:80-116 | over every run each cached, answered and returned secret is DH of the held card's key with the peer key and not zero; a cache hit returns what a successful card call would return now |
| `CardProtocol.Progress` | smartguard-crypto/src/thread.rs:10-11 | after the handle is dropped no step delays the worker's end and one is always possible |
| `CardProtocol.DrainsAndHalts` | smartguard-crypto/src/thread.rs:98-118 | after the handle is dropped the worker answers everything accepted, in order, and halts |
| `CardProtocol.DropDrains` | smartguard-crypto/src/thread.rs:98-118 | from the drop on, whatever happens meanwhile, the worker ends having answered exactly what was accepted, and no secret is cached |
| `CardProtocol.RunBudget` | smartguard-crypto/src/thread.rs:161-176 | over a whole run at most two verifications and one reconnect per answered DH request |
| `CardProtocol.PinNeverSpent` | smartguard-crypto/src/thread.rs:157-205 | over a whole run, if the PIN stays the PIN, no counter ever worsens |
| `CardProtocol.CardHandle.TrySend` | smartguard-crypto/src/card.rs:124-132 | enqueue and wait, or refuse: queue full, worker gone |
| `CardProtocol.CardHandle.AsyncX25519` | smartguard-crypto/src/card.rs:149-164 | a cache hit returns at once, a miss submits |
| `CardProtocol.CardHandle.PrimeSs` | smartguard-crypto/src/card.rs:112-116 | always submits, even when the key is cached |
| `CardProtocol.CardHandle.ForgetPeer` | smartguard-crypto/src/card.rs:118-121 | removes the cached key and nothing else |
| `CardProtocol.CardHandle.WorkerTurn` | smartguard-crypto/src/thread.rs:98-117 | receive and serve of the transition system, in place |
| `CardProtocol.CardHandle.RunToEnd` | smartguard-crypto/src/thread.rs:98-118 | the receive loop after the sender is gone computes the drained state |
| `Tunnel.BuildIndex` | smartguard/src/tunnel.rs:169-175 | the collected map sends each configured endpoint to the last peer that has it |
| `Tunnel.TickPeers` | smartguard/src/tunnel.rs:302-309 | exactly the peers silent for at least their interval get a keepalive, and they alone a new `last_sent` |
| `Tunnel.OnePass` | smartguard/src/tunnel.rs:266-354 | one pass of the loop on guard, kernel and peer slots |
| `Tunnel.PassRechecksIff` | smartguard/src/tunnel.rs:263-355 | a tick re-checks exactly while the first bypass stores no gateway, a failed send always, nothing else ever |
| `Tunnel.LoopSteps` | smartguard/src/tunnel.rs:249-355 | the loop starts from the start-up state and every pass acts on the state the one before it left |
| `Tunnel.SelectLoop` | smartguard/src/tunnel.rs:263-355 | any sequence of passes |
| `Tunnel.ConfigHolds` | smartguard/src/tunnel.rs:177-184 | the routes come from the prefixes and endpoints of the configured peers, all of them and no others |
| `Tunnel.ConfigInOrder` | smartguard/src/tunnel.rs:177-184 | prefixes and endpoints are gathered in the order of the peers |
| `Tunnel.RunTunnel` | smartguard/src/tunnel.rs:118-359 | the whole tunnel from one list of peers: the cryptokey-routing table of the peers, one slot per peer, and afterwards the table is the host's own |
| `Tunnel.LoopInvariant` | smartguard/src/tunnel.rs:249-355 | distinct exact records, truthful gateways, unchanged list shape and a valid first-bypass index in every reachable state |
| `TunnelForwarding.EndpointsForwarded` | smartguard/src/tunnel.rs:263-355 | where adds fail only on existing keys: in every reachable state records and kernel agree and every endpoint with a stored gateway is forwarded to it |
| `TunnelForwarding.FollowsTheNetwork` | smartguard/src/tunnel.rs:279-342 | where adds fail only on existing keys: after any run the next re-checking pass moves every record, bypass and endpoint to the default gateways it reads, with interference at every tick |
| `TunnelForwarding.StartRecords` | smartguard/src/tunnel.rs:203-230 | start-up records only bypasses of configured endpoints, tunnel routes for AllowedIPs and halves, and escapes of exempt ranges in unconfigured families |
| `TunnelForwarding.CaptureForLife` | smartguard/src/tunnel.rs:203-355 | an address captured at an undisturbed start-up stays in the tunnel in every reachable state in which the host's own routes are still shorter, whatever fails or changes later |
| `TunnelForwarding.CoveredIsCaptured` | smartguard/src/tunnel.rs:177-355 | the same from the list of peers: what AllowedIPs of some peer cover goes into the tunnel for its whole life |
| `TunnelForwarding.UncoveredFollowsTheFamily` | smartguard/src/tunnel.rs:215-230 | an address no peer may be sent is left alone if the TUN has an address of its family; otherwise it goes into the tunnel if only a default route served it and it is not exempt |
| `Tunnel.UndoExact` | smartguard/src/tunnel.rs:37-45 | undo is exact over every run, failure pattern and interleaving |
| `Tunnel.UndoRestores` | smartguard/src/tunnel.rs:37-45 | if nobody else changed the table it is afterwards what it was before, whatever has failed |
| `Tunnel.TicksBlind` | smartguard/src/tunnel.rs:279-286 | while the first bypass has a gateway, ticks repair nothing |
| `Tunnel.SilenceBounded` | smartguard/src/tunnel.rs:294-309 | in every reachable state, in plain time: the last tick is less than K after `last_sent`, and any time up to the next less than K + d after it |
| `Tunnel.AttemptsSpaced` | smartguard/src/tunnel.rs:294-309 | over every run of the loop, every attempt comes at least K after the start, every earlier attempt and every earlier counted send |
| `Tunnel.LastSentIsLastActivity` | smartguard/src/tunnel.rs:294-349 | `last_sent` is the time of the peer's last attempt or counted send, or of the start |
| `Tunnel.NeverSilent` | smartguard/src/tunnel.rs:294-349 | no peer with interval K goes K + d without an attempt or a counted send |
| `Tunnel.SendPostponesIff` | smartguard/src/tunnel.rs:343-349 | a counted send moves peer i exactly if i is the last peer configured with that endpoint |
| `Tunnel.PeersIndependent` | smartguard/src/tunnel.rs:263-355 | whatever happens to the routes, the keepalive slots change as the passes alone say |
| `Tunnel.SlotsHoldTheirPeers` | smartguard/src/tunnel.rs:154-168 | slot i holds id, endpoint and interval of peer i in every reachable state of the loop |

## Left out

- Noise handshakes, ciphers, X25519, session timers and nonces: behind the two functions of `Handle.Sessions`; a session
  manager that keeps state between calls is one pair of functions per call. rustyguard is not part of this model.
- iptrie's memory layout, and what it does with host bits in a prefix such as `10.1.2.3/8`: the model keeps the leading
  bits only.
- The text scan of `route get` and the difference between a host route and a full-width net route: an entry is a gateway,
  an interface, or neither.
- `PeerConfig` carries no preshared key, and DNS, TUN creation, address set-up, sockets and signals are not modelled; the
  initial handshakes and what `send_keepalive` puts on the wire have no effect on the modelled state.
- A tunnel that ends early because of an error of a socket or of the TUN device is a shorter list of passes; a failing
  task join, which loses the guard, is not modelled.
- The five seconds of sleep before a reconnect, and logging.
- Panics of the public-key request (`smartguard-crypto/src/card.rs:138-145`): the model records the refusal or the dropped
  reply as the result of the call.
- The clean-up order of `CleanupGuard` with respect to DNS.
- `list_cards` and `config.rs`: their branches give only easy members.
- Tunnel.TickPeers: the 1-second period of the ticker is not modelled; the bound `d` between ticks is a hypothesis of
  `SilenceBounded`.
- Tunnel.OnePass: the keepalive send itself is not modelled, an attempt counts whether or not the datagram leaves.
