# Packet Audit: verified model

Packet Audit captures packets, puts TCP streams and IP datagrams back together, hands them to
detector workers through bounded queues, and reports credentials that were sent in the clear. Every
buffer in it is bounded, and every loss must be visible. This project models the parts on which those
promises rest and proves them for every run:

- TCP reassembly (`Tcp*.dfy`, `Ranges`, `Spans`, `Recency`): sequence unwrapping, the pending list, draining,
  forced gaps, epochs, eviction, expiry; runs are explicit sequences of calls, the clock is an argument.
- IP fragment reassembly (`Fragment*.dfy`).
- Provenance and retained windows (`Provenance*`, `RetainedWindow`, `WindowLaws`), joined to TCP in `EndToEnd`.
- The detector's worker-wide budgets and its NTLM store (`Detector*`, `SensitiveDetector`). Scanners are
  arbitrary: they may ask for any sequence of state operations.
- Dispatch with forwarded-duplicate suppression (`Suppression*`, `Dispatch*`, `Forwarded*`), routing (`Routing`),
  and the queue reservation protocol (`QueueReservation`).
- Resumable framing: Redis and PostgreSQL (`Wire`, `Redis*`, `Postgres`, `Framing`), HTTP/1 (`Http*`),
  MQTT CONNECT (`Mqtt*`), and the evidence pager (`Pager`).

State that the program updates in place is a class whose methods are proved equal to functions on an
immutable record; the theorems are about those functions. Where a definition carries a counter called
`depth` (names ending in `Sealed`), the counter only keeps the solver from unfolding the definition where it
is passed along; an accompanying lemma says that it equals its body.

`dafny verify dfyconfig.toml` checks everything.

## Model

| member | source | states |
|---|---|---|
| TcpTheorems.ExactlyOnce | packet_audit/reassembly.py:474-480 | Over every run of packets, expiries and flushes, the chunks of one epoch and direction occupy disjoint, increasing intervals of non-negative stream offsets, so no byte is emitted twice. |
| TcpTheorems.FirstSeenWins | packet_audit/reassembly.py:658-745 | Every emitted byte is the byte of the first packet of its epoch and direction that covered its offset, even when packets contradict each other. |
| TcpTheorems.ChunkProvenance | packet_audit/reassembly.py:700-745 | A chunk's spans tile it exactly; at every offset the span names exactly the packets of the arrival that supplied the byte, and the chunk's id list is the union of its spans'. |
| TcpTheorems.ConservedAndBounded | packet_audit/reassembly.py:836-951 | After every call, recorded payload bytes are emitted plus retransmitted plus pending bytes, both buffer counters are the sums over the table, and the flow, byte, segment and per-direction caps hold. |
| TcpTheorems.FlushDeliversAll | packet_audit/reassembly.py:980-992 | A final flush empties the table, and every recorded payload byte was emitted or counted as retransmitted. |
| TcpTheorems.RememberedIsFirstSeen | packet_audit/reassembly.py:613-635 | In every reachable state the consumed-history window is within its bound, lies below the next expected byte, and holds the first-seen byte of each of its offsets. |
| TcpTheorems.RememberedIsEmitted | packet_audit/reassembly.py:613-635 | Every chunk that holds an offset of the consumed-history window holds the same byte there. |
| TcpTheorems.ContradictionIsReal | packet_audit/reassembly.py:637-656 | A retransmission is reported as contradicting consumed bytes if and only if it differs from a byte the window holds at the same position. |
| TcpSender.UnwrapNearest | packet_audit/reassembly.py:422-430 | Unwrapping keeps the 32-bit residue and lands within half the number space of the reference. |
| TcpSender.UnwrapExact | packet_audit/reassembly.py:422-430 | Unwrapping recovers a true position if and only if it lies within half the number space, with the exact rule for the two ties. |
| TcpSender.RecordIsLanded | packet_audit/reassembly.py:836-914 | What is recorded for an epoch and direction is exactly the payloads of the calls that landed there, once each, in order, at their unwrapped offsets; idle probes are not recorded. |
| TcpSender.RecordIsPlaced | packet_audit/reassembly.py:422-430 | If every landed payload is a slice of one sender stream at a true position within 2^31 of the next expected byte, each is recorded at its true stream offset, across any number of wraps. |
| TcpSender.Faithful | packet_audit/reassembly.py:422-470 | Under that description of what the sender put on the wire, in any order, with overlap, duplication, wraps and forced gaps, every chunk equals the sender's stream at its offset, and all packets share one origin. |
| TcpSender.UngappedIsPrefix | packet_audit/reassembly.py:722-745 | A chunk not marked gapped proves that the chunks up to it concatenate to exactly the sender's stream from offset zero to its end. |
| TcpSender.DeliversPrefix | packet_audit/reassembly.py:658-759 | While a direction has skipped no gap, the chunks concatenate to a prefix of the sender's stream at least as long as the calls carried contiguously, and to exactly that prefix if no call carried the next byte. |
| TcpSender.WindowIsEmitted | packet_audit/reassembly.py:613-635 | While no gap was skipped, each byte of the consumed-history window is the byte at that offset of the concatenated chunks. |
| TcpExpiry.ExpiryIsComplete | packet_audit/reassembly.py:954-978 | In every run with a non-decreasing clock the table stays ordered by activity, so an expiry that stops at the first fresh flow leaves exactly what a complete filter leaves; expiry by capture time is the complete filter in any order. |
| TcpReassembler.TCPReassembler.DrainDirection | packet_audit/reassembly.py:658-745 | Draining a direction in place equals the draining function: the new direction, the counters and the chunk. |
| TcpReassembler.TCPReassembler.SkipToNextSegment | packet_audit/reassembly.py:747-759 | Skipping a gap in place equals the skipping function. |
| TcpReassembler.TCPReassembler.FlushDirection | packet_audit/reassembly.py:761-770 | The flush loop equals the recursive flush: rounds of draining and skipping until nothing is pending. |
| TcpReassembler.TCPReassembler.EvictOldestFlow | packet_audit/reassembly.py:772-784 | Evicting the oldest flow equals flushing both directions and removing it, with both eviction counters. |
| TcpReassembler.TCPReassembler.DeliverPayload | packet_audit/reassembly.py:836-914 | One payload equals the delivery function: idle probe, stale retransmission or fresh bytes, with the contradiction count. |
| TcpReassembler.TCPReassembler.ProcessPacket | packet_audit/reassembly.py:786-952 | Processing a packet on the mutable tables gives the state and the chunks of the machine function. |
| TcpReassembler.TCPReassembler.Expire | packet_audit/reassembly.py:954-978 | The early-exit expiry loop equals the machine function. |
| TcpReassembler.TCPReassembler.ExpireByCapture | packet_audit/reassembly.py:954-978 | The full-scan expiry loop equals the machine function. |
| TcpReassembler.TCPReassembler.FlushAllFlows | packet_audit/reassembly.py:980-992 | The final flush loop equals the machine function. |
| Ranges.UncoveredRanges | packet_audit/reassembly.py:433-470 | The piece-rebuilding loop equals the subtraction of the pending list from a new range. |
| Ranges.UncoveredExact | packet_audit/reassembly.py:433-470 | Subtraction leaves ordered disjoint parts of the new range that cover exactly the positions nothing pending covers. |
| Ranges.SortExtended | packet_audit/reassembly.py:90-104 | Sorting a disjoint list extended by uncovered parts gives one sorted disjoint list. |
| FragmentTheorems.RoundTrip | packet_audit/reassembly.py:225-354 | Genuine fragments of a datagram in any order, repeated and overlapping, interleaved with any traffic and with no cap hit, yield nothing until they cover it, and the arrival that completes the cover yields exactly the datagram. |
| FragmentAgreement.Agreement | packet_audit/reassembly.py:280-348 | Whatever was fed, a returned payload has the announced length, agrees with every fragment of its key fed since the key was last absent from the table, and has no byte that none of them carried. |
| FragmentAgreement.HeldIsFed | packet_audit/reassembly.py:245-303 | What the table holds for a key is every fragment of it fed since the key was last absent, in order. |
| FragmentTheorems.Budgets | packet_audit/reassembly.py:206-223 | In every reachable state the byte, range and id totals are the sums over datagrams, all limits hold, keys are distinct, and each datagram's ranges are ordered with a hole between any two. |
| FragmentTheorems.NotEmptyWhenOver | packet_audit/reassembly.py:213-223 | The eviction loop never looks for an oldest entry in an empty table. |
| FragmentDatagrams.SlicesComplete | packet_audit/reassembly.py:308-330 | Genuine fragments complete their datagram if and only if they cover it, and then yield exactly it. |
| FragmentExpiry.ExpiryIsComplete | packet_audit/reassembly.py:356-379 | The same early-exit result for incomplete datagrams, and the complete filter by capture time. |
| Fragments.MergeAdjacent | packet_audit/reassembly.py:90-104 | The coalescing loop equals sorting and joining adjacent ranges. |
| Fragments.FindConflict | packet_audit/reassembly.py:106-119 | The overlap scan finds a conflict if and only if some held range disagrees on a shared position. |
| Fragments.AssembleRanges | packet_audit/reassembly.py:312-328 | The completion walk equals the recursive assembly, with its early exits. |
| FragmentReassembler.FragmentReassembler.ProcessFragment | packet_audit/reassembly.py:225-354 | Processing a fragment on the mutable table gives the table and the output of the machine function. |
| FragmentReassembler.FragmentReassembler.Evict | packet_audit/reassembly.py:213-223 | The eviction loop equals the machine function. |
| FragmentReassembler.FragmentReassembler.ExpireIdle | packet_audit/reassembly.py:370-379 | The early-exit expiry loop equals the machine function. |
| FragmentReassembler.FragmentReassembler.ExpireByCapture | packet_audit/reassembly.py:356-379 | The full-scan expiry loop equals the machine function. |
| ProvenanceLaws.CoalesceOk | packet_audit/detectors.py:858-893 | Coalescing scattered spans orders them and says the same at every position. |
| ProvenanceLaws.ClipOk | packet_audit/detectors.py:895-916 | Clipping keeps exactly what was said inside the interval, ordered and inside it. |
| ProvenanceLaws.OverlayOk | packet_audit/detectors.py:918-950 | An overlay says what the replacement says inside its interval and what was said before elsewhere. |
| ProvenanceLaws.ChunkSpansSays | packet_audit/detectors.py:952-985 | A chunk's spans say what was supplied, and name the fallback packets, as incomplete, at every other position. |
| ProvenanceQuery.AttributeOk | packet_audit/detectors.py:2063-2127 | A query answers complete if and only if the context is complete, complete spans hold every position, and the packets concerned exist and fit the limit; then the listed ids are exactly theirs. |
| WindowLaws.MergeShape | packet_audit/detectors.py:1546-1679 | Merging a chunk keeps the spans of the window and of the scanned view ordered and inside their bytes. |
| WindowLaws.MergeSays | packet_audit/detectors.py:1546-1679 | The merged view attributes each position as the chunk does where it has bytes and as the window did elsewhere; a chunk that is not absorbed leaves the window alone. |
| WindowLaws.MergeBytes | packet_audit/detectors.py:1546-1679 | The merged view shows the chunk's bytes over the window's, and a changed window is its tail. |
| WindowLaws.MergeBounds | packet_audit/detectors.py:1625-1645 | The window never outgrows its overlap and slack, and cuts no more of the view than that requires. |
| WindowLaws.ForgetOk | packet_audit/detectors.py:1053-1097 | Dropping the oldest spans for a cap forgets exactly the attributions up to the last one dropped. |
| RetainedWindow.DirectionState.MergeStream | packet_audit/detectors.py:1546-1679 | Merging in place gives the window and the scanned view of the merge function. |
| Provenance.CoalesceLoop | packet_audit/detectors.py:858-893 | The coalescing loop equals pushing the sorted spans one by one. |
| Provenance.ClipRange | packet_audit/detectors.py:895-916 | The clipping loop equals the clipping function. |
| Provenance.AttributeRange | packet_audit/detectors.py:2085-2127 | The gathering loop equals the query function. |
| EndToEnd.HistoryHonest | packet_audit/detectors.py:987-1097 | However chunks, trims and span evictions alternate, the window holds only true bytes and true attributions. |
| EndToEnd.CompleteFindingsAreExact | packet_audit/detectors.py:2085-2127 | From packets to findings: an attribution reported complete covers only bytes of the first packets that carried them, and names exactly the packets that supplied them. |
| EndToEnd.UnpressedIsComplete | packet_audit/detectors.py:2085-2127 | The converse: while no span was dropped for a cap, every range of the view is attributed completely if and only if the packets to list exist and fit the limit. |
| DetectorTheorems.ByteBudget | packet_audit/detectors.py:1413-1508 | After every call, tail, NTLM and pending bytes are together within the budget, each worker-wide counter is the sum over live flows, no clamp at zero ever changed one, and the flow, metadata, span and reference caps hold. |
| DetectorTheorems.NtlmAgreement | packet_audit/detectors.py:1138-1301 | Over every run the correlation index lists exactly the live flows' challenges and responses, oldest first; byte counters are sums; per-flow and global caps hold. |
| DetectorTheorems.PairsIncrease | packet_audit/detectors.py:2439-2490 | Over every run the pairs one flow state reports for a direction and session have strictly increasing response offsets. |
| DetectorBudget.RetainReady | packet_audit/detectors.py:1180-1301 | An entry is retained if and only if it fits both byte caps by itself, whatever has to be evicted for it. |
| SensitiveDetector.SensitiveDetector.EnforceRetainedCap | packet_audit/detectors.py:1413-1493 | The enforcement loops (flows, tails, NTLM entries, pending entries, the flow itself) equal the state function. |
| SensitiveDetector.SensitiveDetector.MergeStream | packet_audit/detectors.py:1053-1097 | Merging a chunk and enforcing the span caps by whole flows, then by rounds of popping, equals the state function. |
| SensitiveDetector.SensitiveDetector.ReserveMetadataEntry | packet_audit/detectors.py:1343-1366 | Reserving a high-water entry evicts, answers and counts as the state function does. |
| SensitiveDetector.SensitiveDetector.ReserveNtlmEntry | packet_audit/detectors.py:1180-1239 | The two eviction loops and the answer equal the state function. |
| SensitiveDetector.SensitiveDetector.EvictOldestNtlm | packet_audit/detectors.py:1166-1178 | Evicting the oldest entry of the store, passing over unknown flows, equals the state function, also when it finds nothing. |
| SensitiveDetector.SensitiveDetector.ProcessCall | packet_audit/detectors.py:1498-1544 | One call on the mutable detector gives the state of the state function. |
| DispatchTheorems.SkipsAreSound | packet_audit/supervisor.py:441-589 | Over any run of batches each ingress frame authorises at most one skip, and every skipped packet is a forwarded copy of an ingress frame that was really enqueued, in the same or an earlier batch. |
| DispatchTheorems.Accounting | packet_audit/supervisor.py:1157-1168 | Captured packets are exactly the dispatched, suppressed and dropped ones, and the suppressor's table is within its entry and byte caps. |
| DispatchTheorems.DeliverOk | packet_audit/supervisor.py:441-583 | Delivering a batch never raises, whatever the queue answers; the batch splits exactly; a rejected batch drops something unless all of it was suppressed. |
| DispatchTheorems.NextOk | packet_audit/supervisor.py:441-583 | Every dispatch succeeds and keeps the invariant, with or without suppression. |
| ForwardedDuplicateSuppressor.Suppressor.PlanBatch | packet_audit/forwarded_duplicates.py:202-274 | Planning in place equals the planning function. |
| ForwardedDuplicateSuppressor.Suppressor.CommitPlan | packet_audit/forwarded_duplicates.py:295-325 | Committing in place equals the commit function, and fails exactly when it does. |
| ForwardedDuplicateSuppressor.Suppressor.CommitPriorSkipsOnFailure | packet_audit/forwarded_duplicates.py:276-293 | The partial commit of a rejected batch equals its function. |
| ForwardedDuplicateSuppressor.Suppressor.ExpireStale | packet_audit/forwarded_duplicates.py:188-200 | The expiry loop equals its function. |
| ForwardedDuplicateSuppressor.Dispatcher.DispatchBatch | packet_audit/supervisor.py:441-583 | Plan, admission and commit or failure in place equal the delivery function, and the tallies move by its lists. |
| ForwardedCopies.EqualKeysSameDatagram | packet_audit/forwarded_duplicates.py:77-124 | Equal keys prove the same VLAN stack and IP version and datagrams that differ at most in the hop count and the IPv4 header checksum. |
| ForwardedCopies.ChecksumRule | packet_audit/forwarded_duplicates.py:127-138 | The checksum rule accepts exactly the values congruent to the ingress checksum plus 0x0100 modulo 65535, except zero for 0xFEFF. |
| ForwardedCopies.CornerFailsOpen | packet_audit/forwarded_duplicates.py:127-138 | The excepted corner is one where a verifying checksum is declined, so the packet is kept. |
| ForwardedCopies.AcceptedCopyVerifies | packet_audit/forwarded_duplicates.py:231-251 | If the ingress IPv4 header verifies, a copy accepted as decremented verifies as well. |
| ForwardedCopies.SkipVlanTags | packet_audit/forwarded_duplicates.py:77-90 | The tag-skipping loop equals the recursive walk, with its bounds. |
| Routing.RoutesAreThePlainHash | packet_audit/supervisor.py:391-439 | In every run without a fallback, and with no datagram key shared by two flows, every packet and fragment goes where the plain hash of its flow sends it, whatever was evicted or expired. |
| Routing.TablesBounded | packet_audit/supervisor.py:408-427 | Both routing tables stay within their bound and hold one entry per name. |
| Routing.FlowFollowsDatagram | packet_audit/supervisor.py:391-427 | After a fragment that names its flow, the next whole packet of that flow goes to the same worker. |
| Routing.FallbackDiverts | packet_audit/supervisor.py:391-427 | After a fallback a flow's packets follow the plain hash if and only if the datagram key happens to hash alike. |
| Routing.Router.Assign | packet_audit/supervisor.py:391-427 | Assigning in place gives the tables and the worker of the routing function. |
| QueueReservation.ReservationsAreExact | packet_audit/supervisor.py:498-589 | Over every interleaving of reserve, put, roll back, get and release, the byte counter is what is reserved, queued and in process and within budget, at most queue size plus two batches are outstanding, no clamp fires, and both counters are zero when nothing is held. |
| QueueReservation.CanDrain | packet_audit/worker.py:132-222 | From every state with a running worker the remaining steps lead to quiescence, so no reservation leaks. |
| Framing.RedisSegmentation | packet_audit/cleartext.py:146-186 | However a stream is cut, the Redis records and the final cursor are those of one scan of the whole. |
| Framing.PostgresSegmentation | packet_audit/cleartext.py:235-267 | The same for the PostgreSQL frontend with a fixed authentication method. |
| Framing.ScanResumes | packet_audit/cleartext.py:146-186 | Scanning a prefix and resuming at its cursor is scanning the whole, for every recogniser that later bytes do not change. |
| Framing.FramesTile | packet_audit/cleartext.py:146-186 | Consumed frames tile the consumed region, each record is exactly one of them, and the walk stops only where no complete frame begins. |
| Framing.ScanFrames | packet_audit/cleartext.py:146-186 | The scanning loop equals the recursive scan. |
| Redis.ReadArguments | packet_audit/cleartext.py:48-74 | The argument loop equals the recursive reading, with its bounds. |
| Redis.SplitInline | packet_audit/cleartext.py:83-114 | The inline tokenising loop equals the recursive one. |
| RedisPrinter.CommandRoundTrip | packet_audit/cleartext.py:48-74 | Reading a printed command within the bounds gives back exactly its arguments. |
| RedisPrinter.CredentialsRoundTrip | packet_audit/cleartext.py:117-186 | A printed command, followed by anything, is one frame of exactly its length carrying the material of its arguments. |
| HttpLaws.AnySegmentation | packet_audit/http_forms.py:92-208 | Once the cursor is set, every way of cutting the stream and sliding the window gives the messages, absolute offsets, cursor and blocked flag of one scan, if every request is delimited and every chunked one ends at most one byte past the limit. |
| HttpLaws.JudgeForetells | packet_audit/http_forms.py:111-208 | A verdict over a prefix foretells the verdict over the whole, except that a blocked prefix may belong to a chunked request that ends past the limit. |
| HttpCuts.CutsAgree | packet_audit/http_forms.py:159-169 | For a chunked request that the stream completes: no cut of the stream blocks it if and only if it ends at most one byte past the limit. |
| HttpCuts.SegmentationExact | packet_audit/http_forms.py:92-208 | On a stream of delimited requests every cut gives the result of one scan if and only if every chunked request ends at most one byte past the limit. |
| HttpOverlong.CutMatters | packet_audit/http_forms.py:159-232 | Finding: at every limit the detector accepts there is one complete chunked request that is taken when it arrives whole and blocked when its last byte arrives alone. |
| HttpChunks.ChunkedBodiesMapped | packet_audit/http_forms.py:211-242 | Every framed chunked body comes with spans that cover it, follow each other and equal the wire bytes they name. |
| HttpChunks.WireSpanExact | packet_audit/http_forms.py:77-80 | The wire range of a non-empty decoded range begins at the wire byte of its first byte and ends behind that of its last; inside one chunk the two are equal. |
| HttpPrinter.ChunksRoundTrip | packet_audit/http_forms.py:211-242 | Decoding printed chunks, whatever follows, gives back their content and the exact end. |
| HttpFramer.HTTPFramer.ScanWindow | packet_audit/http_forms.py:92-208 | One call on the mutable framer gives the messages, cursor and flag of the scan function; a window that lost the cursor blocks it. |
| HttpFramer.DecodeChunks | packet_audit/http_forms.py:211-242 | The chunk-decoding loop equals the recursive decoding. |
| MqttTheorems.RoundTrip | packet_audit/mqtt.py:168-245 | Parsing a printed 3.1.1 or 5.0 CONNECT, followed by anything, gives back exactly its fields, its authentication fields and their positions. |
| MqttTheorems.PrefixesWait | packet_audit/mqtt.py:168-190 | Every strict prefix of a printed CONNECT asks for more bytes. |
| MqttTheorems.SpansAreExact | packet_audit/mqtt.py:225-245 | The reported spans cut out exactly the encoded credential and authentication fields. |
| MqttPrinter.VarintRoundTrip | packet_audit/mqtt.py:70-85 | Every integer below 2^28 reads back from its encoding. |
| MqttPrinter.VarintIsMinimal | packet_audit/mqtt.py:70-85 | An accepted variable byte integer is the minimal encoding of its value. |
| Mqtt.ScanVarint | packet_audit/mqtt.py:70-85 | The variable byte integer loop equals the recursive reading. |
| Mqtt.ScanProperties | packet_audit/mqtt.py:109-165 | The property loop equals the recursive reading. |
| Pager.ExactlyOnce | packet_audit/dashboard.py:149-190 | Over any append-only growth of the file and from any cursor that pages can leave, the account up to that cursor and the pages together are every complete line once and in order, delivered or skipped as malformed or oversized. |
| Pager.PageProgresses | packet_audit/dashboard.py:155-185 | A page makes progress unless what is left is an unfinished line shorter than the window. |
| Pager.WalkLines | packet_audit/dashboard.py:159-180 | The line loop equals the recursive walk. |
| Pager.ServePage | packet_audit/dashboard.py:146-190 | One page equals the page function, including the step over an oversized line. |

## Findings

- HTTP framing depends on segmentation for a chunked request that ends two or more bytes past the limit. While
  it is incomplete the framer blocks the stream once more than `limit` bytes are there
  (`packet_audit/http_forms.py:164-169`), but a complete one is taken as long as its data chunks end by the
  limit, since the last chunk and its empty line are not counted (`packet_audit/http_forms.py:225-227`).
  `HttpOverlong.CutMatters` gives the request, `HttpCuts.SegmentationExact` the exact condition.
- A first fragment that names no flow makes a flow's later packets follow the datagram key instead of the flow
  hash; the program counts these as fallbacks. `Routing.FallbackDiverts` gives the exact condition.
- The decremented-checksum rule declines 0x0000 for an ingress checksum of 0xFEFF, although it verifies
  (`ForwardedCopies.CornerFailsOpen`); the packet is kept, so nothing is lost.

## Left out

- Packets that capture could not parse or ignored: the accounting identity here starts from the packets handed to dispatch.
- Capture, files, processes, signals, the dashboard server, the command line, configuration checks and the writer: input, output and foreign calls.
- The content scanners (cookies, tokens, cards, line protocols, LDAP, TDS, Kerberos and others): modelled as arbitrary callers of the detector's state operations.
- Clocks, hashes, JSON checks, UTF-8 and UTF-16 decoding: parameters, or left as bytes; one `process` call reads one clock value.
- The undelimited POST branch of the HTTP framer and its first search for a request: a request without a delimiter ends the modelled scan, and statements begin where the cursor is set.
- The PostgreSQL backend scanner: it is not shift-invariant, and its results can depend on segmentation.
- Hard-killed workers in the reservation protocol: a kill can leak a reservation, which the program only reports at shutdown.
- Flow keys are taken as given: FlowKey canonicalisation, header parsing, `normalize_reassembled_ipv6` and `parse_transport` on a returned datagram.
- Peak counters and purely statistical counters, and the `completeness` override of `flush_all`.
- Directions and flows are values inside their table, so aliasing between a flow object and the table is not modelled; the classes own the tables.
- The initial (tail) page of the pager, file identity and permissions.
- Which challenge a response is paired with: pairs are arbitrary, and the high-water rule for reporting them is modelled.
- NTLM entries of one flow are one list in order of arrival instead of two maps, and the pending authentication maps are lists, discarded from the front; the size of a loss marker is a parameter.
- TcpSender.WindowIsEmitted: says that the window is a stretch of the emitted bytes, for directions without a skipped gap, not that it ends at the last emitted byte.
