# procinsh: verified models of its protocols and transformations

procinsh inspects the processes of a Linux host. A privileged helper collects data, an HTTP
process analyses it and streams it to viewers, and a hub joins many hosts. This project models
the parts of that system which are state machines or transformations, and proves what they
promise over all inputs and all runs:

- **The snapshot delta stream** (`KeyedEntries`, `SnapshotStream`, `SnapshotRuns`): an encoder that sends full
  or delta snapshots, and the browser that merges them.
- **The IPC codec and its framing** (`WireCodec`, `WireCodecProofs`, `Utf8`,
  `WireObjects`, `Transport`): wire types as descriptors, the mutable encoder and decoder, and frames over a
  socket that transfers any number of bytes at a time.
- **CPU accounting** (`SchedTrace`, `SchedBpf`, `CpuActivity`, `CpuAccounting`, `SwitchAccounting`): from context
  switches in the kernel to the runtimes reported to viewers, against the time a process
  really was on a CPU.
- **Descriptor relations** (`Descriptors`, `RelationSpec`, `Relations`, `RelationProofs`,
  `RelationMeaning`, `RelationText`) and **cross-host links** (`LinkOrder`, `Correlate`, `CorrelateRdma`,
  `CorrelateProofs`, `CorrelateMeaning`): graphs built by walking hash maps in any order, with caps.
- **The hub** (`HostRegistry`, `Hub`, `HubProofs`, `HubRuns`), **agent links** (`AgentLink`), **helper
  sessions** (`HelperSessions`), **the agent's session filter** (`AgentSessions`) and **the
  reverse DNS cache** (`ReverseDns`): state machines whose steps are the sections between two
  points where another task may run, with invariants over every interleaving.
- **File activity probes** (`FileCalls`): a depth counter that stands in for a call stack.

Where the source walks an unordered map, the model picks the next key arbitrarily, so that a
proof covers every order. Clocks, kernel answers, sizes of serialized text and partial reads
and writes are parameters, so that a proof covers every value of them.

What the code does not do as its surroundings suggest:

- The encoder moves its sequence number before it serializes (src/http_server/delivery.rs:104-110),
  although the encoder next to it promises that its baseline advances only on success
  (src/privileged_helper/system/delivery.rs:119). `FailedCallBreaksDeltas` shows that the client
  refuses the payload after any number of failures exactly when it is a delta, and
  `StreamAcceptedExactlyWhen` says for whole runs which of them a client accepts.  These are
  conditional results: the text comes from a JSON value, which always serializes, so no current
  snapshot takes the failing branch.
- A process is reported against its baseline in the sample before, and the baseline of a process
  that is missing from the latest process list is dropped (src/http_server/analysis/activity.rs:371-373).
  So an interval is lost whenever the process is not seen at both of its ends, the interval before
  it first appears among them. `RuntimeIsConserved` accounts for every interval, and
  `SumCompleteExactlyWhen` states when nothing is lost; `FirstIntervalIsLost` is a
  process of which all is lost.
- A comment says that reversed tuples become candidates only if unique
  (src/http_server/analysis/relations.rs:50); the code takes all of them. `SeveralCandidates` is
  a socket with two, and `CandidateUniqueExactlyWhen` says when there is at most one.
- A collection whose elements may encode to nothing would be refused by the decoder's length
  check: `LengthCheckNeedsOneByteElements`. An enum with two equal tags would lose the second
  variant: `EnumNeedsDistinctTags`. A `FileChunk` above its read limit can be written
  but not read back: `ChunkRoundTrip`.
- A request whose caller goes away while it waits keeps its place among the 64 pending ones of a
  link until the agent answers or the link closes: `CancelledKeepsItsPlace`.
- A failed welcome leaves its registration in the hub's table
  (src/http_server/hosts/listener.rs:93-101): `LeftoverIsReached`. It is the only kind of
  registration that nothing looks after any more (`OnlyAbandonedIsLeftBehind`), and it keeps its
  name online, and other machines out, exactly until the same machine is admitted again
  (`LeftoverLasts`).

## Model

| member | source | states |
|---|---|---|
| KeyedEntries.DeltaTransfers | src/http_server/delivery.rs:21-45 | applying the upserts and removals of a delta to any list with the old entries gives a list with exactly the new entries, each key once, whatever the order |
| KeyedEntries.RepeatedKeysBreakDeltas | src/http_server/delivery.rs:21-45 | with a repeated key the delta can lose an entry: unique keys are needed |
| KeyedEntries.SameIsPermutation | web/src/space/snapshot-merge.ts:22-48 | lists with unique keys and the same entry under each key are permutations of each other |
| KeyedEntries.SortedSame | web/src/space/snapshot-merge.ts:69-76 | the client's sort by start address keeps exactly the entries |
| SnapshotStream.SnapshotEncoder.EncodeProcess | src/http_server/delivery.rs:70-89 | the update of one process: maps omitted with the epoch sent before, a delta, or all maps; the epoch is always found |
| SnapshotStream.SnapshotEncoder.EncodeProcesses | src/http_server/delivery.rs:68-90 | the loop yields the updates of all processes in order and the table of the epochs sent |
| SnapshotStream.SnapshotEncoder.Encode | src/http_server/delivery.rs:52-122 | the payload and the whole new state of a call, forced or periodic or delta, and what a failed serialization changes |
| SnapshotStream.EpochTableCovers | src/http_server/delivery.rs:68-90 | the epoch table covers exactly the identities of the snapshot sent |
| SnapshotStream.StepIsValid | src/http_server/delivery.rs:116-120 | every call, also a failed one, leaves a state in which every epoch lookup succeeds |
| SnapshotStream.CallKeepsInStep | web/src/space/snapshot-merge.ts:9-89 | a payload is accepted by a client in step, and the client then holds the new snapshot |
| SnapshotStream.RunStaysInStep | src/http_server/delivery.rs:52-122 | over any run of calls no payload is refused and the client stays in step |
| SnapshotStream.StreamConverges | src/http_server/delivery.rs:52-122 | from any client state, after any mix of full, delta and replacement payloads, the client has the encoder's sequence and exactly the latest processes, maps, relations and handles |
| SnapshotStream.FullResynchronises | src/http_server/delivery.rs:58-61 | a full payload brings any client into step with any encoder state |
| SnapshotStream.FailedCallBreaksDeltas | src/http_server/delivery.rs:104-116 | after n failed serializations the next payload is accepted if and only if it is full or n is 0, and then the client is in step |
| SnapshotStream.RunAcceptedExactlyWhen | src/http_server/delivery.rs:52-122 | for every run with failures anywhere, from any state a run can leave: all payloads are accepted if and only if each successful call directly after a failed one is full, and then the client is in step with the latest payload |
| SnapshotStream.StreamAcceptedExactlyWhen | src/http_server/delivery.rs:52-122 | the same from the start of a connection, whatever the client held |
| SnapshotStream.OmittedMapsKeepEpoch | web/src/space/snapshot-merge.ts:66-85 | a payload that sends no maps for a process changes neither the maps nor the epoch the client has |
| SnapshotRuns.FullExactlyWhen | src/http_server/delivery.rs:58-61 | in every run a payload is full if and only if it is forced or no full one was sent in the 60,000 ms before, the first included; it carries its number, and a delta the number before |
| SnapshotRuns.OmittedExactlyWhen | src/http_server/delivery.rs:72-90 | a payload leaves out the maps of a process if and only if it is a delta and the snapshot sent before had the process with the same maps; sent maps come with the epoch of the snapshot |
| SnapshotRuns.ListDeltaExactlyWhen | src/http_server/delivery.rs:92-103 | a list is sent as its change since the payload before exactly in a delta payload in which that is the smaller form |
| SnapshotRuns.MapDeltaExactlyWhen | src/http_server/delivery.rs:77-87 | the same for the maps of a process that had others before |
| SnapshotRuns.EpochHasOrigin | src/http_server/delivery.rs:74-88 | every epoch the encoder keeps is that of a snapshot sent with exactly these maps, unchanged in every payload since |
| SnapshotRuns.HeldEpochHasOrigin | web/src/space/snapshot-merge.ts:66-85 | in every accepted run the epoch a client holds has such an origin, and after a full payload is the latest snapshot's own |
| WireCodec.NumberRoundTrip | src/ipc/codec.rs:97-107 | the bytes of a number read back as that number, in either byte order and every width |
| WireCodec.NumberCanonical | src/ipc/codec.rs:97-107 | any bytes are the encoding of the number they stand for |
| Transport.ByteOrders | src/ipc/codec.rs:97-107 | the two bytes of a number in either order |
| WireCodecProofs.LengthRoundTrip | src/ipc/codec.rs:50-73 | a length prefix reads back exactly when that many bytes follow, and is refused otherwise |
| WireCodecProofs.RoundTrip | src/ipc/codec.rs:97-293 | for every well-formed type, value within the caps and suffix, of any size, reading the encoding followed by the suffix returns the value and leaves the suffix; a value over a cap is refused |
| WireCodecProofs.RoundTripAll | src/ipc/codec.rs:128-159 | the same for the elements of vectors and arrays |
| WireCodecProofs.RoundTripFields | src/ipc/codec.rs:266-293 | the same for the fields of structs, tuples and variants |
| WireCodecProofs.PlainRoundTrip | src/ipc/codec.rs:97-293 | for types without a cap the round trip has no side condition |
| WireCodecProofs.Canonical | src/ipc/codec.rs:61-79 | what is read has the type, and the bytes consumed are its encoding |
| WireCodecProofs.DecodesOnlyItsEncoding | src/ipc/codec.rs:90-95 | a buffer decodes to a value if and only if it is that value's encoding |
| WireCodecProofs.PrefixFree | src/ipc/codec.rs:90-95 | no strict extension of a decodable buffer decodes, hence no strict prefix either |
| WireCodecProofs.LengthCheckNeedsOneByteElements | src/ipc/codec.rs:67-73 | the remaining-bytes check refuses no legitimate collection if and only if every element occupies a byte |
| WireCodecProofs.OneEmptyElementIsRefused | src/ipc/codec.rs:67-73 | a vector with one element of no bytes is written and then refused |
| WireCodecProofs.EnumNeedsDistinctTags | src/ipc/codec.rs:274-293 | every value of an enum comes back if and only if its tags are distinct |
| Utf8.ValidExactlyWhenEncoded | src/ipc/codec.rs:120-127 | the accepted texts are exactly the UTF-8 encodings of sequences of Unicode scalar values |
| WireObjects.Encoder.Append | src/ipc/codec.rs:43-49 | appends exactly when the limit allows |
| WireObjects.Encoder.Length | src/ipc/codec.rs:50-54 | writes a length prefix unless the length needs more than 32 bits or the limit forbids it |
| WireObjects.Encoder.WriteValue | src/ipc/codec.rs:97-293 | appends the encoding, and fails exactly when it would pass the limit |
| WireObjects.Encoder.WriteItems | src/ipc/codec.rs:128-151 | the loop over elements, with the same contract |
| WireObjects.Encoder.WriteRecord | src/ipc/codec.rs:266-272 | the fields in order, with the same contract |
| WireObjects.Decoder.TakeBytes | src/ipc/codec.rs:61-66 | the front of the buffer, or failure when it is too short |
| WireObjects.Decoder.Length | src/ipc/codec.rs:67-74 | the length prefix, refused when more than the remaining bytes |
| WireObjects.Decoder.ReadValue | src/ipc/codec.rs:97-293 | agrees with the reading function on every input and advances to its rest |
| WireObjects.Decoder.ReadItems | src/ipc/codec.rs:136-159 | the loop over elements, with the same contract |
| WireObjects.Encode | src/ipc/codec.rs:81-88 | fails with the limit error if and only if the unlimited encoding exceeds the limit |
| WireObjects.Decode | src/ipc/codec.rs:90-95 | succeeds exactly when the whole buffer is one encoding |
| Transport.Socket.WriteUntil | src/ipc/transport.rs:81-101 | with any splitting of partial writes, all bytes are sent exactly when the attempts before the deadline suffice |
| Transport.Socket.ReadUntil | src/ipc/transport.rs:59-80 | with any splitting of partial reads, the next bytes are returned exactly when the attempts suffice |
| Transport.Socket.Send | src/ipc/transport.rs:22-29 | nothing is sent unless the value fits; a completed send is one frame |
| Transport.Socket.ReadFrame | src/ipc/transport.rs:34-51 | however the bytes arrive, the outcome is that of parsing the stream; a good frame is returned exactly when the attempts before the deadline suffice |
| Transport.FrameRoundTrip | src/ipc/transport.rs:22-51 | a frame is read back exactly when its body is not empty, within the limit and capped |
| Transport.Socket.SendAll | src/ipc/transport.rs:22-29 | messages sent one after the other all go out, as their frames in order, exactly when the attempts for each suffice |
| Transport.Socket.ReceiveAll | src/ipc/transport.rs:34-51 | the messages read one after the other are those of the stream, all of them exactly when the attempts for each suffice |
| Transport.FramesRoundTrip | src/ipc/transport.rs:22-51 | parsing the frames of any sequence of messages gives that sequence and leaves what follows |
| Transport.Exchange | src/ipc/transport.rs:22-101 | any sequence of messages sent and read under any splitting of writes and reads is recovered unchanged exactly when no attempt fails and no deadline passes, and never as anything else |
| Transport.ExchangeRequests | src/ipc/schema.rs:36-122 | the same for any sequence of requests with at most 62 ranges each, within the request limit |
| Transport.RequestFitsExactlyUpTo62Ranges | src/ipc/schema.rs:36-122 | a request fits the request limit if and only if it asks for at most 62 ranges, so the 60 allowed ones fit |
| Transport.DerivedTypesAreSound | src/ipc/codec.rs:108-265 | booleans, addresses, options, results and vectors meet what the round trip needs whenever their parts do |
| Transport.ChunkRoundTrip | src/ipc/elf.rs:31-48 | a file chunk is read back if and only if it keeps to the read limit, which only the reader checks |
| Transport.RequestIsSound | src/ipc/schema.rs:116-122 | the request type meets what the codec needs of a type and has no cap |
| Transport.RequestsArrive | src/ipc/schema.rs:116-122 | parsing the frames of any sequence of requests with at most 62 ranges each gives that sequence |
| Transport.DerivedBytes | src/ipc/codec.rs:108-200 | the bytes of booleans, options and results |
| Transport.AddressBytes | src/ipc/codec.rs:220-265 | addresses start with 4 or 6 |
| Transport.RequestBytes | src/ipc/schema.rs:122 | requests start with 0 to 6 in the order of the schema, and a poll or close is its tag and the session number |
| SchedTrace.CountSinceLast | src/privileged_helper/system/sched.bpf.c:47-79 | after its latest switch a CPU stays with the process it entered |
| SchedBpf.SchedMaps.OnSwitch | src/privileged_helper/system/sched.bpf.c:47-79 | the new slot and totals of a switch, with 64-bit wrap-around and deletion at exit |
| SchedBpf.SlotsTrack | src/privileged_helper/system/sched.bpf.c:75-76 | after every trace each slot names the process entered last and when |
| SchedBpf.TotalsTrack | src/privileged_helper/system/sched.bpf.c:61-73 | after every trace the totals are all the time of a process up to the latest switch of each CPU |
| SchedBpf.AccountedIsOccupancy | src/privileged_helper/system/sched.bpf.c:47-79 | totals plus running intervals are the true CPU occupancy of a process |
| SchedBpf.PresentWhenEntered | src/privileged_helper/system/sched.bpf.c:61-76 | a process is in the maps exactly when it was entered |
| SwitchAccounting.SwitchesTrack | src/privileged_helper/system/sched.bpf.c:61-73 | after every trace the switch counter of a process on a CPU is the number of its departures there after a first switch, modulo 2^64 |
| SwitchAccounting.TotalsForgetTheExited | src/privileged_helper/system/sched.bpf.c:56-60 | the totals hold a process exactly from such a departure until its last thread exits |
| CpuActivity.Collect | src/privileged_helper/system/sched.rs:45-63 | a sample holds keys once each, with their values that are not zero, in any order: all of them unless there are more than 65536, which is as many as the kernel's map holds |
| CpuActivity.ActivityProcessor.Accumulate | src/http_server/analysis/activity.rs:329-359 | the running CPUs and the cumulative values of a sample |
| CpuActivity.ActivityProcessor.Process | src/http_server/analysis/activity.rs:328-399 | the batch reports each known process that ran, switched or stopped running, once, against the memory of the last sample, which is then replaced |
| CpuAccounting.CumulativeIsAccounted | src/http_server/analysis/activity.rs:344-359 | the cumulative value is the sum of totals and running intervals, saturated at 64 bits, whenever the running intervals alone fit in 64 bits |
| CpuAccounting.CumulativeIsOccupancy | src/http_server/analysis/activity.rs:344-359 | for every trace and sample the cumulative runtime is the true occupancy, and is there exactly for processes entered |
| CpuAccounting.RuntimeIsConserved | src/http_server/analysis/activity.rs:366-398 | for any samples and any process lists, each report is the occupancy gained in an interval at both ends of which the process is seen and zero otherwise, and reported plus missed runtime is all the process ran since the first sample |
| CpuAccounting.SumCompleteExactlyWhen | src/http_server/analysis/activity.rs:371-375 | the reported runtimes add up to the occupancy gained since the first sample if and only if the process did not run in any interval at one end of which it was not seen |
| CpuAccounting.RuntimeTelescopes | src/http_server/analysis/activity.rs:366-398 | from any sample on from which the process is seen, the reports telescope to the occupancy gained since that sample |
| CpuAccounting.SumMissesOnlyTheFirstInterval | src/http_server/analysis/activity.rs:374-375 | for a process that appears in some sample and is seen from then on, what is missing is exactly what it ran before |
| CpuAccounting.FirstIntervalIsLost | src/http_server/analysis/activity.rs:374-375 | a process known all along that is entered after the first sample and sampled once more: all it ran is lost |
| SwitchAccounting.CumulativeIsDepartures | src/http_server/analysis/activity.rs:345-354 | the cumulative switches of a sample are the departures of the process on all CPUs |
| SwitchAccounting.SwitchesAreDepartures | src/http_server/analysis/activity.rs:374-376 | each report has the departures of an interval at both ends of which the process is seen, and none otherwise |
| SwitchAccounting.SwitchesAreConserved | src/http_server/analysis/activity.rs:366-398 | reported and missed departures are all since the first sample |
| SwitchAccounting.SwitchesTelescope | src/http_server/analysis/activity.rs:366-398 | from any sample on from which the process is seen, the reported switches telescope |
| SwitchAccounting.CpusAreOccupied | src/http_server/analysis/activity.rs:332-342 | the CPUs listed for a process are exactly those whose latest switch entered it, in order |
| SwitchAccounting.ReportedExactlyWhen | src/http_server/analysis/activity.rs:378-393 | a process seen in a sample is reported if and only if it ran or was switched out since it was seen in the one before, is on a CPU, or was on one then |
| SwitchAccounting.IdentityInTicks | src/http_server/analysis/activity.rs:367-370 | a process is identified by its start rounded down to clock ticks |
| Descriptors.FindGroup | src/privileged_helper/system/snapshot.rs:326-329 | the first endpoint of the same process and access, or none |
| Descriptors.AddEndpoint | src/privileged_helper/system/snapshot.rs:324-336 | one round keeps what the lists stand for and adds one to the total count |
| Descriptors.Coalesce | src/privileged_helper/system/snapshot.rs:323-337 | each group once with its least descriptor and its count, no (process, fd) twice, and the counts add up to the descriptors seen |
| Relations.SortEndsKeeps | src/http_server/analysis/relations.rs:76-78 | sorting puts the endpoints in order and keeps them |
| Relations.BuildReverse | src/http_server/analysis/relations.rs:51-69 | the table lists under each tuple exactly the connected sockets with it, each once, for every order |
| Relations.BuildByInode | src/http_server/analysis/relations.rs:70-75 | the socket resource of each inode |
| Relations.OwnMatches | src/http_server/analysis/relations.rs:82-97 | the holders that communicate with an endpoint, or share with it through the least one |
| Relations.PeerInodes | src/http_server/analysis/relations.rs:104-118 | the known peer, or every other socket with the reversed tuple |
| Relations.MatchesOf | src/http_server/analysis/relations.rs:82-126 | exactly the matches of the order-free specification |
| Relations.AddExternal | src/http_server/analysis/relations.rs:127-164 | adds the external relation exactly when nothing matches, or a network socket has no communicating peer |
| Relations.AddMatches | src/http_server/analysis/relations.rs:169-199 | adds each pair not seen before, keeps ids distinct |
| Relations.AddEndpointRelations | src/http_server/analysis/relations.rs:81-199 | adds exactly the ids of its external relation and of the matches taken: all of them, or 64 when there are more, none shared while a communicating one is left; cut exactly then |
| Relations.Build | src/http_server/analysis/relations.rs:51-208 | in every order: well-formed relations with distinct ids, at most 20064; truncation is reported if and only if an endpoint has more than 64 matches or the specification has 20000 ids; otherwise the ids are exactly those of the specification |
| RelationProofs.EveryEndpointAppears | src/http_server/analysis/relations.rs:80-208 | without truncation every endpoint is in some relation |
| RelationProofs.ExternalExactlyWhen | src/http_server/analysis/relations.rs:127-131 | without truncation an endpoint has an external relation if and only if nothing matches it, or it is a network socket without a communicating peer |
| RelationProofs.SharedTouchesLeast | src/http_server/analysis/relations.rs:87-95 | a shared relation joins two holders of one resource, one of them the least |
| RelationProofs.HoldersHaveAStar | src/http_server/analysis/relations.rs:80-208 | without truncation the relations between the n holders of a socket that is not its own peer are all shared, are the star around the least holder, and are n - 1 |
| RelationProofs.CandidateUniqueExactlyWhen | src/http_server/analysis/relations.rs:108-118 | a socket has at most one candidate peer if and only if its sought tuple lists at most one socket besides itself |
| RelationProofs.SeveralCandidates | src/http_server/analysis/relations.rs:50-117 | two sockets with one local address, connected to the same remote one, are both candidates of the socket at the other end |
| RelationMeaning.OppositeMeans | src/ipc/model/socket_types.rs:358-365 | accesses are opposite exactly when one can write what the other can read |
| RelationMeaning.PeerMeans | src/http_server/analysis/relations.rs:51-118 | the peers of a socket in terms of the observed fields: the known one, or those connected to its address from its remote one, of its protocol and namespace |
| RelationMeaning.NetworkMeans | src/ipc/model/system.rs:71-75 | a socket is on the network exactly when it is connected to a definite address over TCP or UDP |
| RelationMeaning.FirstIsLeast | src/http_server/analysis/relations.rs:76-78 | the holder a star is around has the least process number, start and descriptor |
| RelationMeaning.PipeHoldersAreRelated | src/http_server/analysis/relations.rs:83-97 | a pipe with two holders has exactly one relation, shared unless one can write to the other |
| RelationMeaning.ConnectedSocketsAreRelated | src/http_server/analysis/relations.rs:104-164 | two sockets connected to each other have exactly one relation in one namespace, and exactly two external ones in two |
| RelationText.ExternalTextExact | src/http_server/analysis/relations.rs:153-156 | the texts of external ids are equal exactly for equal endpoints |
| RelationText.PairTextExact | src/http_server/analysis/relations.rs:176-187 | the texts of pair ids are equal exactly for the same two endpoints |
| RelationText.KindsDiffer | src/http_server/analysis/relations.rs:153-187 | no external id is a pair id |
| RelationText.TextExamples | src/http_server/analysis/relations.rs:153-187 | the texts of two ids, with ends sorted as text |
| Correlate.GroupOffers | src/http_server/hosts/correlate.rs:122-146 | the table lists under each tuple exactly the ends offered with it |
| Correlate.SocketLinks | src/http_server/hosts/correlate.rs:121-165 | for every order of the tuple table, the sorted list of exactly the links that are unique in both directions on different hosts |
| CorrelateRdma.EvidenceSymmetric | src/http_server/hosts/correlate.rs:210-230 | the evidence for a pair is the same from both sides |
| CorrelateRdma.CompatibleSymmetric | src/http_server/hosts/correlate.rs:231-243 | candidate compatibility is symmetric |
| CorrelateRdma.CollectQps | src/http_server/hosts/correlate.rs:175-202 | the connected queue pairs without a local peer, with the addresses of their ports |
| CorrelateRdma.Candidates | src/http_server/hosts/correlate.rs:231-243 | exactly the compatible queue pairs, each once |
| CorrelateRdma.LinkOf | src/http_server/hosts/correlate.rs:245-261 | the link of a queue pair exactly when the pairing is unique in both directions, and on one link layer for a bare number swap |
| CorrelateRdma.RdmaLinks | src/http_server/hosts/correlate.rs:174-265 | the sorted list of exactly those links |
| CorrelateProofs.SocketLinksMatch | src/http_server/hosts/correlate.rs:152-161 | socket links that share an end are the same link, and its ends are on different hosts |
| CorrelateProofs.RdmaLinksMatch | src/http_server/hosts/correlate.rs:250-261 | the same for RDMA links |
| CorrelateProofs.SocketLinksOfReorderedHosts | src/http_server/hosts/correlate.rs:121-165 | the output is the same list for every order of hosts and entries |
| CorrelateProofs.RdmaLinksOfReorderedHosts | src/http_server/hosts/correlate.rs:174-265 | the same for RDMA links |
| CorrelateMeaning.EvidenceMeans | src/http_server/hosts/correlate.rs:210-230 | on fields: known connection addresses or GIDs that do not cross rule a pairing out, known ones that do are its evidence, unknown ones are neither |
| CorrelateMeaning.PortIsFirst | src/http_server/hosts/correlate.rs:189-191 | the port of a queue pair is the first of its device and number |
| CorrelateMeaning.CrossedQpsAreLinked | src/http_server/hosts/correlate.rs:174-265 | two hosts with one connected queue pair each, exchanged numbers and crossed addresses have exactly one link, with that evidence |
| CorrelateMeaning.BareQpsAreLinked | src/http_server/hosts/correlate.rs:251-256 | without addresses and GIDs they have it if and only if the link layers are the same |
| CorrelateMeaning.OtherQpsAreNotLinked | src/http_server/hosts/correlate.rs:182-188 | a queue pair of another kind, with a local peer or without a remote number has none |
| CorrelateMeaning.ReversedSocketsAreLinked | src/http_server/hosts/correlate.rs:121-165 | two hosts with one outgoing connection each have a link if and only if one is the other seen from its far end |
| CorrelateMeaning.OtherSocketsAreNotLinked | src/http_server/hosts/correlate.rs:117-137 | a shared, locally paired, unconnected or unroutable socket has none |
| HostRegistry.Registry.Prune | src/http_server/hosts/registry.rs:212-224 | removes exactly the hosts offline for ten minutes and notifies exactly when it removed any |
| HostRegistry.Registry.AdmitHost | src/http_server/hosts/registry.rs:145-181 | who is refused, the new table, the replaced link closed, and a new id in every outcome |
| HostRegistry.Registry.Enter | src/http_server/hosts/registry.rs:154-180 | the section under the lock with its close and notification |
| HostRegistry.Registry.Disconnected | src/http_server/hosts/registry.rs:184-200 | takes the host offline if and only if the link is still the current one |
| HostRegistry.PrunedSize | src/http_server/hosts/registry.rs:215-223 | comparing sizes tells whether anything was removed |
| HostRegistry.PruneKeepsExactly | src/http_server/hosts/registry.rs:216-219 | a prune keeps exactly the hosts that are online or went offline less than 600,000 ms ago |
| HostRegistry.AdmittedExactlyWhen | src/http_server/hosts/registry.rs:154-174 | a host is let in if and only if its name is in the table and offline or of its machine, or is new and fewer than 64 hosts are in it |
| HostRegistry.DisconnectedHostLasts | src/http_server/hosts/registry.rs:192-219 | a host that disconnects is offline since then and dropped by a prune 600,000 ms later, and no sooner |
| HostRegistry.NameLengths | src/http_server/hosts/identity.rs:27-32 | names have 1 to 63 characters |
| HostRegistry.NameExamples | src/http_server/hosts/identity.rs:27-32 | letters, digits, dots, underscores and dashes are allowed, and the name of the merged view is not |
| HubProofs.TableStays | src/http_server/hosts/registry.rs:145-224 | every action keeps: at most 64 remotes, valid names, not the hub's own, online exactly with a link |
| HubProofs.OnlineNameKeepsMachine | src/http_server/hosts/registry.rs:155-161 | no action moves an online name to another machine |
| HubProofs.NeverHeldAgain | src/http_server/hosts/registry.rs:153-191 | in every continuation a link that was replaced or has left never becomes current again |
| HubProofs.StaleDisconnectIsHarmless | src/http_server/hosts/registry.rs:184-200 | in every continuation whatever a replaced connection still does leaves hosts and viewers as they are, closes at most its own link and the one it had replaced, notifies only to finish announcing or retiring, and its disconnect changes nothing |
| HubProofs.LinksStay | src/http_server/hosts/registry.rs:153-174 | every action keeps: link ids are never reused, and each link in the table is that of a live connection under its name and machine |
| HubProofs.ClosedStays | src/http_server/hosts/listener.rs:127-137 | every action keeps: an admitted link that is not current is closed, or about to be closed by a running admission |
| HubProofs.EndedStays | src/http_server/hosts/listener.rs:134-135 | every action keeps: a connection that has ended has closed its link |
| HubProofs.UpdatesStay | src/http_server/api/merged.rs:126-171 | every action keeps: a stream whose online hosts or host list are out of date has an unseen notification, or one is about to be sent |
| HubProofs.ForwardersStay | src/http_server/api/merged.rs:140-148 | every action keeps: a stream starts at most one forwarder for a connection |
| HubProofs.EveryOnlineHostIsForwarded | src/http_server/api/merged.rs:142-148 | after a stream reads the online hosts each is forwarded from its current connection, by one forwarder |
| HubProofs.EveryRunIsGood | src/http_server/hosts/registry.rs:145-224 | all of these hold in every interleaving of connections, list requests and merged streams |
| HubRuns.OnlyAbandonedIsLeftBehind | src/http_server/hosts/listener.rs:93-137 | in a good state a connection that does nothing more and holds its name is one whose welcome failed |
| HubRuns.LeftoverStep | src/http_server/hosts/registry.rs:154-174 | an action takes such a registration over if and only if it admits the same machine under the name; another machine is refused the name |
| HubRuns.LeftoverLasts | src/http_server/hosts/listener.rs:93-101 | in every continuation it lasts exactly until the same machine is admitted under the name |
| HubRuns.LeftoverIsReached | src/http_server/hosts/listener.rs:93-101 | for every valid name and machine a run from the start leaves such a registration |
| HubRuns.AdmissionExactlyWhen | src/http_server/hosts/registry.rs:154-164 | in every good state a connection about to enter is admitted exactly under that condition |
| HubRuns.SixtyFourHostsJoin | src/http_server/hosts/registry.rs:145-181 | any 64 distinct valid names can all be online at once |
| HubRuns.MarkedStreamSleeps | src/http_server/api/merged.rs:140-171 | a stream that marked or woke sleeps in every continuation in which no other notification is sent |
| HubRuns.WakesExactlyWhen | src/http_server/api/merged.rs:167-171 | a waiting stream goes on exactly when it has an unseen notification |
| HubRuns.OutdatedStreamWakes | src/http_server/api/merged.rs:126-171 | when nobody owes a notification, a waiting stream that is out of date can go on |
| HubRuns.WokenStreamReads | src/http_server/api/merged.rs:140-148 | its next turns bring it the hosts that are online |
| AgentLink.Link.TakeId | src/http_server/hosts/link.rs:48-49 | a new id that nothing waits for |
| AgentLink.Link.Register | src/http_server/hosts/link.rs:50-57 | accepts exactly when open with fewer than 64 pending |
| AgentLink.Link.Forget | src/http_server/hosts/link.rs:92-96 | removes the waiter, and nothing else |
| AgentLink.Link.Complete | src/http_server/hosts/link.rs:99-109 | takes the waiter of that id, or changes nothing |
| AgentLink.Link.Close | src/http_server/hosts/link.rs:112-114 | leaves no waiter and accepts nothing |
| AgentLink.GoodStays | src/http_server/hosts/link.rs:44-115 | every action keeps the invariant: a task that waits is expected by the link, has its response, or is being handed one |
| AgentLink.AnswersMatchRequests | src/http_server/hosts/link.rs:44-74 | in every interleaving at most 64 are pending, ids are distinct, and an answer is a response of the run to the task's own id, given while it was waited for |
| AgentLink.OneResponsePerRequest | src/http_server/hosts/link.rs:98-109 | nobody waits for an id that was answered, is fire-and-forget or was never given |
| AgentLink.UnmatchedResponseIsDropped | src/http_server/hosts/link.rs:98-109 | a response to a forgotten, fire-and-forget, answered or unknown id changes nothing |
| AgentLink.ClosedForGood | src/http_server/hosts/link.rs:50-57 | in every continuation a closed link stays closed, refuses requests and drops responses |
| AgentLink.ClosedReleasesWaiters | src/http_server/hosts/link.rs:111-114 | after a close every waiter has its outcome ready or on its way |
| AgentLink.CancelledKeepsItsPlace | src/http_server/hosts/link.rs:50-74 | a dropped request stays pending until exactly a response to it or the close of the link |
| AgentLink.OutcomeIsFinal | src/http_server/hosts/link.rs:66-73 | in every continuation a task that is answered, failed or dropped stays so |
| AgentLink.RegisteredExactlyWhen | src/http_server/hosts/link.rs:50-57 | a request is accepted exactly while the link is open and fewer than 64 wait |
| AgentLink.RequestIsAnswered | src/http_server/hosts/link.rs:44-74 | a response to a registered and queued request reaches the task that made it |
| AgentLink.WaitersFail | src/http_server/hosts/link.rs:66-73 | a waiting request fails as closed when the link closes and as timed out when it gives up, and then nothing waits for it |
| AgentLink.UnqueuedFails | src/http_server/hosts/link.rs:58-65 | a request whose message cannot be queued is withdrawn |
| HelperSessions.HelperService.Expire | src/privileged_helper/helper_service.rs:60-63 | removes exactly the leases not polled for 15 seconds, and the viewer of each system lease |
| HelperSessions.HelperService.StartSession | src/privileged_helper/helper_service.rs:65-83 | the next id, or the subscription dropped when ids are exhausted |
| HelperSessions.HelperService.Serve | src/privileged_helper/helper_service.rs:85-212 | the reply and the new state of every request, failures included |
| HelperSessions.ViewersAreSystemLeases | src/privileged_helper/system/service.rs:31-103 | in every run the viewer count is the number of system leases and at most 32 |
| HelperSessions.SessionIdsIncrease | src/privileged_helper/helper_service.rs:70-74 | over every run the started ids strictly increase and are new |
| HelperSessions.EachSessionFollowsItsLease | src/privileged_helper/helper_service.rs:85-212 | in every run a session lives exactly as its own lease says, whatever the other sessions do |
| HelperSessions.GoneForGood | src/privileged_helper/helper_service.rs:158-162 | a session that is gone never returns and every poll of it fails |
| HelperSessions.LeaseRunsOut | src/privileged_helper/helper_service.rs:60-63 | a session left for 15 seconds cannot be polled again |
| HelperSessions.PolledSessionSurvives | src/privileged_helper/helper_service.rs:158-163 | a session polled at gaps below 15 seconds survives |
| HelperSessions.ObserveExactlyWhen | src/privileged_helper/helper_service.rs:145-157 | a system observation is started, under the next number, exactly when nothing is stopping, fewer than 32 system sessions were polled within 15 seconds and numbers are left |
| HelperSessions.ObserveProcessExactlyWhen | src/privileged_helper/helper_service.rs:127-144 | the same for a process, without the limit |
| HelperSessions.PollExactlyWhen | src/privileged_helper/helper_service.rs:87-90 | a poll is answered exactly while the monitor runs and the lease is fresh; a close always is |
| HelperSessions.AcquireExactlyWhen | src/privileged_helper/helper_service.rs:91-126 | other requests are answered with data exactly when the monitor runs and they succeed, and start nothing |
| HelperSessions.ThirtyTwoViewersFit | src/privileged_helper/system/service.rs:84-103 | 32 viewers are let in, under the numbers 1 to 32 |
| AgentSessions.Sessions.Update | src/http_server/hosts/connector.rs:71-86 | records a started session and forgets one that was closed, ended or failed |
| AgentSessions.Sessions.Drain | src/http_server/hosts/connector.rs:87-89 | hands over all sessions and keeps none |
| AgentSessions.OwnerIsFixed | src/http_server/hosts/connector.rs:62-113 | no action changes for whom a session was started |
| AgentSessions.SessionsAreDisjoint | src/http_server/hosts/connector.rs:62-90 | in every interleaving the sessions of two links, and of local viewers, are disjoint |
| AgentSessions.ForwardedNamesOwnSession | src/http_server/hosts/connector.rs:92-113 | every poll or close passed on names a session started in a reply on that link |
| AgentSessions.LinkDisturbsNobody | src/http_server/hosts/connector.rs:102-112 | serving a link changes no lease of another link or viewer except by time running out |
| AgentSessions.EndedLinkDisturbsNobody | src/http_server/hosts/connector.rs:209-212 | the same for the closes after the end of a link |
| AgentSessions.UpdatedMeans | src/http_server/hosts/connector.rs:71-86 | a link has a session from the reply that started it until one that closed, ended or failed it |
| AgentSessions.AskExactlyWhen | src/http_server/hosts/connector.rs:97-106 | a poll or close is passed on exactly when the link has the session, other requests always |
| AgentSessions.EndClosesSessions | src/http_server/hosts/connector.rs:209-212 | the end of a link leaves each of its sessions to be closed, and the helper then has it no more |
| AgentSessions.StartedCanBePolled | src/http_server/hosts/connector.rs:92-113 | a link that starts an observation can poll it, and the helper answers |
| ReverseDns.Resolver.Lookup | src/privileged_helper/system/resolver.rs:54-76 | the cached name, or nothing and the new cache and queue |
| ReverseDns.Resolver.TakeNext | src/privileged_helper/system/resolver.rs:34-37 | an idle worker takes the address queued longest |
| ReverseDns.Resolver.StoreAnswer | src/privileged_helper/system/resolver.rs:38-47 | a name is kept for 300 seconds, a miss for 60 |
| ReverseDns.QueueHasRoom | src/privileged_helper/system/resolver.rs:61-65 | whenever a lookup gets to queue an address the queue is not full |
| ReverseDns.EveryRunIsGood | src/privileged_helper/system/resolver.rs:26-76 | in every run an address is pending exactly when queued or held by one worker, in flight once, and the cache has at most 4096 entries |
| ReverseDns.FoundByAWorker | src/privileged_helper/system/resolver.rs:38-47 | every recorded name was stored by a worker of the run that held the address then |
| ReverseDns.ReturnedNameIsRecent | src/privileged_helper/system/resolver.rs:54-60 | a returned name was stored for that address by a worker of the run under 300 seconds ago |
| ReverseDns.LookUpExactly | src/privileged_helper/system/resolver.rs:54-75 | a lookup answers from the cache exactly while the entry is pending or not expired, and otherwise queues the address exactly when fewer than 4096 entries are live |
| ReverseDns.TakeExactlyWhen | src/privileged_helper/system/resolver.rs:30-37 | each of four workers takes an address whenever it is idle and one is queued |
| ReverseDns.AnswersLast | src/privileged_helper/system/resolver.rs:38-60 | a found name is served for 300 seconds, and an address without one is asked for again after 60 |
| FileCalls.FileProbes.Begin | src/privileged_helper/system/files.bpf.c:40-70 | the entry of a thread after a call starts, with 32-bit wrap-around of the depth |
| FileCalls.FileProbes.FilePath | src/privileged_helper/system/files.bpf.c:73-82 | records the path only for the outer call's own file |
| FileCalls.FileProbes.Finish | src/privileged_helper/system/files.bpf.c:83-99 | the entry, the events and the losses after a call ends |
| FileCalls.FileProbes.Exited | src/privileged_helper/system/files.bpf.c:122-127 | a thread's exit removes its entry |
| FileCalls.InnerCallsAreSilent | src/privileged_helper/system/files.bpf.c:42-47 | inside a counted call, however nested, nothing is reported and the depth returns to what it was |
| FileCalls.CallsAreReported | src/privileged_helper/system/files.bpf.c:40-99 | for every tree of calls exactly one event per outer counted call with a positive return, with its file, direction and path, and no entry is left |
| FileCalls.ThreadsAreIndependent | src/privileged_helper/system/files.bpf.c:41-42 | in every interleaving a thread's entry and events are those of its own signals |
| FileCalls.EveryThreadIsReported | src/privileged_helper/system/files.bpf.c:40-99 | in every interleaving each thread's calls are reported as if it ran alone |
| FileCalls.ExitClears | src/privileged_helper/system/files.bpf.c:122-127 | after a thread's exit the next thread of that number is reported correctly |
| FileCalls.DepthWrapReportsEarly | src/privileged_helper/system/files.bpf.c:44-46 | calls nested 2^32 deep are reported with the bytes of the innermost one, so rightly if and only if the outer one returned the same |
| FileCalls.CountedMeans | src/privileged_helper/system/files.bpf.c:48-53 | counted are calls on regular files by tasks that are neither kernel threads nor I/O workers |
| FileCalls.PidMeans | src/privileged_helper/system/files.bpf.c:64 | the process of a thread is the upper half of its number |

## Left out

- CpuAccounting.RuntimeIsConserved: the process does not exit during the samples, and its occupancy stays below 2^64 ns.
- Relations.Build: takes coalesced owners in which no inode belongs to two socket resources, as the source says of socket inodes; labels, connection statuses and warnings are not modelled.
- Correlate.SocketLinks: takes hosts whose (host, relation) pairs are distinct, as names of hosts and relation ids are; addresses are abstract values with the tests the source makes on them.
- CorrelateRdma.RdmaLinks: takes distinct (host, relation) pairs; the order of a host's ports is kept, since the first matching port decides.
- Relations.Build: does not say that the candidate flag or the orientation of a relation is independent of order, because it is not.
- SchedBpf.AccountedIsOccupancy: assumes that the maps are not full, nothing is evicted, the process did not exit, and times stay below 2^64 ns; a sample is taken at one instant.
- CpuActivity.ActivityProcessor.Process: keys and slots are decoded values, not byte records.
- SnapshotStream.StreamConverges: is about runs in which serialization succeeds; StreamAcceptedExactlyWhen is about all runs. JSON is modelled by entries with keys, and fields that are always sent whole by one value.
- HubProofs.EveryRunIsGood: link ids do not wrap around at 2^64. The snapshots kept for each host by a merged stream are not modelled.
- AgentLink.AnswersMatchRequests: request ids do not wrap around at 2^64; whether the outgoing queue takes a message is arbitrary.
- AgentSessions.SessionsAreDisjoint: the agent's 64 permits are not modelled, since requests that timed out or are not waited for do not count against the hub's limit.
- HelperSessions.HelperService.Serve: what collectors answer is a parameter; acquisition requests only succeed or fail.
- ReverseDns.Resolver.Lookup: reads the clock once; the name service is a parameter.
- FileCalls.CallsAreReported: is about calls nested less than 2^32 deep.
- Transport.RequestsArrive: responses of the schema are not listed type by type; the codec lemmas cover any type built from the combinators.
- The extra validation of register sets and the skipped context field of live samples.
- procfs, sysfs, ptrace, perf and BPF loading, capabilities and namespaces, helper launch.
- HTTP routing, middleware, SSE formatting, JSON mirrors, the web interface, scripts.
- Disassembly, masking of personal data, gzip, ELF and DWARF symbols.
- Rates and percentages in floating point.
- Progress in real time: scheduling, thread panics, and how long a step takes.
