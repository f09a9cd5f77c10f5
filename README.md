# State-sync replies and envelope addressing

This project models two small pieces of a Tendermint node's peer-to-peer
layer in Dafny and proves their properties.

- **State-sync reactor replies** (`statesync.dfy`, `statesync_tables.dfy`).
  A peer's `ChunkRequest{Height, Format, Index}` becomes the application
  query `{Height, Format, Chunk: Index}`. The application's answer becomes a
  `ChunkResponse` that echoes the request. Non-empty bytes are sent as the
  chunk. An empty but present byte string gives an absent chunk with
  `Missing = false`. `nil` gives `Missing = true`. Go's `nil` versus
  `[]byte{}` is kept apart as `Option<seq<bv8>>`. A `SnapshotsRequest` is
  answered from the application's snapshot list. The list is ordered by
  height descending, then format descending, and at most 10 are kept. One
  `SnapshotsResponse` is sent per kept snapshot, with its fields copied.
  With no snapshots, nothing is sent. The literal test tables are proved as
  concrete lemmas in `StateSyncTables`.
- **Channel envelopes** (`p2p.dfy`). `ChannelID` is a 16-bit unsigned
  number. `Envelope{From, To, Broadcast, Message}` carries an opaque payload.
  The outbound addressing rule from the field comments is a function,
  `Recipients`: a broadcast goes to every connected peer and ignores `To`;
  otherwise `To` is the single recipient; with neither set, the envelope is
  discarded. An inbound envelope always has `From` set. `Channel.Close`
  always returns no error.

`wrappers.dfy` holds `Option`, the unsigned integer widths and `Bytes`.

The reactor's own handler code is not part of this model. Its behaviour is
taken from what `statesync/reactor_test.go` pins down. The application
connection is modelled as an input value: a function from chunk queries to
answers, and a value for the snapshot list. A failure of the application
call itself is modelled as `QueryFailed`, and the reactor then sends
nothing. The tests only ever exercise answered calls, so this error branch
follows what the reactor is meant to do when its application call fails: log the failure and drop the request. It does not come from the tests.

Integer widths follow the protocol message types, which are not part of this
model: heights are `uint64`; formats, chunk counts and chunk indexes are
`uint32`. Nothing in the modelled behaviour does arithmetic on them.

## Model

| member | source | states |
|---|---|---|
| `StateSync.ChunkQueryFor` | statesync/reactor_test.go:45-49 | The application query copies Height and Format and takes the request's Index as Chunk. |
| `StateSync.ChunkReply` | statesync/reactor_test.go:25-37 | The response echoes Height, Format and Index. Missing holds exactly when the app returned nil. A chunk is present exactly when the app returned non-empty bytes, and it is then those bytes. |
| `StateSync.ChunkReplyRecoversLoaded` | statesync/reactor_test.go:29-36 | The application's answer can be read back from the response, so an empty chunk and a missing chunk never look alike. |
| `StateSync.ChunkReplyInjective` | statesync/reactor_test.go:29-36 | Two different application answers to the same request never produce the same response. |
| `StateSync.HandleChunkRequest` | statesync/reactor_test.go:44-65 | Exactly one response is sent when the app answers the query built from the request, and it is ChunkReply of that answer. Nothing is sent when the app call fails. |
| `StateSync.SortByRankSorts` | statesync/reactor_test.go:132-143 | Sorting yields a permutation of the listing, ordered by height descending, then format descending. |
| `StateSync.SnapshotsRepliesCount` | statesync/reactor_test.go:116-143 | The number of responses is min(n, 10). No snapshots, or a failed listing, means no responses at all. |
| `StateSync.SnapshotsRepliesRanked` | statesync/reactor_test.go:132-143 | The responses are ordered by height descending, then format descending. |
| `StateSync.SnapshotsRepliesDescribeKept` | statesync/reactor_test.go:119-142 | Response i carries the Height, Format, Chunks, Hash and Metadata of kept snapshot i unchanged. |
| `StateSync.KeptAreTopRanked` | statesync/reactor_test.go:117-143 | Kept and dropped snapshots together are exactly the listing, and every kept snapshot ranks at least as high as every dropped one. |
| `StateSync.SnapshotsRepliesFromListing` | statesync/reactor_test.go:119-142 | Every response describes a listed snapshot, and no snapshot is described more often than it was listed. |
| `StateSync.ResponseRoundTrip` | statesync/reactor_test.go:119-142 | Converting a snapshot to a response and back loses nothing, and the reverse holds too. |
| `StateSync.SortByRank` | statesync/reactor_test.go:132-143 | Sorting keeps the length of the listing; its ordering and permutation properties are stated by SortByRankSorts. |
| `StateSync.Kept` | statesync/reactor_test.go:117-143 | The kept snapshots are the sorted listing cut to min(n, 10) entries. |
| `StateSync.ToResponse` | statesync/reactor_test.go:119-142 | A response copies Height, Format, Chunks, Hash and Metadata of its snapshot unchanged. |
| `StateSync.SnapshotsReplies` | statesync/reactor_test.go:111-143 | The reply to a snapshot-list request: one response per kept snapshot, in rank order, and none when the listing fails. Its properties are stated by the SnapshotsReplies lemmas and KeptAreTopRanked. |
| `StateSync.ReplyToSnapshotsRequest` | statesync/reactor_test.go:156-170 | The loop sends the kept snapshots one by one; `sent`, what the reactor sends, equals SnapshotsReplies. The received flag starts true, is lowered only when responses are expected, and is raised again by each send. |
| `StateSyncTables.ChunkRequestCases` | statesync/reactor_test.go:19-37 | The three literal chunk cases: [1,2,3] is sent back; an empty chunk gives an absent chunk, not missing; nil gives Missing = true. |
| `StateSyncTables.NoSnapshotsCase` | statesync/reactor_test.go:116 | An empty listing gives no responses. |
| `StateSyncTables.KeptUnordered` | statesync/reactor_test.go:117-143 | Of the twelve unordered snapshots, the ten kept are in exact rank order, and 1/2 and 1/1 are dropped. |
| `StateSyncTables.UnorderedSnapshotsCase` | statesync/reactor_test.go:117-143 | The twelve unordered snapshots give exactly the ten expected responses, in order, fields unchanged. |
| `P2P.ChannelIDOfByte` | statesync/reactor_test.go:83-84 | The conversion `p2p.ChannelID(SnapshotChannel)` of a one-byte channel constant to a 16-bit ChannelID keeps its value. |
| `P2P.Recipients` | p2p/channel.go:10-16 | An envelope is discarded exactly when neither To nor Broadcast is set. Otherwise its recipients lie within the connected peers plus To. |
| `P2P.BroadcastReachesAllConnected` | p2p/channel.go:14 | A broadcast is addressed to exactly the connected peers. |
| `P2P.BroadcastIgnoresTo` | p2p/channel.go:14 | For a broadcast, changing To does not change the recipients. |
| `P2P.DirectedHasOneRecipient` | p2p/channel.go:13 | Without Broadcast, a set To is the one and only recipient. |
| `P2P.DirectedIgnoresConnected` | p2p/channel.go:31-33 | Without Broadcast, the set of connected peers plays no part in addressing. |
| `P2P.UnaddressedIsDiscarded` | p2p/channel.go:31-33 | With neither To nor Broadcast set, the envelope is discarded, which is not an error. |
| `P2P.Received` | p2p/channel.go:27-29 | An inbound envelope has From set to the sender and To empty, and carries the message unchanged. Broadcast unset is a modelling choice, not stated in the source. |
| `P2P.Close` | p2p/channel.go:40-42 | Closing a channel never returns an error. |

## Left out

- Goroutines, `r.Run(ctx)`, context cancellation and the `tryUntil` polling with its timeouts in the tests: these are concurrency and timing.
- The mocks and test plumbing (`AppConnSnapshot`, the shim, the switch, `simplePeer`) and the mock's call-count assertions: the application connection is an input value instead.
- Protobuf encoding and decoding (`mustEncodeMsg`, `decodeMsg`, `proto.Message`): foreign library code; the payload is opaque, and the `messageType` field of `Channel` is not modelled.
- The Go channels `In`, `Out` and `Error` as blocking queues, and the `PeerError` type: their behaviour is concurrency, and `PeerError` is not part of this model.
- The order among snapshots with equal height and format: the tests leave it open, so no stability or tie-break is stated.
- `PeerID` is not defined in `p2p/channel.go`; it is modelled as a byte string whose empty value means "not set", as the field comments use it.
- P2P.Recipients: says nothing about a directed envelope whose `To` is not connected, because `p2p/channel.go` does not say; the router that delivers or drops such envelopes is not part of this model. A router could also leave the sender out of a broadcast, but the comment at `p2p/channel.go:14` says "all connected peers", and the model follows that comment.
- P2P.ChannelIDOfByte: the reactor's channel constants `SnapshotChannel` and `ChunkChannel` are not declared in the modelled files; they are assumed to be single bytes.
- P2P.Received: `from` being set is required of the caller, not proved; that From is always set on `In` is the delivering router's obligation, and the router is not part of this model.
- StateSync.ReplyToSnapshotsRequest: the test harness records sends only when it expects responses (`statesync/reactor_test.go:162-169`); a send that nobody expects, an unexpected call on the mock peer, is not modelled, and `sent` stands for what the reactor sends, not for what the harness records.
- `Channel.Close`: the doc comment at `p2p/channel.go:40-41` says Close is equivalent to closing `Out` and that `In` is closed later, but the body at `p2p/channel.go:42` only returns nil. With the queues left out, only its result is modelled.
