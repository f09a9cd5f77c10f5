/**
 * The reply rules of the state-sync reactor: how a chunk request is turned
 * into an application query and the answer into a chunk response, and how a
 * snapshot-list request is answered with the most recent snapshots.
 */
module StateSync {
  import opened Wrappers

  /** At most this many snapshots are offered in reply to one request. */
  const MaxSnapshots: nat := 10

  /** A snapshot as listed by the application connection. */
  datatype Snapshot = Snapshot(height: uint64, format: uint32, chunks: uint32, hash: Bytes, metadata: Bytes)

  /** The wire reply describing one snapshot. */
  datatype SnapshotsResponse = SnapshotsResponse(height: uint64, format: uint32, chunks: uint32, hash: Bytes, metadata: Bytes)

  /** A peer's request for one chunk of a snapshot. */
  datatype ChunkRequest = ChunkRequest(height: uint64, format: uint32, index: uint32)

  /** The query put to the application connection to load one chunk. */
  datatype ChunkQuery = ChunkQuery(height: uint64, format: uint32, chunk: uint32)

  /**
   * The wire reply to a chunk request. `chunk` is absent both for an empty
   * chunk and for a chunk the application does not have; only `missing`
   * tells the two apart.
   */
  datatype ChunkResponse = ChunkResponse(height: uint64, format: uint32, index: uint32, chunk: Option<Bytes>, missing: bool)

  /** The outcome of a call to the application connection: an answer, or a failure of the call itself. */
  datatype Query<+T> = Answered(value: T) | QueryFailed

  // ---------------------------------------------------------------------------
  // Chunk requests

  /** The application query made for a chunk request. */
  function ChunkQueryFor(req: ChunkRequest): (q: ChunkQuery)
    ensures q.height == req.height && q.format == req.format && q.chunk == req.index
  {
    ChunkQuery(req.height, req.format, req.index)
  }

  /**
   * The response to `req` when the application returned `loaded`
   * (`None` is Go's `nil`, i.e. no such chunk).
   */
  function ChunkReply(req: ChunkRequest, loaded: Option<Bytes>): (r: ChunkResponse)
    ensures r.height == req.height && r.format == req.format && r.index == req.index
    ensures r.missing <==> loaded.None?
    ensures r.chunk.Some? <==> loaded.Some? && loaded.value != []
    ensures r.chunk.Some? ==> r.chunk == loaded
  {
    match loaded
    case None => ChunkResponse(req.height, req.format, req.index, None, true)
    case Some(b) =>
      if |b| == 0 then ChunkResponse(req.height, req.format, req.index, None, false)
      else ChunkResponse(req.height, req.format, req.index, Some(b), false)
  }

  /** What a requester learns from a chunk response about the application's answer. */
  function LoadedOf(r: ChunkResponse): (loaded: Option<Bytes>)
  {
    if r.missing then None
    else match r.chunk
      case None => Some([])
      case Some(b) => Some(b)
  }

  /** A chunk response determines exactly what the application returned: empty and missing stay distinct. */
  lemma ChunkReplyRecoversLoaded(req: ChunkRequest, loaded: Option<Bytes>)
    ensures LoadedOf(ChunkReply(req, loaded)) == loaded
  {
  }

  /** Two different application answers never give the same response. */
  lemma ChunkReplyInjective(req: ChunkRequest, a: Option<Bytes>, b: Option<Bytes>)
    requires ChunkReply(req, a) == ChunkReply(req, b)
    ensures a == b
  {
  }

  /**
   * The messages sent back for a chunk request, given the application
   * connection `app`: one response when the query is answered, none when the
   * query itself fails.
   */
  function HandleChunkRequest(app: ChunkQuery -> Query<Option<Bytes>>, req: ChunkRequest): (sent: seq<ChunkResponse>)
    ensures |sent| <= 1
    ensures sent == [] <==> app(ChunkQueryFor(req)).QueryFailed?
    ensures sent != [] ==> sent[0] == ChunkReply(req, app(ChunkQueryFor(req)).value)
  {
    match app(ChunkQueryFor(req))
    case QueryFailed => []
    case Answered(loaded) => [ChunkReply(req, loaded)]
  }

  // ---------------------------------------------------------------------------
  // Snapshot-list requests

  /** `a` ranks at least as high as `b`: greater height, or equal height and format at least as great. */
  predicate RanksAtLeast(a: Snapshot, b: Snapshot)
  {
    a.height > b.height || (a.height == b.height && a.format >= b.format)
  }

  /** Ordered by height descending, then format descending. */
  predicate Ranked(s: seq<Snapshot>)
  {
    forall i, j :: 0 <= i < j < |s| ==> RanksAtLeast(s[i], s[j])
  }

  /** Inserts `x` in front of the first element of `s` that it ranks at least as high as. */
  function Insert(x: Snapshot, s: seq<Snapshot>): (r: seq<Snapshot>)
    ensures |r| == |s| + 1
  {
    if s == [] then [x]
    else if RanksAtLeast(x, s[0]) then [x] + s
    else [s[0]] + Insert(x, s[1..])
  }

  /** Insertion adds exactly `x`. */
  lemma {:induction false} InsertPermutes(x: Snapshot, s: seq<Snapshot>)
    ensures multiset(Insert(x, s)) == multiset(s) + multiset{x}
  {
    if s != [] && !RanksAtLeast(x, s[0]) {
      InsertPermutes(x, s[1..]);
      assert s == [s[0]] + s[1..];
      calc {
        multiset(Insert(x, s));
        multiset([s[0]] + Insert(x, s[1..]));
        multiset([s[0]]) + multiset(Insert(x, s[1..]));
        multiset([s[0]]) + multiset(s[1..]) + multiset{x};
        multiset(s) + multiset{x};
      }
    } else if s != [] {
      assert Insert(x, s) == [x] + s;
    }
  }

  /** Insertion keeps a ranked sequence ranked. */
  lemma {:induction false} InsertRanked(x: Snapshot, s: seq<Snapshot>)
    requires Ranked(s)
    ensures Ranked(Insert(x, s))
  {
    if s != [] && !RanksAtLeast(x, s[0]) {
      var rest := Insert(x, s[1..]);
      InsertRanked(x, s[1..]);
      InsertPermutes(x, s[1..]);
      assert s == [s[0]] + s[1..];
      forall k | 0 <= k < |rest| ensures RanksAtLeast(s[0], rest[k]) {
        assert rest[k] in multiset(rest);
        if rest[k] != x {
          assert rest[k] in multiset(s[1..]);
          var j :| 0 <= j < |s[1..]| && s[1..][j] == rest[k];
          assert s[j + 1] == rest[k];
        }
      }
      LeadRanked(s[0], rest);
    } else if s != [] {
      LeadRanked(x, s);
    }
  }

  /** `x` goes first when it ranks at least as high as the head. */
  lemma InsertFront(x: Snapshot, s: seq<Snapshot>)
    requires s == [] || RanksAtLeast(x, s[0])
    ensures Insert(x, s) == [x] + s
  {
  }

  /** `x` passes over a prefix whose every element ranks above it. */
  lemma {:induction false} InsertPast(x: Snapshot, p: seq<Snapshot>, s: seq<Snapshot>)
    requires forall i :: 0 <= i < |p| ==> !RanksAtLeast(x, p[i])
    ensures Insert(x, p + s) == p + Insert(x, s)
  {
    if p == [] {
      assert p + s == s;
    } else {
      var ps := p + s;
      assert ps[0] == p[0] && ps[1..] == p[1..] + s;
      assert Insert(x, ps) == [p[0]] + Insert(x, p[1..] + s);
      InsertPast(x, p[1..], s);
      assert [p[0]] + (p[1..] + Insert(x, s)) == p + Insert(x, s);
    }
  }

  /** Sorting `[x] + t` places `x` into the sorted `t` after the prefix `p` that ranks above it. */
  lemma SortByRankCons(x: Snapshot, t: seq<Snapshot>, p: seq<Snapshot>, s: seq<Snapshot>)
    requires SortByRank(t) == p + s
    requires forall i :: 0 <= i < |p| ==> !RanksAtLeast(x, p[i])
    requires s == [] || RanksAtLeast(x, s[0])
    ensures SortByRank([x] + t) == p + [x] + s
  {
    assert ([x] + t)[1..] == t;
    InsertPast(x, p, s);
    InsertFront(x, s);
  }

  /** A ranked sequence stays ranked behind an element ranking at least as high as all of it. */
  lemma LeadRanked(a: Snapshot, s: seq<Snapshot>)
    requires Ranked(s)
    requires forall k :: 0 <= k < |s| ==> RanksAtLeast(a, s[k])
    ensures Ranked([a] + s)
  {
  }

  /** The snapshots in rank order (the order among equal height and format is left open). */
  function SortByRank(s: seq<Snapshot>): (r: seq<Snapshot>)
    ensures |r| == |s|
  {
    if s == [] then [] else Insert(s[0], SortByRank(s[1..]))
  }

  /** Sorting yields a ranked permutation of its input. */
  lemma {:induction false} SortByRankSorts(s: seq<Snapshot>)
    ensures Ranked(SortByRank(s))
    ensures multiset(SortByRank(s)) == multiset(s)
  {
    if s != [] {
      SortByRankSorts(s[1..]);
      InsertRanked(s[0], SortByRank(s[1..]));
      InsertPermutes(s[0], SortByRank(s[1..]));
      assert s == [s[0]] + s[1..];
    }
  }

  /** The smaller of two naturals. */
  function Min(a: nat, b: nat): (m: nat) { if a <= b then a else b }

  /** The snapshots offered: the highest-ranked `MaxSnapshots` of them, in rank order. */
  function Kept(s: seq<Snapshot>): (r: seq<Snapshot>)
    ensures |r| == Min(|s|, MaxSnapshots)
  {
    SortByRank(s)[..Min(|s|, MaxSnapshots)]
  }

  /** The response describing a snapshot, with its fields copied unchanged. */
  function ToResponse(s: Snapshot): (r: SnapshotsResponse)
    ensures r.height == s.height && r.format == s.format && r.chunks == s.chunks
    ensures r.hash == s.hash && r.metadata == s.metadata
  {
    SnapshotsResponse(s.height, s.format, s.chunks, s.hash, s.metadata)
  }

  /** The snapshot a response describes. */
  function FromResponse(r: SnapshotsResponse): (s: Snapshot)
  {
    Snapshot(r.height, r.format, r.chunks, r.hash, r.metadata)
  }

  /** Snapshots and responses carry the same fields, so each converts to the other without loss. */
  lemma ResponseRoundTrip(s: Snapshot, r: SnapshotsResponse)
    ensures FromResponse(ToResponse(s)) == s
    ensures ToResponse(FromResponse(r)) == r
  {
  }

  /** The response for each snapshot, in order. */
  function Responses(s: seq<Snapshot>): (rs: seq<SnapshotsResponse>)
  {
    seq(|s|, i requires 0 <= i < |s| => ToResponse(s[i]))
  }

  /** The snapshot each response describes, in order. */
  function Described(rs: seq<SnapshotsResponse>): (s: seq<Snapshot>)
  {
    seq(|rs|, i requires 0 <= i < |rs| => FromResponse(rs[i]))
  }

  /** The messages sent back for a snapshot-list request, given the application's listing. */
  function SnapshotsReplies(listed: Query<seq<Snapshot>>): (rs: seq<SnapshotsResponse>)
  {
    match listed
    case QueryFailed => []
    case Answered(s) => Responses(Kept(s))
  }

  /** Responses are ordered by height descending, then format descending. */
  predicate RepliesRanked(rs: seq<SnapshotsResponse>)
  {
    forall i, j :: 0 <= i < j < |rs| ==>
      rs[i].height > rs[j].height || (rs[i].height == rs[j].height && rs[i].format >= rs[j].format)
  }

  /** One response per snapshot, up to `MaxSnapshots`; none at all when there are no snapshots or the listing fails. */
  lemma SnapshotsRepliesCount(listed: Query<seq<Snapshot>>)
    ensures listed.QueryFailed? ==> SnapshotsReplies(listed) == []
    ensures listed.Answered? ==> |SnapshotsReplies(listed)| == Min(|listed.value|, MaxSnapshots)
    ensures listed.Answered? ==> (SnapshotsReplies(listed) == [] <==> listed.value == [])
  {
  }

  /** The responses come out in rank order. */
  lemma SnapshotsRepliesRanked(listed: Query<seq<Snapshot>>)
    ensures RepliesRanked(SnapshotsReplies(listed))
  {
    if listed.Answered? {
      SortByRankSorts(listed.value);
      var k := Kept(listed.value);
      assert Ranked(k);
    }
  }

  /** The responses describe exactly the kept snapshots, fields unchanged. */
  lemma SnapshotsRepliesDescribeKept(s: seq<Snapshot>)
    ensures Described(SnapshotsReplies(Answered(s))) == Kept(s)
  {
  }

  /** The snapshots left out: those ranked after the kept ones. */
  function Dropped(s: seq<Snapshot>): (r: seq<Snapshot>)
  {
    SortByRank(s)[Min(|s|, MaxSnapshots)..]
  }

  /**
   * Kept and dropped snapshots split the listing between them, so each
   * response describes a distinct listed snapshot, and every kept snapshot
   * ranks at least as high as every dropped one.
   */
  lemma KeptAreTopRanked(s: seq<Snapshot>)
    ensures multiset(Kept(s)) + multiset(Dropped(s)) == multiset(s)
    ensures forall i, j :: 0 <= i < |Kept(s)| && 0 <= j < |Dropped(s)| ==> RanksAtLeast(Kept(s)[i], Dropped(s)[j])
  {
    var r := SortByRank(s);
    var m := Min(|s|, MaxSnapshots);
    SortByRankSorts(s);
    assert r == Kept(s) + Dropped(s);
    forall i, j | 0 <= i < |Kept(s)| && 0 <= j < |Dropped(s)| ensures RanksAtLeast(Kept(s)[i], Dropped(s)[j]) {
      assert Kept(s)[i] == r[i] && Dropped(s)[j] == r[m + j];
    }
  }

  /** Every response describes a listed snapshot, and no listed snapshot is described more often than it was listed. */
  lemma SnapshotsRepliesFromListing(s: seq<Snapshot>)
    ensures multiset(Described(SnapshotsReplies(Answered(s)))) <= multiset(s)
  {
    SnapshotsRepliesDescribeKept(s);
    KeptAreTopRanked(s);
  }

  /**
   * Answers a snapshot-list request: each kept snapshot is sent in turn, and
   * `sent` is what the reactor sends, in order. `received` starts
   * true and is lowered only when some response is expected
   * (`expectResponses`); each send raises it again.
   */
  method ReplyToSnapshotsRequest(listed: Query<seq<Snapshot>>, expectResponses: bool)
    returns (sent: seq<SnapshotsResponse>, received: bool)
    ensures sent == SnapshotsReplies(listed)
    ensures received <==> !expectResponses || sent != []
  {
    sent, received := [], !expectResponses;
    if listed.QueryFailed? {
      return;
    }
    var ranked := SortByRank(listed.value);
    var i := 0;
    while i < |ranked|
      invariant 0 <= i <= |ranked| && i <= MaxSnapshots
      invariant sent == Responses(ranked[..i])
      invariant received <==> !expectResponses || i > 0
    {
      if i >= MaxSnapshots {
        break;
      }
      sent := sent + [ToResponse(ranked[i])];
      received := true;
      i := i + 1;
    }
    assert ranked[..i] == Kept(listed.value);
  }
}
