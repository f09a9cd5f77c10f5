/**
 * The literal cases of the state-sync reactor's tests, stated about the
 * reply rules. The application connection answers only the exact query it
 * expects, as the test's mock does.
 */
module StateSyncTables {
  import opened Wrappers
  import opened StateSync

  /** An application connection that returns `chunk` for the one query it expects and fails otherwise. */
  function MockChunkApp(expected: ChunkQuery, chunk: Option<Bytes>): (app: ChunkQuery -> Query<Option<Bytes>>)
  {
    q => if q == expected then Answered(chunk) else QueryFailed
  }

  /** "chunk is returned", "empty chunk is returned, as nil", "nil (missing) chunk is returned as missing". */
  lemma ChunkRequestCases()
    ensures HandleChunkRequest(MockChunkApp(ChunkQuery(1, 1, 1), Some([1, 2, 3])), ChunkRequest(1, 1, 1))
         == [ChunkResponse(1, 1, 1, Some([1, 2, 3]), false)]
    ensures HandleChunkRequest(MockChunkApp(ChunkQuery(1, 1, 1), Some([])), ChunkRequest(1, 1, 1))
         == [ChunkResponse(1, 1, 1, None, false)]
    ensures HandleChunkRequest(MockChunkApp(ChunkQuery(1, 1, 1), None), ChunkRequest(1, 1, 1))
         == [ChunkResponse(1, 1, 1, None, true)]
  {
  }

  /** "no snapshots": nothing is sent. */
  lemma NoSnapshotsCase()
    ensures SnapshotsReplies(Answered([])) == []
  {
  }

  const S1_2 := Snapshot(1, 2, 7, [1, 2], [1])
  const S2_2 := Snapshot(2, 2, 7, [2, 2], [2])
  const S3_2 := Snapshot(3, 2, 7, [3, 2], [3])
  const S1_1 := Snapshot(1, 1, 7, [1, 1], [4])
  const S2_1 := Snapshot(2, 1, 7, [2, 1], [5])
  const S3_1 := Snapshot(3, 1, 7, [3, 1], [6])
  const S1_4 := Snapshot(1, 4, 7, [1, 4], [7])
  const S2_4 := Snapshot(2, 4, 7, [2, 4], [8])
  const S3_4 := Snapshot(3, 4, 7, [3, 4], [9])
  const S1_3 := Snapshot(1, 3, 7, [1, 3], [10])
  const S2_3 := Snapshot(2, 3, 7, [2, 3], [11])
  const S3_3 := Snapshot(3, 3, 7, [3, 3], [12])

  /** The twelve snapshots the application lists in the ">10 unordered snapshots" case. */
  function Unordered(): (s: seq<Snapshot>)
  {
    [S1_2, S2_2, S3_2, S1_1, S2_1, S3_1, S1_4, S2_4, S3_4, S1_3, S2_3, S3_3]
  }

  /** The ten responses that case expects, in order. */
  function ExpectedResponses(): (rs: seq<SnapshotsResponse>)
  {
    [ SnapshotsResponse(3, 4, 7, [3, 4], [9]), SnapshotsResponse(3, 3, 7, [3, 3], [12]),
      SnapshotsResponse(3, 2, 7, [3, 2], [3]), SnapshotsResponse(3, 1, 7, [3, 1], [6]),
      SnapshotsResponse(2, 4, 7, [2, 4], [8]), SnapshotsResponse(2, 3, 7, [2, 3], [11]),
      SnapshotsResponse(2, 2, 7, [2, 2], [2]), SnapshotsResponse(2, 1, 7, [2, 1], [5]),
      SnapshotsResponse(1, 4, 7, [1, 4], [7]), SnapshotsResponse(1, 3, 7, [1, 3], [10]) ]
  }

  /** `SortStep11` sorts `Unordered()[11..]`, the last 1 snapshot of the case. */
  lemma SortStep11()
    ensures SortByRank([S3_3]) == [S3_3]
  {
    InsertFront(S3_3, []);
  }

  /** `SortStep10` sorts `Unordered()[10..]`, the last 2 snapshots of the case. */
  lemma SortStep10()
    ensures SortByRank([S2_3, S3_3]) == [S3_3, S2_3]
  {
    SortStep11();
    var p: seq<Snapshot>, s: seq<Snapshot> := [S3_3], [];
    assert [S3_3] == p + s;
    SortByRankCons(S2_3, [S3_3], p, s);
  }

  /** `SortStep9` sorts `Unordered()[9..]`, the last 3 snapshots of the case. */
  lemma SortStep9()
    ensures SortByRank([S1_3, S2_3, S3_3]) == [S3_3, S2_3, S1_3]
  {
    SortStep10();
    var p: seq<Snapshot>, s: seq<Snapshot> := [S3_3, S2_3], [];
    assert [S3_3, S2_3] == p + s;
    SortByRankCons(S1_3, [S2_3, S3_3], p, s);
  }

  /** `SortStep8` sorts `Unordered()[8..]`, the last 4 snapshots of the case. */
  lemma SortStep8()
    ensures SortByRank([S3_4, S1_3, S2_3, S3_3]) == [S3_4, S3_3, S2_3, S1_3]
  {
    SortStep9();
    var p: seq<Snapshot>, s: seq<Snapshot> := [], [S3_3, S2_3, S1_3];
    assert [S3_3, S2_3, S1_3] == p + s;
    SortByRankCons(S3_4, [S1_3, S2_3, S3_3], p, s);
  }

  /** `SortStep7` sorts `Unordered()[7..]`, the last 5 snapshots of the case. */
  lemma SortStep7()
    ensures SortByRank([S2_4, S3_4, S1_3, S2_3, S3_3]) == [S3_4, S3_3, S2_4, S2_3, S1_3]
  {
    SortStep8();
    var p: seq<Snapshot>, s: seq<Snapshot> := [S3_4, S3_3], [S2_3, S1_3];
    assert [S3_4, S3_3, S2_3, S1_3] == p + s;
    SortByRankCons(S2_4, [S3_4, S1_3, S2_3, S3_3], p, s);
  }

  /** `SortStep6` sorts `Unordered()[6..]`, the last 6 snapshots of the case. */
  lemma SortStep6()
    ensures SortByRank([S1_4, S2_4, S3_4, S1_3, S2_3, S3_3]) == [S3_4, S3_3, S2_4, S2_3, S1_4, S1_3]
  {
    SortStep7();
    var p: seq<Snapshot>, s: seq<Snapshot> := [S3_4, S3_3, S2_4, S2_3], [S1_3];
    assert [S3_4, S3_3, S2_4, S2_3, S1_3] == p + s;
    SortByRankCons(S1_4, [S2_4, S3_4, S1_3, S2_3, S3_3], p, s);
  }

  /** `SortStep5` sorts `Unordered()[5..]`, the last 7 snapshots of the case. */
  lemma SortStep5()
    ensures SortByRank([S3_1, S1_4, S2_4, S3_4, S1_3, S2_3, S3_3]) == [S3_4, S3_3, S3_1, S2_4, S2_3, S1_4, S1_3]
  {
    SortStep6();
    var p: seq<Snapshot>, s: seq<Snapshot> := [S3_4, S3_3], [S2_4, S2_3, S1_4, S1_3];
    assert [S3_4, S3_3, S2_4, S2_3, S1_4, S1_3] == p + s;
    SortByRankCons(S3_1, [S1_4, S2_4, S3_4, S1_3, S2_3, S3_3], p, s);
  }

  /** `SortStep4` sorts `Unordered()[4..]`, the last 8 snapshots of the case. */
  lemma SortStep4()
    ensures SortByRank([S2_1, S3_1, S1_4, S2_4, S3_4, S1_3, S2_3, S3_3]) == [S3_4, S3_3, S3_1, S2_4, S2_3, S2_1, S1_4, S1_3]
  {
    SortStep5();
    var p: seq<Snapshot>, s: seq<Snapshot> := [S3_4, S3_3, S3_1, S2_4, S2_3], [S1_4, S1_3];
    assert [S3_4, S3_3, S3_1, S2_4, S2_3, S1_4, S1_3] == p + s;
    SortByRankCons(S2_1, [S3_1, S1_4, S2_4, S3_4, S1_3, S2_3, S3_3], p, s);
  }

  /** `SortStep3` sorts `Unordered()[3..]`, the last 9 snapshots of the case. */
  lemma SortStep3()
    ensures SortByRank([S1_1, S2_1, S3_1, S1_4, S2_4, S3_4, S1_3, S2_3, S3_3]) == [S3_4, S3_3, S3_1, S2_4, S2_3, S2_1, S1_4, S1_3, S1_1]
  {
    SortStep4();
    var p: seq<Snapshot>, s: seq<Snapshot> := [S3_4, S3_3, S3_1, S2_4, S2_3, S2_1, S1_4, S1_3], [];
    assert [S3_4, S3_3, S3_1, S2_4, S2_3, S2_1, S1_4, S1_3] == p + s;
    SortByRankCons(S1_1, [S2_1, S3_1, S1_4, S2_4, S3_4, S1_3, S2_3, S3_3], p, s);
  }

  /** `SortStep2` sorts `Unordered()[2..]`, the last 10 snapshots of the case. */
  lemma SortStep2()
    ensures SortByRank([S3_2, S1_1, S2_1, S3_1, S1_4, S2_4, S3_4, S1_3, S2_3, S3_3]) == [S3_4, S3_3, S3_2, S3_1, S2_4, S2_3, S2_1, S1_4, S1_3, S1_1]
  {
    SortStep3();
    var p: seq<Snapshot>, s: seq<Snapshot> := [S3_4, S3_3], [S3_1, S2_4, S2_3, S2_1, S1_4, S1_3, S1_1];
    assert [S3_4, S3_3, S3_1, S2_4, S2_3, S2_1, S1_4, S1_3, S1_1] == p + s;
    SortByRankCons(S3_2, [S1_1, S2_1, S3_1, S1_4, S2_4, S3_4, S1_3, S2_3, S3_3], p, s);
  }

  /** `SortStep1` sorts `Unordered()[1..]`, the last 11 snapshots of the case. */
  lemma SortStep1()
    ensures SortByRank([S2_2, S3_2, S1_1, S2_1, S3_1, S1_4, S2_4, S3_4, S1_3, S2_3, S3_3]) == [S3_4, S3_3, S3_2, S3_1, S2_4, S2_3, S2_2, S2_1, S1_4, S1_3, S1_1]
  {
    SortStep2();
    var p: seq<Snapshot>, s: seq<Snapshot> := [S3_4, S3_3, S3_2, S3_1, S2_4, S2_3], [S2_1, S1_4, S1_3, S1_1];
    assert [S3_4, S3_3, S3_2, S3_1, S2_4, S2_3, S2_1, S1_4, S1_3, S1_1] == p + s;
    SortByRankCons(S2_2, [S3_2, S1_1, S2_1, S3_1, S1_4, S2_4, S3_4, S1_3, S2_3, S3_3], p, s);
  }

  /** `SortStep0` sorts `Unordered()[0..]`, the last 12 snapshots of the case. */
  lemma SortStep0()
    ensures SortByRank([S1_2, S2_2, S3_2, S1_1, S2_1, S3_1, S1_4, S2_4, S3_4, S1_3, S2_3, S3_3]) == [S3_4, S3_3, S3_2, S3_1, S2_4, S2_3, S2_2, S2_1, S1_4, S1_3, S1_2, S1_1]
  {
    SortStep1();
    var p: seq<Snapshot>, s: seq<Snapshot> := [S3_4, S3_3, S3_2, S3_1, S2_4, S2_3, S2_2, S2_1, S1_4, S1_3], [S1_1];
    assert [S3_4, S3_3, S3_2, S3_1, S2_4, S2_3, S2_2, S2_1, S1_4, S1_3, S1_1] == p + s;
    SortByRankCons(S1_2, [S2_2, S3_2, S1_1, S2_1, S3_1, S1_4, S2_4, S3_4, S1_3, S2_3, S3_3], p, s);
  }

  /** The ten snapshots kept: all but the two lowest, 1/2 and 1/1. */
  lemma KeptUnordered()
    ensures Kept(Unordered()) == [S3_4, S3_3, S3_2, S3_1, S2_4, S2_3, S2_2, S2_1, S1_4, S1_3]
  {
    SortStep0();
    var kept, dropped := [S3_4, S3_3, S3_2, S3_1, S2_4, S2_3, S2_2, S2_1, S1_4, S1_3], [S1_2, S1_1];
    assert [S3_4, S3_3, S3_2, S3_1, S2_4, S2_3, S2_2, S2_1, S1_4, S1_3, S1_2, S1_1] == kept + dropped;
    assert (kept + dropped)[..|kept|] == kept;
  }

  /** The responses for the ten kept snapshots are the ones the test expects. */
  lemma KeptResponses()
    ensures Responses([S3_4, S3_3, S3_2, S3_1, S2_4, S2_3, S2_2, S2_1, S1_4, S1_3]) == ExpectedResponses()
  {
  }

  /** ">10 unordered snapshots": the ten highest-ranked, in rank order, fields unchanged. */
  lemma UnorderedSnapshotsCase()
    ensures SnapshotsReplies(Answered(Unordered())) == ExpectedResponses()
  {
    KeptUnordered();
    KeptResponses();
  }
}
