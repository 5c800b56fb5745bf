/**
 * The `__main__` block of dejavu/run_commands/test_my_songs.py as it runs:
 * the result lists and the per-song counters are state that each step
 * appends to, bumps or sorts in place.
 */
module Pipeline {
  import opened Wrappers
  import opened Counting
  import opened Recognition
  import opened Evaluation
  import opened Metrics

  /** The parts of `all_results` that the steps build up. */
  class EvaluationRun {
    const catalog: Catalog
    var fingerprinted: seq<string>
    var submitted: seq<Submission>
    var remixTests: seq<TestRecord>
    var clipTests: seq<TestRecord>
    var perSong: map<string, SongMetrics>

    /** Every recorded result belongs to a song of the catalog. */
    ghost predicate Valid()
      reads this
    {
      && (forall t :: t in remixTests ==> t.song in Names(catalog))
      && (forall t :: t in clipTests ==> t.song in Names(catalog))
    }

    constructor (catalog: Catalog)
      ensures this.catalog == catalog
      ensures fingerprinted == [] && submitted == [] && remixTests == [] && clipTests == [] && perSong == map[]
      ensures Valid()
    {
      this.catalog := catalog;
      fingerprinted, submitted := [], [];
      remixTests, clipTests := [], [];
      perSong := map[];
    }

    /**
     * Step 1: every song with a reference recording is listed; its recording
     * is submitted for indexing unless the engine already knows its hash.
     */
    method Fingerprint(hashOf: string -> Hash, known: set<Hash>)
      modifies this
      ensures fingerprinted == old(fingerprinted) + Expected(catalog)
      ensures submitted == old(submitted) + PendingSubmissions(catalog, hashOf, known)
      ensures remixTests == old(remixTests) && clipTests == old(clipTests) && perSong == old(perSong)
    {
      for i := 0 to |catalog|
        invariant fingerprinted == old(fingerprinted) + Expected(catalog[..i])
        invariant submitted == old(submitted) + PendingSubmissions(catalog[..i], hashOf, known)
        invariant remixTests == old(remixTests) && clipTests == old(clipTests) && perSong == old(perSong)
      {
        var song := catalog[i];
        BootstrapStep(catalog, i, hashOf, known);
        if song.original.None? {
          continue;
        }
        var fileHash := hashOf(song.original.value);
        if fileHash in known {
          fingerprinted := fingerprinted + [song.name];
          continue;
        }
        submitted := submitted + [Submission(song.original.value, song.name)];
        fingerprinted := fingerprinted + [song.name];
      }
      assert catalog[..|catalog|] == catalog;
    }

    /** Steps 2 and 3: one record per remix (or clip) file, song by song, appended to its pool. */
    method Recognize(kind: TestKind, engine: string -> EngineReply)
      requires Valid()
      modifies this
      ensures Valid()
      ensures kind == RemixTest ==> remixTests == old(remixTests) + PoolTests(catalog, kind, engine)
                                    && clipTests == old(clipTests)
      ensures kind == ClipTest ==> clipTests == old(clipTests) + PoolTests(catalog, kind, engine)
                                   && remixTests == old(remixTests)
      ensures fingerprinted == old(fingerprinted) && submitted == old(submitted) && perSong == old(perSong)
    {
      if kind == RemixTest {
        remixTests := ExtendPool(remixTests, catalog, kind, engine);
      } else {
        clipTests := ExtendPool(clipTests, catalog, kind, engine);
      }
    }

    /**
     * The per-song counters: every song starts at zero, each result bumps the
     * counter of its song, pool and bucket, and the totals are added last.
     */
    method TallyPerSong()
      requires Valid()
      modifies this
      ensures perSong == TallyOf(Names(catalog), remixTests, clipTests)
      ensures fingerprinted == old(fingerprinted) && submitted == old(submitted)
      ensures remixTests == old(remixTests) && clipTests == old(clipTests)
    {
      var names := Names(catalog);
      var tally := ZeroCounters(names);
      tally := CountRemixResults(tally, remixTests);
      tally := CountClipResults(tally, remixTests, clipTests);
      var totalled := AddTotals(tally, names);
      TotalsComplete(totalled, tally, names, remixTests, clipTests);
      perSong := totalled;
    }

    /** Both pools are put in emitted order: non-PASS first, then by song. */
    method SortResults()
      requires Valid()
      modifies this
      ensures Valid()
      ensures remixTests == SortTests(old(remixTests)) && clipTests == SortTests(old(clipTests))
      ensures fingerprinted == old(fingerprinted) && submitted == old(submitted) && perSong == old(perSong)
    {
      SongsPermuted(remixTests, SortTests(remixTests), Names(catalog));
      SongsPermuted(clipTests, SortTests(clipTests), Names(catalog));
      remixTests := SortTests(remixTests);
      clipTests := SortTests(clipTests);
    }
  }

  /** One record per file of every song of the catalog, song by song. */
  method RecognizePool(catalog: Catalog, kind: TestKind, engine: string -> EngineReply)
    returns (pool: seq<TestRecord>)
    ensures pool == PoolTests(catalog, kind, engine)
  {
    pool := [];
    for i := 0 to |catalog|
      invariant pool == PoolTests(catalog[..i], kind, engine)
    {
      var song := catalog[i];
      PoolTestsStep(catalog, i, kind, engine);
      var files := FilesOf(song, kind);
      if files == [] {
        assert FileTests(song.name, files, kind, engine) == [];
        continue;
      }
      pool := AppendFileTests(pool, song.name, files, kind, engine);
    }
    assert catalog[..|catalog|] == catalog;
  }

  /** Recognizes each of one song's files in turn and appends its record. */
  method AppendFileTests(start: seq<TestRecord>, song: string, files: seq<string>, kind: TestKind,
                         engine: string -> EngineReply)
    returns (pool: seq<TestRecord>)
    ensures pool == start + FileTests(song, files, kind, engine)
  {
    pool := start;
    for j := 0 to |files|
      invariant pool == start + FileTests(song, files[..j], kind, engine)
    {
      assert files[..j + 1][..j] == files[..j];
      var r := RecognizeFile(engine(files[j]), files[j], song);
      pool := pool + [TestRecord(song, kind, r)];
    }
    assert files[..|files|] == files;
  }

  /** `per_song[song_name] = {...: 0}` for every song. */
  method ZeroCounters(names: seq<string>) returns (tally: map<string, SongMetrics>)
    ensures forall n :: n in tally <==> n in names
    ensures forall n :: n in tally ==> tally[n] == Zero
  {
    tally := map[];
    for k := 0 to |names|
      invariant forall n :: n in tally <==> n in names[..k]
      invariant forall n :: n in tally ==> tally[n] == Zero
    {
      assert names[..k + 1] == names[..k] + [names[k]];
      tally := tally[names[k] := Zero];
    }
    assert names[..|names|] == names;
  }

  /** Appends the records of one pool to `start`; all of them belong to songs of the catalog. */
  method ExtendPool(start: seq<TestRecord>, catalog: Catalog, kind: TestKind, engine: string -> EngineReply)
    returns (pool: seq<TestRecord>)
    requires forall t :: t in start ==> t.song in Names(catalog)
    ensures pool == start + PoolTests(catalog, kind, engine)
    ensures forall t :: t in pool ==> t.song in Names(catalog)
  {
    var added := RecognizePool(catalog, kind, engine);
    PoolTestsSongs(catalog, kind, engine);
    SongsAppended(start, added, Names(catalog));
    pool := start + added;
  }

  /** Bumps one remix counter per remix result; every result's song must have counters. */
  method CountRemixResults(tally: map<string, SongMetrics>, remix: seq<TestRecord>)
    returns (counted: map<string, SongMetrics>)
    requires forall t :: t in remix ==> t.song in tally
    requires forall n :: n in tally ==> tally[n] == Zero
    ensures forall n :: n in counted <==> n in tally
    ensures forall n :: n in counted ==> counted[n] == Counters(n, remix, [])
  {
    counted := tally;
    assert remix[..0] == [];
    assert forall n :: Counters(n, [], []) == Zero;
    for i := 0 to |remix|
      invariant forall n :: n in counted <==> n in tally
      invariant forall n :: n in counted ==> counted[n] == Counters(n, remix[..i], [])
    {
      var t := remix[i];
      PrefixSnoc(remix, i);
      assert t in remix;
      var s := t.song;
      var ps := counted[s];
      var bumped;
      if t.result.status == Pass {
        bumped := ps.(remixPass := ps.remixPass + 1);
      } else if t.result.status == NoMatch {
        bumped := ps.(remixNoMatch := ps.remixNoMatch + 1);
      } else {
        bumped := ps.(remixFail := ps.remixFail + 1);
      }
      RemixCountStep(counted, remix[..i], t, bumped);
      counted := counted[s := bumped];
    }
    assert remix[..|remix|] == remix;
  }

  /** Bumps one clip counter per clip result, on top of the remix counters. */
  method CountClipResults(tally: map<string, SongMetrics>, remix: seq<TestRecord>, clips: seq<TestRecord>)
    returns (counted: map<string, SongMetrics>)
    requires forall t :: t in clips ==> t.song in tally
    requires forall n :: n in tally ==> tally[n] == Counters(n, remix, [])
    ensures forall n :: n in counted <==> n in tally
    ensures forall n :: n in counted ==> counted[n] == Counters(n, remix, clips)
  {
    counted := tally;
    assert clips[..0] == [];
    assert forall n :: Counters(n, remix, []) == Counters(n, remix, clips[..0]);
    for i := 0 to |clips|
      invariant forall n :: n in counted <==> n in tally
      invariant forall n :: n in counted ==> counted[n] == Counters(n, remix, clips[..i])
    {
      var t := clips[i];
      PrefixSnoc(clips, i);
      assert t in clips;
      var s := t.song;
      var ps := counted[s];
      var bumped;
      if t.result.status == Pass {
        bumped := ps.(clipPass := ps.clipPass + 1);
      } else if t.result.status == NoMatch {
        bumped := ps.(clipNoMatch := ps.clipNoMatch + 1);
      } else {
        bumped := ps.(clipFail := ps.clipFail + 1);
      }
      ClipCountStep(counted, remix, clips[..i], t, bumped);
      counted := counted[s := bumped];
    }
    assert clips[..|clips|] == clips;
  }

  /** Adds `total_tests`, `total_pass` and `total_fail` to every song's counters. */
  method AddTotals(tally: map<string, SongMetrics>, names: seq<string>) returns (perSong: map<string, SongMetrics>)
    requires forall n :: n in tally <==> n in names
    ensures perSong.Keys == tally.Keys
    ensures forall n :: n in perSong ==> perSong[n] == WithTotals(tally[n])
  {
    perSong := tally;
    for k := 0 to |names|
      invariant perSong.Keys == tally.Keys
      invariant forall n :: n in perSong ==>
                  perSong[n] == if n in names[..k] then WithTotals(tally[n]) else tally[n]
    {
      assert names[..k + 1] == names[..k] + [names[k]];
      var s := names[k];
      var updated := WithTotals(perSong[s]);
      assert updated == WithTotals(tally[s]) by {
        if s in names[..k] {
          WithTotalsIdempotent(tally[s]);
        }
      }
      ghost var before := perSong;
      perSong := perSong[s := updated];
      forall n | n in perSong
        ensures perSong[n] == if n in names[..k + 1] then WithTotals(tally[n]) else tally[n]
      {
        if n != s {
          assert perSong[n] == before[n];
          assert n in names[..k + 1] <==> n in names[..k];
        }
      }
    }
    assert names[..|names|] == names;
  }

  lemma TotalsComplete(perSong: map<string, SongMetrics>, tally: map<string, SongMetrics>, names: seq<string>,
                       remix: seq<TestRecord>, clips: seq<TestRecord>)
    requires forall n :: n in tally <==> n in names
    requires forall n :: n in tally ==> tally[n] == Counters(n, remix, clips)
    requires perSong.Keys == tally.Keys
    requires forall n :: n in perSong ==> perSong[n] == WithTotals(tally[n])
    ensures perSong == TallyOf(names, remix, clips)
  {
    var expected := TallyOf(names, remix, clips);
    assert perSong.Keys == expected.Keys;
  }

  lemma SongsAppended(a: seq<TestRecord>, b: seq<TestRecord>, names: seq<string>)
    requires forall t :: t in a ==> t.song in names
    requires forall t :: t in b ==> t.song in names
    ensures forall t :: t in a + b ==> t.song in names
  {
  }

  lemma SongsPermuted(a: seq<TestRecord>, b: seq<TestRecord>, names: seq<string>)
    requires multiset(a) == multiset(b)
    requires forall t :: t in a ==> t.song in names
    ensures forall t :: t in b ==> t.song in names
  {
    forall t | t in b ensures t.song in names {
      assert t in multiset(b);
    }
  }

  /** One remix result: the map with that song's counter bumped counts one more result. */
  lemma RemixCountStep(before: map<string, SongMetrics>, remix: seq<TestRecord>, t: TestRecord, bumped: SongMetrics)
    requires t.song in before
    requires forall n :: n in before ==> before[n] == Counters(n, remix, [])
    requires var ps := before[t.song];
             bumped == if t.result.status == Pass then ps.(remixPass := ps.remixPass + 1)
                       else if t.result.status == NoMatch then ps.(remixNoMatch := ps.remixNoMatch + 1)
                       else ps.(remixFail := ps.remixFail + 1)
    ensures forall n :: n in before[t.song := bumped] ==> before[t.song := bumped][n] == Counters(n, remix + [t], [])
  {
    forall n | n in before[t.song := bumped] ensures before[t.song := bumped][n] == Counters(n, remix + [t], []) {
      CountersAfterRemix(n, remix, t, []);
    }
  }

  /** One clip result: the map with that song's counter bumped counts one more result. */
  lemma ClipCountStep(before: map<string, SongMetrics>, remix: seq<TestRecord>, clips: seq<TestRecord>,
                      t: TestRecord, bumped: SongMetrics)
    requires t.song in before
    requires forall n :: n in before ==> before[n] == Counters(n, remix, clips)
    requires var ps := before[t.song];
             bumped == if t.result.status == Pass then ps.(clipPass := ps.clipPass + 1)
                       else if t.result.status == NoMatch then ps.(clipNoMatch := ps.clipNoMatch + 1)
                       else ps.(clipFail := ps.clipFail + 1)
    ensures forall n :: n in before[t.song := bumped] ==> before[t.song := bumped][n] == Counters(n, remix, clips + [t])
  {
    forall n | n in before[t.song := bumped] ensures before[t.song := bumped][n] == Counters(n, remix, clips + [t]) {
      CountersAfterClip(n, remix, clips, t);
    }
  }

  /** How one more remix result changes the counters of song `n`. */
  lemma CountersAfterRemix(n: string, remix: seq<TestRecord>, t: TestRecord, clips: seq<TestRecord>)
    ensures var before, after := Counters(n, remix, clips), Counters(n, remix + [t], clips);
            after == if t.song != n then before
                     else if t.result.status == Pass then before.(remixPass := before.remixPass + 1)
                     else if t.result.status == NoMatch then before.(remixNoMatch := before.remixNoMatch + 1)
                     else before.(remixFail := before.remixFail + 1)
  {
    CountIfSnoc(remix, t, InBucket(n, PassBucket));
    CountIfSnoc(remix, t, InBucket(n, FailBucket));
    CountIfSnoc(remix, t, InBucket(n, NoMatchBucket));
  }

  /** How one more clip result changes the counters of song `n`. */
  lemma CountersAfterClip(n: string, remix: seq<TestRecord>, clips: seq<TestRecord>, t: TestRecord)
    ensures var before, after := Counters(n, remix, clips), Counters(n, remix, clips + [t]);
            after == if t.song != n then before
                     else if t.result.status == Pass then before.(clipPass := before.clipPass + 1)
                     else if t.result.status == NoMatch then before.(clipNoMatch := before.clipNoMatch + 1)
                     else before.(clipFail := before.clipFail + 1)
  {
    CountIfSnoc(clips, t, InBucket(n, PassBucket));
    CountIfSnoc(clips, t, InBucket(n, FailBucket));
    CountIfSnoc(clips, t, InBucket(n, NoMatchBucket));
  }

  /** The report written at the end of a run (the timestamp is left out). */
  datatype Report = Report(
    totalSongs: nat,
    fingerprinted: seq<string>,
    dbVerification: DbVerification,
    remixTests: seq<TestRecord>,
    clipTests: seq<TestRecord>,
    perSong: map<string, SongMetrics>,
    summary: Summary)

  /**
   * One evaluation run. `hashOf` and `known` stand for the engine's content
   * hash and its set of indexed hashes, `dbNames` for the labels it lists
   * after indexing, and `engine` for its reply to each file.
   */
  method Evaluate(catalog: Catalog, hashOf: string -> Hash, known: set<Hash>, dbNames: seq<string>,
                  engine: string -> EngineReply)
    returns (report: Report, submitted: seq<Submission>)
    ensures report.totalSongs == |catalog|
    ensures report.fingerprinted == Expected(catalog)
    ensures submitted == PendingSubmissions(catalog, hashOf, known)
    ensures report.dbVerification == VerifyDatabase(catalog, dbNames)
    ensures report.remixTests == SortTests(PoolTests(catalog, RemixTest, engine))
    ensures report.clipTests == SortTests(PoolTests(catalog, ClipTest, engine))
    // the counters are taken before the sort, and agree with the emitted lists
    ensures report.perSong == TallyOf(Names(catalog), report.remixTests, report.clipTests)
    ensures report.summary == Summarize(report.remixTests, report.clipTests)
  {
    var run := new EvaluationRun(catalog);
    run.Fingerprint(hashOf, known);
    var verification := VerifyDatabase(catalog, dbNames);
    ghost var remix, clips := PoolTests(catalog, RemixTest, engine), PoolTests(catalog, ClipTest, engine);
    run.Recognize(RemixTest, engine);
    assert [] + remix == remix;
    run.Recognize(ClipTest, engine);
    assert [] + clips == clips;
    assert run.remixTests == remix && run.clipTests == clips;
    run.TallyPerSong();
    run.SortResults();
    TallyIgnoresOrder(Names(catalog), remix, run.remixTests, clips, run.clipTests);
    var summary := Summarize(run.remixTests, run.clipTests);
    var fingerprinted, remixTests, clipTests, perSong := run.fingerprinted, run.remixTests, run.clipTests, run.perSong;
    submitted := run.submitted;
    assert fingerprinted == Expected(catalog);
    assert submitted == PendingSubmissions(catalog, hashOf, known);
    assert remixTests == SortTests(remix) && clipTests == SortTests(clips);
    assert perSong == TallyOf(Names(catalog), remixTests, clipTests);
    report := Report(|catalog|, fingerprinted, verification, remixTests, clipTests, perSong, summary);
  }

  /**
   * With one folder per label, a song's `total_tests` in the report is the
   * number of its remix files plus the number of its clip files.
   */
  lemma PerSongTestCount(catalog: Catalog, engine: string -> EngineReply, i: nat)
    requires UniqueNames(catalog) && i < |catalog|
    ensures var remix := SortTests(PoolTests(catalog, RemixTest, engine));
            var clips := SortTests(PoolTests(catalog, ClipTest, engine));
            var n := catalog[i].name;
            n in TallyOf(Names(catalog), remix, clips)
            && TallyOf(Names(catalog), remix, clips)[n].totalTests == |catalog[i].remixes| + |catalog[i].clips|
  {
    var n := catalog[i].name;
    var remix, clips := PoolTests(catalog, RemixTest, engine), PoolTests(catalog, ClipTest, engine);
    assert n == Names(catalog)[i];
    TallyTotals(Names(catalog), SortTests(remix), SortTests(clips), n);
    CountIfPermutation(remix, SortTests(remix), IsSong(n));
    CountIfPermutation(clips, SortTests(clips), IsSong(n));
    PoolTestsPerSong(catalog, RemixTest, engine, n);
    PoolTestsPerSong(catalog, ClipTest, engine, n);
    FilesForUnique(catalog, i, RemixTest);
    FilesForUnique(catalog, i, ClipTest);
  }
}
