/**
 * What dejavu/run_commands/test_my_songs.py derives from the two result
 * pools: the per-song counters, the order in which the pools are emitted
 * (non-PASS first, then by song) and the global summary.
 */
module Metrics {
  import opened Counting
  import opened Ordering
  import opened Recognition
  import opened Evaluation

  // -------------------------------------------------------- per-song counters

  /** The counters kept for one song; the totals are filled in last. */
  datatype SongMetrics = SongMetrics(
    remixPass: nat, remixFail: nat, remixNoMatch: nat,
    clipPass: nat, clipFail: nat, clipNoMatch: nat,
    totalTests: nat, totalPass: nat, totalFail: int)

  const Zero := SongMetrics(0, 0, 0, 0, 0, 0, 0, 0, 0)

  /** Which counter a result of a song bumps: PASS, NO_MATCH, and everything else (FAIL and ERROR). */
  datatype Bucket = PassBucket | NoMatchBucket | FailBucket

  function BucketOf(st: Status): (b: Bucket)
    ensures b == PassBucket <==> st == Pass
    ensures b == NoMatchBucket <==> st == NoMatch
    ensures b == FailBucket <==> st == Fail || st == Error
  {
    match st
    case Pass => PassBucket
    case NoMatch => NoMatchBucket
    case Fail => FailBucket
    case Error => FailBucket
  }

  function InBucket(n: string, b: Bucket): TestRecord -> bool
  {
    (t: TestRecord) => t.song == n && BucketOf(t.result.status) == b
  }

  function NotPassed(n: string): TestRecord -> bool
  {
    (t: TestRecord) => t.song == n && t.result.status != Pass
  }

  /** The six counters of song `n` after both pools have been tallied. */
  function Counters(n: string, remix: seq<TestRecord>, clips: seq<TestRecord>): SongMetrics
  {
    SongMetrics(
      CountIf(remix, InBucket(n, PassBucket)), CountIf(remix, InBucket(n, FailBucket)),
      CountIf(remix, InBucket(n, NoMatchBucket)),
      CountIf(clips, InBucket(n, PassBucket)), CountIf(clips, InBucket(n, FailBucket)),
      CountIf(clips, InBucket(n, NoMatchBucket)),
      0, 0, 0)
  }

  /** Each pool's three counters split the song's results in that pool; fail and no-match are its non-PASS ones. */
  lemma CountersPartition(n: string, remix: seq<TestRecord>, clips: seq<TestRecord>)
    ensures var m := Counters(n, remix, clips);
            && m.remixPass + m.remixFail + m.remixNoMatch == CountIf(remix, IsSong(n))
            && m.clipPass + m.clipFail + m.clipNoMatch == CountIf(clips, IsSong(n))
            && m.remixFail + m.remixNoMatch == CountIf(remix, NotPassed(n))
            && m.clipFail + m.clipNoMatch == CountIf(clips, NotPassed(n))
  {
    BucketPartition(remix, n);
    BucketPartition(clips, n);
  }

  /** Fills in `total_tests`, `total_pass` and `total_fail` from the six counters. */
  function WithTotals(m: SongMetrics): (r: SongMetrics)
    ensures r.totalTests == r.remixPass + r.remixFail + r.remixNoMatch + r.clipPass + r.clipFail + r.clipNoMatch
    ensures r.totalPass == r.remixPass + r.clipPass
    ensures r.totalFail == r.totalTests - r.totalPass >= 0
    ensures r.remixPass == m.remixPass && r.remixFail == m.remixFail && r.remixNoMatch == m.remixNoMatch
    ensures r.clipPass == m.clipPass && r.clipFail == m.clipFail && r.clipNoMatch == m.clipNoMatch
  {
    var tests := m.remixPass + m.remixFail + m.remixNoMatch + m.clipPass + m.clipFail + m.clipNoMatch;
    var passed := m.remixPass + m.clipPass;
    m.(totalTests := tests, totalPass := passed, totalFail := tests - passed)
  }

  /** Recomputing the totals of a record whose totals are already computed changes nothing. */
  lemma WithTotalsIdempotent(m: SongMetrics)
    ensures WithTotals(WithTotals(m)) == WithTotals(m)
  {
  }

  /** `per_song`: every song of the catalog, with its counters and totals. */
  function TallyOf(names: seq<string>, remix: seq<TestRecord>, clips: seq<TestRecord>): (r: map<string, SongMetrics>)
    ensures forall n :: n in r <==> n in names
  {
    map n | n in names :: WithTotals(Counters(n, remix, clips))
  }

  /** Each of a song's results lands in exactly one of its three counters of that pool. */
  lemma {:induction false} BucketPartition(tests: seq<TestRecord>, n: string)
    ensures CountIf(tests, InBucket(n, PassBucket)) + CountIf(tests, InBucket(n, FailBucket))
            + CountIf(tests, InBucket(n, NoMatchBucket)) == CountIf(tests, IsSong(n))
    ensures CountIf(tests, InBucket(n, FailBucket)) + CountIf(tests, InBucket(n, NoMatchBucket))
            == CountIf(tests, NotPassed(n))
  {
    if tests != [] {
      BucketPartition(tests[..|tests| - 1], n);
    }
  }

  /**
   * `total_tests` is the number of the song's results in both pools,
   * `total_pass` its PASS results and `total_fail` all the others, so
   * ERROR and NO_MATCH count as failures here.
   */
  lemma TallyTotals(names: seq<string>, remix: seq<TestRecord>, clips: seq<TestRecord>, n: string)
    requires n in names
    ensures var m := TallyOf(names, remix, clips)[n];
            && m.totalTests == CountIf(remix, IsSong(n)) + CountIf(clips, IsSong(n))
            && m.totalPass == CountIf(remix, InBucket(n, PassBucket)) + CountIf(clips, InBucket(n, PassBucket))
            && m.totalFail == CountIf(remix, NotPassed(n)) + CountIf(clips, NotPassed(n))
            && 0 <= m.totalFail == m.totalTests - m.totalPass
  {
    BucketPartition(remix, n);
    BucketPartition(clips, n);
  }

  lemma NoResultsNoCounts(tests: seq<TestRecord>, n: string)
    requires CountIf(tests, IsSong(n)) == 0
    ensures CountIf(tests, InBucket(n, PassBucket)) == 0
    ensures CountIf(tests, InBucket(n, FailBucket)) == 0
    ensures CountIf(tests, InBucket(n, NoMatchBucket)) == 0
  {
    BucketPartition(tests, n);
  }

  /** A song without results keeps all its counters at zero. */
  lemma UntestedSongIsZero(names: seq<string>, remix: seq<TestRecord>, clips: seq<TestRecord>, n: string)
    requires n in names
    requires CountIf(remix, IsSong(n)) == 0 && CountIf(clips, IsSong(n)) == 0
    ensures TallyOf(names, remix, clips)[n] == Zero
  {
    NoResultsNoCounts(remix, n);
    NoResultsNoCounts(clips, n);
    assert Counters(n, remix, clips) == Zero;
  }

  /** The counters do not depend on the order of the pools. */
  lemma TallyIgnoresOrder(names: seq<string>, remix: seq<TestRecord>, remix': seq<TestRecord>,
                          clips: seq<TestRecord>, clips': seq<TestRecord>)
    requires multiset(remix) == multiset(remix') && multiset(clips) == multiset(clips')
    ensures TallyOf(names, remix, clips) == TallyOf(names, remix', clips')
  {
    forall n ensures Counters(n, remix, clips) == Counters(n, remix', clips') {
      forall b: Bucket
        ensures CountIf(remix, InBucket(n, b)) == CountIf(remix', InBucket(n, b))
        ensures CountIf(clips, InBucket(n, b)) == CountIf(clips', InBucket(n, b))
      {
        CountIfPermutation(remix, remix', InBucket(n, b));
        CountIfPermutation(clips, clips', InBucket(n, b));
      }
    }
  }

  // ---------------------------------------------------------------- the sort

  predicate Passed(t: TestRecord)
  {
    t.result.status == Pass
  }

  /**
   * The key `(status == "PASS", song)` as one string: a flag character, '0'
   * for a result that did not pass and '1' for one that did, then the song.
   */
  function TestKey(t: TestRecord): (k: string)
    ensures |k| == |t.song| + 1 && k[1..] == t.song
  {
    [if Passed(t) then '1' else '0'] + t.song
  }

  /** String order on the key is Python's order on the pair (`False < True`, then by song). */
  lemma TestKeyOrder(a: TestRecord, b: TestRecord)
    ensures StrLe(TestKey(a), TestKey(b)) <==>
            (!Passed(a) && Passed(b)) || (Passed(a) == Passed(b) && StrLe(a.song, b.song))
  {
    assert TestKey(a)[1..] == a.song && TestKey(b)[1..] == b.song;
  }

  /** Equal keys are equal pairs. */
  lemma TestKeyInjective(a: TestRecord, b: TestRecord)
    ensures TestKey(a) == TestKey(b) <==> Passed(a) == Passed(b) && a.song == b.song
  {
    if TestKey(a) == TestKey(b) {
      assert TestKey(a)[0] == TestKey(b)[0];
      assert a.song == TestKey(a)[1..];
    }
  }

  /** `tests.sort(key=lambda r: (r["status"] == "PASS", r["song"]))`. */
  function SortTests(tests: seq<TestRecord>): (r: seq<TestRecord>)
    ensures multiset(r) == multiset(tests)
  {
    SortBy(tests, TestKey)
  }

  /**
   * The emitted order: a permutation of the pool, every non-PASS result
   * before every PASS result, songs in ascending order within each group,
   * and results with the same pass flag and song in their original order.
   */
  lemma SortTestsLaw(tests: seq<TestRecord>)
    ensures multiset(SortTests(tests)) == multiset(tests)
    ensures forall i, j :: 0 <= i < j < |SortTests(tests)| && Passed(SortTests(tests)[i])
              ==> Passed(SortTests(tests)[j])
    ensures forall i, j :: 0 <= i < j < |SortTests(tests)| && Passed(SortTests(tests)[i]) == Passed(SortTests(tests)[j])
              ==> StrLe(SortTests(tests)[i].song, SortTests(tests)[j].song)
    ensures forall t :: KeyFilter(SortTests(tests), TestKey, TestKey(t)) == KeyFilter(tests, TestKey, TestKey(t))
  {
    var r := SortTests(tests);
    SortByCorrect(tests, TestKey);
    forall i, j | 0 <= i < j < |r|
      ensures (!Passed(r[i]) && Passed(r[j])) || (Passed(r[i]) == Passed(r[j]) && StrLe(r[i].song, r[j].song))
    {
      TestKeyOrder(r[i], r[j]);
    }
  }

  // ------------------------------------------------------------- the summary

  function HasStatus(st: Status): TestRecord -> bool
  {
    (t: TestRecord) => t.result.status == st
  }

  /** `count_status(tests, status)`. */
  function CountStatus(tests: seq<TestRecord>, st: Status): (n: nat)
    ensures n <= |tests|
  {
    CountIf(tests, HasStatus(st))
  }

  lemma {:induction false} StatusPartition(tests: seq<TestRecord>)
    ensures CountStatus(tests, Pass) + CountStatus(tests, Fail) + CountStatus(tests, NoMatch)
            + CountStatus(tests, Error) == |tests|
  {
    if tests != [] {
      StatusPartition(tests[..|tests| - 1]);
    }
  }

  datatype PoolSummary = PoolSummary(total: nat, pass: nat, fail: nat, noMatch: nat)

  datatype OverallSummary = OverallSummary(total: nat, pass: nat, fail: int)

  /** An accuracy field: "N/A", or `pass/total` rendered as a percentage. */
  datatype Accuracy = NotApplicable | Percentage(passed: nat, total: nat)

  datatype Summary = Summary(
    remix: PoolSummary,
    clips: PoolSummary,
    overall: OverallSummary,
    remixAccuracy: Accuracy,
    clipAccuracy: Accuracy,
    overallAccuracy: Accuracy)

  /**
   * One pool's counts. `fail` counts FAIL only, so ERROR results are the
   * part of the total that no field shows.
   */
  function SummarizePool(tests: seq<TestRecord>): (p: PoolSummary)
    ensures p.total == |tests|
    ensures p.pass == CountStatus(tests, Pass) && p.fail == CountStatus(tests, Fail)
            && p.noMatch == CountStatus(tests, NoMatch)
    ensures p.pass + p.fail + p.noMatch + CountStatus(tests, Error) == p.total
  {
    StatusPartition(tests);
    PoolSummary(|tests|, CountStatus(tests, Pass), CountStatus(tests, Fail), CountStatus(tests, NoMatch))
  }

  function AccuracyOf(passed: nat, total: nat): (a: Accuracy)
    ensures a == NotApplicable <==> total == 0
    ensures a.Percentage? ==> a.passed == passed && a.total == total
  {
    if total > 0 then Percentage(passed, total) else NotApplicable
  }

  function NotPass(): TestRecord -> bool
  {
    (t: TestRecord) => t.result.status != Pass
  }

  /** The `summary` section. */
  function Summarize(remix: seq<TestRecord>, clips: seq<TestRecord>): (s: Summary)
    ensures s.remix.total == |remix| && s.clips.total == |clips|
    ensures s.remix.pass == CountStatus(remix, Pass) && s.remix.fail == CountStatus(remix, Fail)
            && s.remix.noMatch == CountStatus(remix, NoMatch)
    ensures s.clips.pass == CountStatus(clips, Pass) && s.clips.fail == CountStatus(clips, Fail)
            && s.clips.noMatch == CountStatus(clips, NoMatch)
    ensures s.overall.total == |remix| + |clips|
    ensures s.overall.pass == s.remix.pass + s.clips.pass
    ensures 0 <= s.overall.fail == s.overall.total - s.overall.pass
    ensures s.overall.fail == CountIf(remix, NotPass()) + CountIf(clips, NotPass())
    ensures s.remixAccuracy == NotApplicable <==> remix == []
    ensures s.clipAccuracy == NotApplicable <==> clips == []
    ensures s.overallAccuracy == NotApplicable <==> remix == [] && clips == []
  {
    var r, c := SummarizePool(remix), SummarizePool(clips);
    var total := r.total + c.total;
    var passed := r.pass + c.pass;
    NotPassComplement(remix);
    NotPassComplement(clips);
    Summary(r, c, OverallSummary(total, passed, total - passed),
            AccuracyOf(r.pass, r.total), AccuracyOf(c.pass, c.total), AccuracyOf(passed, total))
  }

  lemma {:induction false} NotPassComplement(tests: seq<TestRecord>)
    ensures CountIf(tests, NotPass()) == |tests| - CountStatus(tests, Pass)
  {
    if tests != [] {
      NotPassComplement(tests[..|tests| - 1]);
    }
  }

  /** The summary does not depend on the order of the pools, so sorting first changes nothing. */
  lemma SummaryIgnoresOrder(remix: seq<TestRecord>, remix': seq<TestRecord>,
                            clips: seq<TestRecord>, clips': seq<TestRecord>)
    requires multiset(remix) == multiset(remix') && multiset(clips) == multiset(clips')
    ensures Summarize(remix, clips) == Summarize(remix', clips')
  {
    assert |remix| == |multiset(remix)| == |remix'|;
    assert |clips| == |multiset(clips)| == |clips'|;
    forall st: Status
      ensures CountStatus(remix, st) == CountStatus(remix', st)
      ensures CountStatus(clips, st) == CountStatus(clips', st)
    {
      CountIfPermutation(remix, remix', HasStatus(st));
      CountIfPermutation(clips, clips', HasStatus(st));
    }
  }
}
