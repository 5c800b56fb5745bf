/**
 * Small worked runs of the evaluation, stated on the functions the steps
 * are proved against: two songs whose remix of B is mistaken for A, and a
 * clip of B for which the engine finds nothing.
 */
module Scenarios {
  import opened Wrappers
  import opened Counting
  import opened Ordering
  import opened Recognition
  import opened Evaluation
  import opened Metrics

  /** A single-candidate reply naming `song`. */
  function Named(song: string): EngineReply
  {
    Reply([Candidate(song, 1.0, 0.5, 40, 0.0)], 0.25)
  }

  /** The engine of the run: every file is recognised as song A, except one clip of B. */
  function Engine(): string -> EngineReply
  {
    (file: string) => if file == "cb.mp3" then Reply([], 0.25) else Named("A")
  }

  function TwoSongs(): Catalog
  {
    [Song("A", Some("a.mp3"), ["ra.mp3"], ["ca.mp3"]),
     Song("B", Some("b.mp3"), ["rb.mp3"], ["cb.mp3"])]
  }

  function RemixA(): TestRecord
  {
    TestRecord("A", RemixTest, RecognizeFile(Named("A"), "ra.mp3", "A"))
  }

  function RemixB(): TestRecord
  {
    TestRecord("B", RemixTest, RecognizeFile(Named("A"), "rb.mp3", "B"))
  }

  function ClipA(): TestRecord
  {
    TestRecord("A", ClipTest, RecognizeFile(Named("A"), "ca.mp3", "A"))
  }

  function ClipB(): TestRecord
  {
    TestRecord("B", ClipTest, RecognizeFile(Reply([], 0.25), "cb.mp3", "B"))
  }

  lemma TwoSongPools()
    ensures PoolTests(TwoSongs(), RemixTest, Engine()) == [RemixA(), RemixB()]
    ensures PoolTests(TwoSongs(), ClipTest, Engine()) == [ClipA(), ClipB()]
  {
    var c := TwoSongs();
    assert c[..1][..0] == [] && c[..2] == c && c[..1] == [c[0]];
    assert FileTests("A", ["ra.mp3"], RemixTest, Engine()) == [RemixA()];
    assert FileTests("B", ["rb.mp3"], RemixTest, Engine()) == [RemixB()];
    assert FileTests("A", ["ca.mp3"], ClipTest, Engine()) == [ClipA()];
    assert FileTests("B", ["cb.mp3"], ClipTest, Engine()) == [ClipB()];
  }

  lemma RecordsClassified()
    ensures RemixA().result.status == Pass
    ensures RemixB().result.status == Fail && RemixB().result.matched == Some("A")
    ensures ClipA().result.status == Pass
    ensures ClipB().result.status == NoMatch && ClipB().result.matched == None
  {
  }

  lemma CountIfPair<T>(a: T, b: T, p: T -> bool)
    ensures CountIf([a, b], p) == (if p(a) then 1 else 0) + (if p(b) then 1 else 0)
  {
    CountIfSnoc([a], b, p);
    CountIfSnoc([], a, p);
    assert [a] + [b] == [a, b] && [] + [a] == [a];
  }

  /** A pool of one failure and one pass, in that order. */
  lemma SummarizeTwo(f: TestRecord, p: TestRecord)
    requires f.result.status != Pass && p.result.status == Pass
    ensures SummarizePool([f, p]).total == 2 && SummarizePool([f, p]).pass == 1
    ensures SummarizePool([f, p]).fail == (if f.result.status == Fail then 1 else 0)
    ensures SummarizePool([f, p]).noMatch == (if f.result.status == NoMatch then 1 else 0)
  {
    CountIfPair(f, p, HasStatus(Pass));
    CountIfPair(f, p, HasStatus(Fail));
    CountIfPair(f, p, HasStatus(NoMatch));
  }

  /**
   * The remix of B comes out as FAIL and is listed first; the clip of B is
   * NO_MATCH; the pool summaries count one of each.
   */
  lemma TwoSongRun()
    ensures RemixB().result.status == Fail && RemixB().result.matched == Some("A")
    ensures ClipB().result.status == NoMatch && ClipB().result.matched == None
    ensures SortTests(PoolTests(TwoSongs(), RemixTest, Engine())) == [RemixB(), RemixA()]
    ensures SortTests(PoolTests(TwoSongs(), ClipTest, Engine())) == [ClipB(), ClipA()]
    ensures Summarize(SortTests(PoolTests(TwoSongs(), RemixTest, Engine())),
                      SortTests(PoolTests(TwoSongs(), ClipTest, Engine()))).remix == PoolSummary(2, 1, 1, 0)
    ensures Summarize(SortTests(PoolTests(TwoSongs(), RemixTest, Engine())),
                      SortTests(PoolTests(TwoSongs(), ClipTest, Engine()))).clips == PoolSummary(2, 1, 0, 1)
  {
    TwoSongPools();
    RecordsClassified();
    SortsFailureFirst(RemixA(), RemixB());
    SortsFailureFirst(ClipA(), ClipB());
    SummarizeTwo(RemixB(), RemixA());
    SummarizeTwo(ClipB(), ClipA());
  }

  lemma SortBySingle<T>(a: T, key: T -> string)
    ensures SortBy([a], key) == [a]
  {
    assert [a][..0] == [];
  }

  lemma SortBySnoc<T>(s: seq<T>, x: T, key: T -> string)
    ensures SortBy(s + [x], key) == Insert(x, SortBy(s, key), key)
  {
    assert (s + [x])[..|s|] == s;
  }

  /** A passing record placed before a non-passing one ends up behind it. */
  lemma SortsFailureFirst(a: TestRecord, b: TestRecord)
    requires Passed(a) && !Passed(b)
    ensures SortTests([a, b]) == [b, a]
  {
    SortBySingle(a, TestKey);
    SortBySnoc([a], b, TestKey);
    assert [a] + [b] == [a, b];
    assert TestKey(a)[0] == '1' && TestKey(b)[0] == '0';
    assert !StrLe(TestKey(a), TestKey(b));
  }

  /** Sorting three results: the failure first, then the passes by song. */
  lemma SortExample(pc: TestRecord, fa: TestRecord, pb: TestRecord)
    requires pc.song == "C" && fa.song == "A" && pb.song == "B"
    requires Passed(pc) && !Passed(fa) && Passed(pb)
    ensures SortTests([pc, fa, pb]) == [fa, pb, pc]
  {
    SortsFailureFirst(pc, fa);
    SortBySnoc([pc, fa], pb, TestKey);
    assert [pc, fa] + [pb] == [pc, fa, pb];
    ExampleKeys(pc, fa, pb);
    InsertPassBehind(pb, fa, pc);
  }

  lemma ExampleKeys(pc: TestRecord, fa: TestRecord, pb: TestRecord)
    requires pc.song == "C" && fa.song == "A" && pb.song == "B"
    requires Passed(pc) && !Passed(fa) && Passed(pb)
    ensures StrLe(TestKey(fa), TestKey(pb)) && !StrLe(TestKey(pc), TestKey(pb))
  {
    assert TestKey(pc) == "1C" && TestKey(fa) == "0A" && TestKey(pb) == "1B";
    assert StrLe("0A", "1B") && !StrLe("1C", "1B");
  }

  lemma InsertPassBehind(pb: TestRecord, fa: TestRecord, pc: TestRecord)
    requires StrLe(TestKey(fa), TestKey(pb)) && !StrLe(TestKey(pc), TestKey(pb))
    ensures Insert(pb, [fa, pc], TestKey) == [fa, pb, pc]
  {
    assert [fa, pc][1..] == [pc];
    assert Insert(pb, [pc], TestKey) == [pb, pc];
  }
}
