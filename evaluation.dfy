/**
 * The evaluation run of dejavu/run_commands/test_my_songs.py, as functions of
 * its inputs: the song catalog, the engine's known content hashes, the labels
 * the engine lists after indexing, and the engine's reply to each file.
 *
 * - bootstrap: which songs are listed as fingerprinted and which reference
 *   recordings are submitted for indexing;
 * - database verification: expected, missing and extra labels;
 * - recognition: one test record per remix file and per clip file.
 */
module Evaluation {
  import opened Wrappers
  import opened Counting
  import opened Ordering
  import opened Recognition

  /** One song folder: its label, its reference recording if any, its remix and clip files. */
  datatype Song = Song(name: string, original: Option<string>, remixes: seq<string>, clips: seq<string>)

  /** The songs in discovery order. */
  type Catalog = seq<Song>

  /** The catalog comes from a dictionary keyed by label: no label appears twice. */
  ghost predicate UniqueNames(catalog: Catalog)
  {
    forall i, j :: 0 <= i < j < |catalog| ==> catalog[i].name != catalog[j].name
  }

  function Names(catalog: Catalog): (r: seq<string>)
    ensures |r| == |catalog|
    ensures forall i :: 0 <= i < |catalog| ==> r[i] == catalog[i].name
    ensures forall s :: s in catalog ==> s.name in r
  {
    if catalog == [] then [] else Names(catalog[..|catalog| - 1]) + [catalog[|catalog| - 1].name]
  }

  // ---------------------------------------------------------------- bootstrap

  /** A content hash as the engine computes it for a file path. */
  type Hash = string

  /** A reference recording handed to the engine for indexing under a label. */
  datatype Submission = Submission(path: string, songName: string)

  function HasOriginal(): Song -> bool
  {
    (s: Song) => s.original.Some?
  }

  /**
   * The labels listed as fingerprinted: every song with a reference
   * recording, whether it was already indexed or is submitted now.
   */
  function Expected(catalog: Catalog): (r: seq<string>)
    ensures |r| == CountIf(catalog, HasOriginal())
    ensures forall n :: n in r <==> exists s :: s in catalog && s.original.Some? && s.name == n
  {
    if catalog == [] then []
    else
      var init, last := catalog[..|catalog| - 1], catalog[|catalog| - 1];
      assert catalog == init + [last];
      Expected(init) + (if last.original.Some? then [last.name] else [])
  }

  /**
   * Song `i`, if it has a recording, is listed once, at the position given by
   * the number of songs with a recording before it; with the length above
   * this fixes the whole list.
   */
  lemma {:induction false} ExpectedAt(catalog: Catalog, i: nat)
    requires i < |catalog| && catalog[i].original.Some?
    ensures CountIf(catalog[..i], HasOriginal()) < |Expected(catalog)|
    ensures Expected(catalog)[CountIf(catalog[..i], HasOriginal())] == catalog[i].name
  {
    var init := catalog[..|catalog| - 1];
    if i < |catalog| - 1 {
      assert init[..i] == catalog[..i] && init[i] == catalog[i];
      ExpectedAt(init, i);
    } else {
      assert catalog[..i] == init;
    }
  }

  /** Songs with a recording are listed in catalog order. */
  lemma ExpectedOrder(catalog: Catalog, i: nat, j: nat)
    requires i < j < |catalog| && catalog[i].original.Some? && catalog[j].original.Some?
    ensures var a, b := CountIf(catalog[..i], HasOriginal()), CountIf(catalog[..j], HasOriginal());
            a < b < |Expected(catalog)| && Expected(catalog)[a] == catalog[i].name
            && Expected(catalog)[b] == catalog[j].name
  {
    ExpectedAt(catalog, i);
    ExpectedAt(catalog, j);
    PrefixSnoc(catalog, i);
    CountIfSnoc(catalog[..i], catalog[i], HasOriginal());
    PrefixSplit(catalog, i + 1, j);
    CountIfAppend(catalog[..i + 1], catalog[i + 1..j], HasOriginal());
  }

  /** The song has a reference recording whose hash the engine does not know yet. */
  predicate NeedsFingerprint(s: Song, hashOf: string -> Hash, known: set<Hash>)
  {
    s.original.Some? && hashOf(s.original.value) !in known
  }

  function NeedsFingerprintOf(hashOf: string -> Hash, known: set<Hash>): (p: Song -> bool)
    ensures forall s :: p(s) <==> s.original.Some? && hashOf(s.original.value) !in known
  {
    (s: Song) => NeedsFingerprint(s, hashOf, known)
  }

  /** The reference recordings submitted for indexing, in catalog order. */
  function PendingSubmissions(catalog: Catalog, hashOf: string -> Hash, known: set<Hash>): (r: seq<Submission>)
    ensures |r| == CountIf(catalog, NeedsFingerprintOf(hashOf, known))
  {
    if catalog == [] then []
    else
      var init, last := catalog[..|catalog| - 1], catalog[|catalog| - 1];
      PendingSubmissions(init, hashOf, known)
        + (if NeedsFingerprint(last, hashOf, known) then [Submission(last.original.value, last.name)] else [])
  }

  /**
   * A submission is made exactly for each song with a reference recording
   * whose hash is not known, under the song's own label.
   */
  lemma {:induction false} PendingSubmissionsExact(catalog: Catalog, hashOf: string -> Hash, known: set<Hash>)
    ensures forall sub :: sub in PendingSubmissions(catalog, hashOf, known) <==>
              exists s :: s in catalog && NeedsFingerprint(s, hashOf, known)
                          && sub == Submission(s.original.value, s.name)
  {
    if catalog != [] {
      var init, last := catalog[..|catalog| - 1], catalog[|catalog| - 1];
      assert catalog == init + [last];
      PendingSubmissionsExact(init, hashOf, known);
    }
  }

  /** One more song of the bootstrap loop: it is listed, and maybe submitted, after the songs before it. */
  lemma BootstrapStep(catalog: Catalog, i: nat, hashOf: string -> Hash, known: set<Hash>)
    requires i < |catalog|
    ensures Expected(catalog[..i + 1])
            == Expected(catalog[..i]) + (if catalog[i].original.Some? then [catalog[i].name] else [])
    ensures PendingSubmissions(catalog[..i + 1], hashOf, known)
            == PendingSubmissions(catalog[..i], hashOf, known)
               + (if NeedsFingerprint(catalog[i], hashOf, known)
                  then [Submission(catalog[i].original.value, catalog[i].name)] else [])
  {
    assert catalog[..i + 1][..i] == catalog[..i];
  }

  /** Songs without a reference recording are neither listed nor submitted. */
  lemma NoOriginalNeverListed(catalog: Catalog, i: nat, hashOf: string -> Hash, known: set<Hash>)
    requires UniqueNames(catalog)
    requires i < |catalog| && catalog[i].original.None?
    ensures catalog[i].name !in Expected(catalog)
    ensures forall sub :: sub in PendingSubmissions(catalog, hashOf, known) ==> sub.songName != catalog[i].name
  {
    PendingSubmissionsExact(catalog, hashOf, known);
    forall s | s in catalog && s.name == catalog[i].name ensures s == catalog[i] {
      var j :| 0 <= j < |catalog| && catalog[j] == s;
      assert j == i;
    }
  }

  /** A song whose recording is already indexed is listed but not submitted again. */
  lemma KnownSongListedNotSubmitted(catalog: Catalog, i: nat, hashOf: string -> Hash, known: set<Hash>)
    requires UniqueNames(catalog)
    requires i < |catalog| && catalog[i].original.Some? && hashOf(catalog[i].original.value) in known
    ensures catalog[i].name in Expected(catalog)
    ensures forall sub :: sub in PendingSubmissions(catalog, hashOf, known) ==> sub.songName != catalog[i].name
  {
    PendingSubmissionsExact(catalog, hashOf, known);
    assert catalog[i] in catalog;
    forall s | s in catalog && s.name == catalog[i].name ensures s == catalog[i] {
      var j :| 0 <= j < |catalog| && catalog[j] == s;
      assert j == i;
    }
  }

  /** The hashes the engine knows once the given submissions are indexed. */
  function SubmittedHashes(subs: seq<Submission>, hashOf: string -> Hash): (h: set<Hash>)
    ensures forall sub :: sub in subs ==> hashOf(sub.path) in h
  {
    set sub | sub in subs :: hashOf(sub.path)
  }

  lemma {:induction false} NoneNeedFingerprint(catalog: Catalog, hashOf: string -> Hash, known: set<Hash>)
    requires forall s :: s in catalog ==> !NeedsFingerprint(s, hashOf, known)
    ensures PendingSubmissions(catalog, hashOf, known) == []
  {
    if catalog != [] {
      var init := catalog[..|catalog| - 1];
      assert catalog[|catalog| - 1] in catalog;
      assert forall s :: s in init ==> s in catalog;
      NoneNeedFingerprint(init, hashOf, known);
    }
  }

  /**
   * Bootstrapping is idempotent: once the submitted recordings are indexed,
   * a second run over the same catalog submits nothing and lists the same songs.
   */
  lemma BootstrapIdempotent(catalog: Catalog, hashOf: string -> Hash, known: set<Hash>)
    ensures PendingSubmissions(catalog, hashOf,
              known + SubmittedHashes(PendingSubmissions(catalog, hashOf, known), hashOf)) == []
  {
    var pending := PendingSubmissions(catalog, hashOf, known);
    var known' := known + SubmittedHashes(pending, hashOf);
    PendingSubmissionsExact(catalog, hashOf, known);
    forall s | s in catalog ensures !NeedsFingerprint(s, hashOf, known') {
      if NeedsFingerprint(s, hashOf, known) {
        assert Submission(s.original.value, s.name) in pending;
      }
    }
    NoneNeedFingerprint(catalog, hashOf, known');
  }

  // ---------------------------------------------------------- db verification

  /** `[n for n in xs if n not in ys]`. */
  function Without(xs: seq<string>, ys: seq<string>): (r: seq<string>)
    ensures forall n :: multiset(r)[n] == if n in ys then 0 else multiset(xs)[n]
    ensures forall n :: n in r <==> n in xs && n !in ys
  {
    if xs == [] then []
    else
      var init, last := xs[..|xs| - 1], xs[|xs| - 1];
      assert xs == init + [last];
      Without(init, ys) + (if last in ys then [] else [last])
  }

  datatype DbVerification = DbVerification(
    songsInDb: nat,
    expected: nat,
    missingFromDb: seq<string>,
    extraInDb: seq<string>,
    allUploaded: bool,
    dbSongList: seq<string>)

  /** `Without` keeps the order of its first list: it distributes over concatenation. */
  lemma {:induction false} WithoutAppend(a: seq<string>, b: seq<string>, ys: seq<string>)
    ensures Without(a + b, ys) == Without(a, ys) + Without(b, ys)
  {
    if b == [] {
      assert a + b == a;
    } else {
      var init, last := b[..|b| - 1], b[|b| - 1];
      assert (a + b)[..|a + b| - 1] == a + init && (a + b)[|a + b| - 1] == last;
      WithoutAppend(a, init, ys);
      Ordering.ConcatAssociative(Without(a, ys), Without(init, ys), if last in ys then [] else [last]);
    }
  }

  /** Compares the labels the engine lists with the songs that have a reference recording. */
  function VerifyDatabase(catalog: Catalog, dbNames: seq<string>): (v: DbVerification)
    ensures v.songsInDb == |dbNames| && v.expected == |Expected(catalog)| == CountIf(catalog, HasOriginal())
    ensures v.missingFromDb == Without(Expected(catalog), dbNames) && v.extraInDb == Without(dbNames, Expected(catalog))
    ensures forall n :: n in v.missingFromDb <==> n in Expected(catalog) && n !in dbNames
    ensures forall n :: n in v.extraInDb <==> n in dbNames && n !in Expected(catalog)
    ensures v.allUploaded <==> v.missingFromDb == []
    ensures v.allUploaded <==> forall n :: n in Expected(catalog) ==> n in dbNames
    ensures multiset(v.dbSongList) == multiset(dbNames)
    ensures forall i, j :: 0 <= i < j < |v.dbSongList| ==> StrLe(v.dbSongList[i], v.dbSongList[j])
  {
    var expected := Expected(catalog);
    var missing := Without(expected, dbNames);
    var extra := Without(dbNames, expected);
    assert missing != [] ==> missing[0] in missing;
    DbVerification(|dbNames|, |expected|, missing, extra, |missing| == 0, SortStrings(dbNames))
  }

  // -------------------------------------------------------------- recognition

  datatype TestKind = RemixTest | ClipTest

  /** One recognition result, tagged with its song and its kind. */
  datatype TestRecord = TestRecord(song: string, kind: TestKind, result: MatchResult)

  function FilesOf(s: Song, kind: TestKind): seq<string>
  {
    if kind == RemixTest then s.remixes else s.clips
  }

  function Classifier(song: string, engine: string -> EngineReply): string -> MatchResult
  {
    (file: string) => RecognizeFile(engine(file), file, song)
  }

  /** The records of one song's files, in file order. */
  function FileTests(song: string, files: seq<string>, kind: TestKind, engine: string -> EngineReply)
    : (r: seq<TestRecord>)
    ensures |r| == |files|
  {
    if files == [] then []
    else FileTests(song, files[..|files| - 1], kind, engine)
           + [TestRecord(song, kind, Classifier(song, engine)(files[|files| - 1]))]
  }

  /** The i-th record is the classification of the engine's reply to the i-th file. */
  lemma {:induction false} FileTestsAt(song: string, files: seq<string>, kind: TestKind,
                                       engine: string -> EngineReply, i: nat)
    requires i < |files|
    ensures FileTests(song, files, kind, engine)[i]
            == TestRecord(song, kind, RecognizeFile(engine(files[i]), files[i], song))
  {
    if i < |files| - 1 {
      FileTestsAt(song, files[..|files| - 1], kind, engine, i);
    }
  }

  /** The records of every song's files of one kind, song by song in catalog order. */
  function PoolTests(catalog: Catalog, kind: TestKind, engine: string -> EngineReply): seq<TestRecord>
  {
    if catalog == [] then []
    else
      var last := catalog[|catalog| - 1];
      PoolTests(catalog[..|catalog| - 1], kind, engine) + FileTests(last.name, FilesOf(last, kind), kind, engine)
  }

  /**
   * Every record of a pool has the pool's kind, expects its own song's
   * label, and comes from a file of that kind in a folder of the catalog.
   */
  lemma {:induction false} PoolTestsShape(catalog: Catalog, kind: TestKind, engine: string -> EngineReply)
    ensures forall t :: t in PoolTests(catalog, kind, engine) ==> t.kind == kind && t.result.expected == t.song
    ensures forall t :: t in PoolTests(catalog, kind, engine) ==>
              exists s :: s in catalog && s.name == t.song && t.result.file in FilesOf(s, kind)
  {
    if catalog != [] {
      var init, last := catalog[..|catalog| - 1], catalog[|catalog| - 1];
      var files := FilesOf(last, kind);
      var own := FileTests(last.name, files, kind, engine);
      PoolTestsShape(init, kind, engine);
      forall t | t in own ensures t.kind == kind && t.song == last.name && t.result.expected == t.song
                                 && t.result.file in files {
        var i :| 0 <= i < |own| && own[i] == t;
        FileTestsAt(last.name, files, kind, engine, i);
        assert files[i] in files;
      }
      assert forall s :: s in init ==> s in catalog;
      assert last in catalog;
    }
  }

  /** Extending the catalog by one song extends its pool by that song's records. */
  lemma PoolTestsStep(catalog: Catalog, i: nat, kind: TestKind, engine: string -> EngineReply)
    requires i < |catalog|
    ensures PoolTests(catalog[..i + 1], kind, engine)
            == PoolTests(catalog[..i], kind, engine) + FileTests(catalog[i].name, FilesOf(catalog[i], kind), kind, engine)
  {
    assert catalog[..i + 1][..i] == catalog[..i];
  }

  /** Every record of a pool carries the label of a catalog song. */
  lemma PoolTestsSongs(catalog: Catalog, kind: TestKind, engine: string -> EngineReply)
    ensures forall t :: t in PoolTests(catalog, kind, engine) ==> t.song in Names(catalog)
  {
    PoolTestsShape(catalog, kind, engine);
    forall t | t in PoolTests(catalog, kind, engine) ensures t.song in Names(catalog) {
      var s :| s in catalog && s.name == t.song && t.result.file in FilesOf(s, kind);
    }
  }

  /** The files of one kind of every song carrying the label `n`, in catalog order. */
  function FilesFor(catalog: Catalog, n: string, kind: TestKind): seq<string>
  {
    if catalog == [] then []
    else
      var init, last := catalog[..|catalog| - 1], catalog[|catalog| - 1];
      FilesFor(init, n, kind) + (if last.name == n then FilesOf(last, kind) else [])
  }

  /** A label appears once, so its files are just its own folder's. */
  lemma {:induction false} FilesForUnique(catalog: Catalog, i: nat, kind: TestKind)
    requires UniqueNames(catalog) && i < |catalog|
    ensures FilesFor(catalog, catalog[i].name, kind) == FilesOf(catalog[i], kind)
    decreases |catalog|
  {
    var init, last := catalog[..|catalog| - 1], catalog[|catalog| - 1];
    var n := catalog[i].name;
    if i == |catalog| - 1 {
      FilesForAbsent(init, n, kind);
    } else {
      assert init[i] == catalog[i];
      FilesForUnique(init, i, kind);
    }
  }

  lemma {:induction false} FilesForAbsent(catalog: Catalog, n: string, kind: TestKind)
    requires forall i :: 0 <= i < |catalog| ==> catalog[i].name != n
    ensures FilesFor(catalog, n, kind) == []
  {
    if catalog != [] {
      FilesForAbsent(catalog[..|catalog| - 1], n, kind);
    }
  }

  function IsSong(n: string): TestRecord -> bool
  {
    (t: TestRecord) => t.song == n
  }

  lemma {:induction false} FileTestsCount(song: string, files: seq<string>, kind: TestKind,
                                          engine: string -> EngineReply, n: string)
    ensures CountIf(FileTests(song, files, kind, engine), IsSong(n)) == if song == n then |files| else 0
  {
    if files != [] {
      var init := files[..|files| - 1];
      FileTestsCount(song, init, kind, engine, n);
      CountIfSnoc(FileTests(song, init, kind, engine),
                  TestRecord(song, kind, RecognizeFile(engine(files[|files| - 1]), files[|files| - 1], song)),
                  IsSong(n));
    }
  }

  /** A pool holds one record per file of each song. */
  lemma {:induction false} PoolTestsPerSong(catalog: Catalog, kind: TestKind, engine: string -> EngineReply, n: string)
    ensures CountIf(PoolTests(catalog, kind, engine), IsSong(n)) == |FilesFor(catalog, n, kind)|
  {
    if catalog != [] {
      var init, last := catalog[..|catalog| - 1], catalog[|catalog| - 1];
      PoolTestsPerSong(init, kind, engine, n);
      FileTestsCount(last.name, FilesOf(last, kind), kind, engine, n);
      CountIfAppend(PoolTests(init, kind, engine), FileTests(last.name, FilesOf(last, kind), kind, engine), IsSong(n));
    }
  }
}
