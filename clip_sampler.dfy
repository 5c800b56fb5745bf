/**
 * The offline clip generator (dataset/generate_clips.py): for every remix of
 * a song it draws up to NUM_CLIPS random windows and asks ffmpeg to cut each
 * one out as `clips_<id>/clip_<i>.mp3`.
 *
 * The process-wide `random` module, seeded once with 42, is a
 * `RandomStream`: a fixed sequence of `random.random()` values and the
 * position of the next one. `GenerateClips` and `ProcessSong` consume it in
 * place; each is proved against a pure function of the stream position
 * (`SampleClips`, `ProcessRemixes`), and the lemmas below are about those.
 * ffprobe, ffmpeg and directory listings are parameters.
 */
module ClipSampler {
  import opened Wrappers
  import opened Text
  import Ordering
  import Counting

  const NUM_CLIPS: nat := 12
  const MIN_DURATION: int := 5
  const MAX_DURATION: int := 10

  /** The successive results of `random.random()`. */
  type Stream = nat -> real

  ghost predicate ValidStream(draws: Stream)
  {
    forall k: nat :: 0.0 <= draws(k) < 1.0
  }

  /** `random.randint(lo, hi)` made from one draw `u`: inclusive on both ends. */
  function RandIntDraw(lo: int, hi: int, u: real): (v: int)
    requires lo <= hi
    ensures 0.0 <= u < 1.0 ==> lo <= v <= hi
  {
    var width := (hi - lo + 1) as real;
    assert 0.0 <= u < 1.0 ==> 0.0 <= width * u < width;
    lo + (width * u).Floor
  }

  /** `random.uniform(a, b)`, which is `a + (b - a) * random()`. */
  function UniformDraw(a: real, b: real, u: real): (v: real)
    ensures 0.0 <= u < 1.0 && a <= b ==> a <= v <= b
    ensures 0.0 <= u < 1.0 && b < a ==> b <= v <= a
  {
    a + Scale(b - a, u)
  }

  /** `d * u`; a fraction in [0, 1) moves `d` towards zero. */
  function Scale(d: real, u: real): (r: real)
    ensures 0.0 <= u < 1.0 && d >= 0.0 ==> 0.0 <= r <= d
    ensures 0.0 <= u < 1.0 && d < 0.0 ==> d <= r <= 0.0
  {
    if d >= 0.0 then ScaleMagnitude(d, u) else -ScaleMagnitude(-d, u)
  }

  function ScaleMagnitude(m: real, u: real): (r: real)
    requires m >= 0.0
    ensures 0.0 <= u < 1.0 ==> 0.0 <= r <= m
  {
    assert 0.0 <= u < 1.0 ==> m * u <= m * 1.0;
    m * u
  }

  /** The seeded module-level generator, as the scripts share it. */
  class RandomStream {
    const draws: Stream
    var pos: nat

    ghost predicate Valid()
    {
      ValidStream(draws)
    }

    /** `random.seed(42)`: the stream the seed determines, at its start. */
    constructor Seeded(draws: Stream)
      requires ValidStream(draws)
      ensures Valid() && this.draws == draws && pos == 0
    {
      this.draws := draws;
      pos := 0;
    }

    method RandInt(lo: int, hi: int) returns (v: int)
      requires lo <= hi
      modifies this
      ensures pos == old(pos) + 1
      ensures v == RandIntDraw(lo, hi, draws(old(pos)))
    {
      v := RandIntDraw(lo, hi, draws(pos));
      pos := pos + 1;
    }

    method Uniform(a: real, b: real) returns (v: real)
      modifies this
      ensures pos == old(pos) + 1
      ensures v == UniformDraw(a, b, draws(old(pos)))
    {
      v := UniformDraw(a, b, draws(pos));
      pos := pos + 1;
    }
  }

  /** One ffmpeg cut: `clip_<index>.mp3` taken from `start` for `length` seconds. */
  datatype ClipCommand = ClipCommand(index: nat, start: real, length: int)

  function ClipFileName(index: nat): string
  {
    "clip_" + Decimal(index) + ".mp3"
  }

  /** The latest start that keeps one second of the source after the clip. */
  function MaxStart(duration: real, length: int): real
  {
    duration - length as real - 1.0
  }

  /**
   * Iterations `i..n` of the sampling loop from stream position `pos`: the
   * cuts they issue and the position after them.
   */
  function SampleFrom(duration: real, i: nat, n: nat, draws: Stream, pos: nat): (r: (seq<ClipCommand>, nat))
    // the stream only moves forward, and every cut costs two draws
    ensures pos <= r.1 && 2 * |r.0| <= r.1 - pos
    decreases n + 1 - i
  {
    if i > n then ([], pos)
    else
      var length := RandIntDraw(MIN_DURATION, MAX_DURATION, draws(pos));
      var maxStart := MaxStart(duration, length);
      if maxStart <= 0.0 then SampleFrom(duration, i + 1, n, draws, pos + 1)
      else
        var start := UniformDraw(1.0, maxStart, draws(pos + 1));
        var rest := SampleFrom(duration, i + 1, n, draws, pos + 2);
        ([ClipCommand(i, start, length)] + rest.0, rest.1)
  }

  /** One iteration of the sampling loop, unfolded. */
  lemma SampleFromStep(duration: real, i: nat, n: nat, draws: Stream, pos: nat)
    requires i <= n
    ensures var length := RandIntDraw(MIN_DURATION, MAX_DURATION, draws(pos));
            MaxStart(duration, length) <= 0.0 ==>
              SampleFrom(duration, i, n, draws, pos) == SampleFrom(duration, i + 1, n, draws, pos + 1)
    ensures var length := RandIntDraw(MIN_DURATION, MAX_DURATION, draws(pos));
            var rest := SampleFrom(duration, i + 1, n, draws, pos + 2);
            MaxStart(duration, length) > 0.0 ==>
              SampleFrom(duration, i, n, draws, pos)
              == ([ClipCommand(i, UniformDraw(1.0, MaxStart(duration, length), draws(pos + 1)), length)] + rest.0, rest.1)
  {
  }

  /** `generate_clips` on a source of `duration` seconds, from stream position `pos`. */
  function SampleClips(duration: real, n: nat, draws: Stream, pos: nat): (r: (seq<ClipCommand>, nat))
    ensures duration < MAX_DURATION as real ==> r == ([], pos)
    ensures pos <= r.1 && 2 * |r.0| <= r.1 - pos
  {
    if duration < MAX_DURATION as real then ([], pos)
    else SampleFrom(duration, 1, n, draws, pos)
  }

  /**
   * Every iteration takes one draw for the length and, unless it is skipped,
   * one for the start; an iteration produces one cut exactly when it is not
   * skipped.
   */
  lemma {:induction false} SampleFromConsumption(duration: real, i: nat, n: nat, draws: Stream, pos: nat)
    requires 1 <= i <= n + 1
    ensures var (cuts, next) := SampleFrom(duration, i, n, draws, pos);
            |cuts| <= n + 1 - i && next == pos + (n + 1 - i) + |cuts|
    decreases n + 1 - i
  {
    if i <= n {
      var length := RandIntDraw(MIN_DURATION, MAX_DURATION, draws(pos));
      if MaxStart(duration, length) <= 0.0 {
        SampleFromConsumption(duration, i + 1, n, draws, pos + 1);
      } else {
        SampleFromConsumption(duration, i + 1, n, draws, pos + 2);
      }
    }
  }

  /**
   * The count `generate_clips` returns is at most `n`; a source shorter than
   * MAX_DURATION yields nothing and consumes no draw, any other source
   * consumes one draw per iteration plus one per cut.
   */
  lemma SampleClipsConsumption(duration: real, n: nat, draws: Stream, pos: nat)
    ensures var (cuts, next) := SampleClips(duration, n, draws, pos);
            |cuts| <= n
            && (duration < MAX_DURATION as real ==> cuts == [] && next == pos)
            && (duration >= MAX_DURATION as real ==> next == pos + n + |cuts|)
  {
    if duration >= MAX_DURATION as real {
      SampleFromConsumption(duration, 1, n, draws, pos);
    }
  }

  /** The indices of `cuts` increase strictly and lie within `lo..hi`. */
  ghost predicate IndicesAscending(cuts: seq<ClipCommand>, lo: int, hi: int)
  {
    cuts == [] || (lo <= cuts[0].index <= hi && IndicesAscending(cuts[1..], cuts[0].index + 1, hi))
  }

  lemma {:induction false} IndicesAscendingWeaken(cuts: seq<ClipCommand>, lo: int, lo': int, hi: int)
    requires lo <= lo' && IndicesAscending(cuts, lo', hi)
    ensures IndicesAscending(cuts, lo, hi)
  {
  }

  lemma {:induction false} IndicesAscendingPairwise(cuts: seq<ClipCommand>, lo: int, hi: int)
    requires IndicesAscending(cuts, lo, hi)
    ensures forall a :: 0 <= a < |cuts| ==> lo <= cuts[a].index <= hi
    ensures forall a, b :: 0 <= a < b < |cuts| ==> cuts[a].index < cuts[b].index
  {
    if cuts != [] {
      var tail := cuts[1..];
      IndicesAscendingPairwise(tail, cuts[0].index + 1, hi);
      assert forall a :: 1 <= a < |cuts| ==> cuts[a] == tail[a - 1];
    }
  }

  /** The cut indices are the loop indices: increasing, within `i..n`. */
  lemma {:induction false} SampleFromIndices(duration: real, i: nat, n: nat, draws: Stream, pos: nat)
    ensures IndicesAscending(SampleFrom(duration, i, n, draws, pos).0, i, n)
    decreases n + 1 - i
  {
    if i <= n {
      var length := RandIntDraw(MIN_DURATION, MAX_DURATION, draws(pos));
      if MaxStart(duration, length) <= 0.0 {
        SampleFromIndices(duration, i + 1, n, draws, pos + 1);
        IndicesAscendingWeaken(SampleFrom(duration, i + 1, n, draws, pos + 1).0, i, i + 1, n);
      } else {
        SampleFromIndices(duration, i + 1, n, draws, pos + 2);
        var rest := SampleFrom(duration, i + 1, n, draws, pos + 2).0;
        var cuts := SampleFrom(duration, i, n, draws, pos).0;
        assert cuts[1..] == rest;
      }
    }
  }

  /**
   * What one cut promises about its window. The length is within
   * [MIN_DURATION, MAX_DURATION] and the iteration was not skipped
   * (MaxStart > 0). When MaxStart >= 1 the start lies in [1, MaxStart], so the
   * clip ends at least one second before the source does; when
   * 0 < MaxStart < 1, `uniform(1, MaxStart)` lands in [MaxStart, 1] instead.
   */
  ghost predicate WindowFacts(duration: real, c: ClipCommand)
  {
    var maxStart := MaxStart(duration, c.length);
    && MIN_DURATION <= c.length <= MAX_DURATION
    && maxStart > 0.0
    && (maxStart >= 1.0 ==> 1.0 <= c.start <= maxStart && c.start + c.length as real + 1.0 <= duration)
    && (maxStart < 1.0 ==> maxStart <= c.start <= 1.0)
  }

  lemma {:induction false} SampleFromWindows(duration: real, i: nat, n: nat, draws: Stream, pos: nat)
    requires ValidStream(draws)
    ensures forall c :: c in SampleFrom(duration, i, n, draws, pos).0 ==> WindowFacts(duration, c)
    decreases n + 1 - i
  {
    if i <= n {
      var length := RandIntDraw(MIN_DURATION, MAX_DURATION, draws(pos));
      if MaxStart(duration, length) <= 0.0 {
        SampleFromWindows(duration, i + 1, n, draws, pos + 1);
      } else {
        SampleFromWindows(duration, i + 1, n, draws, pos + 2);
      }
      assert 0.0 <= draws(pos) < 1.0 && 0.0 <= draws(pos + 1) < 1.0;
    }
  }

  /** Every cut `generate_clips` issues satisfies `WindowFacts`. */
  lemma SampleClipsWindows(duration: real, n: nat, draws: Stream, pos: nat)
    requires ValidStream(draws)
    ensures forall c :: c in SampleClips(duration, n, draws, pos).0 ==> WindowFacts(duration, c)
  {
    if duration >= MAX_DURATION as real {
      SampleFromWindows(duration, 1, n, draws, pos);
    }
  }

  lemma CutsWindows(duration: real, n: nat, draws: Stream, pos: nat, cuts: seq<ClipCommand>)
    requires ValidStream(draws) && cuts == SampleClips(duration, n, draws, pos).0
    ensures forall c :: c in cuts ==> WindowFacts(duration, c)
  {
    SampleClipsWindows(duration, n, draws, pos);
  }

  /**
   * The output files of one call are pairwise distinct, and a skipped
   * iteration leaves its number unused.
   */
  lemma SampleClipsFileNames(duration: real, n: nat, draws: Stream, pos: nat)
    ensures var cuts := SampleClips(duration, n, draws, pos).0;
            forall a, b :: 0 <= a < b < |cuts| ==> ClipFileName(cuts[a].index) != ClipFileName(cuts[b].index)
    ensures var cuts := SampleClips(duration, n, draws, pos).0;
            forall a :: 0 <= a < |cuts| ==> 1 <= cuts[a].index <= n
  {
    var cuts := SampleClips(duration, n, draws, pos).0;
    if duration >= MAX_DURATION as real {
      SampleFromIndices(duration, 1, n, draws, pos);
      IndicesAscendingPairwise(cuts, 1, n);
    }
    forall a, b | 0 <= a < b < |cuts| ensures ClipFileName(cuts[a].index) != ClipFileName(cuts[b].index) {
      var fa, fb := ClipFileName(cuts[a].index), ClipFileName(cuts[b].index);
      if fa == fb {
        assert fa[5..|fa| - 4] == Decimal(cuts[a].index);
        assert fb[5..|fb| - 4] == Decimal(cuts[b].index);
        DecimalInjective(cuts[a].index, cuts[b].index);
      }
    }
  }

  /**
   * The trailing one-second buffer is not guaranteed: a 10.5-second source,
   * a length draw of 9 (MaxStart = 0.5) and a start draw of 0.5 give a clip
   * that starts at 0.75 and would need 10.75 seconds of source.
   */
  lemma TrailingBufferCanBeMissed()
    ensures var draws: Stream := k => if k == 0 then 0.7 else 0.5;
            var cuts := SampleClips(10.5, 1, draws, 0).0;
            && cuts == [ClipCommand(1, 0.75, 9)]
            && cuts[0].start < 1.0
            && cuts[0].start + cuts[0].length as real + 1.0 > 10.5
  {
    var draws: Stream := k => if k == 0 then 0.7 else 0.5;
    assert RandIntDraw(MIN_DURATION, MAX_DURATION, draws(0)) == 9 by {
      assert 6.0 * 0.7 == 4.2;
    }
    assert UniformDraw(1.0, 0.5, draws(1)) == 0.75;
    assert SampleFrom(10.5, 2, 1, draws, 2) == ([], 2);
  }

  /** A pass whose clip does not fit issues nothing and takes one draw. */
  lemma SkipStep(duration: real, i: nat, n: nat, draws: Stream, pos: nat)
    requires i <= n && MaxStart(duration, RandIntDraw(MIN_DURATION, MAX_DURATION, draws(pos))) <= 0.0
    ensures [] + SampleFrom(duration, i + 1, n, draws, pos + 1).0 == SampleFrom(duration, i, n, draws, pos).0
    ensures SampleFrom(duration, i + 1, n, draws, pos + 1).1 == SampleFrom(duration, i, n, draws, pos).1
  {
    SampleFromStep(duration, i, n, draws, pos);
    assert [] + SampleFrom(duration, i + 1, n, draws, pos + 1).0 == SampleFrom(duration, i + 1, n, draws, pos + 1).0;
  }

  /** A pass whose clip fits issues one cut and takes two draws. */
  lemma CutStep(duration: real, i: nat, n: nat, draws: Stream, pos: nat)
    requires i <= n && MaxStart(duration, RandIntDraw(MIN_DURATION, MAX_DURATION, draws(pos))) > 0.0
    ensures var length := RandIntDraw(MIN_DURATION, MAX_DURATION, draws(pos));
            var start := UniformDraw(1.0, MaxStart(duration, length), draws(pos + 1));
            && [ClipCommand(i, start, length)] + SampleFrom(duration, i + 1, n, draws, pos + 2).0
               == SampleFrom(duration, i, n, draws, pos).0
            && SampleFrom(duration, i + 1, n, draws, pos + 2).1 == SampleFrom(duration, i, n, draws, pos).1
  {
    SampleFromStep(duration, i, n, draws, pos);
  }

  /** One pass of the sampling loop for clip `i`: draw a length and, when the
      source is long enough for it, a start. The cut is `[]` when skipped. */
  method DrawClip(duration: real, i: nat, numClips: nat, rng: RandomStream) returns (cut: seq<ClipCommand>)
    requires i <= numClips
    modifies rng
    ensures |cut| <= 1
    ensures cut + SampleFrom(duration, i + 1, numClips, rng.draws, rng.pos).0
            == SampleFrom(duration, i, numClips, rng.draws, old(rng.pos)).0
    ensures SampleFrom(duration, i + 1, numClips, rng.draws, rng.pos).1
            == SampleFrom(duration, i, numClips, rng.draws, old(rng.pos)).1
  {
    ghost var here := rng.pos;
    var clipDuration := rng.RandInt(MIN_DURATION, MAX_DURATION);
    var maxStart := MaxStart(duration, clipDuration);
    if maxStart <= 0.0 {
      SkipStep(duration, i, numClips, rng.draws, here);
      return [];
    }
    var startTime := rng.Uniform(1.0, maxStart);
    cut := [ClipCommand(i, startTime, clipDuration)];
    CutStep(duration, i, numClips, rng.draws, here);
  }

  /**
   * `generate_clips`: returns the number of cuts it asked ffmpeg for (their
   * success is not checked) and the cuts themselves.
   */
  method GenerateClips(duration: real, numClips: nat, rng: RandomStream) returns (generated: nat, cuts: seq<ClipCommand>)
    requires rng.Valid()
    modifies rng
    ensures (cuts, rng.pos) == SampleClips(duration, numClips, rng.draws, old(rng.pos))
    ensures generated == |cuts|
    ensures forall c :: c in cuts ==> WindowFacts(duration, c)
  {
    if duration < MAX_DURATION as real {
      return 0, [];
    }
    ghost var total := SampleFrom(duration, 1, numClips, rng.draws, rng.pos);
    generated, cuts := 0, [];
    for i := 1 to numClips + 1
      invariant cuts + SampleFrom(duration, i, numClips, rng.draws, rng.pos).0 == total.0
      invariant SampleFrom(duration, i, numClips, rng.draws, rng.pos).1 == total.1
      invariant generated == |cuts|
    {
      ghost var here := rng.pos;
      var cut := DrawClip(duration, i, numClips, rng);
      Ordering.ConcatAssociative(cuts, cut, SampleFrom(duration, i + 1, numClips, rng.draws, rng.pos).0);
      cuts := cuts + cut;
      generated := generated + |cut|;
    }
    assert SampleFrom(duration, numClips + 1, numClips, rng.draws, rng.pos) == ([], rng.pos);
    assert cuts + [] == cuts;
    CutsWindows(duration, numClips, rng.draws, old(rng.pos), cuts);
  }

  // ---------------------------------------------------------------------
  // process_song

  /** A file `process_song` treats as a remix: `remix_*.mp3`. */
  predicate IsRemixFile(name: string)
  {
    StartsWith(name, "remix_") && EndsWith(name, ".mp3")
  }

  function FilterRemixFiles(listing: seq<string>): (r: seq<string>)
    ensures forall f :: f in r ==> IsRemixFile(f)
    ensures forall f :: multiset(r)[f] == if IsRemixFile(f) then multiset(listing)[f] else 0
  {
    if listing == [] then []
    else
      assert listing == [listing[0]] + listing[1..];
      (if IsRemixFile(listing[0]) then [listing[0]] else []) + FilterRemixFiles(listing[1..])
  }

  /** The remix files of a `remix/` listing, in ascending name order. */
  function RemixFiles(listing: seq<string>): (r: seq<string>)
    ensures forall f :: f in r ==> IsRemixFile(f)
    ensures forall f :: multiset(r)[f] == if IsRemixFile(f) then multiset(listing)[f] else 0
    ensures forall i, j :: 0 <= i < j < |r| ==> Ordering.StrLe(r[i], r[j])
  {
    Ordering.SortStrings(FilterRemixFiles(listing))
  }

  /** `remix_num`: the file name with every "remix_" and then every ".mp3" removed. */
  function RemixId(file: string): (id: string)
    ensures |id| <= |file|
  {
    RemoveAll(RemoveAll(file, "remix_"), ".mp3")
  }

  function ClipsFolder(id: string): string
  {
    "clips_" + id
  }

  /** For the conventional name `remix_<id>.mp3` the id comes back unchanged. */
  lemma RemixIdOfConventionalName(id: string)
    requires !Contains(id, "remix_") && !Contains(id, ".mp3")
    ensures RemixId("remix_" + id + ".mp3") == id
    ensures ClipsFolder(RemixId("remix_" + id + ".mp3")) == "clips_" + id
  {
    var tail := id + ".mp3";
    assert "remix_" + id + ".mp3" == "remix_" + tail;
    RemoveAllLeading("remix_", tail);
    NoRemixPrefixAfter(id);
    assert tail + [] == tail;
    RemoveAllKeeps(tail, [], "remix_");
    NoExtensionInside(id);
    RemoveAllKeeps(id, ".mp3", ".mp3");
    assert RemoveAll(".mp3", ".mp3") == "";
  }

  /** "remix_" holds no '.', so it cannot run into the extension. */
  lemma NoRemixPrefixAfter(id: string)
    requires !Contains(id, "remix_")
    ensures forall p: nat :: p < |id + ".mp3"| ==> !OccursAt((id + ".mp3") + [], "remix_", p)
  {
    var tail := id + ".mp3";
    assert tail + [] == tail;
    forall p: nat | p < |tail| ensures !OccursAt(tail, "remix_", p) {
      if p + 6 <= |id| {
        assert tail[p..p + 6] == id[p..p + 6];
        assert !OccursAt(id, "remix_", p);
      } else if p + 6 <= |tail| {
        var window := tail[p..p + 6];
        assert window[|id| - p] == '.';
        var prefix := "remix_";
        assert forall j :: 0 <= j < |prefix| ==> prefix[j] != '.';
        assert prefix[|id| - p] != window[|id| - p];
      }
    }
  }

  /** ".mp3" begins with the only '.' it holds, so no occurrence straddles `id` and the extension. */
  lemma NoExtensionInside(id: string)
    requires !Contains(id, ".mp3")
    ensures forall p: nat :: p < |id| ==> !OccursAt(id + ".mp3", ".mp3", p)
  {
    var tail := id + ".mp3";
    forall p: nat | p < |id| ensures !OccursAt(tail, ".mp3", p) {
      if p + 4 <= |id| {
        assert tail[p..p + 4] == id[p..p + 4];
        assert !OccursAt(id, ".mp3", p);
      } else if p + 4 <= |tail| {
        var window, ext := tail[p..p + 4], ".mp3";
        assert window[|id| - p] == '.';
        assert forall j :: 0 < j < |ext| ==> ext[j] != '.';
        assert ext[|id| - p] != window[|id| - p];
      }
    }
  }

  /** How many `.mp3` files a clip folder holds; an absent folder holds none. */
  function Mp3Count(listing: Option<seq<string>>): (n: nat)
    ensures listing.None? ==> n == 0
    ensures listing.Some? ==> n <= |listing.value|
    ensures n > 0 <==> listing.Some? && exists f :: f in listing.value && EndsWith(f, ".mp3")
  {
    if listing.None? then 0
    else
      Counting.CountIfPositive(listing.value, IsMp3());
      Counting.CountIf(listing.value, IsMp3())
  }

  function IsMp3(): string -> bool
  {
    (f: string) => EndsWith(f, ".mp3")
  }

  datatype RemixOutcome =
    | AlreadySampled(remixFile: string, clipsFolder: string, existing: nat)
    | Sampled(remixFile: string, clipsFolder: string, generated: nat, cuts: seq<ClipCommand>)

  datatype SongOutcome = NoRemixFolder | NoRemixFiles | Processed(remixes: seq<RemixOutcome>)

  /**
   * The clips this run has written so far, per clip folder. Every cut issued
   * to ffmpeg is taken to produce its file, so a folder that received cuts
   * holds one `.mp3` per cut.
   */
  type Written = map<string, nat>

  function WrittenTo(written: Written, folder: string): nat
  {
    if folder in written then written[folder] else 0
  }

  /**
   * The `.mp3` files in `file`'s clip folder when the loop reaches it: those
   * listed before the run (`clipListing`) and those this run has written.
   */
  function ExistingClips(clipListing: string -> Option<seq<string>>, written: Written, file: string): (n: nat)
    ensures var folder := ClipsFolder(RemixId(file));
            n > 0 <==> (clipListing(folder).Some? && exists f :: f in clipListing(folder).value && EndsWith(f, ".mp3"))
                       || WrittenTo(written, folder) > 0
  {
    var folder := ClipsFolder(RemixId(file));
    Mp3Count(clipListing(folder)) + WrittenTo(written, folder)
  }

  /** A remix is skipped exactly when its clip folder holds an `.mp3` when the loop reaches it. */
  predicate AlreadyHasClips(clipListing: string -> Option<seq<string>>, written: Written, file: string)
  {
    ExistingClips(clipListing, written, file) > 0
  }

  /**
   * The per-remix loop of `process_song` from stream position `pos`.
   * `clipListing` gives the listing of a clip folder before the run (None: not
   * a directory), `written` what the run has added since, and `probe` the
   * duration ffprobe reports for a remix file.
   */
  function ProcessRemixes(files: seq<string>, clipListing: string -> Option<seq<string>>,
                          probe: string -> real, draws: Stream, pos: nat, written: Written)
    : (r: (seq<RemixOutcome>, nat))
    // one outcome per remix file, in listing order, each for its own clip folder
    ensures |r.0| == |files|
    ensures forall k :: 0 <= k < |files| ==>
              r.0[k].remixFile == files[k] && r.0[k].clipsFolder == ClipsFolder(RemixId(files[k]))
    ensures pos <= r.1
  {
    if files == [] then ([], pos)
    else
      var (outcome, next, written') := ProcessRemix(files[0], clipListing, probe, draws, pos, written);
      var rest := ProcessRemixes(files[1..], clipListing, probe, draws, next, written');
      ([outcome] + rest.0, rest.1)
  }

  /**
   * One remix: skipped when its clip folder holds an `.mp3`, sampled
   * otherwise; a sampled remix that got cuts has now filled its folder.
   */
  function ProcessRemix(file: string, clipListing: string -> Option<seq<string>>,
                        probe: string -> real, draws: Stream, pos: nat, written: Written): (r: (RemixOutcome, nat, Written))
    ensures r.0.remixFile == file && r.0.clipsFolder == ClipsFolder(RemixId(file))
    ensures r.0.AlreadySampled? <==> AlreadyHasClips(clipListing, written, file)
    ensures r.0.AlreadySampled? ==> r.0.existing == ExistingClips(clipListing, written, file) && r.1 == pos && r.2 == written
    ensures r.0.Sampled? ==> r.0.generated == |r.0.cuts|
                             && (r.0.cuts, r.1) == SampleClips(probe(file), NUM_CLIPS, draws, pos)
    // only the remix's own folder changes, and it then holds one clip per cut
    ensures forall d :: d != ClipsFolder(RemixId(file)) ==> WrittenTo(r.2, d) == WrittenTo(written, d)
    ensures r.0.Sampled? ==> WrittenTo(r.2, ClipsFolder(RemixId(file))) == |r.0.cuts|
  {
    var folder := ClipsFolder(RemixId(file));
    var existing := ExistingClips(clipListing, written, file);
    if existing > 0 then (AlreadySampled(file, folder, existing), pos, written)
    else
      var (cuts, next) := SampleClips(probe(file), NUM_CLIPS, draws, pos);
      (Sampled(file, folder, |cuts|, cuts), next, if cuts == [] then written else written[folder := |cuts|])
  }

  /** The loop from remix `k` on: remix `k`, then the rest from where it left the stream and the folders. */
  lemma ProcessRemixesAt(files: seq<string>, k: nat, clipListing: string -> Option<seq<string>>,
                         probe: string -> real, draws: Stream, pos: nat, written: Written)
    requires k < |files|
    ensures var (o, next, written') := ProcessRemix(files[k], clipListing, probe, draws, pos, written);
            var rest := ProcessRemixes(files[k + 1..], clipListing, probe, draws, next, written');
            ProcessRemixes(files[k..], clipListing, probe, draws, pos, written) == ([o] + rest.0, rest.1)
  {
    assert files[k..][0] == files[k] && files[k..][1..] == files[k + 1..];
  }

  /** One remix of the per-remix loop, unfolded. */
  lemma ProcessRemixesStep(files: seq<string>, clipListing: string -> Option<seq<string>>,
                           probe: string -> real, draws: Stream, pos: nat, written: Written)
    requires files != []
    ensures var file := files[0];
            var rest := ProcessRemixes(files[1..], clipListing, probe, draws, pos, written);
            AlreadyHasClips(clipListing, written, file) ==>
              ProcessRemixes(files, clipListing, probe, draws, pos, written)
              == ([AlreadySampled(file, ClipsFolder(RemixId(file)), ExistingClips(clipListing, written, file))] + rest.0,
                  rest.1)
    ensures var file := files[0];
            var folder := ClipsFolder(RemixId(file));
            var sample := SampleClips(probe(file), NUM_CLIPS, draws, pos);
            var written' := if sample.0 == [] then written else written[folder := |sample.0|];
            var rest := ProcessRemixes(files[1..], clipListing, probe, draws, sample.1, written');
            !AlreadyHasClips(clipListing, written, file) ==>
              ProcessRemixes(files, clipListing, probe, draws, pos, written)
              == ([Sampled(file, folder, |sample.0|, sample.0)] + rest.0, rest.1)
  {
  }

  /** `process_song` on a song whose `remix/` listing is given (None: no such folder). */
  function ProcessSongSpec(remixListing: Option<seq<string>>, clipListing: string -> Option<seq<string>>,
                           probe: string -> real, draws: Stream, pos: nat): (r: (SongOutcome, nat))
    ensures remixListing.None? ==> r == (NoRemixFolder, pos)
    ensures remixListing.Some? && RemixFiles(remixListing.value) == [] ==> r == (NoRemixFiles, pos)
    ensures r.0.Processed? ==> remixListing.Some? && |r.0.remixes| == |RemixFiles(remixListing.value)| > 0
    ensures pos <= r.1
  {
    if remixListing.None? then (NoRemixFolder, pos)
    else
      var files := RemixFiles(remixListing.value);
      if files == [] then (NoRemixFiles, pos)
      else
        var (outcomes, next) := ProcessRemixes(files, clipListing, probe, draws, pos, map[]);
        (Processed(outcomes), next)
  }

  /** The clip folder of `file` held an `.mp3` before the run. */
  predicate HadClips(clipListing: string -> Option<seq<string>>, file: string)
  {
    Mp3Count(clipListing(ClipsFolder(RemixId(file)))) > 0
  }

  /** The remixes whose clip folder held no `.mp3` before the run, in listing order. */
  function RemixesToSample(files: seq<string>, clipListing: string -> Option<seq<string>>): (r: seq<string>)
    ensures forall f :: multiset(r)[f] == if HadClips(clipListing, f) then 0 else multiset(files)[f]
    ensures forall f :: f in r <==> f in files && !HadClips(clipListing, f)
  {
    if files == [] then []
    else
      assert files == [files[0]] + files[1..];
      (if HadClips(clipListing, files[0]) then [] else [files[0]]) + RemixesToSample(files[1..], clipListing)
  }

  /** The filter keeps listing order: it distributes over concatenation. */
  lemma {:induction false} RemixesToSampleAppend(a: seq<string>, b: seq<string>, clipListing: string -> Option<seq<string>>)
    ensures RemixesToSample(a + b, clipListing) == RemixesToSample(a, clipListing) + RemixesToSample(b, clipListing)
  {
    if a != [] {
      assert (a + b)[0] == a[0] && (a + b)[1..] == a[1..] + b;
      RemixesToSampleAppend(a[1..], b, clipListing);
      Ordering.ConcatAssociative(if HadClips(clipListing, a[0]) then [] else [a[0]],
                                 RemixesToSample(a[1..], clipListing), RemixesToSample(b, clipListing));
    } else {
      assert a + b == b;
    }
  }

  function SampledOnly(outcomes: seq<RemixOutcome>): seq<RemixOutcome>
  {
    if outcomes == [] then []
    else (if outcomes[0].Sampled? then [outcomes[0]] else []) + SampledOnly(outcomes[1..])
  }

  /** The remix files of the sampled outcomes, in order. */
  function SampledFiles(outcomes: seq<RemixOutcome>): seq<string>
  {
    if outcomes == [] then []
    else (if outcomes[0].Sampled? then [outcomes[0].remixFile] else []) + SampledFiles(outcomes[1..])
  }

  lemma OutcomesCons(o: RemixOutcome, rest: seq<RemixOutcome>)
    ensures SampledOnly([o] + rest) == (if o.Sampled? then [o] else []) + SampledOnly(rest)
    ensures SampledFiles([o] + rest) == (if o.Sampled? then [o.remixFile] else []) + SampledFiles(rest)
  {
    assert ([o] + rest)[0] == o && ([o] + rest)[1..] == rest;
  }

  /** The loop over `file` followed by `tail`. */
  lemma ProcessRemixesCons(file: string, tail: seq<string>, clipListing: string -> Option<seq<string>>,
                           probe: string -> real, draws: Stream, pos: nat, written: Written)
    ensures var step := ProcessRemix(file, clipListing, probe, draws, pos, written);
            var rest := ProcessRemixes(tail, clipListing, probe, draws, step.1, step.2);
            ProcessRemixes([file] + tail, clipListing, probe, draws, pos, written) == ([step.0] + rest.0, rest.1)
  {
    assert ([file] + tail)[0] == file && ([file] + tail)[1..] == tail;
  }

  /**
   * Skipped remixes consume no randomness: a pass over the sampled remixes
   * alone makes the same cuts and ends at the same stream position.
   */
  lemma {:induction false} SkippedRemixesConsumeNoDraws(files: seq<string>, clipListing: string -> Option<seq<string>>,
                                                        probe: string -> real, draws: Stream, pos: nat, written: Written)
    ensures var all := ProcessRemixes(files, clipListing, probe, draws, pos, written);
            var pending := ProcessRemixes(SampledFiles(all.0), clipListing, probe, draws, pos, written);
            SampledOnly(all.0) == pending.0 && all.1 == pending.1
  {
    if files != [] {
      var file, tail := files[0], files[1..];
      assert files == [file] + tail;
      var step := ProcessRemix(file, clipListing, probe, draws, pos, written);
      var o, next, written' := step.0, step.1, step.2;
      var rest := ProcessRemixes(tail, clipListing, probe, draws, next, written');
      ProcessRemixesCons(file, tail, clipListing, probe, draws, pos, written);
      assert ProcessRemixes(files, clipListing, probe, draws, pos, written) == ([o] + rest.0, rest.1);
      SkippedRemixesConsumeNoDraws(tail, clipListing, probe, draws, next, written');
      var pend := ProcessRemixes(SampledFiles(rest.0), clipListing, probe, draws, next, written');
      OutcomesCons(o, rest.0);
      if o.Sampled? {
        ProcessRemixesCons(file, SampledFiles(rest.0), clipListing, probe, draws, pos, written);
        assert SampledFiles([o] + rest.0) == [file] + SampledFiles(rest.0);
        assert ProcessRemixes([file] + SampledFiles(rest.0), clipListing, probe, draws, pos, written)
               == ([o] + pend.0, pend.1);
      } else {
        assert SampledFiles([o] + rest.0) == SampledFiles(rest.0);
        assert next == pos && written' == written;
      }
    }
  }

  /**
   * When no two remixes share a clip folder, a remix is sampled exactly when
   * its folder held no `.mp3` before the run.
   */
  lemma {:induction false} DistinctIdsSampleAsListed(files: seq<string>, clipListing: string -> Option<seq<string>>,
                                                     probe: string -> real, draws: Stream, pos: nat, written: Written)
    requires forall i, j :: 0 <= i < j < |files| ==> ClipsFolder(RemixId(files[i])) != ClipsFolder(RemixId(files[j]))
    requires forall f :: f in files ==> WrittenTo(written, ClipsFolder(RemixId(f))) == 0
    ensures SampledFiles(ProcessRemixes(files, clipListing, probe, draws, pos, written).0)
            == RemixesToSample(files, clipListing)
  {
    if files != [] {
      var file, tail := files[0], files[1..];
      assert files == [file] + tail;
      var step := ProcessRemix(file, clipListing, probe, draws, pos, written);
      var o, next, written' := step.0, step.1, step.2;
      var rest := ProcessRemixes(tail, clipListing, probe, draws, next, written');
      ProcessRemixesCons(file, tail, clipListing, probe, draws, pos, written);
      OutcomesCons(o, rest.0);
      assert file in files;
      assert o.Sampled? <==> !HadClips(clipListing, file);
      DistinctTail(files, clipListing, written, written');
      DistinctIdsSampleAsListed(tail, clipListing, probe, draws, next, written');
    }
  }

  /** The rest of the remixes still have distinct folders that nothing has been written to. */
  lemma DistinctTail(files: seq<string>, clipListing: string -> Option<seq<string>>, written: Written, written': Written)
    requires files != []
    requires forall i, j :: 0 <= i < j < |files| ==> ClipsFolder(RemixId(files[i])) != ClipsFolder(RemixId(files[j]))
    requires forall f :: f in files ==> WrittenTo(written, ClipsFolder(RemixId(f))) == 0
    requires forall d :: d != ClipsFolder(RemixId(files[0])) ==> WrittenTo(written', d) == WrittenTo(written, d)
    ensures forall i, j :: 0 <= i < j < |files[1..]| ==>
              ClipsFolder(RemixId(files[1..][i])) != ClipsFolder(RemixId(files[1..][j]))
    ensures forall f :: f in files[1..] ==> WrittenTo(written', ClipsFolder(RemixId(f))) == 0
  {
    var tail := files[1..];
    forall i, j | 0 <= i < j < |tail| ensures ClipsFolder(RemixId(tail[i])) != ClipsFolder(RemixId(tail[j])) {
      assert tail[i] == files[i + 1] && tail[j] == files[j + 1];
    }
    forall f | f in tail ensures WrittenTo(written', ClipsFolder(RemixId(f))) == 0 {
      var j :| 0 <= j < |tail| && tail[j] == f;
      assert files[j + 1] == f;
    }
  }

  /** Every "remix_" is removed, so `remix_remix_a.mp3` has the id of `remix_a.mp3`. */
  lemma RemixIdIgnoresExtraPrefix(file: string)
    ensures RemixId("remix_" + file) == RemixId(file)
  {
    RemoveAllLeading("remix_", file);
  }

  /** A source longer than MAX_DURATION + 1 seconds always gets at least one cut. */
  lemma LongSourceGetsCuts(duration: real, draws: Stream, pos: nat)
    requires ValidStream(draws) && duration > (MAX_DURATION + 1) as real
    ensures |SampleClips(duration, NUM_CLIPS, draws, pos).0| > 0
  {
    assert 0.0 <= draws(pos) < 1.0;
    SampleFromStep(duration, 1, NUM_CLIPS, draws, pos);
  }

  /** The loop over two remixes: the second starts where the first left the stream and the folders. */
  lemma TwoRemixes(f: string, g: string, clipListing: string -> Option<seq<string>>, probe: string -> real,
                   draws: Stream, pos: nat, written: Written)
    ensures var first := ProcessRemix(f, clipListing, probe, draws, pos, written);
            var second := ProcessRemix(g, clipListing, probe, draws, first.1, first.2);
            ProcessRemixes([f, g], clipListing, probe, draws, pos, written) == ([first.0, second.0], second.1)
  {
    var first := ProcessRemix(f, clipListing, probe, draws, pos, written);
    var second := ProcessRemix(g, clipListing, probe, draws, first.1, first.2);
    ProcessRemixesCons(f, [g], clipListing, probe, draws, pos, written);
    ProcessRemixesCons(g, [], clipListing, probe, draws, first.1, first.2);
    assert [f] + [g] == [f, g] && [g] + [] == [g];
    assert ProcessRemixes([], clipListing, probe, draws, second.1, second.2) == ([], second.1);
    assert [first.0] + ([second.0] + []) == [first.0, second.0];
  }

  /**
   * Two remixes that share an id: the first fills the shared clip folder, so
   * the second finds its clips and is skipped without taking a draw.
   */
  lemma RepeatedIdSkipped(file: string, clipListing: string -> Option<seq<string>>, probe: string -> real,
                          draws: Stream, pos: nat)
    requires ValidStream(draws)
    requires Mp3Count(clipListing(ClipsFolder(RemixId(file)))) == 0
    requires probe(file) > (MAX_DURATION + 1) as real
    ensures var folder := ClipsFolder(RemixId(file));
            var sample := SampleClips(probe(file), NUM_CLIPS, draws, pos);
            && |sample.0| > 0
            && ProcessRemixes([file, "remix_" + file], clipListing, probe, draws, pos, map[])
               == ([Sampled(file, folder, |sample.0|, sample.0), AlreadySampled("remix_" + file, folder, |sample.0|)],
                   sample.1)
  {
    var folder := ClipsFolder(RemixId(file));
    var sample := SampleClips(probe(file), NUM_CLIPS, draws, pos);
    LongSourceGetsCuts(probe(file), draws, pos);
    RemixIdIgnoresExtraPrefix(file);
    var first := ProcessRemix(file, clipListing, probe, draws, pos, map[]);
    assert first.0 == Sampled(file, folder, |sample.0|, sample.0) && first.1 == sample.1;
    var second := ProcessRemix("remix_" + file, clipListing, probe, draws, first.1, first.2);
    assert ExistingClips(clipListing, first.2, "remix_" + file) == |sample.0|;
    assert second.0 == AlreadySampled("remix_" + file, folder, |sample.0|) && second.1 == first.1;
    TwoRemixes(file, "remix_" + file, clipListing, probe, draws, pos, map[]);
  }

  /**
   * Determinism: the outcome depends on the stream only through the draws
   * from the current position on, so the same seed, listings and durations
   * give the same cuts.
   */
  lemma {:induction false} SampleFromDeterministic(duration: real, i: nat, n: nat, d1: Stream, d2: Stream, pos: nat)
    requires forall k: nat :: k >= pos ==> d1(k) == d2(k)
    ensures SampleFrom(duration, i, n, d1, pos) == SampleFrom(duration, i, n, d2, pos)
    decreases n + 1 - i
  {
    if i <= n {
      SampleFromDeterministic(duration, i + 1, n, d1, d2, pos + 1);
      SampleFromDeterministic(duration, i + 1, n, d1, d2, pos + 2);
    }
  }

  lemma {:induction false} ProcessRemixesDeterministic(files: seq<string>, clipListing: string -> Option<seq<string>>,
                                                      probe: string -> real, d1: Stream, d2: Stream, pos: nat,
                                                      written: Written)
    requires forall k: nat :: k >= pos ==> d1(k) == d2(k)
    ensures ProcessRemixes(files, clipListing, probe, d1, pos, written)
            == ProcessRemixes(files, clipListing, probe, d2, pos, written)
  {
    if files != [] {
      var file := files[0];
      ProcessRemixesStep(files, clipListing, probe, d1, pos, written);
      ProcessRemixesStep(files, clipListing, probe, d2, pos, written);
      if AlreadyHasClips(clipListing, written, file) {
        ProcessRemixesDeterministic(files[1..], clipListing, probe, d1, d2, pos, written);
      } else {
        SampleFromDeterministic(probe(file), 1, NUM_CLIPS, d1, d2, pos);
        assert SampleClips(probe(file), NUM_CLIPS, d1, pos) == SampleClips(probe(file), NUM_CLIPS, d2, pos);
        var sample := SampleClips(probe(file), NUM_CLIPS, d1, pos);
        SampleClipsConsumption(probe(file), NUM_CLIPS, d1, pos);
        var written' := if sample.0 == [] then written else written[ClipsFolder(RemixId(file)) := |sample.0|];
        ProcessRemixesDeterministic(files[1..], clipListing, probe, d1, d2, sample.1, written');
      }
    }
  }

  /** `process_song`, consuming the shared stream in place. */
  method ProcessSong(remixListing: Option<seq<string>>, clipListing: string -> Option<seq<string>>,
                     probe: string -> real, rng: RandomStream) returns (outcome: SongOutcome)
    requires rng.Valid()
    modifies rng
    ensures (outcome, rng.pos) == ProcessSongSpec(remixListing, clipListing, probe, rng.draws, old(rng.pos))
  {
    if remixListing.None? {
      return NoRemixFolder;
    }
    var remixFiles := RemixFiles(remixListing.value);
    if remixFiles == [] {
      return NoRemixFiles;
    }
    var outcomes := ProcessRemixList(remixFiles, clipListing, probe, rng);
    outcome := Processed(outcomes);
  }

  /**
   * The per-remix loop of `process_song` over the sorted remix files; each
   * clip folder is looked at afresh, with the clips earlier remixes wrote.
   */
  method ProcessRemixList(remixFiles: seq<string>, clipListing: string -> Option<seq<string>>,
                          probe: string -> real, rng: RandomStream) returns (outcomes: seq<RemixOutcome>)
    requires rng.Valid()
    modifies rng
    ensures (outcomes, rng.pos) == ProcessRemixes(remixFiles, clipListing, probe, rng.draws, old(rng.pos), map[])
  {
    outcomes := [];
    var written: Written := map[];
    ghost var total := ProcessRemixes(remixFiles, clipListing, probe, rng.draws, rng.pos, written);
    for k := 0 to |remixFiles|
      invariant outcomes + ProcessRemixes(remixFiles[k..], clipListing, probe, rng.draws, rng.pos, written).0 == total.0
      invariant ProcessRemixes(remixFiles[k..], clipListing, probe, rng.draws, rng.pos, written).1 == total.1
    {
      ghost var here := ProcessRemixes(remixFiles[k..], clipListing, probe, rng.draws, rng.pos, written);
      ProcessRemixesAt(remixFiles, k, clipListing, probe, rng.draws, rng.pos, written);
      var o;
      o, written := ProcessRemixFile(remixFiles[k], clipListing, written, probe, rng);
      ghost var rest := ProcessRemixes(remixFiles[k + 1..], clipListing, probe, rng.draws, rng.pos, written);
      assert here == ([o] + rest.0, rest.1);
      Ordering.ConcatAssociative(outcomes, [o], rest.0);
      outcomes := outcomes + [o];
    }
    assert remixFiles[|remixFiles|..] == [];
    assert outcomes + [] == outcomes;
  }

  /**
   * One pass of the per-remix loop: skip a remix whose clip folder holds an
   * `.mp3`, sample the others; returns the folders' new contents.
   */
  method ProcessRemixFile(remixFile: string, clipListing: string -> Option<seq<string>>, written: Written,
                          probe: string -> real, rng: RandomStream) returns (outcome: RemixOutcome, written': Written)
    requires rng.Valid()
    modifies rng
    ensures (outcome, rng.pos, written') == ProcessRemix(remixFile, clipListing, probe, rng.draws, old(rng.pos), written)
  {
    var remixNum := RemixId(remixFile);
    var clipsDir := ClipsFolder(remixNum);
    var existing := Mp3Count(clipListing(clipsDir)) + WrittenTo(written, clipsDir);
    if existing > 0 {
      return AlreadySampled(remixFile, clipsDir, existing), written;
    }
    var count, cuts := GenerateClips(probe(remixFile), NUM_CLIPS, rng);
    outcome := Sampled(remixFile, clipsDir, count, cuts);
    written' := if count == 0 then written else written[clipsDir := count];
  }
}
