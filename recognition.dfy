/**
 * `recognize_file` and `parse_match` (dejavu/run_commands/test_my_songs.py):
 * one engine response becomes one result record with exactly one status.
 *
 * The engine call itself is a parameter: its reply is `Failure` when the call
 * raised, `NoReply` when it returned `None`, and otherwise the ranked
 * candidate list with the elapsed time.
 */
module Recognition {
  import opened Wrappers

  /** One ranked candidate as the engine reports it (labels already decoded). */
  datatype Candidate = Candidate(
    songName: string,
    fingerprintedConfidence: real,
    inputConfidence: real,
    hashesMatchedInInput: nat,
    offsetSeconds: real)

  datatype EngineReply =
    | Failure(message: string)
    | NoReply
    | Reply(candidates: seq<Candidate>, totalTime: real)

  datatype Status = Pass | Fail | NoMatch | Error

  /** The fields `parse_match` keeps of a candidate. */
  datatype ParsedMatch = ParsedMatch(
    songName: string,
    confidence: real,
    inputConfidence: real,
    hashesMatched: nat,
    offsetSeconds: real)

  datatype MatchResult = MatchResult(
    file: string,
    expected: string,
    matched: Option<string>,
    confidence: Option<real>,
    hashesMatched: nat,
    top2: Option<ParsedMatch>,
    time: real,
    error: Option<string>,
    status: Status)

  /** The candidate list of a reply; `None` and a failed call have none. */
  function Candidates(reply: EngineReply): seq<Candidate>
  {
    if reply.Reply? then reply.candidates else []
  }

  /** The elapsed time of a reply; `None` counts as 0. */
  function ElapsedTime(reply: EngineReply): real
  {
    if reply.Reply? then reply.totalTime else 0.0
  }

  function ParseMatch(c: Candidate): (m: ParsedMatch)
    // the engine's keys renamed to the report's
    ensures m.songName == c.songName && m.hashesMatched == c.hashesMatchedInInput
    ensures m.confidence == c.fingerprintedConfidence && m.inputConfidence == c.inputConfidence
    ensures m.offsetSeconds == c.offsetSeconds
  {
    ParsedMatch(c.songName, c.fingerprintedConfidence, c.inputConfidence, c.hashesMatchedInInput, c.offsetSeconds)
  }

  /**
   * Classifies one engine reply for `file`, whose ground-truth label is
   * `expected`.
   */
  function RecognizeFile(reply: EngineReply, file: string, expected: string): (r: MatchResult)
    ensures r.file == file && r.expected == expected
    // ERROR exactly when the call failed; the failure text is kept and nothing else is
    ensures r.status == Error <==> reply.Failure?
    ensures r.error.Some? <==> r.status == Error
    ensures reply.Failure? ==> r.error == Some(reply.message) && r.time == 0.0
    // NO_MATCH exactly when the call succeeded with no candidate
    ensures r.status == NoMatch <==> !reply.Failure? && Candidates(reply) == []
    // otherwise PASS exactly when the best candidate carries the expected label
    ensures r.status == Pass <==> !reply.Failure? && Candidates(reply) != [] && Candidates(reply)[0].songName == expected
    ensures r.status == Pass <==> r.matched == Some(expected)
    ensures r.status == Fail <==> r.matched.Some? && r.matched.value != expected
    // the best candidate's label and hash count, or none and 0
    ensures r.matched.Some? <==> !reply.Failure? && Candidates(reply) != []
    ensures r.matched.Some? ==> r.matched.value == Candidates(reply)[0].songName
                                && r.confidence == Some(Candidates(reply)[0].fingerprintedConfidence)
                                && r.hashesMatched == Candidates(reply)[0].hashesMatchedInInput
    ensures r.matched.None? ==> r.confidence.None? && r.hashesMatched == 0 && r.top2.None?
    // the runner-up is recorded whenever there is one, whatever the status
    ensures r.top2.Some? <==> !reply.Failure? && |Candidates(reply)| >= 2
    ensures r.top2.Some? ==> r.top2.value.songName == Candidates(reply)[1].songName
                             && r.top2.value.hashesMatched == Candidates(reply)[1].hashesMatchedInInput
    ensures !reply.Failure? ==> r.time == ElapsedTime(reply)
  {
    if reply.Failure? then
      MatchResult(file, expected, None, None, 0, None, 0.0, Some(reply.message), Error)
    else
      var matches := Candidates(reply);
      var timeTaken := ElapsedTime(reply);
      if |matches| > 0 then
        var top1 := ParseMatch(matches[0]);
        var top2 := if |matches| > 1 then Some(ParseMatch(matches[1])) else None;
        MatchResult(file, expected, Some(top1.songName), Some(top1.confidence), top1.hashesMatched,
                    top2, timeTaken, None, if top1.songName == expected then Pass else Fail)
      else
        MatchResult(file, expected, None, None, 0, None, timeTaken, None, NoMatch)
  }

  /** `None` from the engine is treated exactly like a reply with no candidate and no time. */
  lemma NoReplyIsEmptyReply(file: string, expected: string)
    ensures RecognizeFile(NoReply, file, expected) == RecognizeFile(Reply([], 0.0), file, expected)
  {
  }

  /** The second candidate never changes the classification. */
  lemma StatusIgnoresRunnerUp(c: Candidate, others: seq<Candidate>, others': seq<Candidate>,
                              t: real, t': real, file: string, expected: string)
    ensures RecognizeFile(Reply([c] + others, t), file, expected).status
            == RecognizeFile(Reply([c] + others', t'), file, expected).status
  {
  }
}
