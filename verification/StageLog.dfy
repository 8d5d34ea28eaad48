/** The bounded log of a CI stage, the record written when the stage ends, and the checker of such records. */
module StageLog {
  import opened Prelude

  const MAX_LOG_BYTES: nat := 512 * 1024
  const HEAD_BYTES: nat := 64 * 1024
  const TAIL_BYTES: nat := MAX_LOG_BYTES - HEAD_BYTES

  type Bytes = seq<char>

  // ---------------------------------------------------------------- what is retained

  function FirstBytes(output: Bytes): Bytes {
    output[..Min(HEAD_BYTES, |output|)]
  }

  function LastBytes(rest: Bytes): Bytes {
    rest[|rest| - Min(TAIL_BYTES, |rest|)..]
  }

  /** The last 448 KiB of what follows the first 64 KiB. */
  function TailBytes(output: Bytes): Bytes {
    LastBytes(output[Min(HEAD_BYTES, |output|)..])
  }

  function Retained(output: Bytes): Bytes {
    FirstBytes(output) + TailBytes(output)
  }

  function Flatten(chunks: seq<Bytes>): Bytes {
    if chunks == [] then [] else Flatten(chunks[..|chunks| - 1]) + chunks[|chunks| - 1]
  }

  /** Nothing is lost unless the output is longer than the limit, and then exactly the middle is. */
  lemma RetainedMeaning(output: Bytes)
    ensures |Retained(output)| == Min(MAX_LOG_BYTES, |output|)
    ensures |output| <= MAX_LOG_BYTES ==> Retained(output) == output
    ensures |output| > MAX_LOG_BYTES ==>
              Retained(output) == output[..HEAD_BYTES] + output[|output| - TAIL_BYTES..]
  {
  }

  /** The buffers as `feed` leaves them. */
  datatype Buffers = Buffers(head: Bytes, tail: Bytes, observed: nat)

  function Fed(b: Buffers, chunk: Bytes): Buffers
    requires |b.head| <= HEAD_BYTES
  {
    var take := Min(|chunk|, HEAD_BYTES - |b.head|);
    Buffers(b.head + chunk[..take], LastBytes(b.tail + chunk[take..]), b.observed + |chunk|)
  }

  ghost predicate Holds(b: Buffers, output: Bytes) {
    b == Buffers(FirstBytes(output), TailBytes(output), |output|)
  }

  lemma LastBytesAbsorbs(rest: Bytes, more: Bytes)
    ensures LastBytes(LastBytes(rest) + more) == LastBytes(rest + more)
  {
  }

  /** One chunk after any output keeps exactly the first and the last bytes of the longer output. */
  lemma FedHolds(b: Buffers, output: Bytes, chunk: Bytes)
    requires Holds(b, output)
    ensures |b.head| <= HEAD_BYTES && Holds(Fed(b, chunk), output + chunk)
  {
    var all := output + chunk;
    var take := Min(|chunk|, HEAD_BYTES - |b.head|);
    var k := Min(HEAD_BYTES, |output|);
    assert b.head + chunk[..take] == FirstBytes(all);
    assert output[k..] + chunk[take..] == all[Min(HEAD_BYTES, |all|)..];
    LastBytesAbsorbs(output[k..], chunk[take..]);
  }

  function FedAll(chunks: seq<Bytes>): (b: Buffers)
    ensures |b.head| <= HEAD_BYTES
  {
    if chunks == [] then Buffers([], [], 0)
    else
      var before := FedAll(chunks[..|chunks| - 1]);
      Fed(before, chunks[|chunks| - 1])
  }

  lemma {:induction false} FedAllHolds(chunks: seq<Bytes>)
    ensures Holds(FedAll(chunks), Flatten(chunks))
  {
    if chunks != [] {
      FedAllHolds(chunks[..|chunks| - 1]);
      FedHolds(FedAll(chunks[..|chunks| - 1]), Flatten(chunks[..|chunks| - 1]), chunks[|chunks| - 1]);
    }
  }

  /** However the output is cut into chunks, the buffers end up the same. */
  lemma ChunkingDoesNotMatter(a: seq<Bytes>, b: seq<Bytes>)
    requires Flatten(a) == Flatten(b)
    ensures FedAll(a) == FedAll(b)
  {
    FedAllHolds(a);
    FedAllHolds(b);
  }

  /** The two buffers, extended and trimmed in place. */
  class HeadTail {
    var head: Bytes
    var tail: Bytes
    var observed: nat

    ghost function Value(): Buffers
      reads this
    {
      Buffers(head, tail, observed)
    }

    constructor ()
      ensures Value() == FedAll([])
    {
      head, tail, observed := [], [], 0;
    }

    method Feed(chunk: Bytes)
      requires |head| <= HEAD_BYTES
      modifies this
      ensures Value() == Fed(old(Value()), chunk)
    {
      observed := observed + |chunk|;
      var take := Min(|chunk|, HEAD_BYTES - |head|);
      head := head + chunk[..take];
      tail := tail + chunk[take..];
      var overflow := |tail| - TAIL_BYTES;
      if overflow > 0 {
        tail := tail[overflow..];
      }
    }
  }

  // ---------------------------------------------------------------- the record of a stage

  datatype Cleanup = NotStarted | Unverified | Verified

  /** What happened while the stage ran; exceptions are known by the name of their class. */
  datatype Facts = Facts(
    actualExit: Option<int>, timedOut: bool, interrupted: Option<nat>, cleanup: Cleanup, errorType: Option<Text>)

  datatype Record = Record(
    stage: Text, passed: bool, duration: real, exitCode: int, facts: Facts, truncated: bool, observed: int,
        retained: int)

  function ExitCode(f: Facts): int {
    if f.interrupted.Some? then 128 + f.interrupted.value
    else if f.errorType.Some? || !f.cleanup.Verified? then 125
    else if f.timedOut then 124
    else if f.actualExit.Some? then
      if f.actualExit.value >= 0 then f.actualExit.value else 128 - f.actualExit.value
    else 125
  }

  function BuildRecord(stage: Text, duration: real, f: Facts, b: Buffers): Record {
    Record(stage, ExitCode(f)
        == 0, duration, ExitCode(f), f, b.observed > MAX_LOG_BYTES, b.observed, |b.head| + |b.tail|)
  }

  // ---------------------------------------------------------------- the checker

  /** A JSON value as far as the checks tell them apart; `NotFinite` stands for NaN and the infinities. */
  datatype Json = Null | Bool(flag: bool) | Int(number: int) | Float(value: real) | NotFinite | Str(text: Text) | Other

  /** The keys of a stage result; any other key is one the checks do not know. */
  datatype Key =
    | SchemaVersionKey | StageKey | StatusKey | DurationSecondsKey | ActualExitCodeKey | ExitCodeKey | TimedOutKey
    | InterruptedSignalKey | LogTruncatedKey | ObservedBytesKey | RetainedBytesKey | CleanupStateKey | ErrorTypeKey
    | TestSummaryKey
    | UnknownKey(name: Text)

  type Payload = map<Key, Json>

  const RESULT_KEYS: set<Key> := {
    SchemaVersionKey, StageKey, StatusKey, DurationSecondsKey, ActualExitCodeKey, ExitCodeKey, TimedOutKey,
    InterruptedSignalKey, LogTruncatedKey, ObservedBytesKey, RetainedBytesKey, CleanupStateKey, ErrorTypeKey,
    TestSummaryKey}

  predicate ShapeOk(stage: Text, p: Payload) {
    && p.Keys == RESULT_KEYS
    && p[SchemaVersionKey] == Int(1) && p[StageKey] == Str(stage) && p[TestSummaryKey] == Null
    && (p[StatusKey] == Str("passed") || p[StatusKey] == Str("failed"))
    && (p[CleanupStateKey] == Str("verified") || p[CleanupStateKey] == Str("unverified")
         || p[CleanupStateKey] == Str("not_started"))
  }

  predicate DurationOk(v: Json) {
    (v.Int? && v.number >= 0) || (v.Float? && v.value >= 0.0)
  }

  predicate CounterOk(v: Json) {
    v.Int? && v.number >= 0
  }

  predicate ExitOk(v: Json) {
    v.Null? || v.Int?
  }

  predicate ErrorNameOk(identifier: Text -> bool, v: Json) {
    v.Null? || (v.Str? && identifier(v.text) && |v.text| <= 64)
  }

  predicate OutputOk(p: Payload)
    requires p.Keys == RESULT_KEYS && CounterOk(p[ObservedBytesKey]) && CounterOk(p[RetainedBytesKey])
  {
    && p[TimedOutKey].Bool? && p[LogTruncatedKey].Bool?
    && p[RetainedBytesKey].number <= MAX_LOG_BYTES && p[RetainedBytesKey].number <= p[ObservedBytesKey].number
    && p[LogTruncatedKey].flag == (p[ObservedBytesKey].number > MAX_LOG_BYTES)
  }

  predicate SuccessOk(p: Payload)
    requires p.Keys == RESULT_KEYS
  {
    (p[StatusKey] == Str("passed")) ==
      (&& p[ExitCodeKey] == Int(0) && p[ActualExitCodeKey] == Int(0) && p[CleanupStateKey] == Str("verified")
       && p[TimedOutKey] == Bool(false) && p[InterruptedSignalKey] == Null && p[ErrorTypeKey] == Null)
  }

  /** The checks `summarize` makes of one record; `identifier` is Python's `isidentifier`. */
  predicate Accepted(identifier: Text -> bool, stage: Text, p: Payload) {
    && ShapeOk(stage, p) && DurationOk(p[DurationSecondsKey])
    && CounterOk(p[ExitCodeKey]) && CounterOk(p[ObservedBytesKey]) && CounterOk(p[RetainedBytesKey])
    && ExitOk(p[ActualExitCodeKey]) && ExitOk(p[InterruptedSignalKey])
    && OutputOk(p) && ErrorNameOk(identifier, p[ErrorTypeKey]) && SuccessOk(p)
  }

  /** Exactly the records that are typed, consistent in their counts, and claim success just when they report one. */
  lemma AcceptedMeaning(identifier: Text -> bool, stage: Text, p: Payload)
    requires p.Keys == RESULT_KEYS
    ensures Accepted(identifier, stage, p) <==>
              && p[SchemaVersionKey] == Int(1) && p[StageKey] == Str(stage) && p[TestSummaryKey] == Null
              && (p[StatusKey] == Str("passed") || p[StatusKey] == Str("failed"))
              && (p[CleanupStateKey] == Str("verified") || p[CleanupStateKey] == Str("unverified")
                  || p[CleanupStateKey] == Str("not_started"))
              && ((p[DurationSecondsKey].Int? && p[DurationSecondsKey].number >= 0)
                  || (p[DurationSecondsKey].Float? && p[DurationSecondsKey].value >= 0.0))
              && p[ExitCodeKey].Int? && p[ExitCodeKey].number >= 0
              && (p[ActualExitCodeKey].Int? || p[ActualExitCodeKey].Null?)
              && (p[InterruptedSignalKey].Int? || p[InterruptedSignalKey].Null?)
              && p[TimedOutKey].Bool? && p[LogTruncatedKey].Bool?
              && p[ObservedBytesKey].Int? && p[RetainedBytesKey].Int?
              && 0 <= p[RetainedBytesKey].number <= p[ObservedBytesKey].number
              && p[RetainedBytesKey].number <= 512 * 1024
              && (p[LogTruncatedKey].flag <==> p[ObservedBytesKey].number > 512 * 1024)
              && (p[ErrorTypeKey].Null?
                  || (p[ErrorTypeKey].Str? && identifier(p[ErrorTypeKey].text) && |p[ErrorTypeKey].text| <= 64))
              && (p[StatusKey] == Str("passed") <==>
                    && p[ExitCodeKey] == Int(0) && p[ActualExitCodeKey] == Int(0)
                    && p[CleanupStateKey] == Str("verified") && p[TimedOutKey] == Bool(false)
                    && p[InterruptedSignalKey] == Null && p[ErrorTypeKey] == Null)
  {
  }

  function OptionalInt(v: Option<int>): Json {
    match v case Some(n) => Int(n) case None => Null
  }

  function OptionalText(v: Option<Text>): Json {
    match v case Some(t) => Str(t) case None => Null
  }

  function CleanupName(c: Cleanup): Text {
    match c case NotStarted => "not_started" case Unverified => "unverified" case Verified => "verified"
  }

  /** The record as it is written to the file. */
  function Written(r: Record): (p: Payload)
    ensures p.Keys == RESULT_KEYS
  {
    var f := r.facts;
    var signal := if f.interrupted.None? then Null else Int(f.interrupted.value);
    map[SchemaVersionKey := Int(1), StageKey := Str(r.stage), StatusKey := Str(if r.passed then "passed" else "failed"),
        DurationSecondsKey := Float(r.duration), ActualExitCodeKey := OptionalInt(f.actualExit),
        ExitCodeKey := Int(r.exitCode), TimedOutKey := Bool(f.timedOut), InterruptedSignalKey := signal,
        LogTruncatedKey := Bool(r.truncated), ObservedBytesKey := Int(r.observed), RetainedBytesKey := Int(r.retained),
        CleanupStateKey := Str(CleanupName(f.cleanup)), ErrorTypeKey := OptionalText(f.errorType),
        TestSummaryKey := Null]
  }

  lemma Sizes(chunks: seq<Bytes>)
    ensures FedAll(chunks).observed == |Flatten(chunks)|
    ensures |FedAll(chunks).head| + |FedAll(chunks).tail| == Min(MAX_LOG_BYTES, |Flatten(chunks)|)
    ensures FedAll(chunks).head + FedAll(chunks).tail == Retained(Flatten(chunks))
  {
    FedAllHolds(chunks);
    RetainedMeaning(Flatten(chunks));
  }

  lemma CleanupNames(a: Cleanup)
    ensures CleanupName(a) == "verified" <==> a.Verified?
  {
    assert CleanupName(NotStarted)[0] != CleanupName(Verified)[0]
           && CleanupName(Unverified)[0] != CleanupName(Verified)[0];
  }

  lemma StatusNames()
    ensures "passed" != "failed"
  {
    assert "passed"[0] != "failed"[0];
  }

  lemma ExitCodeMeaning(f: Facts)
    ensures ExitCode(f) >= 0
    ensures ExitCode(f) == 0 <==> f == Facts(Some(0), false, None, Verified, None)
  {
  }

  lemma WrittenNames(r: Record, p: Payload)
    requires p == Written(r)
    ensures p[SchemaVersionKey] == Int(1) && p[StageKey] == Str(r.stage) && p[TestSummaryKey] == Null
    ensures p[StatusKey] == Str(if r.passed then "passed" else "failed")
  {
  }

  lemma WrittenEnds(r: Record, p: Payload)
    requires p == Written(r)
    ensures p[CleanupStateKey] == Str(CleanupName(r.facts.cleanup))
    ensures p[ErrorTypeKey] == OptionalText(r.facts.errorType)
  {
  }

  lemma WrittenFlags(r: Record, p: Payload)
    requires p == Written(r)
    ensures p[TimedOutKey] == Bool(r.facts.timedOut) && p[LogTruncatedKey] == Bool(r.truncated)
  {
  }

  lemma WrittenNumbers(r: Record, p: Payload)
    requires p == Written(r)
    ensures p[DurationSecondsKey] == Float(r.duration) && p[ExitCodeKey] == Int(r.exitCode)
    ensures p[ObservedBytesKey] == Int(r.observed) && p[RetainedBytesKey] == Int(r.retained)
  {
  }

  lemma WrittenExits(r: Record, p: Payload)
    requires p == Written(r)
    ensures p[ActualExitCodeKey] == OptionalInt(r.facts.actualExit)
    ensures p[InterruptedSignalKey] == if r.facts.interrupted.None? then Null else Int(r.facts.interrupted.value)
  {
  }

  lemma SuccessIsOk(f: Facts, p: Payload)
    requires p.Keys == RESULT_KEYS
    requires p[StatusKey] == Str(if ExitCode(f) == 0 then "passed" else "failed") && p[ExitCodeKey] == Int(ExitCode(f))
    requires p[ActualExitCodeKey] == OptionalInt(f.actualExit) && p[CleanupStateKey] == Str(CleanupName(f.cleanup))
    requires p[TimedOutKey] == Bool(f.timedOut) && p[ErrorTypeKey] == OptionalText(f.errorType)
    requires p[InterruptedSignalKey] == if f.interrupted.None? then Null else Int(f.interrupted.value)
    ensures SuccessOk(p)
  {
    ExitCodeMeaning(f);
    CleanupNames(f.cleanup);
    StatusNames();
  }

  lemma SizedRecordAccepted(identifier: Text -> bool, stage: Text, duration: real, f: Facts, b: Buffers, p: Payload)
    requires duration >= 0.0 && |b.head| + |b.tail| == Min(MAX_LOG_BYTES, b.observed)
    requires p.Keys == RESULT_KEYS && p == Written(BuildRecord(stage, duration, f, b))
    ensures Accepted(identifier, stage, p) <==>
              (f.errorType.Some? ==> identifier(f.errorType.value) && |f.errorType.value| <= 64)
  {
    var r := BuildRecord(stage, duration, f, b);
    WrittenNames(r, p);
    WrittenEnds(r, p);
    WrittenFlags(r, p);
    WrittenExits(r, p);
    WrittenNumbers(r, p);
    ExitCodeMeaning(f);
    SuccessIsOk(f, p);
    AcceptedParts(identifier, stage, r, p);
  }

  lemma AcceptedParts(identifier: Text -> bool, stage: Text, r: Record, p: Payload)
    requires p.Keys == RESULT_KEYS && SuccessOk(p)
    requires p[SchemaVersionKey] == Int(1) && p[StageKey] == Str(stage) && p[TestSummaryKey] == Null
    requires p[StatusKey] == Str("passed") || p[StatusKey] == Str("failed")
    requires p[CleanupStateKey] == Str(CleanupName(r.facts.cleanup))
             && p[ErrorTypeKey] == OptionalText(r.facts.errorType)
    requires DurationOk(p[DurationSecondsKey]) && CounterOk(p[ExitCodeKey])
    requires CounterOk(p[ObservedBytesKey]) && CounterOk(p[RetainedBytesKey]) && OutputOk(p)
    requires ExitOk(p[ActualExitCodeKey]) && ExitOk(p[InterruptedSignalKey])
    ensures Accepted(identifier, stage, p) <==> ErrorNameOk(identifier, p[ErrorTypeKey])
  {
  }

  /** Every record a stage builds from what it retained passes the checks, unless the name of the exception does not. */
  lemma BuiltRecordAccepted(identifier: Text -> bool, stage: Text, duration: real, f: Facts, chunks: seq<Bytes>)
    requires duration >= 0.0
    ensures Accepted(identifier, stage, Written(BuildRecord(stage, duration, f, FedAll(chunks)))) <==>
              (f.errorType.Some? ==> identifier(f.errorType.value) && |f.errorType.value| <= 64)
  {
    Sizes(chunks);
    SizedRecordAccepted(identifier, stage, duration, f, FedAll(chunks),
        Written(BuildRecord(stage, duration, f, FedAll(chunks))));
  }

  /** A stage passes exactly when its command exited with zero, in time, undisturbed and cleaned up. */
  lemma PassedMeaning(stage: Text, duration: real, f: Facts, b: Buffers)
    ensures BuildRecord(stage, duration, f, b).passed <==> f == Facts(Some(0), false, None, Verified, None)
  {
    ExitCodeMeaning(f);
  }

  // ---------------------------------------------------------------- running a stage

  /** What one turn of the main loop meets. */
  datatype Turn =
    | Chunk(bytes: Bytes) | Quiet | Signalled(signum: nat) | DeadlinePassed | ChildExited | Raised(name: Text)

  datatype DrainEnd = EndOfFile | StillOpen | DrainRaised(name: Text)

  /** What the operating system does after the main loop: the stop, the exit code, the remaining output, a late
      signal. */
  datatype Aftermath = Aftermath(stopError: Option<Text>, exit: Option<int>, rest: seq<Bytes>, end: DrainEnd,
      lateSignal: Option<nat>)

  /** The log on disk is the head so far. */
  ghost predicate Logged(buffers: HeadTail, log: Bytes, chunks: seq<Bytes>)
    reads buffers
  {
    buffers.Value() == FedAll(chunks) && log == buffers.head
  }

  /** Copies each new head byte to the log while feeding the buffers. */
  method Drain(buffers: HeadTail, log: Bytes, chunk: Bytes, ghost chunks: seq<Bytes>) returns (written: Bytes)
    requires Logged(buffers, log, chunks)
    modifies buffers
    ensures Logged(buffers, written, chunks + [chunk])
  {
    var previous := |buffers.head|;
    buffers.Feed(chunk);
    assert (chunks + [chunk])[..|chunks|] == chunks;
    written := log + buffers.head[previous..];
  }

  /** The chunks among the first `n` turns. */
  function ChunksUpTo(turns: seq<Turn>, n: nat): seq<Bytes>
    requires n <= |turns|
  {
    if n == 0 then []
    else if turns[n - 1].Chunk? then ChunksUpTo(turns, n - 1) + [turns[n - 1].bytes]
    else ChunksUpTo(turns, n - 1)
  }

  /** The first turn from `i` on that ends the loop; the script ends when the child has exited. */
  function EndIndex(turns: seq<Turn>, i: nat): (e: nat)
    requires i <= |turns|
    ensures i <= e <= |turns|
    decreases |turns| - i
  {
    if i < |turns| && (turns[i].Chunk? || turns[i].Quiet?) then EndIndex(turns, i + 1) else i
  }

  function TurnAt(turns: seq<Turn>, i: nat): Turn {
    if i < |turns| then turns[i] else ChildExited
  }

  /** One turn that does not end the loop. */
  method DrainTurn(buffers: HeadTail, log: Bytes, turn: Turn, ghost chunks: seq<Bytes>) returns (written: Bytes)
    requires (turn.Chunk? || turn.Quiet?) && Logged(buffers, log, chunks)
    modifies buffers
    ensures Logged(buffers, written, if turn.Chunk? then chunks + [turn.bytes] else chunks)
  {
    if turn.Quiet? {
      return log;
    }
    written := Drain(buffers, log, turn.bytes, chunks);
  }

  /** The main loop, until the child exits, the deadline passes, a signal arrives or something raises. */
  method DrainTurns(buffers: HeadTail, turns: seq<Turn>) returns (log: Bytes, read: seq<Bytes>, i: nat)
    requires Logged(buffers, [], [])
    modifies buffers
    ensures Logged(buffers, log, read)
    ensures i == EndIndex(turns, 0) && read == ChunksUpTo(turns, i)
  {
    log, read, i := [], [], 0;
    while i < |turns| && (turns[i].Chunk? || turns[i].Quiet?)
      invariant i <= |turns| && read == ChunksUpTo(turns, i)
      invariant Logged(buffers, log, read)
      invariant EndIndex(turns, 0) == EndIndex(turns, i)
    {
      log := DrainTurn(buffers, log, turns[i], read);
      read := if turns[i].Chunk? then read + [turns[i].bytes] else read;
      i := i + 1;
    }
  }

  /** What a descendant still writes after the stop: the chunks from `start` on. */
  method DrainRest(buffers: HeadTail, log: Bytes, all: seq<Bytes>, start: nat) returns (written: Bytes)
    requires start <= |all| && Logged(buffers, log, all[..start])
    modifies buffers
    ensures Logged(buffers, written, all)
  {
    written := log;
    for i := start to |all|
      invariant Logged(buffers, written, all[..i])
    {
      written := Drain(buffers, written, all[i], all[..i]);
      assert all[..i] + [all[i]] == all[..i + 1];
    }
    assert all[..|all|] == all;
  }

  function FactsOf(last: Turn, after: Aftermath): Facts {
    var error := if last.Raised? then Some(last.name) else None;
    var stopped := if after.stopError.Some? then after.stopError else error;
    Facts(after.exit, last.DeadlinePassed?, if last.Signalled? then Some(last.signum) else after.lateSignal,
          if after.stopError.None? && after.end.EndOfFile? then Verified else Unverified,
          if after.end.DrainRaised? then Some(after.end.name) else stopped)
  }

  /** Both loops of `run_stage`, around the stop of the process group. */
  method DrainAll(buffers: HeadTail, turns: seq<Turn>, rest: seq<Bytes>) returns (log: Bytes, read: seq<Bytes>, i: nat)
    requires Logged(buffers, [], [])
    modifies buffers
    ensures Logged(buffers, log, read + rest)
    ensures i == EndIndex(turns, 0) && read == ChunksUpTo(turns, i)
  {
    log, read, i := DrainTurns(buffers, turns);
    assert (read + rest)[..|read|] == read;
    log := DrainRest(buffers, log, read + rest, |read|);
  }

  function RestOf(start: Option<Text>, turns: seq<Turn>, after: Aftermath): seq<Bytes> {
    if start.Some? then [] else ChunksUpTo(turns, EndIndex(turns, 0)) + after.rest
  }

  function StageFacts(start: Option<Text>, turns: seq<Turn>, after: Aftermath): Facts {
    if start.Some? then Facts(None, false, after.lateSignal, NotStarted, start)
    else FactsOf(TurnAt(turns, EndIndex(turns, 0)), after)
  }

  // ---------------------------------------------------------------- what the record reports

  /** The turn that ended the loop: the first that is neither output nor silence, or else the child's exit. */
  ghost predicate EndedBy(turns: seq<Turn>, last: Turn) {
    exists e: nat :: EndsAt(turns, e, last)
  }

  ghost predicate EndsAt(turns: seq<Turn>, e: nat, last: Turn) {
    && e <= |turns| && (forall k :: 0 <= k < e ==> turns[k].Chunk? || turns[k].Quiet?)
    && (if e == |turns| then last == ChildExited else last == turns[e] && !last.Chunk? && !last.Quiet?)
  }

  lemma {:induction false} EndIndexEnds(turns: seq<Turn>, i: nat)
    requires i <= |turns| && forall k :: 0 <= k < i ==> turns[k].Chunk? || turns[k].Quiet?
    ensures var last := TurnAt(turns, EndIndex(turns, i));
            EndedBy(turns, last) && !last.Chunk? && !last.Quiet?
    decreases |turns| - i
  {
    if i < |turns| && (turns[i].Chunk? || turns[i].Quiet?) {
      EndIndexEnds(turns, i + 1);
    } else {
      assert EndsAt(turns, i, TurnAt(turns, i));
    }
  }

  /** The exit code: 128 and the signal if one came, first of all; 125 if something raised or the cleanup is in doubt;
      124 after the deadline; else the command's own, or 128 and the signal that killed it. */
  ghost predicate ExitReported(code: int, start: Option<Text>, last: Turn, after: Aftermath) {
    if start.None? && last.Signalled? then code == 128 + last.signum
    else if after.lateSignal.Some? then code == 128 + after.lateSignal.value
    else if start.Some? || last.Raised? || after.stopError.Some? || !after.end.EndOfFile? then code == 125
    else if last.DeadlinePassed? then code == 124
    else match after.exit
      case None => code == 125
      case Some(own) => if own < 0 then code == 128 + (0 - own) else code == own
  }

  /** The latest exception is the one named: of the drain, else of the stop, else of the loop, else of the start. */
  ghost predicate ErrorReported(name: Option<Text>, start: Option<Text>, last: Turn, after: Aftermath) {
    if start.Some? then name == start
    else if after.end.DrainRaised? then name == Some(after.end.name)
    else if after.stopError.Some? then name == after.stopError
    else if last.Raised? then name == Some(last.name)
    else name == None
  }

  /** What the record says of a stage whose loop ended with `last`. */
  ghost predicate Reports(r: Record, start: Option<Text>, last: Turn, after: Aftermath) {
    && ExitReported(r.exitCode, start, last, after) && ErrorReported(r.facts.errorType, start, last, after)
    && (r.passed <==> start.None? && last.ChildExited? && after.stopError.None? && after.exit == Some(0)
                      && after.end.EndOfFile? && after.lateSignal.None?)
    && (r.facts.timedOut <==> start.None? && last.DeadlinePassed?)
    && (r.facts.cleanup.NotStarted? <==> start.Some?)
    && (r.facts.cleanup.Verified? <==> start.None? && after.stopError.None? && after.end.EndOfFile?)
  }

  lemma StageReports(stage: Text, start: Option<Text>, turns: seq<Turn>, after: Aftermath, duration: real, b: Buffers,
                     last: Turn)
    requires last == TurnAt(turns, EndIndex(turns, 0))
    ensures EndedBy(turns, last)
    ensures Reports(BuildRecord(stage, duration, StageFacts(start, turns, after), b), start, last, after)
  {
    EndIndexEnds(turns, 0);
  }

  /** `run_stage`: the record and the finished log; `start` is the error if the command could not be started. */
  method RunStage(stage: Text, start: Option<Text>, turns: seq<Turn>, after: Aftermath, duration: real)
    returns (r: Record, log: Bytes, ghost chunks: seq<Bytes>)
    ensures chunks == RestOf(start, turns, after)
    ensures r == BuildRecord(stage, duration, StageFacts(start, turns, after), FedAll(chunks))
    ensures log == Retained(Flatten(chunks)) && r.retained == |log| && r.observed == |Flatten(chunks)|
    ensures r.stage == stage && r.duration == duration && (r.truncated <==> r.observed > 512 * 1024)
    ensures exists last :: EndedBy(turns, last) && Reports(r, start, last, after)
  {
    var buffers := new HeadTail();
    var facts := Facts(None, false, after.lateSignal, NotStarted, start);
    log, chunks := [], [];
    if start.None? {
      var read, i;
      log, read, i := DrainAll(buffers, turns, after.rest);
      facts := FactsOf(TurnAt(turns, i), after);
      chunks := read + after.rest;
    }
    Sizes(chunks);
    log := log + buffers.tail;
    r := BuildRecord(stage, duration, facts, Buffers(buffers.head, buffers.tail, buffers.observed));
    StageReports(stage, start, turns, after, duration, FedAll(chunks), TurnAt(turns, EndIndex(turns, 0)));
  }

  // ---------------------------------------------------------------- the summary

  const MAX_JSON_BYTES: nat := 4096
  const MAX_SUMMARY_BYTES: nat := 64 * 1024
  const MAX_ARTIFACT_BYTES: nat := 8 * 1024 * 1024

  /** What a path holds: nothing, something that is no regular file, or a file of some size. */
  datatype Artifact = Absent | Irregular | Regular(size: nat)

  /** The two files of a stage, and what the second one holds; `None` is no JSON object. */
  datatype StageFiles = StageFiles(log: Artifact, json: Artifact, payload: Option<Payload>)

  datatype Entry = Unavailable(stage: Text) | Reported(payload: Payload)

  predicate FileOk(a: Artifact, limit: nat) {
    a.Absent? || (a.Regular? && a.size <= limit)
  }

  function SizeOf(a: Artifact): nat {
    if a.Regular? then a.size else 0
  }

  predicate StageOk(identifier: Text -> bool, stage: Text, f: StageFiles) {
    && FileOk(f.log, MAX_LOG_BYTES) && FileOk(f.json, MAX_JSON_BYTES)
    && (f.json.Regular? ==> f.payload.Some? && Accepted(identifier, stage, f.payload.value))
  }

  function EntryOf(stage: Text, f: StageFiles): Entry {
    if f.json.Regular? && f.payload.Some? then Reported(f.payload.value) else Unavailable(stage)
  }

  function TotalSize(files: seq<StageFiles>): nat {
    if files == [] then 0
    else TotalSize(files[..|files| - 1]) + SizeOf(files[|files| - 1].log) + SizeOf(files[|files| - 1].json)
  }

  /** The checks of one stage; `None` refuses the whole summary. */
  method CheckStage(identifier: Text -> bool, stage: Text, f: StageFiles) returns (entry: Option<Entry>)
    ensures entry == if StageOk(identifier, stage, f) then Some(EntryOf(stage, f)) else None
  {
    if !FileOk(f.log, MAX_LOG_BYTES) || !FileOk(f.json, MAX_JSON_BYTES) {
      return None;
    }
    if f.json.Absent? {
      return Some(Unavailable(stage));
    }
    if f.payload.None? || !Accepted(identifier, stage, f.payload.value) {
      return None;
    }
    return Some(Reported(f.payload.value));
  }

  /** `summarize` over the stages of a group: the first bad artifact or record, or too much in all, refuses the summary;
      `encoded` is the size of the summary as JSON. */
  method Summarize(identifier: Text -> bool, stages: seq<Text>, files: seq<StageFiles>, encoded: nat)
    returns (summary: Option<seq<Entry>>)
    requires |files| == |stages|
    ensures summary.Some? <==>
              && (forall i :: 0 <= i < |stages| ==> StageOk(identifier, stages[i], files[i]))
              && TotalSize(files) + encoded <= MAX_ARTIFACT_BYTES && encoded <= MAX_SUMMARY_BYTES
    ensures summary.Some? ==>
              && |summary.value| == |stages|
              && forall i :: 0 <= i < |stages| ==> summary.value[i] == EntryOf(stages[i], files[i])
  {
    var entries: seq<Entry> := [];
    var total := 0;
    for i := 0 to |stages|
      invariant |entries| == i && total == TotalSize(files[..i])
      invariant forall k :: 0 <= k < i ==> StageOk(identifier, stages[k], files[k])
      invariant forall k :: 0 <= k < i ==> entries[k] == EntryOf(stages[k], files[k])
    {
      assert files[..i + 1][..i] == files[..i];
      var entry := CheckStage(identifier, stages[i], files[i]);
      if entry.None? {
        return None;
      }
      total := total + SizeOf(files[i].log) + SizeOf(files[i].json);
      entries := entries + [entry.value];
    }
    assert files[..|files|] == files;
    if total + encoded > MAX_ARTIFACT_BYTES || encoded > MAX_SUMMARY_BYTES {
      return None;
    }
    return Some(entries);
  }

  /** What a stage leaves behind is never the reason for a refusal, if its record fits its file and its exception has a
      decent name. */
  lemma StageLeavesGoodFiles(identifier: Text -> bool, stage: Text, duration: real, f: Facts, chunks: seq<Bytes>,
                             size: nat)
    requires duration >= 0.0 && size <= MAX_JSON_BYTES
    requires f.errorType.Some? ==> identifier(f.errorType.value) && |f.errorType.value| <= 64
    ensures StageOk(identifier, stage,
                    StageFiles(Regular(|Retained(Flatten(chunks))|), Regular(size),
                               Some(Written(BuildRecord(stage, duration, f, FedAll(chunks))))))
  {
    BuiltRecordAccepted(identifier, stage, duration, f, chunks);
    RetainedMeaning(Flatten(chunks));
  }
}
