/** How the order service runs a handler under an idempotency key and replays its outcome. */
module IdempotencyWrapper {
  import opened Common
  import opened Text
  import opened IdempotencyStore

  /** What a handler does: a response, or an error with a status code and a message. */
  datatype Result = Value(response: string) | Failure(code: int, message: string)

  /** What a caller sees. */
  datatype Answer = Success(response: string) | Error(code: int, message: string)

  const OK := 0
  const ALREADY_EXISTS := 6
  const ABORTED := 10
  const INTERNAL := 13
  const PREVIOUS_FAILED := "previous request with the same idempotency key failed"

  predicate KnownCode(code: int) {
    0 <= code <= 16
  }

  function CodeToInt32(code: int): int {
    if KnownCode(code) then code else INTERNAL
  }

  function CodeFromInt(value: int): Option<int> {
    if KnownCode(value) then Some(value) else None
  }

  function StatusOf(r: Result): RecordStatus {
    if r.Value? then Done else Failed
  }

  /** The body and status code cached for an outcome. */
  function CachedBody(r: Result): Body {
    match r
    case Value(response) => ResponseBody(response)
    case Failure(code, message) => ErrorBody(CodeToInt32(if code == OK then INTERNAL else code), message)
  }

  function CachedCode(r: Result): int {
    match r
    case Value(_) => OK
    case Failure(code, _) => if code == OK then INTERNAL else code
  }

  function DecodeFailure(body: Body, httpStatus: int): Answer {
    if body.ErrorBody? && CodeFromInt(body.code).Some? then
      Error(if body.code == OK then INTERNAL else body.code, if body.message == "" then PREVIOUS_FAILED
        else body.message)
    else if httpStatus > 0 && CodeFromInt(httpStatus).Some? then Error(httpStatus, PREVIOUS_FAILED)
    else Error(INTERNAL, PREVIOUS_FAILED)
  }

  function Replay(status: RecordStatus, body: Body, httpStatus: int): Answer {
    match status
    case Done =>
      (match body
       case NoBody => Error(INTERNAL, "idempotency cache is empty")
       case ResponseBody(response) => Success(response)
       case ErrorBody(_, _) => Error(INTERNAL, "failed to decode cached idempotency response"))
    case Processing => Error(ABORTED, "request with the same idempotency key is already processing")
    case Failed => DecodeFailure(body, httpStatus)
  }

  /** What the caller whose handler ran is told. */
  function Direct(r: Result): Answer {
    match r
    case Value(response) => Success(response)
    case Failure(code, message) => Error(code, message)
  }

  /** What later callers are told once the outcome is cached. */
  function Replayed(r: Result): Answer {
    Replay(StatusOf(r), CachedBody(r), CachedCode(r))
  }

  /** The caller whose handler ran hears what the handler said. */
  ghost predicate Tells(r: Result, a: Answer) {
    match r
    case Value(response) => a == Success(response)
    case Failure(code, message) => a == Error(code, message)
  }

  /** A repeat hears the same, except that a code outside 1..16 became 13 and a missing message a fixed one. */
  ghost predicate Repeats(r: Result, a: Answer) {
    match r
    case Value(response) => a == Success(response)
    case Failure(code, message) =>
      && a.Error? && a.code == (if 1 <= code <= 16 then code else 13)
      && a.message == if message == "" then "previous request with the same idempotency key failed" else message
  }

  lemma ReplayedIs(r: Result)
    ensures Tells(r, Direct(r)) && Repeats(r, Replayed(r))
  {
  }

  /**
    Any stored failure is replayed as an error with a code in 1..16 and a message: the code
    of its body if that is known, else the stored code, else 13.
   */
  lemma FailureIsRead(body: Body, code: int)
    ensures var a := Replay(Failed, body, code);
            && a.Error? && a.message != ""
            && (body.ErrorBody? && 1 <= body.code <= 16 ==> a.code == body.code)
            && (body.ErrorBody? && body.code == 0 ==> a.code == 13)
            && (body.ErrorBody? && 0 <= body.code <= 16 && body.message != "" ==> a.message == body.message)
            && (!(body.ErrorBody? && 0 <= body.code <= 16) ==> a.code == if 1 <= code <= 16 then code else 13)
  {
    assert |PREVIOUS_FAILED| == 53;
  }

  /** Caching loses nothing exactly for responses and for errors with a code in 1..16 and a message. */
  lemma ReplayRepeatsFirstAnswer(r: Result)
    ensures Replayed(r) == Direct(r) <==> (r.Failure? ==> 1 <= r.code <= 16 && r.message != "")
    ensures Replayed(r).Error? ==> 1 <= Replayed(r).code <= 16 && Replayed(r).message != ""
  {
    assert |PREVIOUS_FAILED| == 53;
  }

  /** The bytes that are hashed for a request. */
  function Frame(method': string, request: string): string {
    method' + ":" + request
  }

  /** Different requests are framed differently as long as method names hold no colon. */
  lemma {:induction false} FrameInjective(m1: string, r1: string, m2: string, r2: string)
    requires ':' !in m1 && ':' !in m2 && Frame(m1, r1) == Frame(m2, r2)
    ensures m1 == m2 && r1 == r2
    decreases |m1|
  {
    assert Frame(m1, r1)[0] == if m1 == "" then ':' else m1[0];
    assert Frame(m2, r2)[0] == if m2 == "" then ':' else m2[0];
    if m1 == "" {
      assert r1 == Frame(m1, r1)[1..] && r2 == Frame(m2, r2)[1..];
    } else {
      assert m1[0] == Frame(m1, r1)[0] == Frame(m2, r2)[0] == m2[0];
      assert Frame(m1[1..], r1) == Frame(m1, r1)[1..] && Frame(m2[1..], r2) == Frame(m2, r2)[1..];
      FrameInjective(m1[1..], r1, m2[1..], r2);
      assert m1 == [m1[0]] + m1[1..] && m2 == [m2[0]] + m2[1..];
    }
  }

  /**
    One request from start to finish.  `outcome` is what the handler would do; it is
    used only when this request wins the key.
   */
  method WithIdempotency(repo: Repository, key: string, hash: string, now: int, outcome: Result)
    returns (answer: Answer, ran: bool)
    requires Tight(key) && key != "" && Tight(hash) && hash != "" && now + DAY != ZERO_TIME
    modifies repo
    ensures ran <==> key !in old(repo.items)
    ensures ran ==>
              && Tells(outcome, answer)
              && repo.items.Keys == old(repo.items).Keys + {key}
              && (forall k | k in old(repo.items) :: repo.items[k] == old(repo.items)[k])
              && repo.items[key].hash == hash && repo.items[key].ttlAt == now + 86_400_000_000_000
              && Repeats(outcome, Replay(repo.items[key].status, repo.items[key].body, repo.items[key].code))
    ensures !ran ==>
              && repo.items == old(repo.items)
              && var r := repo.items[key];
                 if r.hash != hash then answer.Error? && answer.code == 6
                 else if r.status == Processing then answer.Error? && answer.code == 10
                 else answer == Replay(r.status, r.body, r.code)
  {
    ReplayedIs(outcome);
    var record, error := repo.CreateProcessing(key, hash, now + DAY, now);
    if error.Some? {
      ran := false;
      var r := record.value;
      answer := if error.value == HashMismatch
        then Error(ALREADY_EXISTS, "idempotency key is already used with different request payload")
        else Replay(r.status, r.body, r.code);
      return;
    }
    ran := true;
    var _ := repo.MarkStatus(key, StatusOf(outcome), CachedBody(outcome), CachedCode(outcome), now);
    answer := Direct(outcome);
  }
}
