/**
 * Values shared by every store: JavaScript's "absent" (undefined or null),
 * the errors a store can catch, the `{ message, error }` record the stores
 * keep, an HTTP response as axios delivers it, and the two ways the code
 * searches an array with `Array.prototype.find`.
 */
module Common {

  /** `undefined`/`null` (None) or a present value (Some). */
  datatype Option<T> = None | Some(value: T) {
    function GetOr(default: T): T {
      if Some? then value else default
    }
  }

  /** What a store's `catch` can receive. */
  datatype Error =
    | TypeError                    // a property read on `undefined` (a field the code does not guard)
    | RequestFailed(reason: string) // axios rejected: no response, or a status axios refuses
    | InvalidStatus(status: nat)    // `new Error(`Invalid status ${status}`)`

  datatype Result<T> = Ok(value: T) | Err(error: Error)

  /** The `{ message: error.message, error: error }` object the stores record. */
  datatype ErrorRecord = ErrorRecord(message: string, error: Error)

  /** What `await axios.get/post(...)` yields: a status and a body, or a rejection. */
  datatype Response<T> = Response(status: nat, data: T) | NoResponse(reason: string)

  /** Decimal digits of `n`, as a template literal prints a number. */
  function NatToDecimal(n: nat): (r: string)
    ensures |r| >= 1
    ensures forall i | 0 <= i < |r| :: '0' <= r[i] <= '9'
  {
    var d := [('0' as int + n % 10) as char];
    if n < 10 then d else NatToDecimal(n / 10) + d
  }

  /**
   * `error.message` of each kind of error. A TypeError's message is the
   * engine's own text; "TypeError" stands for it.
   */
  function Message(e: Error): string {
    match e
    case TypeError => "TypeError"
    case RequestFailed(reason) => reason
    case InvalidStatus(status) => "Invalid status " + NatToDecimal(status)
  }

  function Record(e: Error): (r: ErrorRecord)
    ensures r.error == e
  {
    ErrorRecord(Message(e), e)
  }

  /**
   * The status check that follows every request:
   * `if (status !== expected) throw new Error(`Invalid status ${status}`)`,
   * with a rejected request propagating its own error.
   */
  function ExpectStatus<T>(r: Response<T>, expected: nat): (res: Result<T>)
    ensures res.Ok? <==> r.Response? && r.status == expected
    ensures res.Ok? ==> res.value == r.data
    ensures r.Response? && r.status != expected ==> res == Err(InvalidStatus(r.status))
    ensures r.NoResponse? ==> res == Err(RequestFailed(r.reason))
  {
    match r
    case NoResponse(reason) => Err(RequestFailed(reason))
    case Response(status, data) => if status == expected then Ok(data) else Err(InvalidStatus(status))
  }

  /**
   * `array.find(p)` with a predicate that cannot throw, as the index of the
   * element it returns.
   */
  function FindIndex<T>(s: seq<T>, p: T -> bool): (r: Option<nat>)
    ensures r.Some? ==> r.value < |s| && p(s[r.value])
    ensures r.Some? ==> forall j | 0 <= j < r.value :: !p(s[j])
    ensures r.None? <==> forall j | 0 <= j < |s| :: !p(s[j])
  {
    if s == [] then None
    else if p(s[0]) then Some(0)
    else match FindIndex(s[1..], p)
      case None => None
      case Some(k) => Some(k + 1)
  }

  /** `array.find(p)` returning the element itself, `undefined` when nothing matches. */
  function Find<T>(s: seq<T>, p: T -> bool): (r: Option<T>)
    ensures r.None? <==> forall j | 0 <= j < |s| :: !p(s[j])
    ensures r.Some? ==> r == Some(s[FindIndex(s, p).value])
  {
    match FindIndex(s, p)
    case None => None
    case Some(k) => Some(s[k])
  }

  /** A predicate that may throw: it matches, does not match, or raises a TypeError. */
  datatype Verdict = Match | NoMatch | Throws

  /** The outcome of `array.find` with such a predicate. */
  datatype Search = Found(index: nat) | NotFound | Thrown

  /**
   * `array.find(p)` where `p` may throw: the elements are tested in order, the
   * first match is returned and the first throw propagates.
   */
  function Scan<T>(s: seq<T>, test: T -> Verdict): (r: Search)
    ensures r.Found? ==> r.index < |s| && test(s[r.index]) == Match
    ensures r.Found? ==> forall j | 0 <= j < r.index :: test(s[j]) == NoMatch
    ensures r.NotFound? <==> forall j | 0 <= j < |s| :: test(s[j]) == NoMatch
    ensures r.Thrown? ==> exists k | 0 <= k < |s| :: test(s[k]) == Throws && forall j | 0 <= j < k :: test(s[j]) == NoMatch
  {
    if s == [] then NotFound
    else match test(s[0])
      case Match => Found(0)
      case Throws => Thrown
      case NoMatch =>
        match Scan(s[1..], test)
        case Found(k) => Found(k + 1)
        case NotFound => NotFound
        case Thrown =>
          assert forall k | 1 <= k < |s| :: s[k] == s[1..][k - 1];
          Thrown
  }

  /**
   * The scan stops at the first element that does not answer NoMatch: it is
   * found when that element matches and the scan throws when it throws.
   */
  lemma {:induction false} ScanStopsAtFirstVerdict<T>(s: seq<T>, test: T -> Verdict, i: nat)
    requires i < |s| && test(s[i]) != NoMatch
    requires forall j | 0 <= j < i :: test(s[j]) == NoMatch
    ensures Scan(s, test) == if test(s[i]) == Match then Found(i) else Thrown
  {
    if i > 0 {
      assert test(s[0]) == NoMatch;
      assert forall j | 0 <= j < i - 1 :: s[1..][j] == s[j + 1];
      ScanStopsAtFirstVerdict(s[1..], test, i - 1);
    }
  }
}
