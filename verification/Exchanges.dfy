/**
 What passes between the GLPI adapter and its target. The target answers each request as an arbitrary
 function of the whole exchange so far, so other reconciliations may change it between any two requests.
 The context (deadline and cancellation) is observed again before every request.
 */
module Exchanges {
  import opened Wrappers
  import opened Histories

  datatype Kind = Entity | Profile | User | ProfileUser

  /** A paginated search, narrowed to one selector; users are listed as active or as deleted. */
  datatype Query = Query(kind: Kind, deleted: Option<bool>, selector: string)

  datatype Request =
    | InitSession
    | ForceAllEntities
    | GetFullSession
    | KillSession
    | ListOptions(kind: Kind)
    | Search(query: Query, start: nat, end: nat)
    | ReadItem(id: nat)
    | CreateUser(name: string)
    | DeleteAssignment(id: nat)
    | CreateAssignment(user: nat, entity: nat, profile: nat, recursive: bool)

  /** A row of a search result: its id and name fields where they could be decoded. */
  datatype Entry = NotARow | Entry(id: Option<nat>, name: Option<string>)

  datatype ContentRange = Unreadable | ZeroResults | Range(start: nat, end: nat, total: nat)

  datatype Page = Page(total: nat, count: nat, range: ContentRange, data: Option<seq<Entry>>)

  /** A search option as listed: its number and its stable name where they could be decoded. */
  datatype OptionEntry = OptionEntry(number: Option<nat>, uid: Option<string>)

  /** A decoded response body; `Other` is anything the request at hand does not accept. */
  datatype Body =
    | Confirmation
    | Token(token: string)
    | Visibility(showsAll: bool)
    | Options(entries: seq<OptionEntry>)
    | Listing(page: Page)
    | Item(id: nat, user: nat, entity: nat, profile: nat, flag: nat)
    | Created(id: nat)
    | Deleted(id: nat, success: bool)
    | Other

  datatype Failure =
    | Cancelled
    | DeadlineExceeded
    | Transport
    | ResponseBody
    | ResponseTooLarge
    | RuntimeUnavailable
    | InvalidPayload
    | UnsupportedEnvelopeVersion
    | SessionInitFailed
    | IncompleteVisibility
    | SearchMetadataUnavailable
    | SearchPagination
    | MissingReference
    | AmbiguousReference
    | MalformedReference
    | UserCreationFailed
    | MutationFailed
    | VerificationFailed
    | CleanupFailed

  /** Why a request got no usable reply. */
  datatype Cause = Late | Unreachable | BrokenBody | OversizedBody | NoRuntime

  datatype Response = NoReply(cause: Cause) | Reply(status: nat, body: Body)

  function FailureOf(cause: Cause): Failure {
    match cause
    case Late => DeadlineExceeded
    case Unreachable => Transport
    case BrokenBody => ResponseBody
    case OversizedBody => ResponseTooLarge
    case NoRuntime => RuntimeUnavailable
  }

  /** The failures of sending a request, as opposed to those of what it was about. */
  predicate Technical(failure: Failure) {
    || failure.Cancelled? || failure.DeadlineExceeded? || failure.Transport?
    || failure.ResponseBody? || failure.ResponseTooLarge? || failure.RuntimeUnavailable?
  }

  const OK := 200
  const CREATED := 201
  const PARTIAL_CONTENT := 206
  const BAD_REQUEST := 400

  /** One request with the observation it was sent under, its own deadline, and what came back. */
  datatype Exchange = Exchange(request: Request, look: nat, deadline: nat, response: Response)

  type Log = History<Exchange>

  /** The outside: the target's answers, the context as each observation finds it, and the configured timeout. */
  datatype Env = Env(
    answer: (Log, Request) -> Response,
    cancelled: nat -> bool,
    now: nat -> nat,
    deadline: nat,
    timeout: nat)

  /** What the adapter has exchanged so far and how often it has looked at the context. */
  datatype World = World(log: Log, looks: nat)

  /** Cancellation is never withdrawn and the clock never goes back. */
  ghost predicate Steady(env: Env) {
    && (forall i, j :: 0 <= i <= j && env.cancelled(i) ==> env.cancelled(j))
    && (forall i, j :: 0 <= i <= j ==> env.now(i) <= env.now(j))
  }

  predicate Ended(env: Env, look: nat) {
    env.cancelled(look) || env.deadline <= env.now(look)
  }

  /** The context never ends. */
  ghost predicate Calm(env: Env) {
    forall look: nat :: !Ended(env, look)
  }

  function Look(w: World): World {
    w.(looks := w.looks + 1)
  }

  /** Observes the context: cancellation first, then expiry. */
  function CheckContext(env: Env, w: World): (r: Result<(), Failure>)
    ensures r.Ok? <==> !Ended(env, w.looks)
    ensures r.Err? ==> r.error == if env.cancelled(w.looks) then Cancelled else DeadlineExceeded
  {
    if env.cancelled(w.looks) then Err(Cancelled)
    else if env.deadline <= env.now(w.looks) then Err(DeadlineExceeded)
    else Ok(())
  }

  /** The window of one request: the operation timeout from now, but never past the overall deadline. */
  function EffectiveDeadline(env: Env, w: World): (r: Result<nat, Failure>)
    ensures r.Ok? <==> !Ended(env, w.looks)
    ensures r.Err? ==> r.error == if env.cancelled(w.looks) then Cancelled else DeadlineExceeded
    ensures r.Ok? ==> r.value <= env.deadline && r.value <= env.now(w.looks) + env.timeout
    ensures r.Ok? ==> r.value == env.deadline || r.value == env.now(w.looks) + env.timeout
  {
    if env.cancelled(w.looks) then Err(Cancelled)
    else if env.deadline <= env.now(w.looks) then Err(DeadlineExceeded)
    else
      var own := env.now(w.looks) + env.timeout;
      Ok(if env.deadline <= own then env.deadline else own)
  }

  /** Looks at the context and, if it has not ended, sends one request. */
  function Send(env: Env, w: World, request: Request): (r: (Result<Response, Failure>, World))
    ensures Sent(env, w.log, r.1.log) && (!Mutates(request) ==> Reads(env, w.log, r.1.log))
    ensures r.0.Ok? ==> r.0.value.Reply? && r.1.log.Then? && r.1.log.past == w.log
    ensures r.0.Err? ==> Technical(r.0.error)
    ensures !Ended(env, w.looks) && env.answer(w.log, request).NoReply? ==>
              r.0 == Err(FailureOf(env.answer(w.log, request).cause))
    ensures Calm(env) && env.answer(w.log, request).Reply? ==> r.0.Ok?
  {
    var window := EffectiveDeadline(env, w);
    if window.Err? then (Err(window.error), Look(w))
    else
      var response := env.answer(w.log, request);
      var sent := World(Then(w.log, Exchange(request, w.looks, window.value, response)), w.looks + 1);
      (if response.NoReply? then Err(FailureOf(response.cause)) else Ok(response), sent)
  }

  // ---------------------------------------------------------------- how a log may grow

  /** Sent while the context was still live, with a deadline that neither outlives it nor the operation timeout. */
  predicate Proper(env: Env, past: Log, x: Exchange) {
    && !Ended(env, x.look)
    && x.deadline <= env.deadline && x.deadline <= env.now(x.look) + env.timeout
    && x.response == env.answer(past, x.request)
  }

  predicate Mutates(request: Request) {
    request.CreateUser? || request.DeleteAssignment? || request.CreateAssignment?
  }

  /** The log grew by requests properly sent. */
  ghost predicate Sent(env: Env, before: Log, after: Log) {
    before == after || (after.Then? && Proper(env, after.past, after.event) && Sent(env, before, after.past))
  }

  /** The log grew by requests properly sent that change nothing. */
  ghost predicate Reads(env: Env, before: Log, after: Log) {
    before == after ||
    (&& after.Then? && Proper(env, after.past, after.event) && !Mutates(after.event.request)
     && Reads(env, before, after.past))
  }

  /** The mutations among the exchanges after `before`, oldest first. */
  ghost function Mutations(before: Log, after: Log): seq<Exchange> {
    if before == after || after.Beginning? then []
    else Mutations(before, after.past) + (if Mutates(after.event.request) then [after.event] else [])
  }

  lemma {:induction false} SentTransitive(env: Env, a: Log, b: Log, c: Log)
    requires Sent(env, a, b) && Sent(env, b, c)
    ensures Sent(env, a, c)
  {
    if b != c {
      SentTransitive(env, a, b, c.past);
    }
  }

  lemma {:induction false} ReadsTransitive(env: Env, a: Log, b: Log, c: Log)
    requires Reads(env, a, b) && Reads(env, b, c)
    ensures Reads(env, a, c)
  {
    if b != c {
      ReadsTransitive(env, a, b, c.past);
    }
  }

  lemma {:induction false} ReadsAreSent(env: Env, a: Log, b: Log)
    requires Reads(env, a, b)
    ensures Sent(env, a, b) && Mutations(a, b) == []
  {
    if a != b {
      ReadsAreSent(env, a, b.past);
    }
  }

  lemma {:induction false} SentIsLonger(env: Env, a: Log, b: Log)
    requires Sent(env, a, b)
    ensures Length(a) <= Length(b) && (Length(a) == Length(b) ==> a == b)
  {
    if a != b {
      SentIsLonger(env, a, b.past);
    }
  }

  lemma {:induction false} MutationsConcat(env: Env, a: Log, b: Log, c: Log)
    requires Sent(env, a, b) && Sent(env, b, c)
    ensures Mutations(a, c) == Mutations(a, b) + Mutations(b, c)
  {
    if b != c {
      MutationsConcat(env, a, b, c.past);
      SentTransitive(env, a, b, c.past);
      SentIsLonger(env, a, c.past);
      assert a != c by { assert Length(c) == Length(c.past) + 1; }
    }
  }
}
