/**
 Admission, lifecycle and shutdown of the serving process. Requests arrive on accepted connections, pass the two
 bounded admission populations and do capacity-bounded work; a termination signal or a dead listener begins shutdown,
 which drains, cancels and terminates in phases. Every read or update of a flag, the clock, the notifier, a semaphore,
 a gauge or a counter is its own step, and steps of different parties interleave freely. A request may be dropped
 wherever it waits.
 */
module Server {
  import opened Histories
  import opened Runs
  import opened Semaphores
  import opened Lifecycles

  const MAX_CONSECUTIVE_ACCEPT_FAILURES: nat := 16
  const CANCELLED_REQUEST_WINDOW: nat := 1_000_000_000
  const ACCEPT_RESOURCE_PRESSURE_BACKOFF: nat := 100_000_000

  /** `limit` sizes both admission semaphores; durations are nanoseconds. */
  datatype Config = Config(limit: nat, capacity: nat, overall: nat, grace: nat)

  /** What configuration validation accepts: a grace period that covers one complete request. */
  predicate Accepts(cfg: Config) {
    0 < cfg.limit && 0 < cfg.capacity && 0 < cfg.overall <= cfg.grace
  }

  /** How a parked request's wait ended: with a permit, without one, or because the request was dropped. */
  datatype Fate = Won | GivesUp | Gone

  /** An admitted request; `resumes` tells going on with the request from unwinding it. */
  datatype Phase =
    | Handling
    | AskingClock                  // read cancellation as not raised; about to read the clock
    | AskingPermit                 // about to try the capacity
    | Queued                       // waits for capacity or its deadline
    | Withdrawing(resumes: bool)   // about to leave the capacity line
    | Granted                      // holds capacity; about to read cancellation
    | GrantedClock                 // about to read the clock
    | Raising                      // about to raise the in-use gauge
    | Working                      // inside Provider or Adapter work
    | Lowering(resumes: bool)      // about to lower the in-use gauge
    | Releasing(resumes: bool)     // about to release the capacity
    | Leaving                      // about to lower the in-flight gauge
    | Departing                    // about to release the admission permit

  datatype Place =
    | Entering                           // about to read the shutdown flag
    | EnteringClock                      // about to read the clock
    | Trying                             // about to try the permits
    | SeekingSlot                        // found no permit; about to try the waiter slots
    | Slotted                            // holds a slot; about to raise the waiter gauge
    | Listening                          // starts to wait for shutdown; not yet in the permit line
    | Parked                             // waits for shutdown, a permit or its deadline
    | Waking(fate: Fate, lined: bool)    // about to drop its shutdown future
    | Unlisted(fate: Fate, lined: bool)  // about to leave the permit line, if it is in it
    | Unparking(fate: Fate)              // about to lower the waiter gauge
    | Unslotting(fate: Fate)             // about to return the slot
    | Finalizing                         // holds a permit; about to read the shutdown flag
    | Cleared                            // read the flag as not set; about to read the clock
    | Decided                            // admitted; about to raise the in-flight gauge
    | Returning                          // not admitted; about to return the permit
    | Abandoning                         // about to count itself abandoned
    | Refusing                           // found no slot; about to count itself refused
    | Admitted(phase: Phase)
    | Over

  datatype Request = Request(deadline: nat, connection: nat, place: Place)

  datatype SignalTask = Idle | Stored | Done

  datatype Serve =
    | Accepting
    | Backing(since: nat)
    | Failed | FatalStored
    | Draining(since: nat, fatal: bool)
    | CancelStored(fatal: bool)
    | Window(since: nat, fatal: bool)
    | Aborting(fatal: bool)
    | Exited(fatal: bool)

  /** What is noted about the announcement of shutdown and about readiness probes. */
  datatype Note =
    | Announced
    | FoundServing(connection: nat)
    | PolledPending(connection: nat)
    | Yielded(connection: nat)
    | ReportedReady(connection: nat)
    | ProbeGone(connection: nat)

  datatype Event =
    | Arrived(request: nat, deadline: nat, now: nat)
    | SlotTaken(request: nat)
    | SlotsFull(request: nat)
    | SlotReturned(request: nat)
    | ReadServing(request: nat, deadline: nat)
    | Admission(request: nat, deadline: nat, now: nat)
    | Abandoned(request: nat)
    | Refused(request: nat)
    | DroppedEarly(request: nat)
    | Left(request: nat)
    | WorkBegan(request: nat)
    | WorkEnded(request: nat)
    | Woken(listener: Listener)
    | Opened(connection: nat)
    | Closed(connection: nat)
    | ListenerUnusable
    | ShutdownBegan
    | Noted(note: Note)
    | CancellationRaised(now: nat)
    | ServeReturned(fatal: bool)

  type Log = History<Event>

  /** The three semaphores with the counters and gauges kept beside them. */
  datatype Gate = Gate(
    permits: Semaphore, slots: Semaphore, capacity: Semaphore,
    abandoned: nat, refused: nat, inFlight: int, waiting: int, inUse: int)

  /** `probing` are the connections whose readiness probe has polled shutdown as pending and polls its evaluation. */
  datatype State = State(
    clock: nat, life: Lifecycle, signal: SignalTask, serve: Serve, failures: nat,
    connections: set<nat>, probing: set<nat>, requests: map<nat, Request>, gate: Gate, log: Log)

  function Initial(cfg: Config): State {
    State(0, Lifecycle(false, false, false, map[Loop := Fresh], {}, {}), Idle, Accepting, 0, {}, {}, map[],
          Gate(New(cfg.limit), New(cfg.limit), New(cfg.capacity), 0, 0, 0, 0, 0), Beginning)
  }

  // ---------------------------------------------------------------- which steps there are

  /** Moves of the clock, the signal task, the serve loop and the connection tasks. */
  datatype ProcessMove =
    | Tick(elapsed: nat)
    | SignalStores | SignalNotifies
    | Accept(c: nat) | AcceptFails | FailureStores | FailureNotifies
    | PressureBegins | PressureElapses | PressureStops
    | LoopBreaks
    | Drained | GraceExpires | CancelNotifies | WindowEnds | Exit
    | GoGraceful(c: nat) | Close(c: nat)

  /**
   Moves of a readiness probe. Each time its task is polled it polls shutdown first and, if that is pending, its
   evaluation, which is not done yet, says ready, or says not ready; it may also be dropped.
   */
  datatype ProbeMove = Begins | Polls | Yields | Reports | Ends

  /** What everybody who awaits the start of shutdown does. */
  datatype ListenMove = Registers | ReadsFlag | Wakes

  /** Moves of an `admit` call up to the end of its wait. */
  datatype EntryMove =
    | EntryFlag | EntryClock | TryPermit | TrySlot | RaiseWaiting
    | JoinLine | HearShutdown | WinPermit | ReachDeadline

  /** Moves of an `admit` call from the end of its wait. */
  datatype ExitMove =
    | DropListener | LeaveLine | LowerWaiting | ReturnSlot
    | FinalFlag | FinalClock | RaiseInFlight | ReturnPermit | CountAbandoned | CountRefused

  /** Moves of an admitted request. */
  datatype WorkMove =
    | AskCancelled | AskClock | TryCapacity | ClaimCapacity | CapacityTimesOut | Withdraw
    | CheckCancelled | CheckClock | RaiseInUse | EndWork | LowerInUse | ReleaseCapacity
    | Complete | LowerInFlight | ReleasePermit

  datatype Step =
    | Process(process: ProcessMove)
    | Listen(listener: Listener, listen: ListenMove)
    | Ask(c: nat, probe: ProbeMove)
    | Arrive(r: nat, c: nat)
    | Enter(r: nat, entry: EntryMove)
    | Settle(r: nat, exit: ExitMove)
    | Work(r: nat, work: WorkMove)
    | Drop(r: nat)

  predicate Live(s: State, r: nat) {
    r in s.requests && !s.requests[r].place.Over?
  }

  ghost predicate MayProcess(cfg: Config, s: State, move: ProcessMove) {
    match move
    case Tick(_) => true
    case SignalStores => s.signal.Idle?
    case SignalNotifies => s.signal.Stored?
    case Accept(c) => s.serve.Accepting? && At(s.life, Loop, Committed) && c !in s.connections
    case AcceptFails => s.serve.Accepting? && At(s.life, Loop, Committed)
    case FailureStores => s.serve.Failed?
    case FailureNotifies => s.serve.FatalStored?
    case PressureBegins => s.serve.Accepting? && At(s.life, Loop, Committed)
    case PressureElapses => s.serve.Backing? && s.serve.since + ACCEPT_RESOURCE_PRESSURE_BACKOFF <= s.clock
    case PressureStops => s.serve.Backing? && At(s.life, Backoff, Resolved)
    case LoopBreaks => s.serve.Accepting? && At(s.life, Loop, Resolved)
    case Drained => s.serve.Draining? && s.connections == {}
    case GraceExpires => s.serve.Draining? && s.serve.since + cfg.grace <= s.clock
    case CancelNotifies => s.serve.CancelStored?
    case WindowEnds =>
      s.serve.Window? && (s.connections == {} || s.serve.since + CANCELLED_REQUEST_WINDOW <= s.clock)
    case Exit => s.serve.Aborting? && s.connections == {}
    case GoGraceful(c) => c in s.connections && At(s.life, Conn(c), Resolved)
    case Close(c) =>
      c in s.connections && Probe(c) !in s.life.stages && forall r :: Live(s, r) ==> s.requests[r].connection != c
  }

  predicate MayAsk(s: State, c: nat, move: ProbeMove) {
    match move
    case Begins => c in s.connections && Probe(c) !in s.life.stages
    case Polls => c !in s.probing && At(s.life, Probe(c), Committed) && Probe(c) !in s.life.notified
    case Yields => c in s.probing
    case Reports => c in s.probing
    case Ends => Probe(c) in s.life.stages
  }

  /** The listener's future is being awaited. */
  predicate Polled(s: State, l: Listener) {
    match l
    case Loop => s.serve.Accepting?
    case Backoff => s.serve.Backing?
    case Conn(_) => true
    case Probe(c) => c !in s.probing
    case Of(r) => r in s.requests && (s.requests[r].place.Listening? || s.requests[r].place.Parked?)
  }

  predicate MayListen(s: State, l: Listener, move: ListenMove) {
    && Polled(s, l)
    && match move
       case Registers => At(s.life, l, Fresh)
       case ReadsFlag => At(s.life, l, Registered)
       case Wakes => At(s.life, l, Committed) && l in s.life.notified
  }

  predicate MayEnter(s: State, r: nat, q: Request, move: EntryMove) {
    match move
    case EntryFlag => q.place.Entering?
    case EntryClock => q.place.EnteringClock?
    case TryPermit => q.place.Trying?
    case TrySlot => q.place.SeekingSlot?
    case RaiseWaiting => q.place.Slotted?
    case JoinLine => q.place.Listening? && At(s.life, Of(r), Committed)
    case HearShutdown => (q.place.Listening? || q.place.Parked?) && At(s.life, Of(r), Resolved)
    case WinPermit => q.place.Parked? && r in s.gate.permits.granted
    case ReachDeadline => q.place.Parked? && q.deadline <= s.clock
  }

  predicate MaySettle(q: Request, move: ExitMove) {
    match move
    case DropListener => q.place.Waking?
    case LeaveLine => q.place.Unlisted?
    case LowerWaiting => q.place.Unparking?
    case ReturnSlot => q.place.Unslotting?
    case FinalFlag => q.place.Finalizing?
    case FinalClock => q.place.Cleared?
    case RaiseInFlight => q.place.Decided?
    case ReturnPermit => q.place.Returning?
    case CountAbandoned => q.place.Abandoning?
    case CountRefused => q.place.Refusing?
  }

  predicate MayWork(s: State, r: nat, q: Request, move: WorkMove) {
    && q.place.Admitted?
    && match move
       case AskCancelled => q.place.phase.Handling?
       case AskClock => q.place.phase.AskingClock?
       case TryCapacity => q.place.phase.AskingPermit?
       case ClaimCapacity => q.place.phase.Queued? && r in s.gate.capacity.granted
       case CapacityTimesOut => q.place.phase.Queued? && q.deadline <= s.clock
       case Withdraw => q.place.phase.Withdrawing?
       case CheckCancelled => q.place.phase.Granted?
       case CheckClock => q.place.phase.GrantedClock?
       case RaiseInUse => q.place.phase.Raising?
       case EndWork => q.place.phase.Working?
       case LowerInUse => q.place.phase.Lowering?
       case ReleaseCapacity => q.place.phase.Releasing?
       case Complete => q.place.phase.Handling?
       case LowerInFlight => q.place.phase.Leaving?
       case ReleasePermit => q.place.phase.Departing?
  }

  /** Where a request waits, and so can be dropped. */
  predicate Droppable(place: Place) {
    || place.Entering? || place.Parked?
    || (place.Admitted? && (place.phase.Handling? || place.phase.Queued? || place.phase.Working?))
  }

  ghost predicate Enabled(cfg: Config, s: State, step: Step) {
    match step
    case Process(move) => MayProcess(cfg, s, move)
    case Listen(l, move) => MayListen(s, l, move)
    case Ask(c, move) => MayAsk(s, c, move)
    case Arrive(r, c) => r !in s.requests && c in s.connections  // even one whose task has seen shutdown
    case Enter(r, move) => r in s.requests && MayEnter(s, r, s.requests[r], move)
    case Settle(r, move) => r in s.requests && MaySettle(s.requests[r], move)
    case Work(r, move) => r in s.requests && MayWork(s, r, s.requests[r], move)
    case Drop(r) => r in s.requests && Droppable(s.requests[r].place)
  }

  // ---------------------------------------------------------------- what a request's step does

  /** What a step of one request changes: its place, the lifecycle, the gate and the log. */
  datatype Effect = Effect(place: Place, life: Lifecycle, gate: Gate, log: Log)

  function Go(s: State, place: Place): Effect {
    Effect(place, s.life, s.gate, s.log)
  }

  function GoWith(s: State, place: Place, gate: Gate): Effect {
    Effect(place, s.life, gate, s.log)
  }

  function Say(s: State, place: Place, gate: Gate, event: Event): Effect {
    Effect(place, s.life, gate, Then(s.log, event))
  }

  function EntryEffect(s: State, r: nat, q: Request, move: EntryMove): Effect {
    var g := s.gate;
    match move
    case EntryFlag => Go(s, if s.life.shuttingDown then Abandoning else EnteringClock)
    case EntryClock => Go(s, if q.deadline <= s.clock then Abandoning else Trying)
    case TryPermit =>
      (match TryAcquire(g.permits, r)
       case Some(permits) => GoWith(s, Finalizing, g.(permits := permits))
       case None => Go(s, SeekingSlot))
    case TrySlot =>
      (match TryAcquire(g.slots, r)
       case Some(slots) => Say(s, Slotted, g.(slots := slots), SlotTaken(r))
       case None => Say(s, Refusing, g, SlotsFull(r)))
    case RaiseWaiting => Effect(Listening, Create(s.life, Of(r)), g.(waiting := g.waiting + 1), s.log)
    case JoinLine => GoWith(s, Parked, g.(permits := StartWaiting(g.permits, r)))
    case HearShutdown => Go(s, Waking(GivesUp, q.place.Parked?))
    case WinPermit => GoWith(s, Waking(Won, false), g.(permits := Claim(g.permits, r)))
    case ReachDeadline => Go(s, Waking(GivesUp, true))
  }

  function ExitEffect(s: State, r: nat, q: Request, move: ExitMove): Effect
    requires MaySettle(q, move)
  {
    var g := s.gate;
    match move
    case DropListener => Effect(Unlisted(q.place.fate, q.place.lined), Dismiss(s.life, Of(r)), g, s.log)
    case LeaveLine =>
      GoWith(s, Unparking(q.place.fate), if InLineWith(q.place) then g.(permits := Abandon(g.permits, r)) else g)
    case LowerWaiting => GoWith(s, Unslotting(q.place.fate), g.(waiting := g.waiting - 1))
    case ReturnSlot =>
      Say(s, AfterWait(q.place.fate), g.(slots := Semaphores.Release(g.slots, r)), SlotReturned(r))
    case FinalFlag =>
      if s.life.shuttingDown then Go(s, Returning) else Say(s, Cleared, g, ReadServing(r, q.deadline))
    case FinalClock =>
      if q.deadline <= s.clock then Go(s, Returning) else Say(s, Decided, g, Admission(r, q.deadline, s.clock))
    case RaiseInFlight => GoWith(s, Admitted(Handling), g.(inFlight := g.inFlight + 1))
    case ReturnPermit => GoWith(s, Abandoning, g.(permits := Semaphores.Release(g.permits, r)))
    case CountAbandoned => Say(s, Over, g.(abandoned := g.abandoned + 1), Abandoned(r))
    case CountRefused => Say(s, Over, g.(refused := g.refused + 1), Refused(r))
  }

  /** A request whose wait ended without a permit may still stand in the permit line. */
  predicate InLineWith(place: Place) {
    (place.Waking? || place.Unlisted?) && place.lined && !place.fate.Won?
  }

  function AfterWait(fate: Fate): Place {
    match fate case Won => Finalizing case GivesUp => Abandoning case Gone => Over
  }

  function Afterwards(resumes: bool): Place {
    Admitted(if resumes then Handling else Leaving)
  }

  function WorkEffect(s: State, r: nat, q: Request, move: WorkMove): Effect
    requires MayWork(s, r, q, move)
  {
    var g := s.gate;
    match move
    case AskCancelled => Go(s, Admitted(if s.life.cancelled then Handling else AskingClock))
    case AskClock => Go(s, Admitted(if q.deadline <= s.clock then Handling else AskingPermit))
    case TryCapacity =>
      (match TryAcquire(g.capacity, r)
       case Some(capacity) => GoWith(s, Admitted(Granted), g.(capacity := capacity))
       case None => GoWith(s, Admitted(Queued), g.(capacity := StartWaiting(g.capacity, r))))
    case ClaimCapacity => GoWith(s, Admitted(Granted), g.(capacity := Claim(g.capacity, r)))
    case CapacityTimesOut => Go(s, Admitted(Withdrawing(true)))
    case Withdraw => GoWith(s, Afterwards(q.place.phase.resumes), g.(capacity := Abandon(g.capacity, r)))
    case CheckCancelled => Go(s, Admitted(if s.life.cancelled then Releasing(true) else GrantedClock))
    case CheckClock =>
      if q.deadline <= s.clock then Go(s, Admitted(Releasing(true))) else Say(s, Admitted(Raising), g, WorkBegan(r))
    case RaiseInUse => GoWith(s, Admitted(Working), g.(inUse := g.inUse + 1))
    case EndWork => Say(s, Admitted(Lowering(true)), g, WorkEnded(r))
    case LowerInUse => GoWith(s, Admitted(Releasing(q.place.phase.resumes)), g.(inUse := g.inUse - 1))
    case ReleaseCapacity =>
      GoWith(s, Afterwards(q.place.phase.resumes), g.(capacity := Semaphores.Release(g.capacity, r)))
    case Complete => Go(s, Admitted(Leaving))
    case LowerInFlight => GoWith(s, Admitted(Departing), g.(inFlight := g.inFlight - 1))
    case ReleasePermit => Say(s, Over, g.(permits := Semaphores.Release(g.permits, r)), Left(r))
  }

  function DropEffect(s: State, r: nat, place: Place): Effect {
    match place
    case Entering => Say(s, Over, s.gate, DroppedEarly(r))
    case Parked => Say(s, Waking(Gone, true), s.gate, DroppedEarly(r))
    case Admitted(Handling) => Go(s, Admitted(Leaving))
    case Admitted(Queued) => Go(s, Admitted(Withdrawing(false)))
    case Admitted(Working) => Say(s, Admitted(Lowering(false)), s.gate, WorkEnded(r))
    case _ => Go(s, place)
  }

  predicate OfRequest(step: Step) {
    step.Enter? || step.Settle? || step.Work? || step.Drop?
  }

  ghost function RequestEffect(cfg: Config, s: State, step: Step): Effect
    requires OfRequest(step) && Enabled(cfg, s, step)
  {
    match step
    case Enter(r, move) => EntryEffect(s, r, s.requests[r], move)
    case Settle(r, move) => ExitEffect(s, r, s.requests[r], move)
    case Work(r, move) => WorkEffect(s, r, s.requests[r], move)
    case Drop(r) => DropEffect(s, r, s.requests[r].place)
  }

  // ---------------------------------------------------------------- what a step does

  /** Serving ends: the accept loop's own future goes as well. */
  function Return(s: State, fatal: bool): State {
    s.(serve := Exited(fatal), life := Dismiss(s.life, Loop), log := Then(s.log, ServeReturned(fatal)))
  }

  function Drain(s: State, life: Lifecycle, fatal: bool): State {
    s.(serve := Draining(s.clock, fatal), life := life)
  }

  ghost function ApplyProcess(cfg: Config, s: State, move: ProcessMove): State
    requires MayProcess(cfg, s, move)
  {
    match move
    case Tick(elapsed) => s.(clock := s.clock + elapsed)
    case SignalStores => s.(life := StoreShutdown(s.life), signal := Stored, log := Then(s.log, ShutdownBegan))
    case SignalNotifies => s.(life := Announce(s.life), signal := Done, log := Then(s.log, Noted(Announced)))
    case Accept(c) =>
      s.(connections := s.connections + {c}, failures := 0, life := Create(s.life, Conn(c)),
         log := Then(s.log, Opened(c)))
    case AcceptFails =>
      s.(failures := s.failures + 1, log := Then(s.log, ListenerUnusable),
         serve := if s.failures + 1 < MAX_CONSECUTIVE_ACCEPT_FAILURES then Accepting else Failed)
    case FailureStores => s.(serve := FatalStored, life := StoreShutdown(s.life), log := Then(s.log, ShutdownBegan))
    case FailureNotifies => Drain(s, Announce(s.life), true).(log := Then(s.log, Noted(Announced)))
    case PressureBegins => s.(serve := Backing(s.clock), life := Create(s.life, Backoff))
    case PressureElapses => s.(serve := Accepting, life := Dismiss(s.life, Backoff))
    case PressureStops => Drain(s, Dismiss(s.life, Backoff), false)
    case LoopBreaks => Drain(s, s.life, false)
    case Drained => Return(s, s.serve.fatal)
    case GraceExpires =>
      s.(serve := CancelStored(s.serve.fatal), life := StoreCancellation(s.life),
         log := Then(s.log, CancellationRaised(s.clock)))
    case CancelNotifies => s.(serve := Window(s.clock, s.serve.fatal), life := NotifyWaiters(s.life))
    case WindowEnds => s.(serve := Aborting(s.serve.fatal))
    case Exit => Return(s, s.serve.fatal)
    case GoGraceful(c) => s.(life := Dismiss(s.life, Conn(c)))
    case Close(c) =>
      s.(connections := s.connections - {c}, life := Dismiss(s.life, Conn(c)), log := Then(s.log, Closed(c)))
  }

  function ApplyProbe(s: State, c: nat, move: ProbeMove): State {
    match move
    case Begins => s.(life := Create(s.life, Probe(c)))
    case Polls => s.(probing := s.probing + {c}, log := Then(s.log, Noted(PolledPending(c))))
    case Yields => s.(probing := s.probing - {c}, log := Then(s.log, Noted(Yielded(c))))
    case Reports =>
      s.(probing := s.probing - {c}, life := Dismiss(s.life, Probe(c)), log := Then(s.log, Noted(ReportedReady(c))))
    case Ends =>
      s.(probing := s.probing - {c}, life := Dismiss(s.life, Probe(c)), log := Then(s.log, Noted(ProbeGone(c))))
  }

  function ApplyListen(s: State, l: Listener, move: ListenMove): State {
    match move
    case Registers => s.(life := Register(s.life, l))
    case ReadsFlag =>
      s.(life := ReadFlag(s.life, l),
         log := if l.Probe? && !s.life.shuttingDown then Then(s.log, Noted(FoundServing(l.connection))) else s.log)
    case Wakes => s.(life := Wake(s.life, l), log := Then(s.log, Woken(l)))
  }

  function ApplyArrival(cfg: Config, s: State, r: nat, c: nat): State {
    s.(requests := s.requests[r := Request(s.clock + cfg.overall, c, Entering)],
       log := Then(s.log, Arrived(r, s.clock + cfg.overall, s.clock)))
  }

  /** A request's step, seen from the process. */
  function WithEffect(s: State, r: nat, effect: Effect): State
    requires r in s.requests
  {
    s.(requests := s.requests[r := s.requests[r].(place := effect.place)],
       life := effect.life, gate := effect.gate, log := effect.log)
  }

  ghost function Apply(cfg: Config, s: State, step: Step): State
    requires Enabled(cfg, s, step)
  {
    match step
    case Process(move) => ApplyProcess(cfg, s, move)
    case Listen(l, move) => ApplyListen(s, l, move)
    case Ask(c, move) => ApplyProbe(s, c, move)
    case Arrive(r, c) => ApplyArrival(cfg, s, r, c)
    case _ => WithEffect(s, step.r, RequestEffect(cfg, s, step))
  }

  ghost function Machine(cfg: Config): (State, Step, State) -> bool {
    (s, step, t) => Enabled(cfg, s, step) && t == Apply(cfg, s, step)
  }

  /** `states` is what a run of the process goes through when it takes `steps`. */
  ghost predicate Run(cfg: Config, steps: seq<Step>, states: seq<State>) {
    Path(Machine(cfg), steps, states) && states[0] == Initial(cfg)
  }

  /** One more step of a way that leads from `origin`. */
  lemma Taken(cfg: Config, origin: State, s: State, step: Step) returns (t: State)
    requires Leads(Machine(cfg), origin, s) && Enabled(cfg, s, step)
    ensures t == Apply(cfg, s, step) && Leads(Machine(cfg), origin, t)
  {
    t := Apply(cfg, s, step);
    OneStep(Machine(cfg), s, step, t);
    LeadsOn(Machine(cfg), origin, s, t);
  }

  // ---------------------------------------------------------------- what a log says

  datatype Tally = Tally(arrived: nat, admitted: nat, abandoned: nat, refused: nat, dropped: nat)

  /**
   What a history amounts to: the requests admitted and not yet gone, those inside Provider or Adapter work, those
   whose `admit` call has not finished, those holding a waiter slot, those that ever read the flag as serving or found
   the slots full, the open connections, whether shutdown began and requests were cancelled, the latest deadline of any
   request that read the flag as serving, the reports of an unusable listener since the last accepted connection, how
   many `admit` calls ended how, and what probes did.
   */
  datatype Account = Account(
    inFlight: set<nat>, atWork: set<nat>, undecided: set<nat>, slotted: set<nat>, cleared: set<nat>,
    turnedAway: set<nat>,
    open: set<nat>, shutDown: bool, cancelled: bool, latestDeadline: nat, unusableStreak: nat, tally: Tally,
    probes: Probes)

  /**
   Whether shutdown was announced, the probes that read the flag as serving, and those in a poll that found shutdown
   pending.
   */
  datatype Probes = Probes(announced: bool, served: set<nat>, probing: set<nat>)

  function Later(a: nat, b: nat): nat {
    if a < b then b else a
  }

  ghost function Counted(account: Account, event: Event): Account {
    var tally := account.tally;
    match event
    case Arrived(r, _, _) =>
      account.(undecided := account.undecided + {r}, tally := tally.(arrived := tally.arrived + 1))
    case SlotTaken(r) => account.(slotted := account.slotted + {r})
    case SlotsFull(r) => account.(turnedAway := account.turnedAway + {r})
    case SlotReturned(r) => account.(slotted := account.slotted - {r})
    case ReadServing(r, deadline) =>
      account.(cleared := account.cleared + {r}, latestDeadline := Later(account.latestDeadline, deadline))
    case Admission(r, _, _) =>
      account.(undecided := account.undecided - {r}, inFlight := account.inFlight + {r},
               tally := tally.(admitted := tally.admitted + 1))
    case Abandoned(r) =>
      account.(undecided := account.undecided - {r}, tally := tally.(abandoned := tally.abandoned + 1))
    case Refused(r) =>
      account.(undecided := account.undecided - {r}, tally := tally.(refused := tally.refused + 1))
    case DroppedEarly(r) =>
      account.(undecided := account.undecided - {r}, tally := tally.(dropped := tally.dropped + 1))
    case Left(r) => account.(inFlight := account.inFlight - {r})
    case WorkBegan(r) => account.(atWork := account.atWork + {r})
    case WorkEnded(r) => account.(atWork := account.atWork - {r})
    case Woken(_) => account
    case Opened(c) => account.(open := account.open + {c}, unusableStreak := 0)
    case Closed(c) => account.(open := account.open - {c})
    case ListenerUnusable => account.(unusableStreak := account.unusableStreak + 1)
    case ShutdownBegan => account.(shutDown := true)
    case CancellationRaised(_) => account.(cancelled := true)
    case ServeReturned(_) => account
    case Noted(note) => account.(probes := Probed(account.probes, note))
  }

  ghost function Probed(probes: Probes, note: Note): Probes {
    match note
    case Announced => probes.(announced := true)
    case FoundServing(c) => probes.(served := probes.served + {c})
    case PolledPending(c) => probes.(probing := probes.probing + {c})
    case Yielded(c) => probes.(probing := probes.probing - {c})
    case ReportedReady(c) => probes.(served := probes.served - {c}, probing := probes.probing - {c})
    case ProbeGone(c) => probes.(served := probes.served - {c}, probing := probes.probing - {c})
  }

  ghost function AccountOf(log: Log): Account {
    match log
    case Beginning =>
      Account({}, {}, {}, {}, {}, {}, {}, false, false, 0, 0, Tally(0, 0, 0, 0, 0), Probes(false, {}, {}))
    case Then(past, event) => Counted(AccountOf(past), event)
  }

  /** When an event is justified by what the history before it amounts to. */
  ghost predicate Explains(cfg: Config, past: Account, event: Event) {
    match event
    case Arrived(r, deadline, now) => r !in past.undecided && r !in past.inFlight && deadline == now + cfg.overall
    case SlotTaken(r) => r in past.undecided && r !in past.slotted && |past.slotted| < cfg.limit
    case SlotsFull(r) => r in past.undecided && |past.slotted| == cfg.limit
    case SlotReturned(r) => r in past.slotted
    case ReadServing(r, _) => r in past.undecided && !past.shutDown
    case Admission(r, deadline, now) =>
      // Only after the flag was read as serving, in time, below the limit, and never once requests are cancelled.
      && r in past.undecided && r in past.cleared && r !in past.inFlight
      && now < deadline <= past.latestDeadline
      && !past.cancelled && |past.inFlight| < cfg.limit
    case Abandoned(r) => r in past.undecided
    case Refused(r) => r in past.undecided && r in past.turnedAway
    case DroppedEarly(r) => r in past.undecided
    case Left(r) => r in past.inFlight && r !in past.atWork
    case WorkBegan(r) =>
      r in past.inFlight && r !in past.atWork && !past.cancelled && |past.atWork| < cfg.capacity
    case WorkEnded(r) => r in past.atWork
    case Woken(_) => past.shutDown
    case Opened(c) => c !in past.open
    case Closed(c) => c in past.open
    case ListenerUnusable => past.unusableStreak < MAX_CONSECUTIVE_ACCEPT_FAILURES
    case ShutdownBegan => true
    case Noted(note) => ExplainsNote(past, note)
    case CancellationRaised(now) =>
      // Only in shutdown, and only when nobody who may be admitted has any of its budget left.
      past.shutDown && past.latestDeadline <= now
    case ServeReturned(fatal) =>
      && past.shutDown
      && (fatal <==> past.unusableStreak == MAX_CONSECUTIVE_ACCEPT_FAILURES)
      && past.open == {} && past.inFlight == {} && past.undecided == {} && past.atWork == {} && past.slotted == {}
  }

  ghost predicate ExplainsNote(past: Account, note: Note) {
    match note
    case Announced => past.shutDown
    case FoundServing(_) => !past.shutDown
    case PolledPending(c) =>
      // Only by a probe that read the flag as serving, and before shutdown was announced.
      c in past.probes.served && c !in past.probes.probing && !past.probes.announced
    case Yielded(c) => c in past.probes.probing
    case ReportedReady(c) => c in past.probes.served && c in past.probes.probing
    case ProbeGone(_) => true
  }

  ghost predicate Explained(cfg: Config, log: Log) {
    match log
    case Beginning => true
    case Then(past, event) => Explained(cfg, past) && Explains(cfg, AccountOf(past), event)
  }
}
