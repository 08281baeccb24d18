/**
 The lifecycle flags and the notification that shutdown has begun. Everybody who awaits it does the same: create the
 future, register with the notifier, read the flag, and only then wait; each of these is a separate moment.
 */
module Lifecycles {

  /** Who awaits the start of shutdown. */
  datatype Listener =
    | Loop                   // the accept loop
    | Backoff                // the accept loop's pause under resource pressure
    | Conn(connection: nat)  // a connection task
    | Probe(connection: nat) // a readiness evaluation on a connection
    | Of(request: nat)       // a request parked in admission

  /** How far a listener's future has come; a listener whose future was dropped has no stage. */
  datatype Stage = Fresh | Registered | Committed | Resolved

  /** `announced` records that some begin of shutdown has returned. */
  datatype Lifecycle = Lifecycle(
    shuttingDown: bool, cancelled: bool, announced: bool,
    stages: map<Listener, Stage>, registered: set<Listener>, notified: set<Listener>)

  predicate At(life: Lifecycle, l: Listener, stage: Stage) {
    l in life.stages && life.stages[l] == stage
  }

  // ---------------------------------------------------------------- one listener

  function Create(life: Lifecycle, l: Listener): Lifecycle {
    life.(stages := life.stages[l := Fresh])
  }

  function Register(life: Lifecycle, l: Listener): Lifecycle {
    life.(stages := life.stages[l := Registered], registered := life.registered + {l})
  }

  function ReadFlag(life: Lifecycle, l: Listener): Lifecycle {
    life.(stages := life.stages[l := if life.shuttingDown then Resolved else Committed])
  }

  function Wake(life: Lifecycle, l: Listener): Lifecycle {
    life.(stages := life.stages[l := Resolved])
  }

  /** Drops the future, wherever it is. */
  function Dismiss(life: Lifecycle, l: Listener): Lifecycle {
    life.(stages := life.stages - {l}, registered := life.registered - {l}, notified := life.notified - {l})
  }

  // ---------------------------------------------------------------- the process

  function StoreShutdown(life: Lifecycle): Lifecycle {
    life.(shuttingDown := true)
  }

  function NotifyWaiters(life: Lifecycle): Lifecycle {
    life.(notified := life.notified + life.registered, registered := {})
  }

  /** The second half of the begin of shutdown. */
  function Announce(life: Lifecycle): Lifecycle {
    NotifyWaiters(life).(announced := true)
  }

  function StoreCancellation(life: Lifecycle): Lifecycle {
    life.(cancelled := true)
  }

  // ---------------------------------------------------------------- the invariant

  /**
   The notifier knows exactly the futures that have registered; nothing resolves and nobody is notified unless shutdown
   has begun; and once that was announced, everybody committed to wait is notified.
   */
  ghost predicate Sound(life: Lifecycle) {
    && (forall l :: l in life.registered || l in life.notified <==> l in life.stages && !life.stages[l].Fresh?)
    && (life.notified != {} || life.announced || life.cancelled ==> life.shuttingDown)
    && (forall l :: l in life.stages ==>
          && (life.stages[l].Resolved? ==> life.shuttingDown)
          && (life.stages[l].Committed? && life.announced ==> l in life.notified))
  }

  lemma ListenerKeepsSound(life: Lifecycle, l: Listener)
    requires Sound(life)
    ensures l !in life.stages ==> Sound(Create(life, l))
    ensures At(life, l, Fresh) ==> Sound(Register(life, l))
    ensures At(life, l, Registered) ==> Sound(ReadFlag(life, l))
    ensures At(life, l, Committed) && l in life.notified ==> Sound(Wake(life, l))
    ensures Sound(Dismiss(life, l))
  {
  }

  lemma ProcessKeepsSound(life: Lifecycle)
    requires Sound(life)
    ensures Sound(StoreShutdown(life))
    ensures life.shuttingDown ==> Sound(Announce(life)) && Sound(NotifyWaiters(life)) && Sound(StoreCancellation(life))
  {
  }

  /** When every future is gone, the notifier knows nobody. */
  lemma NobodyKnown(life: Lifecycle)
    requires Sound(life) && life.stages == map[]
    ensures life.registered == {} && life.notified == {}
  {
    assert forall l :: l !in life.registered && l !in life.notified;
  }
}
