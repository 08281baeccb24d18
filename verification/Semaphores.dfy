/**
 A counting semaphore with a first-come wait list, as the runtime uses it: a returned permit goes
 to the head of the wait list if there is one, and a dropped acquisition gives back whatever it was
 already granted. Owners are identified by numbers.
 */
module Semaphores {
  import opened Wrappers
  import opened Sorting

  datatype Semaphore = Semaphore(free: nat, queue: seq<nat>, granted: set<nat>, held: set<nat>)

  /** The permits there are: each is free, granted to a waiter that has not woken yet, or held. */
  function Permits(sem: Semaphore): nat {
    sem.free + |sem.granted| + |sem.held|
  }

  /** Nobody owns two things, and no permit is free while somebody waits. */
  ghost predicate Consistent(sem: Semaphore) {
    && (sem.queue != [] ==> sem.free == 0)
    && sem.granted !! sem.held
    && (forall r :: r in sem.queue ==> r !in sem.granted && r !in sem.held)
    && Distinct(sem.queue)
  }

  ghost predicate Waiting(sem: Semaphore, r: nat) {
    r in sem.queue || r in sem.granted
  }

  function New(limit: nat): Semaphore {
    Semaphore(limit, [], {}, {})
  }

  /** Takes a free permit without waiting. */
  function TryAcquire(sem: Semaphore, r: nat): Option<Semaphore> {
    if sem.free == 0 then None else Some(sem.(free := sem.free - 1, held := sem.held + {r}))
  }

  /** Starts to wait: granted at once when a permit is free, at the end of the wait list otherwise. */
  function StartWaiting(sem: Semaphore, r: nat): Semaphore {
    if sem.free == 0 then sem.(queue := sem.queue + [r])
    else sem.(free := sem.free - 1, granted := sem.granted + {r})
  }

  /** The granted permit becomes a held one. */
  function Claim(sem: Semaphore, r: nat): Semaphore {
    sem.(granted := sem.granted - {r}, held := sem.held + {r})
  }

  /** One more permit, for the head of the wait list if there is one. */
  function GiveBack(sem: Semaphore): Semaphore {
    if sem.queue == [] then sem.(free := sem.free + 1)
    else sem.(queue := sem.queue[1..], granted := sem.granted + {sem.queue[0]})
  }

  function Release(sem: Semaphore, r: nat): Semaphore {
    GiveBack(sem.(held := sem.held - {r}))
  }

  function Without(queue: seq<nat>, r: nat): seq<nat> {
    if queue == [] then []
    else if queue[0] == r then Without(queue[1..], r)
    else [queue[0]] + Without(queue[1..], r)
  }

  /** Drops a wait, with the permit already granted to it if there is one. */
  function Abandon(sem: Semaphore, r: nat): Semaphore {
    if r in sem.granted then GiveBack(sem.(granted := sem.granted - {r}))
    else sem.(queue := Without(sem.queue, r))
  }

  // ---------------------------------------------------------------- shares

  /** What one owner has of a semaphore. */
  datatype Share = Nothing | InLine | Holds

  function ShareOf(sem: Semaphore, r: nat): Share {
    if r in sem.held then Holds else if r in sem.queue || r in sem.granted then InLine else Nothing
  }

  /** The operation that takes an owner from one share to another; nobody who holds goes back in line. */
  function Transfer(sem: Semaphore, r: nat, before: Share, after: Share): Semaphore {
    match (before, after)
    case (Nothing, Holds) => (match TryAcquire(sem, r) case Some(taken) => taken case None => sem)
    case (Nothing, InLine) => StartWaiting(sem, r)
    case (InLine, Holds) => Claim(sem, r)
    case (InLine, Nothing) => Abandon(sem, r)
    case (Holds, Nothing) => Release(sem, r)
    case _ => sem
  }

  /** `after` is `before` except that `r` now has `share`; no permit appeared or was lost. */
  ghost predicate Moved(before: Semaphore, after: Semaphore, r: nat, share: Share) {
    && Consistent(after) && Permits(after) == Permits(before)
    && (forall q :: q in after.held <==> if q == r then share == Holds else q in before.held)
    && (forall q :: Waiting(after, q) <==> if q == r then share == InLine else Waiting(before, q))
  }

  lemma GiveBackKeeps(sem: Semaphore)
    requires Consistent(sem)
    ensures Consistent(GiveBack(sem)) && Permits(GiveBack(sem)) == Permits(sem) + 1 && GiveBack(sem).held == sem.held
    ensures forall q :: Waiting(GiveBack(sem), q) <==> Waiting(sem, q)
  {
    if sem.queue != [] {
      assert sem.queue == [sem.queue[0]] + sem.queue[1..];
    }
  }

  lemma {:induction false} WithoutMeaning(queue: seq<nat>, r: nat)
    ensures forall q :: q in Without(queue, r) <==> q in queue && q != r
    ensures Distinct(queue) ==> Distinct(Without(queue, r))
  {
    if queue != [] {
      WithoutMeaning(queue[1..], r);
      assert queue == [queue[0]] + queue[1..];
      assert Distinct(queue) ==> queue[0] !in queue[1..] && Distinct(queue[1..]);
    }
  }

  lemma TakingMoves(sem: Semaphore, r: nat)
    requires Consistent(sem) && ShareOf(sem, r) == Nothing
    ensures 0 < sem.free ==> Moved(sem, TryAcquire(sem, r).value, r, Holds)
    ensures Moved(sem, StartWaiting(sem, r), r, InLine)
  {
  }

  lemma LeavingMoves(sem: Semaphore, r: nat)
    requires Consistent(sem)
    ensures r in sem.granted ==> Moved(sem, Claim(sem, r), r, Holds)
    ensures Waiting(sem, r) ==> Moved(sem, Abandon(sem, r), r, Nothing)
    ensures r in sem.held ==> Moved(sem, Release(sem, r), r, Nothing)
  {
    WithoutMeaning(sem.queue, r);
    if r in sem.granted {
      GiveBackKeeps(sem.(granted := sem.granted - {r}));
    }
    if r in sem.held {
      GiveBackKeeps(sem.(held := sem.held - {r}));
    }
  }

  lemma TransferMoves(sem: Semaphore, r: nat, before: Share, after: Share)
    requires Consistent(sem) && ShareOf(sem, r) == before
    requires before == Nothing && after == Holds ==> 0 < sem.free
    requires before == InLine && after == Holds ==> r in sem.granted
    requires !(before == Holds && after == InLine)
    ensures Moved(sem, Transfer(sem, r, before, after), r, after)
  {
    if before == Nothing {
      TakingMoves(sem, r);
    } else {
      LeavingMoves(sem, r);
    }
  }
}
