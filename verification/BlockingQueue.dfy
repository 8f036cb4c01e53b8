/**
  ThreadSafeQueue as a protocol: any number of threads push and pop, one atomic action at a time, with an explicit
  mutex, a condition variable that may wake its waiters spuriously, and notifications that are lost if nobody waits.
 */
module BlockingQueue {
  import opened Collections

  /** Where a thread stands inside push or pop. */
  datatype Control<T> =
    | Idle
    | WantPush(item: T)        // push: at the lock_guard
    | Pushing(item: T)         // push: mutex held, about to enqueue
    | Pushed                   // push: mutex held, item enqueued
    | Notifying                // push: mutex released, about to notify_one
    | WantPop                  // pop: at the unique_lock
    | Testing(woken: bool)     // pop: mutex held, about to evaluate the predicate
    | Sleeping                 // pop: in the wait, mutex released
    | Woken                    // pop: notified or spuriously awake, mutex not yet held again
    | Taking(woken: bool)      // pop: mutex held, predicate was true
    | Took(item: T)            // pop: mutex held, item removed

  /** `pushed` and `returned` record the items in the order of their enqueuing and of the returns of pop. */
  datatype State<T> = State(
    items: seq<T>,
    threads: map<nat, Control<T>>,
    owner: Option<nat>,
    pushed: seq<T>,
    returned: seq<T>
  )

  datatype Event<T> =
    | CallPush(thread: nat, item: T)
    | CallPop(thread: nat)
    | Lock(thread: nat)
    | Enqueue(thread: nat)
    | Unlock(thread: nat)
    | Notify(thread: nat, chosen: Option<nat>)
    | Test(thread: nat)
    | Wake(thread: nat)
    | Take(thread: nat)

  function Init<T>(threads: set<nat>): State<T> {
    State([], map t | t in threads :: Idle, None, [], [])
  }

  predicate Holds<T>(c: Control<T>) {
    c.Pushing? || c.Pushed? || c.Testing? || c.Taking? || c.Took?
  }

  predicate WantsLock<T>(c: Control<T>) {
    c.WantPush? || c.WantPop? || c.Woken?
  }

  function Locked<T>(c: Control<T>): Control<T>
    requires WantsLock(c)
  {
    match c
    case WantPush(v) => Pushing(v)
    case WantPop => Testing(false)
    case Woken => Testing(true)
  }

  predicate IsSleeping<T>(s: State<T>, t: nat) {
    t in s.threads && s.threads[t].Sleeping?
  }

  ghost predicate SomeoneSleeps<T>(s: State<T>) {
    exists t :: IsSleeping(s, t)
  }

  ghost predicate Enabled<T>(s: State<T>, ev: Event<T>) {
    && ev.thread in s.threads
    && var c := s.threads[ev.thread];
       match ev
       case CallPush(_, _) => c.Idle?
       case CallPop(_) => c.Idle?
       case Lock(_) => WantsLock(c) && s.owner.None?
       case Enqueue(_) => c.Pushing?
       case Unlock(_) => c.Pushed? || c.Took?
       case Notify(_, chosen) =>
         c.Notifying? && if SomeoneSleeps(s) then chosen.Some? && IsSleeping(s, chosen.value) else chosen.None?
       case Test(_) => c.Testing?
       case Wake(_) => c.Sleeping?
       case Take(_) => c.Taking? && s.items != []
  }

  ghost function Apply<T>(s: State<T>, ev: Event<T>): State<T>
    requires Enabled(s, ev)
  {
    var t, c := ev.thread, s.threads[ev.thread];
    match ev
    case CallPush(_, v) => s.(threads := s.threads[t := WantPush(v)])
    case CallPop(_) => s.(threads := s.threads[t := WantPop])
    case Lock(_) => s.(threads := s.threads[t := Locked(c)], owner := Some(t))
    case Enqueue(_) =>
      s.(threads := s.threads[t := Pushed], items := s.items + [c.item], pushed := s.pushed + [c.item])
    case Unlock(_) =>
      if c.Pushed? then s.(threads := s.threads[t := Notifying], owner := None)
      else s.(threads := s.threads[t := Idle], owner := None, returned := s.returned + [c.item])
    case Notify(_, chosen) =>
      if chosen.Some? then s.(threads := s.threads[t := Idle][chosen.value := Woken])
      else s.(threads := s.threads[t := Idle])
    case Test(_) =>
      if s.items != [] then s.(threads := s.threads[t := Taking(c.woken)])
      else s.(threads := s.threads[t := Sleeping], owner := None)
    case Wake(_) => s.(threads := s.threads[t := Woken])
    case Take(_) => s.(threads := s.threads[t := Took(s.items[0])], items := s.items[1..])
  }

  ghost function Step<T>(s: State<T>, ev: Event<T>): State<T> {
    if Enabled(s, ev) then Apply(s, ev) else s
  }

  ghost function Run<T>(s: State<T>, events: seq<Event<T>>): State<T> {
    if events == [] then s else Step(Run(s, events[..|events| - 1]), events[|events| - 1])
  }

  // ---- Mutual exclusion ----

  ghost predicate Exclusive<T>(s: State<T>) {
    && (forall t | t in s.threads :: Holds(s.threads[t]) <==> s.owner == Some(t))
    && (s.owner.Some? ==> s.owner.value in s.threads)
    && (forall t | t in s.threads && s.threads[t].Taking? :: s.items != [])
  }

  lemma StepKeepsExclusive<T>(s: State<T>, ev: Event<T>)
    requires Exclusive(s)
    ensures Exclusive(Step(s, ev))
  {
  }

  // ---- Order ----

  /** The item that a thread has removed but not yet returned. */
  function InHand<T>(s: State<T>): seq<T> {
    if s.owner.Some? && s.owner.value in s.threads && s.threads[s.owner.value].Took?
    then [s.threads[s.owner.value].item] else []
  }

  ghost predicate OrderKept<T>(s: State<T>) {
    s.pushed == s.returned + InHand(s) + s.items
  }

  lemma StepKeepsOrder<T>(s: State<T>, ev: Event<T>)
    requires Exclusive(s) && OrderKept(s)
    ensures OrderKept(Step(s, ev))
  {
    if Enabled(s, ev) {
      match ev
      case Enqueue(t) =>
        assert InHand(s) == [];
        ConcatAssociates(s.returned, s.items, [s.threads[t].item]);
      case Take(t) =>
        assert InHand(s) == [];
        assert s.items == [s.items[0]] + s.items[1..];
        ConcatAssociates(s.returned, [s.items[0]], s.items[1..]);
      case _ =>
    }
  }

  // ---- Wakeups ----

  /** A push that has not yet notified, or a woken pop that has not yet looked again. */
  predicate IsCredit<T>(c: Control<T>) {
    c.Pushed? || c.Notifying? || c.Woken? || (c.Testing? && c.woken) || (c.Taking? && c.woken)
  }

  function Credits<T>(threads: map<nat, Control<T>>): set<nat> {
    set t | t in threads && IsCredit(threads[t])
  }

  lemma CreditsSplit<T>(threads: map<nat, Control<T>>, t: nat)
    requires t in threads
    ensures |Credits(threads)| == |Credits(threads - {t})| + if IsCredit(threads[t]) then 1 else 0
  {
    var others := Credits(threads - {t});
    if IsCredit(threads[t]) {
      assert Credits(threads) == others + {t};
    } else {
      assert Credits(threads) == others;
    }
  }

  lemma CreditUpdate<T>(threads: map<nat, Control<T>>, t: nat, c: Control<T>)
    requires t in threads
    ensures |Credits(threads[t := c])| + (if IsCredit(threads[t]) then 1 else 0) ==
            |Credits(threads)| + (if IsCredit(c) then 1 else 0)
  {
    CreditsSplit(threads, t);
    CreditsSplit(threads[t := c], t);
    assert threads[t := c] - {t} == threads - {t};
  }

  ghost predicate Covered<T>(s: State<T>) {
    SomeoneSleeps(s) ==> |s.items| <= |Credits(s.threads)|
  }

  /** Nobody newly sleeps: any sleeper after the step slept before. */
  ghost predicate NoNewSleeper<T>(s: State<T>, v: State<T>) {
    forall t :: IsSleeping(v, t) ==> IsSleeping(s, t)
  }

  lemma OneThreadKeepsCovered<T>(s: State<T>, v: State<T>, t: nat, c: Control<T>)
    requires Covered(s) && t in s.threads && v.threads == s.threads[t := c] && !c.Sleeping?
    requires |v.items| - |s.items| <= (if IsCredit(c) then 1 else 0) - (if IsCredit(s.threads[t]) then 1 else 0)
    ensures Covered(v)
  {
    CreditUpdate(s.threads, t, c);
    assert NoNewSleeper(s, v);
    if SomeoneSleeps(v) {
      var z :| IsSleeping(v, z);
      assert IsSleeping(s, z);
    }
  }

  lemma NotifyKeepsCovered<T>(s: State<T>, t: nat, chosen: Option<nat>)
    requires Covered(s) && Enabled(s, Notify(t, chosen))
    ensures Covered(Step(s, Notify(t, chosen)))
  {
    var v := Step(s, Notify(t, chosen));
    if chosen.Some? {
      CreditUpdate(s.threads, t, Idle);
      CreditUpdate(s.threads[t := Idle], chosen.value, Woken);
      assert SomeoneSleeps(s);
    } else if SomeoneSleeps(v) {
      var z :| IsSleeping(v, z);
      assert IsSleeping(s, z);
    }
  }

  lemma StepKeepsCovered<T>(s: State<T>, ev: Event<T>)
    requires Exclusive(s) && Covered(s)
    ensures Covered(Step(s, ev))
  {
    if Enabled(s, ev) {
      var v, t := Step(s, ev), ev.thread;
      match ev
      case Notify(_, chosen) => NotifyKeepsCovered(s, t, chosen);
      case Test(_) =>
        if s.items != [] {
          OneThreadKeepsCovered(s, v, t, v.threads[t]);
        }
      case _ =>
        OneThreadKeepsCovered(s, v, t, v.threads[t]);
    }
  }

  // ---- Runs ----

  lemma {:induction false} RunsAreSafe<T>(threads: set<nat>, events: seq<Event<T>>)
    ensures var s := Run(Init(threads), events); Exclusive(s) && OrderKept(s) && Covered(s)
  {
    if events != [] {
      var s, ev := Run(Init(threads), events[..|events| - 1]), events[|events| - 1];
      RunsAreSafe(threads, events[..|events| - 1]);
      StepKeepsExclusive(s, ev);
      StepKeepsOrder(s, ev);
      StepKeepsCovered(s, ev);
    }
  }

  /** At most one thread is between its lock and its unlock. */
  lemma MutualExclusion<T>(threads: set<nat>, events: seq<Event<T>>, t: nat, u: nat)
    requires var s := Run(Init(threads), events);
      t in s.threads && u in s.threads && Holds(s.threads[t]) && Holds(s.threads[u])
    ensures t == u
  {
    RunsAreSafe(threads, events);
  }

  /** What pop has returned is a prefix of what push has enqueued, and nothing is lost in between. */
  lemma FirstInFirstOut<T>(threads: set<nat>, events: seq<Event<T>>)
    ensures var s := Run(Init(threads), events);
      && s.pushed == s.returned + InHand(s) + s.items
      && |InHand(s)| <= 1
  {
    RunsAreSafe(threads, events);
  }

  /**
    No lost wakeup: while somebody sleeps, every queued item is covered by a notification still to be sent or by a
    woken thread that has yet to look; so with items queued the mutex holder, a notifier or a woken thread can move.
   */
  lemma NoLostWakeup<T>(threads: set<nat>, events: seq<Event<T>>)
    ensures var s := Run(Init(threads), events);
      SomeoneSleeps(s) ==>
        && |s.items| <= |Credits(s.threads)|
        && (s.items != [] ==>
              || (s.owner.Some? && exists ev: Event<T> :: ev.thread == s.owner.value && Enabled(s, ev))
              || (s.owner.None? && exists ev: Event<T> :: Enabled(s, ev) && IsCredit(s.threads[ev.thread])))
  {
    RunsAreSafe(threads, events);
    var s := Run(Init(threads), events);
    if SomeoneSleeps(s) && s.items != [] {
      if s.owner.Some? {
        HolderCanMove(s);
      } else {
        var t := Inhabited(Credits(s.threads));
        CreditCanMove(s, t);
      }
    }
  }

  lemma HolderCanMove<T>(s: State<T>)
    requires Exclusive(s) && s.owner.Some?
    ensures exists ev: Event<T> :: ev.thread == s.owner.value && Enabled(s, ev)
  {
    var t := s.owner.value;
    var ev: Event<T> := match s.threads[t]
      case Pushing(_) => Enqueue(t)
      case Testing(_) => Test(t)
      case Taking(_) => Take(t)
      case _ => Unlock(t);
    assert ev.thread == t && Enabled(s, ev);
  }

  lemma CreditCanMove<T>(s: State<T>, t: nat)
    requires Exclusive(s) && s.owner.None? && t in s.threads && IsCredit(s.threads[t])
    ensures exists ev: Event<T> :: Enabled(s, ev) && IsCredit(s.threads[ev.thread])
  {
    if s.threads[t].Woken? {
      assert Enabled(s, Lock(t)) && IsCredit(s.threads[Event<T>.Lock(t).thread]);
    } else if SomeoneSleeps(s) {
      var z :| IsSleeping(s, z);
      assert Enabled(s, Notify(t, Some(z))) && IsCredit(s.threads[Event<T>.Notify(t, Some(z)).thread]);
    } else {
      assert Enabled(s, Notify(t, None)) && IsCredit(s.threads[Event<T>.Notify(t, None).thread]);
    }
  }
}
