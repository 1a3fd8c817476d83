/**
 * Waiting for a configuration (checkConfig, waitForConfig and close of inbound_manager.go). The
 * broadcast channel is closed and replaced whenever a configuration is installed; channels are
 * numbered, so all but the one of the current generation are closed.
 */
module Waiters {

  datatype Phase<C> = Checking | Parked(generation: nat) | Met(seen: C) | CtxDone | Stopped

  datatype Waiter<!C> = Waiter(cond: C -> bool, phase: Phase<C>)

  datatype State<!C> = State(config: C, generation: nat, stopped: bool, waiters: map<nat, Waiter<C>>)

  datatype Step<!C> =
    | Install(config: C)                     // rebuildConfig, under the write lock
    | Enter(w: nat, cond: C -> bool)
    | Check(w: nat)                          // checkConfig, under the read lock
    | Woken(w: nat)                          // select: the channel it holds is closed
    | Expire(w: nat)                         // select: ctx is done
    | SeeStop(w: nat)                        // select: stopCh is closed
    | Close

  predicate IsParked<C(!new)>(s: State<C>, w: nat) {
    w in s.waiters && s.waiters[w].phase.Parked?
  }

  predicate Enabled<C(!new)>(s: State<C>, e: Step<C>) {
    match e
    case Install(_) => true
    case Enter(w, _) => w !in s.waiters
    case Check(w) => w in s.waiters && s.waiters[w].phase.Checking?
    case Woken(w) => IsParked(s, w) && s.waiters[w].phase.generation != s.generation
    case Expire(w) => IsParked(s, w)
    case SeeStop(w) => IsParked(s, w) && s.stopped
    case Close => true
  }

  function Become<C>(s: State<C>, w: nat, p: Phase<C>): State<C>
    requires w in s.waiters
  {
    s.(waiters := s.waiters[w := s.waiters[w].(phase := p)])
  }

  function Apply<C(!new)>(s: State<C>, e: Step<C>): State<C>
    requires Enabled(s, e)
  {
    match e
    case Install(c) => s.(config := c, generation := s.generation + 1)
    case Enter(w, cond) => s.(waiters := s.waiters[w := Waiter(cond, Checking)])
    case Check(w) => Become(s, w, if s.waiters[w].cond(s.config) then Met(s.config) else Parked(s.generation))
    case Woken(w) => Become(s, w, Checking)
    case Expire(w) => Become(s, w, CtxDone)
    case SeeStop(w) => Become(s, w, Stopped)
    case Close => s.(stopped := true)
  }

  ghost predicate WaiterOk<C(!new)>(s: State<C>, x: Waiter<C>) {
    match x.phase
    case Parked(g) => g <= s.generation && (g == s.generation ==> !x.cond(s.config))
    case Met(c) => x.cond(c)
    case Stopped => s.stopped
    case _ => true
  }

  ghost predicate Inv<C(!new)>(s: State<C>) {
    forall w :: w in s.waiters ==> WaiterOk(s, s.waiters[w])
  }

  ghost predicate Run<C(!new)>(s: State<C>, steps: seq<Step<C>>, t: State<C>)
    decreases |steps|
  {
    if steps == [] then s == t
    else Enabled(s, steps[0]) && Run(Apply(s, steps[0]), steps[1..], t)
  }

  lemma StepOk<C(!new)>(s: State<C>, e: Step<C>)
    requires Inv(s) && Enabled(s, e)
    ensures Inv(Apply(s, e)) && (s.stopped ==> Apply(s, e).stopped)
  {
  }

  lemma {:induction false} RunOk<C(!new)>(s: State<C>, steps: seq<Step<C>>, t: State<C>)
    requires Inv(s) && Run(s, steps, t)
    ensures Inv(t) && (s.stopped ==> t.stopped)
    decreases |steps|
  {
    if steps != [] {
      StepOk(s, steps[0]);
      RunOk(Apply(s, steps[0]), steps[1..], t);
    }
  }

  /** No branch of the waiter's select is ready, apart from its own context. */
  ghost predicate Stuck<C(!new)>(s: State<C>, w: nat) {
    IsParked(s, w) && !Enabled(s, Woken(w)) && !Enabled(s, SeeStop(w))
  }

  /**
   * No wake-up is lost: in every run a stuck waiter's condition is false on the current
   * configuration and the manager is not stopped; a wait succeeds only on a configuration that
   * met its condition, and reports a stop only after one; a parked waiter can always return when its
   * context ends.
   */
  lemma {:induction false} NoLostWakeup<C(!new)>(c: C, steps: seq<Step<C>>, s: State<C>, w: nat)
    requires Run(State(c, 0, false, map[]), steps, s) && w in s.waiters
    ensures Stuck(s, w) ==> !s.waiters[w].cond(s.config) && !s.stopped
    ensures s.waiters[w].phase.Met? ==> s.waiters[w].cond(s.waiters[w].phase.seen)
    ensures s.waiters[w].phase.Stopped? ==> s.stopped
    ensures IsParked(s, w) ==> Enabled(s, Expire(w)) && Apply(s, Expire(w)).waiters[w].phase == CtxDone
  {
    RunOk(State(c, 0, false, map[]), steps, s);
    assert WaiterOk(s, s.waiters[w]);
  }

  lemma {:induction false} CloseStops<C(!new)>(s: State<C>, steps: seq<Step<C>>, t: State<C>, k: nat)
    requires Inv(s) && Run(s, steps, t) && k < |steps| && steps[k].Close?
    ensures Inv(t) && t.stopped
    decreases |steps|
  {
    StepOk(s, steps[0]);
    if k == 0 {
      RunOk(Apply(s, steps[0]), steps[1..], t);
    } else {
      CloseStops(Apply(s, steps[0]), steps[1..], t, k - 1);
    }
  }

  /** No run in which the manager was closed leaves a waiter stuck, and a parked one can see the stop and return it. */
  lemma {:induction false} CloseFreesAll<C(!new)>(c: C, steps: seq<Step<C>>, s: State<C>, k: nat, w: nat)
    requires Run(State(c, 0, false, map[]), steps, s) && k < |steps| && steps[k].Close?
    ensures !Stuck(s, w)
    ensures IsParked(s, w) ==> Enabled(s, SeeStop(w)) && Apply(s, SeeStop(w)).waiters[w].phase == Stopped
  {
    CloseStops(State(c, 0, false, map[]), steps, s, k);
  }

  /**
   * In every run a parked waiter whose condition holds now can be woken, and its next check then
   * succeeds on the current configuration.
   */
  lemma {:induction false} WakesAndMeets<C(!new)>(c: C, steps: seq<Step<C>>, s: State<C>, w: nat)
    requires Run(State(c, 0, false, map[]), steps, s) && IsParked(s, w) && s.waiters[w].cond(s.config)
    ensures Enabled(s, Woken(w)) && Enabled(Apply(s, Woken(w)), Check(w))
    ensures Apply(Apply(s, Woken(w)), Check(w)).waiters[w].phase == Met(s.config)
  {
    RunOk(State(c, 0, false, map[]), steps, s);
    assert WaiterOk(s, s.waiters[w]);
  }
}
