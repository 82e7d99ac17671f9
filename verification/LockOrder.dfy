/**
 * The two locks of netfilter/NFEventHandler.cpp and netfilter/UDPProxy.cpp: `lock`, a mutex its owner may not take
 * again, and m_cs, a critical section its owner may. A thread is the list of what it still has to do with them;
 * threads step in any order, a step being one action of a thread that is not blocked.
 *
 * The theorems are about any threads that keep the discipline `Ends` checks. ThreadPrograms.dfy has the programs of
 * the driver, the completion worker and the stopping thread.
 */
module LockOrder {

  // Join waits for another thread to be through. CheckStop leaves the thread's loop, and with it all it would still
  // do, when the stop event is set; AwaitStop goes round the loop, doing nothing, until it is.
  datatype Act = AcqLock | RelLock | AcqCs | RelCs | Join(thread: nat) | SetStop | CheckStop | AwaitStop | Work

  type Program = seq<Act>

  datatype Owner = Nobody | Thread(i: nat)

  datatype Threads = Threads(todo: seq<Program>, lock: Owner, cs: Owner, depth: nat, stop: bool)

  function Begin(todo: seq<Program>): Threads {
    Threads(todo, Nobody, Nobody, 0, false)
  }

  predicate CanStep(s: Threads, i: nat) {
    && i < |s.todo| && s.todo[i] != []
    && match s.todo[i][0]
       case AcqLock => s.lock.Nobody?
       case RelLock => s.lock == Thread(i)
       case AcqCs => s.cs.Nobody? || s.cs == Thread(i)
       case RelCs => s.cs == Thread(i) && s.depth > 0
       case Join(t) => t < |s.todo| && s.todo[t] == []
       case AwaitStop => s.stop
       case _ => true
  }

  function Step(s: Threads, i: nat): Threads
    requires CanStep(s, i)
  {
    var t := s.(todo := s.todo[i := if s.todo[i][0].CheckStop? && s.stop then [] else s.todo[i][1..]]);
    match s.todo[i][0]
    case SetStop => t.(stop := true)
    case AcqLock => t.(lock := Thread(i))
    case RelLock => t.(lock := Nobody)
    case AcqCs => t.(cs := Thread(i), depth := s.depth + 1)
    case RelCs => t.(cs := if s.depth == 1 then Nobody else s.cs, depth := s.depth - 1)
    case _ => t
  }

  // A schedule says which thread goes next.
  predicate Feasible(s: Threads, order: seq<nat>)
    decreases |order|, 0
  {
    order == [] || (Feasible(s, order[..|order| - 1]) && CanStep(Run(s, order[..|order| - 1]), order[|order| - 1]))
  }

  function Run(s: Threads, order: seq<nat>): Threads
    requires Feasible(s, order)
    decreases |order|, 1
  {
    if order == [] then s else Step(Run(s, order[..|order| - 1]), order[|order| - 1])
  }

  // ---------------------------------------------------------------- the discipline

  // What a thread holds: `lock` or not, and m_cs how often.
  datatype Held = Held(lock: bool, depth: nat) | Broken

  const Nothing := Held(false, 0)

  /** `lock` is taken, and other threads or the stop event waited for, holding neither lock; only threads before it are
      waited for; the loop is left holding neither lock. */
  function Hold(a: Act, h: Held, self: nat): Held {
    if h.Broken? then Broken
    else
      match a
      case AcqLock => if h == Nothing then Held(true, 0) else Broken
      case RelLock => if h.lock then Held(false, h.depth) else Broken
      case AcqCs => Held(h.lock, h.depth + 1)
      case RelCs => if h.depth > 0 then Held(h.lock, h.depth - 1) else Broken
      case Join(t) => if h == Nothing && t < self then h else Broken
      case CheckStop => if h == Nothing then h else Broken
      case AwaitStop => if h == Nothing then h else Broken
      case _ => h
  }

  function Ends(p: Program, h: Held, self: nat): Held {
    if p == [] then h else Ends(p[1..], Hold(p[0], h, self), self)
  }

  predicate Disciplined(p: Program, self: nat) {
    Ends(p, Nothing, self) == Nothing
  }

  lemma {:induction false} StaysBroken(p: Program, self: nat)
    ensures Ends(p, Broken, self) == Broken
  {
    if p != [] {
      StaysBroken(p[1..], self);
    }
  }

  lemma {:induction false} Appended(p: Program, q: Program, h: Held, self: nat)
    ensures Ends(p + q, h, self) == Ends(q, Ends(p, h, self), self)
  {
    if p == [] {
      assert p + q == q;
    } else {
      assert (p + q)[1..] == p[1..] + q;
      Appended(p[1..], q, Hold(p[0], h, self), self);
    }
  }

  function Holding(s: Threads, i: nat): Held {
    Held(s.lock == Thread(i), if s.cs == Thread(i) then s.depth else 0)
  }

  predicate Orderly(s: Threads) {
    && (forall i | 0 <= i < |s.todo| :: Ends(s.todo[i], Holding(s, i), i) == Nothing)
    && (s.lock.Thread? ==> s.lock.i < |s.todo|)
    && (s.cs.Thread? ==> s.cs.i < |s.todo|)
    && (s.cs.Nobody? <==> s.depth == 0)
  }

  predicate AllDisciplined(todo: seq<Program>) {
    forall i | 0 <= i < |todo| :: Disciplined(todo[i], i)
  }

  // An action that breaks the discipline is not among those to come.
  lemma NextKept(s: Threads, i: nat)
    requires Orderly(s) && i < |s.todo| && s.todo[i] != []
    ensures !Hold(s.todo[i][0], Holding(s, i), i).Broken?
  {
    assert Ends(s.todo[i], Holding(s, i), i) == Nothing;
    StaysBroken(s.todo[i][1..], i);
  }

  lemma StepOrderly(s: Threads, i: nat)
    requires Orderly(s) && CanStep(s, i)
    ensures Orderly(Step(s, i))
  {
    var t := Step(s, i);
    NextKept(s, i);
    assert Hold(s.todo[i][0], Holding(s, i), i) == Holding(t, i);
    forall j | 0 <= j < |t.todo|
      ensures Ends(t.todo[j], Holding(t, j), j) == Nothing
    {
      assert Ends(s.todo[j], Holding(s, j), j) == Nothing;
      assert j != i ==> Holding(t, j) == Holding(s, j);
    }
  }

  // Actions still to come, of all threads.
  function Total(ps: seq<Program>): nat {
    if ps == [] then 0 else Total(ps[..|ps| - 1]) + |ps[|ps| - 1]|
  }

  lemma {:induction false} FewerActs(ps: seq<Program>, i: nat, p: Program)
    requires i < |ps| && |p| < |ps[i]|
    ensures Total(ps[i := p]) < Total(ps)
  {
    var last := |ps| - 1;
    if i < last {
      FewerActs(ps[..last], i, p);
      assert ps[i := p][..last] == ps[..last][i := p];
    } else {
      assert ps[i := p][..last] == ps[..last];
    }
  }

  // The thread sets the stop event before it waits for anything.
  predicate WillStop(p: Program) {
    p != [] && (p[0].SetStop? || (!p[0].Join? && !p[0].CheckStop? && !p[0].AwaitStop? && WillStop(p[1..])))
  }

  // Thread z will set the stop event, or it is set.
  predicate StopComes(s: Threads, z: nat) {
    s.stop || (z < |s.todo| && WillStop(s.todo[z]))
  }

  lemma {:induction false} AlwaysOrderly(todo: seq<Program>, order: seq<nat>, z: nat)
    requires AllDisciplined(todo) && Feasible(Begin(todo), order)
    ensures var t := Run(Begin(todo), order);
            Orderly(t) && |t.todo| == |todo| && |order| + Total(t.todo) <= Total(todo)
    ensures StopComes(Begin(todo), z) ==> StopComes(Run(Begin(todo), order), z)
  {
    if order != [] {
      var u := Run(Begin(todo), order[..|order| - 1]);
      var i := order[|order| - 1];
      AlwaysOrderly(todo, order[..|order| - 1], z);
      StepOrderly(u, i);
      FewerActs(u.todo, i, Step(u, i).todo[i]);
    } else {
      var s := Begin(todo);
      forall i | 0 <= i < |todo|
        ensures Ends(s.todo[i], Holding(s, i), i) == Nothing
      {
        assert Disciplined(todo[i], i);
      }
    }
  }

  predicate Busy(s: Threads, j: nat) {
    j < |s.todo| && s.todo[j] != []
  }

  // The first thread with anything left to do, from thread `from` on.
  function FirstBusy(s: Threads, from: nat, j: nat): (i: nat)
    requires Busy(s, j) && from <= j
    ensures from <= i <= j && Busy(s, i) && forall k | from <= k < i :: !Busy(s, k)
    decreases j - from
  {
    if Busy(s, from) then from else FirstBusy(s, from + 1, j)
  }

  // Who can go on: the owner of m_cs, else the owner of `lock`, else the first busy thread, or, if that one waits for
  // the stop event, the thread that will set it.
  function Chosen(s: Threads, j: nat, z: nat): nat
    requires Busy(s, j)
  {
    if s.cs.Thread? then s.cs.i
    else if s.lock.Thread? then s.lock.i
    else
      var i := FirstBusy(s, 0, j);
      if s.todo[i][0].AwaitStop? && !s.stop then z else i
  }

  lemma OwnersBusy(s: Threads)
    requires Orderly(s)
    ensures s.lock.Thread? ==> Busy(s, s.lock.i)
    ensures s.cs.Thread? ==> Busy(s, s.cs.i)
  {
    if s.lock.Thread? {
      assert Ends(s.todo[s.lock.i], Holding(s, s.lock.i), s.lock.i) == Nothing;
    }
    if s.cs.Thread? {
      assert Ends(s.todo[s.cs.i], Holding(s, s.cs.i), s.cs.i) == Nothing;
    }
  }

  lemma ChosenSteps(s: Threads, j: nat, z: nat)
    requires Orderly(s) && Busy(s, j) && StopComes(s, z)
    ensures CanStep(s, Chosen(s, j, z))
  {
    var i := Chosen(s, j, z);
    OwnersBusy(s);
    NextKept(s, i);
    match s.todo[i][0]
    case Join(t) => assert !Busy(s, t);
    case _ =>
  }

  /** Disciplined threads, one of which sets the stop event, never deadlock: after any steps in any order, while a
      thread has anything left to do some thread can step. */
  lemma {:induction false} NoDeadlock(todo: seq<Program>, order: seq<nat>, j: nat, z: nat)
    requires AllDisciplined(todo) && StopComes(Begin(todo), z)
    requires Feasible(Begin(todo), order) && Busy(Run(Begin(todo), order), j)
    ensures CanStep(Run(Begin(todo), order), Chosen(Run(Begin(todo), order), j, z))
  {
    AlwaysOrderly(todo, order, z);
    ChosenSteps(Run(Begin(todo), order), j, z);
  }

  /** They all get through: each step leaves fewer actions to come, and when no thread can step none has anything left
      to do and both locks are free. */
  lemma {:induction false} AllFinish(todo: seq<Program>, order: seq<nat>, z: nat)
    requires AllDisciplined(todo) && StopComes(Begin(todo), z) && Feasible(Begin(todo), order)
    ensures var t := Run(Begin(todo), order);
            && |order| + Total(t.todo) <= Total(todo)
            && ((forall i: nat :: !CanStep(t, i)) ==>
                 t.lock.Nobody? && t.cs.Nobody? && forall j: nat :: !Busy(t, j))
  {
    AlwaysOrderly(todo, order, z);
    var t := Run(Begin(todo), order);
    if forall i: nat :: !CanStep(t, i) {
      forall j: nat
        ensures !Busy(t, j)
      {
        if Busy(t, j) {
          ChosenSteps(t, j, z);
        }
      }
      OwnersBusy(t);
    }
  }

  /** The lock order in every reachable state: who is about to take `lock`, or to wait for a thread or for the stop
      event, holds neither. */
  lemma {:induction false} NeitherHeld(todo: seq<Program>, order: seq<nat>, i: nat)
    requires AllDisciplined(todo) && Feasible(Begin(todo), order) && Busy(Run(Begin(todo), order), i)
    requires var a := Run(Begin(todo), order).todo[i][0]; a.AcqLock? || a.Join? || a.AwaitStop?
    ensures var t := Run(Begin(todo), order); t.lock != Thread(i) && t.cs != Thread(i)
  {
    AlwaysOrderly(todo, order, 0);
    var t := Run(Begin(todo), order);
    NextKept(t, i);
  }

  // ---------------------------------------------------------------- the stop event

  // A loop that is only left by the stop event, which it looks at in every round.
  predicate UntilStop(p: Program) {
    p != [] && p[|p| - 1].AwaitStop? && forall k | 0 <= k < |p| - 1 :: !p[k].AwaitStop?
  }

  /** Such a thread is not through before the stop event is set. */
  lemma {:induction false} LeavesOnStop(todo: seq<Program>, order: seq<nat>, i: nat)
    requires i < |todo| && UntilStop(todo[i]) && Feasible(Begin(todo), order)
    ensures var t := Run(Begin(todo), order);
            |t.todo| == |todo| && if t.todo[i] == [] then t.stop else UntilStop(t.todo[i])
  {
    if order != [] {
      var before := order[..|order| - 1];
      LeavesOnStop(todo, before, i);
    }
  }

  // The actions of the round: up to the next look at the stop event.
  function RoundLeft(p: Program): nat {
    if p == [] then 0 else if p[0].CheckStop? || p[0].AwaitStop? then 1 else 1 + RoundLeft(p[1..])
  }

  function StepsOf(order: seq<nat>, i: nat): nat {
    if order == [] then 0 else StepsOf(order[..|order| - 1], i) + if order[|order| - 1] == i then 1 else 0
  }

  /** And once it is set the thread takes at most the steps its round has left, whatever the others do. */
  lemma {:induction false} RoundEnds(s: Threads, order: seq<nat>, i: nat)
    requires s.stop && i < |s.todo| && (s.todo[i] == [] || UntilStop(s.todo[i])) && Feasible(s, order)
    ensures var t := Run(s, order);
            && t.stop && |t.todo| == |s.todo| && (t.todo[i] == [] || UntilStop(t.todo[i]))
            && StepsOf(order, i) + RoundLeft(t.todo[i]) <= RoundLeft(s.todo[i])
  {
    if order != [] {
      RoundEnds(s, order[..|order| - 1], i);
    }
  }

  // ---------------------------------------------------------------- without the discipline

  // One thread steps k times.
  function Times(i: nat, k: nat): seq<nat> {
    seq(k, _ => i)
  }

  predicate NoWait(p: Program) {
    forall k | 0 <= k < |p| :: !p[k].Join? && !p[k].SetStop? && !p[k].AwaitStop?
  }

  // Thread 1 has done its first k actions and holds h, thread 0 none.
  function AloneAt(q: Program, p: Program, k: nat, h: Held): Threads
    requires k <= |p| && h.Held?
  {
    var owner := Thread(1);
    Threads([q, p[k..]], if h.lock then owner else Nobody, if h.depth > 0 then owner else Nobody, h.depth, false)
  }

  lemma AloneStep(q: Program, p: Program, k: nat, h: Held)
    requires k < |p| && h.Held? && Hold(p[k], h, 1).Held? && !p[k].Join? && !p[k].SetStop? && !p[k].AwaitStop?
    ensures var s := AloneAt(q, p, k, h); CanStep(s, 1) && Step(s, 1) == AloneAt(q, p, k + 1, Hold(p[k], h, 1))
  {
    assert p[k..][1..] == p[k + 1..];
  }

  lemma {:induction false} Alone(q: Program, p: Program, k: nat)
    requires k <= |p| && Ends(p[..k], Nothing, 1).Held? && NoWait(p[..k])
    ensures Feasible(Begin([q, p]), Times(1, k))
    ensures Run(Begin([q, p]), Times(1, k)) == AloneAt(q, p, k, Ends(p[..k], Nothing, 1))
  {
    if k > 0 {
      var before := p[..k - 1];
      assert p[..k] == before + [p[k - 1]];
      Appended(before, [p[k - 1]], Nothing, 1);
      var h := Ends(before, Nothing, 1);
      assert Ends(p[..k], Nothing, 1) == Hold(p[k - 1], h, 1);
      assert p[..k][k - 1] == p[k - 1] && forall j | 0 <= j < k - 1 :: before[j] == p[..k][j];
      Alone(q, p, k - 1);
      assert Times(1, k)[..k - 1] == Times(1, k - 1);
      hide CanStep, Step, AloneAt, Hold, Ends;
      AloneStep(q, p, k - 1, h);
    }
  }

  /** The discipline is needed. Whatever program takes `lock` holding m_cs, or `lock` itself, there is a schedule of it
      and a thread that takes `lock` and then m_cs after which neither can step. */
  lemma {:induction false} LockInsideBlocks(q: Program, p: Program, k: nat)
    requires k < |p| && p[k].AcqLock? && NoWait(p[..k])
    requires Ends(p[..k], Nothing, 1).Held? && Ends(p[..k], Nothing, 1) != Nothing
    requires |q| > 1 && q[0].AcqLock? && q[1].AcqCs?
    ensures var s := Begin([q, p]);
            var order := if Ends(p[..k], Nothing, 1).lock then Times(1, k) else Times(1, k) + [0];
            && Feasible(s, order)
            && Busy(Run(s, order), 0) && Busy(Run(s, order), 1)
            && forall i: nat :: !CanStep(Run(s, order), i)
  {
    Alone(q, p, k);
    var s := Begin([q, p]);
    var t := Run(s, Times(1, k));
    if !Ends(p[..k], Nothing, 1).lock {
      var order := Times(1, k) + [0];
      assert order[..|order| - 1] == Times(1, k);
      assert CanStep(t, 0) && Run(s, order) == Step(t, 0);
    }
  }
}
