/**
 * The thread pool of netfilter/threadpool.h: any number of workers, the auto-reset job event, the manual-reset stop
 * event and the thread that frees the pool, stepping in any order.
 */
module ThreadPool {

  // Where a worker is in threadProc. Leaving: the wait returned the stop event.
  datatype Phase = Created | Waiting | Executing | Leaving | Gone

  // `joined`: how many threads free has waited for.
  datatype Pool = Pool(workers: seq<Phase>, job: bool, stop: bool, joined: nat)

  datatype Event =
    | Started(i: nat) | Wake(i: nat) | Returned(i: nat) | Leave(i: nat) | Ended(i: nat)
    | JobAvailable | Stop | Join

  // What a worker calls on its job source.
  datatype Call = ThreadStarted | Execute | ThreadStopped

  function Fresh(n: nat): Pool {
    Pool(seq(n, _ => Created), false, false, 0)
  }

  predicate At(w: Pool, i: nat, phase: Phase) {
    i < |w.workers| && w.workers[i] == phase
  }

  // With both events set a wait returns the one of lower index, the job event.
  predicate Enabled(w: Pool, e: Event) {
    match e
    case Started(i) => At(w, i, Created)
    case Wake(i) => At(w, i, Waiting) && w.job
    case Returned(i) => At(w, i, Executing)
    case Leave(i) => At(w, i, Waiting) && !w.job && w.stop
    case Ended(i) => At(w, i, Leaving)
    case JobAvailable => true
    case Stop => !w.stop
    case Join => w.stop && At(w, w.joined, Gone)
  }

  function Step(w: Pool, e: Event): Pool
    requires Enabled(w, e)
  {
    match e
    case Started(i) => w.(workers := w.workers[i := Waiting])
    case Wake(i) => w.(workers := w.workers[i := Executing], job := false)
    case Returned(i) => w.(workers := w.workers[i := Waiting])
    case Leave(i) => w.(workers := w.workers[i := Leaving])
    case Ended(i) => w.(workers := w.workers[i := Gone])
    case JobAvailable => w.(job := true)
    case Stop => w.(stop := true)
    case Join => w.(joined := w.joined + 1)
  }

  predicate Feasible(w: Pool, es: seq<Event>)
    decreases |es|, 0
  {
    es == [] || (Feasible(w, es[..|es| - 1]) && Enabled(Run(w, es[..|es| - 1]), es[|es| - 1]))
  }

  function Run(w: Pool, es: seq<Event>): Pool
    requires Feasible(w, es)
    decreases |es|, 1
  {
    if es == [] then w else Step(Run(w, es[..|es| - 1]), es[|es| - 1])
  }

  lemma {:induction false} Prefix(w: Pool, es: seq<Event>, k: nat)
    requires Feasible(w, es) && k <= |es|
    ensures Feasible(w, es[..k])
  {
    if k == |es| {
      assert es[..k] == es;
    } else {
      Prefix(w, es[..|es| - 1], k);
      assert es[..|es| - 1][..k] == es[..k];
    }
  }

  // The pool after the first k steps.
  function After(w: Pool, es: seq<Event>, k: nat): Pool
    requires Feasible(w, es) && k <= |es|
  {
    Prefix(w, es, k);
    Run(w, es[..k])
  }

  // ---------------------------------------------------------------- jobs

  // A worker was woken after the first k steps.
  ghost predicate WokenAfter(es: seq<Event>, k: nat) {
    exists j :: k <= j < |es| && es[j].Wake?
  }

  /** A job made available is followed by an execution begun after it, or its signal is still there. */
  lemma {:induction false} JobServed(w: Pool, es: seq<Event>, k: nat)
    requires Feasible(w, es) && k < |es| && es[k] == JobAvailable
    ensures Run(w, es).job || WokenAfter(es, k + 1)
  {
    var before := es[..|es| - 1];
    if k < |es| - 1 {
      JobServed(w, before, k);
      if WokenAfter(before, k + 1) {
        var j :| k + 1 <= j < |before| && before[j].Wake?;
        assert es[j].Wake?;
      } else if es[|es| - 1].Wake? {
        assert WokenAfter(es, k + 1);
      }
    }
  }

  predicate Serving(w: Pool, i: nat) {
    i < |w.workers| && !w.workers[i].Leaving? && !w.workers[i].Gone?
  }

  /** A job made available while some worker has not yet seen the stop event is begun before that worker leaves:
      stopping loses no job that was announced before the last worker went. */
  lemma {:induction false} NoJobLost(w: Pool, es: seq<Event>, k: nat, i: nat)
    requires Feasible(w, es) && k < |es| && es[k] == JobAvailable
    requires Serving(After(w, es, k), i) && !Serving(Run(w, es), i)
    ensures WokenAfter(es, k + 1)
  {
    var before := es[..|es| - 1];
    assert k < |es| - 1;
    assert before[..k] == es[..k];
    if Serving(Run(w, before), i) {
      assert es[|es| - 1] == Leave(i);
      JobServed(w, before, k);
    } else {
      NoJobLost(w, before, k, i);
    }
    var j :| k + 1 <= j < |before| && before[j].Wake?;
    assert es[j].Wake?;
  }

  function Executions(es: seq<Event>): nat {
    if es == [] then 0 else Executions(es[..|es| - 1]) + if es[|es| - 1].Wake? then 1 else 0
  }

  // Announcements that found the job event unset.
  function Announced(w: Pool, es: seq<Event>): nat
    requires Feasible(w, es)
  {
    if es == [] then 0
    else Announced(w, es[..|es| - 1]) + if es[|es| - 1].JobAvailable? && !Run(w, es[..|es| - 1]).job then 1 else 0
  }

  /** Executions match the announcements that were not made while one was pending: no execution without a job. */
  lemma {:induction false} JobsConserved(n: nat, es: seq<Event>)
    requires Feasible(Fresh(n), es)
    ensures Executions(es) + (if Run(Fresh(n), es).job then 1 else 0) == Announced(Fresh(n), es)
  {
    if es != [] {
      JobsConserved(n, es[..|es| - 1]);
    }
  }

  /** One execution per announcement would be too much to ask: two announcements in a row are one signal. */
  lemma AnnouncementsMerge()
    ensures var es := [JobAvailable, JobAvailable, Started(0), Wake(0)];
            Feasible(Fresh(1), es) && Executions(es) == 1 && !Run(Fresh(1), es).job
  {
    var es := [JobAvailable, JobAvailable, Started(0), Wake(0)];
    var ps := [
      Fresh(1), Pool([Created], true, false, 0), Pool([Created], true, false, 0), Pool([Waiting], true, false, 0),
      Pool([Executing], false, false, 0)];
    for k := 0 to |es|
      invariant Feasible(Fresh(1), es[..k]) && Run(Fresh(1), es[..k]) == ps[k]
      invariant Executions(es[..k]) == if k <= 3 then 0 else 1
    {
      assert es[..k + 1][..k] == es[..k];
      assert es[k] == es[..k + 1][k];
      assert Enabled(ps[k], es[k]) && Step(ps[k], es[k]) == ps[k + 1];
    }
    assert es[..|es|] == es;
  }

  // ---------------------------------------------------------------- what each worker calls

  function CallOf(e: Event, i: nat): seq<Call> {
    if e == Started(i) then [ThreadStarted]
    else if e == Wake(i) then [Execute]
    else if e == Ended(i) then [ThreadStopped]
    else []
  }

  function CallsOf(es: seq<Event>, i: nat): seq<Call> {
    if es == [] then [] else CallsOf(es[..|es| - 1], i) + CallOf(es[|es| - 1], i)
  }

  function Executes(k: nat): seq<Call> {
    seq(k, _ => Execute)
  }

  // A worker's calls up to a phase, with k executions.
  function Script(phase: Phase, k: nat): seq<Call> {
    match phase
    case Created => []
    case Gone => [ThreadStarted] + Executes(k) + [ThreadStopped]
    case _ => [ThreadStarted] + Executes(k)
  }

  function WakesOf(es: seq<Event>, i: nat): nat {
    if es == [] then 0 else WakesOf(es[..|es| - 1], i) + if es[|es| - 1] == Wake(i) then 1 else 0
  }

  /** Each worker starts once before it executes anything, and has stopped once, last, exactly when it is gone. */
  lemma {:induction false} WorkerCalls(n: nat, es: seq<Event>, i: nat)
    requires Feasible(Fresh(n), es) && i < n
    ensures |Run(Fresh(n), es).workers| == n
    ensures CallsOf(es, i) == Script(Run(Fresh(n), es).workers[i], WakesOf(es, i))
    ensures Run(Fresh(n), es).workers[i] == Created ==> WakesOf(es, i) == 0
  {
    if es != [] {
      var before := es[..|es| - 1];
      WorkerCalls(n, before, i);
      ScriptGrows(Run(Fresh(n), before), es[|es| - 1], i, WakesOf(before, i));
      hide Executes, Script;
    }
  }

  lemma ScriptGrows(w: Pool, e: Event, i: nat, k: nat)
    requires Enabled(w, e) && i < |w.workers| && (w.workers[i] == Created ==> k == 0)
    ensures var k' := k + if e == Wake(i) then 1 else 0;
            Script(Step(w, e).workers[i], k') == Script(w.workers[i], k) + CallOf(e, i)
  {
    assert Executes(k + 1) == Executes(k) + [Execute];
    hide Executes;
  }

  /** No worker leaves before the stop event, and none says it has stopped. */
  lemma {:induction false} LeavesOnStop(n: nat, es: seq<Event>, i: nat)
    requires Feasible(Fresh(n), es)
    requires At(Run(Fresh(n), es), i, Leaving) || At(Run(Fresh(n), es), i, Gone) || ThreadStopped in CallsOf(es, i)
    ensures Run(Fresh(n), es).stop
  {
    var before := es[..|es| - 1];
    var e := es[|es| - 1];
    if !(e == Leave(i) || e == Ended(i)) || At(Run(Fresh(n), before), i, Leaving) {
      LeavesOnStop(n, before, i);
    }
  }

  // threadProc, its waits answered one after the other; wait number `last` is the first to return the stop event.
  method ThreadProc(stopped: nat -> bool, ghost last: nat) returns (calls: seq<Call>)
    requires stopped(last) && forall k: nat | k < last :: !stopped(k)
    ensures calls == Script(Gone, last)
  {
    calls := [ThreadStarted];
    var k := 0;
    while true
      invariant k <= last && calls == [ThreadStarted] + Executes(k)
      decreases last - k
    {
      if stopped(k) {
        break;
      }
      calls := calls + [Execute];
      assert Executes(k) + [Execute] == Executes(k + 1);
      k := k + 1;
    }
    calls := calls + [ThreadStopped];
  }

  // init: as many threads as asked for, or as there are processors, those that could not be created left out.
  method Init(threadCount: int, processors: nat, created: nat -> bool) returns (threads: seq<nat>)
    ensures var n := if threadCount > 0 then threadCount else if processors > 0 then processors else 1;
            && (forall i: nat :: i in threads <==> i < n && created(i))
            && forall a, b | 0 <= a < b < |threads| :: threads[a] < threads[b]
  {
    var n := threadCount;
    if n <= 0 {
      n := processors;
      if n == 0 {
        n := 1;
      }
    }
    threads := [];
    for i := 0 to n
      invariant forall j: nat :: j in threads <==> j < i && created(j)
      invariant forall a | 0 <= a < |threads| :: threads[a] < i
      invariant forall a, b | 0 <= a < b < |threads| :: threads[a] < threads[b]
    {
      if created(i) {
        threads := threads + [i];
      }
    }
  }

  // ---------------------------------------------------------------- free

  function PhaseLeft(phase: Phase): nat {
    match phase
    case Created => 3
    case Waiting => 2
    case Executing => 3
    case Leaving => 1
    case Gone => 0
  }

  function WorkersLeft(ws: seq<Phase>): nat {
    if ws == [] then 0 else WorkersLeft(ws[..|ws| - 1]) + PhaseLeft(ws[|ws| - 1])
  }

  // Steps to come once the stop event is set and no more jobs are announced. A pending job costs two more.
  function Left(w: Pool): int {
    WorkersLeft(w.workers) + (if w.job then 2 else 0) + |w.workers| - w.joined
  }

  lemma {:induction false} OneWorkerMoves(ws: seq<Phase>, i: nat, phase: Phase)
    requires i < |ws|
    ensures WorkersLeft(ws[i := phase]) == WorkersLeft(ws) - PhaseLeft(ws[i]) + PhaseLeft(phase)
  {
    var last := |ws| - 1;
    if i < last {
      OneWorkerMoves(ws[..last], i, phase);
      assert ws[i := phase][..last] == ws[..last][i := phase];
    } else {
      assert ws[i := phase][..last] == ws[..last];
    }
  }

  lemma StopAdvances(w: Pool, e: Event)
    requires w.stop && Enabled(w, e) && !e.JobAvailable?
    ensures Left(Step(w, e)) == Left(w) - 1 && Step(w, e).stop
  {
    if !e.Join? {
      OneWorkerMoves(w.workers, e.i, Step(w, e).workers[e.i]);
    }
  }

  /** Until free has waited for every thread, some thread can go on. */
  lemma FreeNeverStuck(w: Pool)
    requires w.stop && w.joined < |w.workers|
    ensures exists e: Event :: Enabled(w, e) && !e.JobAvailable?
  {
    var i := w.joined;
    var e :=
      match w.workers[i]
      case Created => Started(i)
      case Waiting => if w.job then Wake(i) else Leave(i)
      case Executing => Returned(i)
      case Leaving => Ended(i)
      case Gone => Join;
    assert Enabled(w, e);
  }

  lemma {:induction false} AllGone(ws: seq<Phase>, i: nat)
    requires WorkersLeft(ws) == 0 && i < |ws|
    ensures ws[i] == Gone
  {
    if i < |ws| - 1 {
      AllGone(ws[..|ws| - 1], i);
    }
  }

  // Whom free has waited for is gone.
  lemma {:induction false} JoinedGone(n: nat, es: seq<Event>)
    requires Feasible(Fresh(n), es)
    ensures var w := Run(Fresh(n), es);
            |w.workers| == n && w.joined <= n && forall i | 0 <= i < w.joined :: w.workers[i] == Gone
  {
    if es != [] {
      JoinedGone(n, es[..|es| - 1]);
    }
  }

  // Announcements.
  function Jobs(es: seq<Event>): nat {
    if es == [] then 0 else Jobs(es[..|es| - 1]) + if es[|es| - 1].JobAvailable? then 1 else 0
  }

  lemma {:induction false} StepsLeft(w: Pool, es: seq<Event>)
    requires w.stop && Feasible(w, es)
    ensures Run(w, es).stop && |es| + Left(Run(w, es)) <= Left(w) + 3 * Jobs(es)
    ensures Jobs(es) == 0 ==> |es| + Left(Run(w, es)) == Left(w)
  {
    if es != [] {
      StepsLeft(w, es[..|es| - 1]);
      if !es[|es| - 1].JobAvailable? {
        StopAdvances(Run(w, es[..|es| - 1]), es[|es| - 1]);
      }
    }
  }

  lemma {:induction false} RunOn(w: Pool, es: seq<Event>, more: seq<Event>)
    requires Feasible(w, es) && Feasible(Run(w, es), more)
    ensures Feasible(w, es + more) && Run(w, es + more) == Run(Run(w, es), more)
  {
    if more == [] {
      assert es + more == es;
    } else {
      var last := |more| - 1;
      RunOn(w, es, more[..last]);
      assert (es + more)[..|es + more| - 1] == es + more[..last];
    }
  }

  /** Whatever the pool was doing when the stop event was set, and in whatever order its threads then step, they are
      through within a number of steps known beforehand and three more for each job still announced; without new jobs
      in exactly that number. When none can step any more free has returned and each worker has made its one
      threadStarted and its one threadStopped. */
  lemma FreeFinishes(n: nat, es: seq<Event>, more: seq<Event>)
    requires Feasible(Fresh(n), es) && Run(Fresh(n), es).stop && Feasible(Run(Fresh(n), es), more)
    ensures Feasible(Fresh(n), es + more)
    ensures var w := Run(Fresh(n), es);
            && Left(w) <= 4 * n + 2 && 0 <= Left(Run(w, more))
            && |more| + Left(Run(w, more)) <= Left(w) + 3 * Jobs(more)
            && (Jobs(more) == 0 ==> |more| + Left(Run(w, more)) == Left(w))
    ensures var t := Run(Fresh(n), es + more);
            (forall e: Event :: !e.JobAvailable? ==> !Enabled(t, e)) ==>
              && t.joined == n
              && forall i: nat | i < n ::
                   CallsOf(es + more, i) == Script(Gone, WakesOf(es + more, i))
  {
    var w := Run(Fresh(n), es);
    StepsLeft(w, more);
    RunOn(Fresh(n), es, more);
    JoinedGone(n, es);
    AtMostThree(w.workers);
    var t := Run(Fresh(n), es + more);
    JoinedGone(n, es + more);
    if forall e: Event :: !e.JobAvailable? ==> !Enabled(t, e) {
      if t.joined < n {
        FreeNeverStuck(t);
      }
      forall i: nat | i < n
        ensures CallsOf(es + more, i) == Script(Gone, WakesOf(es + more, i))
      {
        WorkerCalls(n, es + more, i);
        assert t.workers[i] == Gone;
      }
    }
  }

  lemma {:induction false} AtMostThree(ws: seq<Phase>)
    ensures WorkersLeft(ws) <= 3 * |ws|
  {
    if ws != [] {
      AtMostThree(ws[..|ws| - 1]);
    }
  }
}
