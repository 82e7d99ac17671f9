/**
 * What becomes of each datagram the application sends: one fate each, shown by the relay socket and the direct
 * postings; and exactly which of those the relay socket refuses are posted directly and which are lost.
 */
module SessionFates {
  import opened Bytes
  import opened Socks
  import opened Operations
  import opened ProxyModel
  import opened ProxyInvariant
  import opened ProxyHistory
  import opened Session
  import opened SessionProof
  import opened SessionHistory

  // ---------------------------------------------------------------- every datagram's fate

  // The datagrams the application sent on an endpoint in a run.
  function Asked(cfg: Config, es: seq<Event>, id: Id): seq<Datagram> {
    if es == [] then []
    else
      var e := es[|es| - 1];
      var before := es[..|es| - 1];
      Asked(cfg, before, id) +
      (if e.AppSend? && e.id == id && Enabled(Run(cfg, Begin, before), e) then [e.d] else [])
  }

  function Sentenced(fs: seq<Fated>): seq<Datagram> {
    seq(|fs|, i requires 0 <= i < |fs| => fs[i].d)
  }

  // The datagram the driver is in the middle of sending.
  function InFlight(w: World, id: Id): seq<Datagram> {
    if (Making(w, id) || w.driver.Sending?) && w.driver.id == id then [w.driver.d] else []
  }

  /** Each datagram the application sends gets exactly one fate, in order, when the driver returns from it. */
  lemma {:induction false} OneFateEach(cfg: Config, es: seq<Event>, id: Id)
    ensures var w := Run(cfg, Begin, es); Sentenced(Get(w.fates, id)) + InFlight(w, id) == Asked(cfg, es, id)
  {
    if es != [] {
      var before := es[..|es| - 1];
      OneFateEach(cfg, before, id);
      FateStep(cfg, Run(cfg, Begin, before), es[|es| - 1], id);
    }
  }

  // The fate given in a step, and the endpoint it is given on.
  function NewFate(cfg: Config, w: World, e: Event): Option<(Id, Fated)> {
    if !Enabled(w, e) then None
    else
      match e
      case AppSend(id, d, sockets) => if id !in w.ctx && !sockets then Some((id, Fated(d, Discarded))) else None
      case Fail => Some((w.driver.id, Fated(w.driver.d, Discarded)))
      case Send =>
        var ok := Submit(cfg, w.p, w.driver.id, w.driver.d).1;
        Some((w.driver.id, Fated(w.driver.d, FateOf(w.p, w.driver.id, w.driver.d, ok))))
      case _ => None
  }

  function FateGiven(cfg: Config, w: World, e: Event, id: Id): seq<Fated> {
    var f := NewFate(cfg, w, e);
    if f.Some? && f.value.0 == id then [f.value.1] else []
  }

  lemma StepFates(cfg: Config, w: World, e: Event, id: Id)
    ensures Get(Step(cfg, w, e).fates, id) == Get(w.fates, id) + FateGiven(cfg, w, e, id)
  {
    assert Get(w.fates, id) + [] == Get(w.fates, id);
    hide Submit, FateOf, Register, Body, Finish, Take, CanTake, Insert, Erase, Shutdown, Unframe, Delivers;
  }

  lemma FateStep(cfg: Config, w: World, e: Event, id: Id)
    ensures Sentenced(Get(Step(cfg, w, e).fates, id)) + InFlight(Step(cfg, w, e), id)
         == Sentenced(Get(w.fates, id)) + InFlight(w, id) +
            (if e.AppSend? && e.id == id && Enabled(w, e) then [e.d] else [])
  {
    StepFates(cfg, w, e, id);
    FlightStep(cfg, w, e, id);
    var fs, more := Get(w.fates, id), FateGiven(cfg, w, e, id);
    assert Sentenced(fs + more) == Sentenced(fs) + Sentenced(more);
    hide Step, Enabled, FateGiven, InFlight, Sentenced;
  }

  // The datagram in flight is the one asked for, or the one that has just got its fate.
  lemma FlightStep(cfg: Config, w: World, e: Event, id: Id)
    ensures Sentenced(FateGiven(cfg, w, e, id)) + InFlight(Step(cfg, w, e), id)
         == InFlight(w, id) + (if e.AppSend? && e.id == id && Enabled(w, e) then [e.d] else [])
  {
    hide Submit, FateOf, Register, Body, Finish, Take, CanTake, Insert, Erase, Shutdown, Unframe, Delivers;
  }

  /** What the proxy's log holds and what was posted directly are the datagrams with those fates: none of them was
      both accepted by the relay socket and posted directly. */
  lemma {:induction false} FatesShown(cfg: Config, es: seq<Event>, id: Id)
    ensures var w := Run(cfg, Begin, es); FatesMatch(Get(w.fates, id), LogOf(w.p, id), Get(w.direct, id))
  {
    AlwaysOk(cfg, es);
    hide InvDuring, MapsAgree, DriverOk, Lazy, Run, FatesMatch;
  }

  // ---------------------------------------------------------------- refused frames

  // For each datagram the proxy took on an endpoint, whether the relay was not connected yet when it took it.
  function TakenEarly(cfg: Config, es: seq<Event>, id: Id): seq<bool> {
    if es == [] then []
    else
      var before := es[..|es| - 1];
      TakenEarly(cfg, before, id) + EarlyNow(Run(cfg, Begin, before), es[|es| - 1], id)
  }

  function EarlyNow(w: World, e: Event, id: Id): seq<bool> {
    if TakenNow(w, e, id) == [] then [] else [w.p.conns[id].state != PsConnected]
  }

  // Datagram number k of those the proxy took was posted directly.
  predicate WasPosted(direct: seq<Posting>, k: nat) {
    exists j :: 0 <= j < |direct| && direct[j].taken == Some(k)
  }

  lemma {:induction false} PostedAre(fs: seq<Fated>, k: nat)
    requires k < |Took(fs)|
    ensures WasPosted(PostedDirectly(fs), k) <==> Took(fs)[k].fate.Refused?
    ensures Took(fs)[k].fate.Waiting? || Took(fs)[k].fate.Relayed? || Took(fs)[k].fate.Refused?
  {
    var before := fs[..|fs| - 1];
    var ps, qs := PostedDirectly(before), PostedDirectly(fs);
    var n := |Took(before)|;
    PostedOf(before);
    assert forall j | 0 <= j < |ps| :: qs[j] == ps[j];
    assert |qs| > |ps| ==> qs[|ps|].taken == if fs[|fs| - 1].fate.Refused? then Some(n) else None;
    assert WasPosted(qs, k) <==> WasPosted(ps, k) || (|qs| > |ps| && qs[|ps|].taken == Some(k)) by {
      if WasPosted(ps, k) {
        var j :| 0 <= j < |ps| && ps[j].taken == Some(k);
        assert qs[j].taken == Some(k);
      }
    }
    if k < n {
      PostedAre(before, k);
    } else {
      assert !WasPosted(ps, k);
    }
  }

  // What is posted directly has the number and the data of a datagram taken, or was not taken.
  lemma {:induction false} PostedOf(fs: seq<Fated>)
    ensures PostedKnown(PostedDirectly(fs), Took(fs)) && PostedOnce(PostedDirectly(fs))
  {
    if fs != [] {
      var before := fs[..|fs| - 1];
      PostedOf(before);
      assert Took(before) <= Took(fs);
      var ps, qs := PostedDirectly(before), PostedDirectly(fs);
      assert forall j | 0 <= j < |ps| :: qs[j] == ps[j];
      hide Took, PostedDirectly;
      assert Took(fs)[..|Took(before)|] == Took(before);
    }
  }

  predicate PostedKnown(direct: seq<Posting>, took: seq<Fated>) {
    forall j | 0 <= j < |direct| && direct[j].taken.Some? ::
      direct[j].taken.value < |took| && direct[j].d == took[direct[j].taken.value].d
  }

  predicate PostedOnce(direct: seq<Posting>) {
    forall i, j | 0 <= i < j < |direct| && direct[i].taken.Some? :: direct[i].taken != direct[j].taken
  }

  /** The fate Waiting is given to exactly the datagrams taken before the relay was connected. */
  lemma {:induction false} WaitingIsEarly(cfg: Config, es: seq<Event>, id: Id)
    ensures SameEarly(Took(Get(Run(cfg, Begin, es).fates, id)), TakenEarly(cfg, es, id))
  {
    if es != [] {
      var before := es[..|es| - 1];
      WaitingIsEarly(cfg, before, id);
      AlwaysOk(cfg, before);
      var w, e := Run(cfg, Begin, before), es[|es| - 1];
      TookStep(cfg, w, e, id);
      hide Step, Took, SameEarly, EarlyNow;
      MoreEarly(Took(Get(w.fates, id)), Took(Get(Step(cfg, w, e).fates, id)), TakenEarly(cfg, before, id),
          EarlyNow(w, e, id));
    }
  }

  predicate SameEarly(took: seq<Fated>, early: seq<bool>) {
    |took| == |early| && forall k | 0 <= k < |took| :: took[k].fate.Waiting? <==> early[k]
  }

  lemma MoreEarly(took: seq<Fated>, took': seq<Fated>, early: seq<bool>, more: seq<bool>)
    requires SameEarly(took, early) && took <= took' && |took'| == |took| + |more| && |more| <= 1
    requires more != [] ==> (took'[|took|].fate.Waiting? <==> more[0])
    ensures SameEarly(took', early + more)
  {
  }

  lemma TookStep(cfg: Config, w: World, e: Event, id: Id)
    ensures var took, took' := Took(Get(w.fates, id)), Took(Get(Step(cfg, w, e).fates, id));
            var early := EarlyNow(w, e, id);
            && |took'| == |took| + |early| && took <= took'
            && (early != [] ==> (took'[|took|].fate.Waiting? <==> early[0]))
  {
    hide Step, Took, FateGiven, EarlyNow;
    StepFates(cfg, w, e, id);
    GivenEarly(cfg, w, e, id);
    TookAll(Get(w.fates, id), FateGiven(cfg, w, e, id));
  }

  predicate TookFate(fate: Fate) {
    fate.Waiting? || fate.Relayed? || fate.Refused?
  }

  lemma TookAll(fs: seq<Fated>, more: seq<Fated>)
    requires |more| <= 1
    ensures Took(fs + more) == Took(fs) + if more != [] && TookFate(more[0].fate) then more else []
  {
    if more == [] {
      assert fs + more == fs;
    } else {
      TookMore(fs, more[0]);
      assert more == [more[0]];
    }
  }

  // A datagram the proxy takes gets one of three fates, Waiting when the relay is not connected; no other does.
  lemma GivenEarly(cfg: Config, w: World, e: Event, id: Id)
    ensures var more, early := FateGiven(cfg, w, e, id), EarlyNow(w, e, id);
            && |more| <= 1 && |early| <= 1
            && (early != [] <==> more != [] && TookFate(more[0].fate))
            && (early != [] ==> (more[0].fate.Waiting? <==> early[0]))
  {
    if e.Send? && Enabled(w, e) {
      SubmitResult(cfg, w.p, w.driver.id, w.driver.d);
    }
    hide Submit, HandReady, CanTake, Delivers;
  }

  lemma SubmitResult(cfg: Config, s: State, id: Id, d: Datagram)
    ensures Submit(cfg, s, id, d).1 ==> id in s.conns
    ensures id in s.conns && s.conns[id].state != PsConnected ==> Submit(cfg, s, id, d).1
  {
  }

  /** What is taken early comes first, and whatever has not been given to the socket was taken early: it waits in the
      queue, or waited there when its connection went. Before the relay is connected all was taken early. */
  lemma {:induction false} EarlyFirst(cfg: Config, es: seq<Event>, id: Id)
    ensures EarlyOk(Run(cfg, Begin, es).p, id, TakenEarly(cfg, es, id))
  {
    if es != [] {
      var before := es[..|es| - 1];
      var w := Run(cfg, Begin, before);
      EarlyFirst(cfg, before, id);
      AlwaysOk(cfg, before);
      AlwaysOk(cfg, es);
      EarlyStep(cfg, w, es[|es| - 1], id, TakenEarly(cfg, before, id));
    }
  }

  ghost predicate EarlyOk(s: State, id: Id, early: seq<bool>) {
    var l := LogOf(s, id);
    && |early| == |l.submitted| && |l.udp| <= |l.submitted|
    && (forall j, k | 0 <= j < k < |early| && early[k] :: early[j])
    && (forall k | |l.udp| <= k < |early| :: early[k])
    && (id in s.conns && s.conns[id].state != PsConnected ==> forall k | 0 <= k < |early| :: early[k])
  }

  lemma EarlyStep(cfg: Config, w: World, e: Event, id: Id, early: seq<bool>)
    requires WorldOk(cfg, w) && EarlyOk(w.p, id, early)
    requires WorldOk(cfg, Step(cfg, w, e))
    ensures EarlyOk(Step(cfg, w, e).p, id, early + EarlyNow(w, e, id))
  {
    hide WorldOk, Enabled, Step, EarlyOk;
    var t := Step(cfg, w, e);
    LogStep(cfg, w, e, id);
    LogLengths(cfg, w, id);
    LogLengths(cfg, t, id);
    if id in w.p.conns && id in t.p.conns {
      StepForward(cfg, w, e, id);
    }
    EarlyMore(w.p, t.p, id, early, TakenNow(w, e, id), EarlyNow(w, e, id));
  }

  lemma EarlyMore(s: State, t: State, id: Id, early: seq<bool>, taken: seq<Datagram>, more: seq<bool>)
    requires EarlyOk(s, id, early) && Advances(s, t, id, taken)
    requires id in s.conns && id in t.conns ==> ConnGrows(s.conns[id], t.conns[id])
    requires |more| == |taken| <= 1 && (more != [] ==> id in s.conns && more[0] == (s.conns[id].state != PsConnected))
    requires id in s.conns && s.conns[id].state == PsConnected ==> |LogOf(s, id).udp| == |LogOf(s, id).submitted|
    requires id in t.conns && t.conns[id].state == PsConnected ==> |LogOf(t, id).udp| == |LogOf(t, id).submitted|
    requires id in t.conns && t.conns[id].state != PsConnected ==> LogOf(t, id).udp == []
    ensures EarlyOk(t, id, early + more)
  {
  }

  // How much of what was submitted has been given to the socket.
  lemma LogLengths(cfg: Config, w: World, id: Id)
    requires WorldOk(cfg, w)
    ensures id in w.p.conns && w.p.conns[id].state == PsConnected ==>
              |LogOf(w.p, id).udp| == |LogOf(w.p, id).submitted|
    ensures id in w.p.conns && w.p.conns[id].state != PsConnected ==> LogOf(w.p, id).udp == []
  {
    if id in w.p.conns {
      hide FatesOk, MapsAgree, DriverOk, Lazy, CellsOk, Ties;
      assert Live(w);
      assert ConnOk(cfg, w.p.conns[id], w.p.logs[id]);
    }
  }

  /** A datagram the proxy took was posted directly if and only if it was taken when the relay was connected and its
      WSASendTo was refused; and none is posted twice. */
  lemma {:induction false} PostedExactly(cfg: Config, es: seq<Event>, id: Id, k: nat)
    requires k < |LogOf(Run(cfg, Begin, es).p, id).submitted|
    ensures var w := Run(cfg, Begin, es); var l := LogOf(w.p, id);
            && |TakenEarly(cfg, es, id)| == |l.submitted|
            && (WasPosted(Get(w.direct, id), k) <==>
                 k < |l.udp| && !l.udp[k].accepted && !TakenEarly(cfg, es, id)[k])
    ensures PostedOnce(Get(Run(cfg, Begin, es).direct, id))
  {
    FatesShown(cfg, es, id);
    WaitingIsEarly(cfg, es, id);
    EarlyFirst(cfg, es, id);
    var w := Run(cfg, Begin, es);
    var fs := Get(w.fates, id);
    hide Run, TakenEarly;
    PostedAre(fs, k);
    PostedOf(fs);
    hide Took, PostedDirectly, WasPosted;
    assert Took(fs)[k].d == LogOf(w.p, id).submitted[k];
  }

  // It is in the queue of its connection, at its place.
  predicate IsQueued(p: State, id: Id, k: nat) {
    var l := LogOf(p, id);
    && id in p.conns && |l.udp| <= k < |l.submitted|
    && k - |l.udp| < |p.conns[id].queue| && p.conns[id].queue[k - |l.udp|] == l.submitted[k]
  }

  // The relay socket did not accept its frame, it was not posted directly, and it does not wait any more.
  predicate IsLost(w: World, id: Id, k: nat) {
    var l := LogOf(w.p, id);
    && k < |l.submitted|
    && !(k < |l.udp| && l.udp[k].accepted)
    && !WasPosted(Get(w.direct, id), k)
    && !IsQueued(w.p, id, k)
  }

  lemma QueueHolds(cfg: Config, w: World, id: Id, k: nat)
    requires WorldOk(cfg, w) && id in w.p.conns
    ensures var l := LogOf(w.p, id); IsQueued(w.p, id, k) <==> |l.udp| <= k < |l.submitted|
  {
    hide FatesOk, MapsAgree, DriverOk, Lazy, CellsOk, Ties;
    assert Live(w);
    assert ConnOk(cfg, w.p.conns[id], w.p.logs[id]);
  }

  /** The whole account of what the proxy took, in every run: a datagram is lost if and only if udpSend found the relay
      not connected, and so queued it, and then either the relay socket refused its frame when the queue was flushed
      or its connection went while it waited. */
  lemma {:induction false} LostExactly(cfg: Config, es: seq<Event>, id: Id, k: nat)
    requires k < |LogOf(Run(cfg, Begin, es).p, id).submitted|
    ensures k < |TakenEarly(cfg, es, id)|
    ensures var w := Run(cfg, Begin, es); var l := LogOf(w.p, id);
            IsLost(w, id, k) <==>
              TakenEarly(cfg, es, id)[k] && (if k < |l.udp| then !l.udp[k].accepted else id !in w.p.conns)
  {
    AlwaysOk(cfg, es);
    EarlyFirst(cfg, es, id);
    PostedExactly(cfg, es, id, k);
    var w := Run(cfg, Begin, es);
    hide Run, TakenEarly, WasPosted, WorldOk, IsQueued;
    if id in w.p.conns {
      QueueHolds(cfg, w, id, k);
    } else {
      NotQueued(w.p, id, k);
    }
  }

  lemma NotQueued(p: State, id: Id, k: nat)
    requires id !in p.conns
    ensures !IsQueued(p, id, k)
  {
  }

  /** In particular, of the datagrams whose frame the relay socket refused those are lost that had been queued. */
  lemma {:induction false} RefusedFrame(cfg: Config, es: seq<Event>, id: Id, k: nat)
    requires var l := LogOf(Run(cfg, Begin, es).p, id); k < |l.udp| && !l.udp[k].accepted
    ensures k < |TakenEarly(cfg, es, id)|
    ensures IsLost(Run(cfg, Begin, es), id, k) <==> TakenEarly(cfg, es, id)[k]
  {
    EarlyFirst(cfg, es, id);
    hide Run, TakenEarly, WasPosted, IsLost;
    LostExactly(cfg, es, id, k);
  }
}
