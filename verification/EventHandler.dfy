/**
 * The UDP side of EventHandler in netfilter/NFEventHandler.cpp, calling the proxy of Proxy.dfy, which calls back the
 * contexts of Contexts.dfy. Each callback is proved to be a run of Session, the one of a thread no other thread
 * interrupts, so that the theorems of SessionTheorems are about this code.
 */
module EventHandler {
  import opened Bytes
  import opened Socks
  import opened Operations
  import opened ProxyModel
  import opened ProxyInvariant
  import opened ProxySteps
  import opened Session
  import opened SessionProof
  import opened SessionHistory
  import opened Proxy
  import opened Contexts

  // ---------------------------------------------------------------- callbacks as runs

  function SendEvents(cfg: Config, w: World, id: Id, d: Datagram, sockets: bool): seq<Event> {
    if id in w.ctx then [AppSend(id, d, sockets), Send]
    else if !sockets then [AppSend(id, d, sockets)]
    else if Create(cfg, w.p, id, sockets).1 then [AppSend(id, d, sockets), Connect, Publish, Send]
    else [AppSend(id, d, sockets), Connect, Fail]
  }

  // A handler that succeeded in connecting has nothing left to do with its operation.
  function CompletionEvents(cfg: Config, w: World, op: Op, data: seq<byte>, failed: bool): seq<Event>
    requires CanTake(w.p.cells, op, data, failed)
  {
    if w.p.cells.ops[op].kind.OvtConnect? && !failed then [Completion(op, data, failed), Work]
    else [Completion(op, data, failed), Work, Settled]
  }

  lemma {:induction false} RunOk(cfg: Config, w: World, es: seq<Event>)
    requires WorldOk(cfg, w)
    ensures WorldOk(cfg, Run(cfg, w, es))
  {
    if es != [] {
      RunOk(cfg, w, es[..|es| - 1]);
      StepOk(cfg, Run(cfg, w, es[..|es| - 1]), es[|es| - 1]);
    }
  }

  predicate MaySend(w: World, id: Id) {
    w.driver.Idle? && w.stopper.NotStopped? && id !in w.closed
  }

  // What udpSend has done when its locked block ends with a context.
  function Opened(w: World, p: State, id: Id): World {
    w.(p := p, ctx := w.ctx + {id})
  }

  // udpSend, nothing else running.
  function AfterSend(cfg: Config, w: World, id: Id, d: Datagram, sockets: bool): World {
    if id in w.ctx then SubmitStep(cfg, w, id, d)
    else
      var (p, ok) := Create(cfg, w.p, id, sockets);
      if ok then SubmitStep(cfg, Opened(w, p, id), id, d) else Fate1(w.(p := p), id, d, Discarded)
  }

  lemma SendRuns(cfg: Config, w: World, id: Id, d: Datagram, sockets: bool)
    requires MaySend(w, id)
    ensures Run(cfg, w, SendEvents(cfg, w, id, d, sockets)) == AfterSend(cfg, w, id, d, sockets)
  {
    var e := AppSend(id, d, sockets);
    Runs(cfg, w, e);
    hide Run, Register, Submit, FateOf, Insert;
    var w1 := Step(cfg, w, e);
    if id in w.ctx {
      assert Step(cfg, w1, Send) == SubmitStep(cfg, w, id, d);
    } else if sockets {
      var w2 := Step(cfg, w1, Connect);
      if Create(cfg, w.p, id, sockets).1 {
        var w3 := Step(cfg, w2, Publish);
        assert Step(cfg, w3, Send) == SubmitStep(cfg, Opened(w, w2.p, id), id, d);
      }
    }
  }

  // A completion taken, handled and settled, nothing else running.
  function AfterCompletion(cfg: Config, w: World, op: Op, data: seq<byte>, failed: bool): World
    requires CanTake(w.p.cells, op, data, failed) && HandReady(Take(w.p.cells, op, data, failed))
  {
    var s := w.p.(cells := Take(w.p.cells, op, data, failed));
    var id := w.p.cells.ops[op].id;
    var out := if Delivers(s) && id in w.ctx then [Delivered(id, Unframe(s.cells.ops[op].buffer, |data|).value)]
        else [];
    w.(p := Handle(cfg, s), worker := Checking, toApp := w.toApp + out)
  }

  lemma CompletionRuns(cfg: Config, w: World, op: Op, data: seq<byte>, failed: bool)
    requires WorldOk(cfg, w) && Live(w) && w.worker.AtPort? && LockFree(w) && CanTake(w.p.cells, op, data, failed)
    ensures HandReady(Take(w.p.cells, op, data, failed))
    ensures Run(cfg, w, CompletionEvents(cfg, w, op, data, failed)) == AfterCompletion(cfg, w, op, data, failed)
  {
    var e := Completion(op, data, failed);
    Runs(cfg, w, e);
    TakenHand(cfg, w, op, data, failed);
    TakeRuns(cfg, w, op, data, failed);
    hide WorldOk, Run, Step, Take, Handle, Unframe, Delivers, CanTake, Inv;
    HandledRuns(cfg, w.(p := w.p.(cells := Take(w.p.cells, op, data, failed)), worker := Handling));
  }

  lemma HandledRuns(cfg: Config, w: World)
    requires Inv(cfg, w.p) && HandReady(w.p.cells) && w.p.cells.hand.value.body && w.worker.Handling? && LockFree(w)
    ensures var h := w.p.cells.hand.value;
            var d := w.p.cells.ops[h.op];
            var w2 := Step(cfg, w, Work);
            && (if d.kind.OvtConnect? && !h.failed then w2 else Step(cfg, w2, Settled))
               == w.(p := Handle(cfg, w.p), worker := Checking, toApp := w2.toApp)
            && w2.toApp == w.toApp +
                 (if Delivers(w.p) && d.id in w.ctx then [Delivered(d.id, Unframe(d.buffer, h.n).value)] else [])
  {
    BodyHand(cfg, w.p);
    BodyOk(cfg, w.p);
    WorkRuns(cfg, w);
    hide Body, Finish, Unframe, Inv, InvDuring, Step, Delivers;
    var w2 := WorkStep(cfg, w);
    if w2.p.cells.hand.Some? {
      SettledRuns(cfg, w2);
    }
  }

  lemma TakenHand(cfg: Config, w: World, op: Op, data: seq<byte>, failed: bool)
    requires WorldOk(cfg, w) && Live(w) && CanTake(w.p.cells, op, data, failed)
    ensures var m := Take(w.p.cells, op, data, failed);
            && HandReady(m) && m.hand == Some(Hand(op, |data|, failed, true))
            && m.ops[op].id == w.p.cells.ops[op].id && m.ops[op].kind == w.p.cells.ops[op].kind
    ensures Inv(cfg, w.p.(cells := Take(w.p.cells, op, data, failed)))
  {
    hide FatesOk, MapsAgree, DriverOk, Lazy, Filled;
    TakeStepOk(cfg, w.p, op, data, failed);
    hide InvDuring;
  }

  // free, the worker having left.
  function AfterFree(w: World): World {
    w.(p := Shutdown(w.p), ctx := {}, stopper := Stopped)
  }

  lemma FreeRuns(cfg: Config, w: World)
    requires w.stopper.Joined? && w.driver.Idle?
    ensures Run(cfg, w, [FreeProxy, FreeCtx]) == AfterFree(w)
  {
    Runs(cfg, w, FreeProxy);
    hide Run, Shutdown;
  }

  // udpClosed, nothing else running.
  function AfterClose(w: World, id: Id): World {
    w.(p := Erase(w.p, id), ctx := w.ctx - {id}, closed := w.closed + {id})
  }

  lemma CloseRuns(cfg: Config, w: World, id: Id)
    requires MaySend(w, id)
    ensures Run(cfg, w, [AppClose(id), Forget]) == AfterClose(w, id)
  {
    Runs(cfg, w, AppClose(id));
    hide Run, Erase;
  }

  // ---------------------------------------------------------------- the event handler

  class EventHandler {
    const m_udpProxy: UDPProxy
    const m_contexts: Contexts

    // Where the threads are, and what was done with the application's datagrams.
    ghost var around: World

    constructor (cfg: Config)
      ensures Valid() && View() == Begin && fresh(m_udpProxy) && fresh(m_contexts) && m_udpProxy.cfg == cfg
    {
      var contexts := new Contexts();
      m_contexts := contexts;
      m_udpProxy := new UDPProxy(cfg, contexts);
      around := Begin;
      new;
      AlwaysOk(cfg, []);
    }

    ghost function View(): World
      reads this, m_contexts, m_udpProxy, m_udpProxy.Objects()
    {
      around.(p := m_udpProxy.View(), ctx := m_contexts.m_udpCtxMap.Keys, toApp := m_contexts.toApp)
    }

    ghost predicate Valid()
      reads this, m_contexts, m_udpProxy, m_udpProxy.Objects()
    {
      && m_udpProxy.m_pProxyHandler == m_contexts
      && m_udpProxy.Tracked() && WorldOk(m_udpProxy.cfg, View())
    }

    lemma ProxyValid()
      requires Valid() && Live(View())
      ensures m_udpProxy.Valid() && m_udpProxy.Numbered()
    {
      hide FatesOk, MapsAgree, DriverOk, Lazy, WorkerOk;
      assert Inv(m_udpProxy.cfg, m_udpProxy.View());
    }

    /** udpSend, its sockets made or not: the run in which the driver thread goes through it. */
    method UdpSend(id: Id, d: Datagram, options: Options, tcpSocket: bool, udpSocket: bool)
      requires Valid() && MaySend(View(), id)
      modifies this`around, m_contexts`m_udpCtxMap, m_udpProxy, m_udpProxy.Objects()
      ensures Valid() && fresh(m_udpProxy.Objects() - old(m_udpProxy.Objects()))
      ensures View() == Run(m_udpProxy.cfg, old(View()),
                            SendEvents(m_udpProxy.cfg, old(View()), id, d, tcpSocket && udpSocket))
      // The first datagram's options stay for as long as the endpoint has a context.
      ensures m_contexts.m_udpCtxMap ==
              if id in View().ctx && id !in old(View()).ctx then old(m_contexts.m_udpCtxMap)[id := options]
              else old(m_contexts.m_udpCtxMap)
    {
      ghost var cfg, w, sockets := m_udpProxy.cfg, View(), tcpSocket && udpSocket;
      ProxyValid();
      SendRuns(cfg, w, id, d, sockets);
      RunOk(cfg, w, SendEvents(cfg, w, id, d, sockets));
      hide WorldOk, Run, AfterSend, SendEvents;
      Send(id, d, options, tcpSocket, udpSocket);
    }

    method Send(id: Id, d: Datagram, options: Options, tcpSocket: bool, udpSocket: bool)
      requires m_udpProxy.Numbered()
      modifies this`around, m_contexts`m_udpCtxMap, m_udpProxy, m_udpProxy.Objects()
      ensures m_udpProxy.Numbered() && fresh(m_udpProxy.Objects() - old(m_udpProxy.Objects()))
      ensures View() == AfterSend(m_udpProxy.cfg, old(View()), id, d, tcpSocket && udpSocket)
      ensures m_contexts.m_udpCtxMap ==
              if id in View().ctx && id !in old(View()).ctx then old(m_contexts.m_udpCtxMap)[id := options]
              else old(m_contexts.m_udpCtxMap)
    {
      hide Create, SubmitStep;
      if id !in m_contexts.m_udpCtxMap {
        var created := m_udpProxy.CreateProxyConnection(id, tcpSocket, udpSocket);
        if !created {
          around := Fate1(View(), id, d, Discarded);
          return;
        }
        m_contexts.Add(id, options);
        assert View() == Opened(old(View()), m_udpProxy.View(), id);
      }
      SendOrPost(id, d);
    }

    // The proxy's udpSend, and the direct posting when it fails.
    method SendOrPost(id: Id, d: Datagram)
      requires m_udpProxy.Numbered()
      modifies this`around, m_udpProxy, m_udpProxy.Objects()
      ensures m_udpProxy.Numbered() && m_udpProxy.Objects() == old(m_udpProxy.Objects())
      ensures View() == SubmitStep(m_udpProxy.cfg, old(View()), id, d)
    {
      ghost var w := View();
      hide Submit, FateOf, Taken;
      var sent := m_udpProxy.UdpSend(id, d, true);
      ghost var fate := FateOf(w.p, id, d, sent);
      if !sent {
        ghost var posting := Posting(d, if Taken(w.p, id, d) then Some(|LogOf(w.p, id).submitted|) else None);
        around := around.(direct := around.direct[id := Get(around.direct, id) + [posting]]);
      }
      around := Fate1(around.(driver := Idle), id, d, fate);
    }

    /** udpClosed, as a run. */
    method UdpClosed(id: Id)
      requires Valid() && MaySend(View(), id)
      modifies this`around, m_contexts`m_udpCtxMap, m_udpProxy`m_socketMap
      ensures Valid() && View() == Run(m_udpProxy.cfg, old(View()), [AppClose(id), Forget])
    {
      ghost var cfg, w := m_udpProxy.cfg, View();
      ProxyValid();
      CloseRuns(cfg, w, id);
      RunOk(cfg, w, [AppClose(id), Forget]);
      hide WorldOk, Run, AfterClose;
      Close(id);
    }

    method Close(id: Id)
      requires m_udpProxy.Tracked()
      modifies this`around, m_contexts`m_udpCtxMap, m_udpProxy`m_socketMap
      ensures m_udpProxy.Tracked() && View() == AfterClose(old(View()), id)
    {
      hide Erase;
      m_udpProxy.DeleteProxyConnection(id);
      m_contexts.Remove(id);
      around := around.(closed := around.closed + {id});
    }

    /** One round of the worker that takes a completion, as a run. */
    method Complete(pov: Op, data: seq<byte>, failed: bool)
      requires Valid() && Live(View()) && View().worker.AtPort? && LockFree(View())
      requires CanTake(View().p.cells, pov, data, failed)
      modifies this`around, m_contexts`toApp, m_contexts`toAppOptions, m_udpProxy, m_udpProxy.Objects()
      ensures Valid()
      ensures View() == Run(m_udpProxy.cfg, old(View()),
                            CompletionEvents(m_udpProxy.cfg, old(View()), pov, data, failed))
    {
      ghost var cfg, w := m_udpProxy.cfg, View();
      ProxyValid();
      CompletionRuns(cfg, w, pov, data, failed);
      RunOk(cfg, w, CompletionEvents(cfg, w, pov, data, failed));
      assert w.p.cells == m_udpProxy.Memory();
      ghost var t := AfterCompletion(cfg, w, pov, data, failed);
      assert t == w.(p := t.p, worker := Checking, toApp := t.toApp);
      hide WorldOk, Run, AfterCompletion, CompletionEvents, CanTake, Take, HandReady, Handle, Delivers, Unframe, Inv;
      hide Live, LockFree;
      HandleOne(pov, data, failed);
      assert View() == t;
    }

    // The proxy takes a completion and runs its handler.
    method HandleOne(pov: Op, data: seq<byte>, failed: bool)
      requires m_udpProxy.Valid() && m_udpProxy.m_pProxyHandler == m_contexts
      requires CanTake(m_udpProxy.Memory(), pov, data, failed)
      requires HandReady(Take(m_udpProxy.Memory(), pov, data, failed))
      modifies this`around, m_contexts`toApp, m_contexts`toAppOptions, m_udpProxy, m_udpProxy.Objects()
      ensures m_udpProxy.Tracked() && around == old(around).(worker := Checking)
      ensures var t := AfterCompletion(m_udpProxy.cfg, old(View()), pov, data, failed);
              m_udpProxy.View() == t.p && m_contexts.toApp == t.toApp
    {
      hide Handle, Unframe, Inv, Take, CanTake, HandReady, Delivers;
      around := around.(worker := Checking);
      TakeAndHandle(pov, data, failed);
    }

    method TakeAndHandle(pov: Op, data: seq<byte>, failed: bool)
      requires m_udpProxy.Valid() && m_udpProxy.m_pProxyHandler == m_contexts
      requires CanTake(m_udpProxy.Memory(), pov, data, failed)
      requires HandReady(Take(m_udpProxy.Memory(), pov, data, failed))
      modifies m_contexts`toApp, m_contexts`toAppOptions, m_udpProxy, m_udpProxy.Objects()
      ensures m_udpProxy.Tracked()
      ensures var s := old(m_udpProxy.View()).(cells := Take(old(m_udpProxy.Memory()), pov, data, failed));
              var id := old(m_udpProxy.heap[pov].id);
              && m_udpProxy.View() == Handle(m_udpProxy.cfg, s)
              && m_contexts.toApp == old(m_contexts.toApp) +
                   if Delivers(s) && id in m_contexts.m_udpCtxMap then
                     [Delivered(id, Unframe(s.cells.ops[pov].buffer, |data|).value)]
                   else []
    {
      hide Handle, Unframe, Inv;
      m_udpProxy.Dequeue(pov, data, failed);
      m_udpProxy.OnComplete(pov, |data|, failed);
    }

    /** free, the worker having left, as a run. */
    method Free()
      requires Valid() && View().stopper.Joined?
      modifies this`around, m_contexts`m_udpCtxMap, m_udpProxy
      ensures Valid() && View() == Run(m_udpProxy.cfg, old(View()), [FreeProxy, FreeCtx])
      ensures m_contexts.m_udpCtxMap == map[] && m_udpProxy.m_ovDataSet == {} && m_udpProxy.m_socketMap == map[]
    {
      ghost var cfg, w := m_udpProxy.cfg, View();
      ProxyValid();
      HandEmpty();
      FreeRuns(cfg, w);
      RunOk(cfg, w, [FreeProxy, FreeCtx]);
      hide WorldOk, Run, AfterFree;
      FreeBoth();
    }

    lemma HandEmpty()
      requires Valid() && View().stopper.Joined?
      ensures View().driver.Idle? && m_udpProxy.hand.None?
    {
      hide FatesOk, InvDuring, MapsAgree, DriverOk, Lazy, AllDeleted;
    }

    // The proxy is emptied and then the contexts.
    method FreeBoth()
      requires m_udpProxy.Valid() && m_udpProxy.hand.None?
      modifies this`around, m_contexts`m_udpCtxMap, m_udpProxy
      ensures m_udpProxy.Tracked() && View() == AfterFree(old(View()))
      ensures m_contexts.m_udpCtxMap == map[] && m_udpProxy.m_ovDataSet == {} && m_udpProxy.m_socketMap == map[]
    {
      hide Inv;
      m_udpProxy.FreeAll();
      m_contexts.Clear();
      around := around.(stopper := Stopped);
    }
  }
}
