/**
 * The overlapped operations of netfilter/UDPProxy.cpp as memory cells.
 *
 * `new OV_DATA` and `delete` are explicit: a cell is an address in `ops` while it is allocated (the set
 * m_ovDataSet holds exactly these addresses), and an address is never given out twice. Beside the program's own
 * data, `Cells` records where the one completion of each operation is: with the kernel (`armed`), posted by the
 * program itself with zero bytes (`posted`), or in the worker's hand.
 */
module Operations {
  import opened Bytes
  import opened Socks

  // Driver endpoint ids and cell addresses.
  type Id = nat
  type Op = nat

  datatype Kind = OvtConnect | OvtTcpSend | OvtTcpReceive | OvtUdpSend | OvtUdpReceive

  datatype OvData = OvData(id: Id, kind: Kind, buffer: seq<byte>)

  // What becomes of a Winsock call that starts an operation: accepted (now or pending); rejected, and the
  // zero-byte completion posted in its place; rejected, and the posting refused too.
  datatype Outcome = Accepted | Posted | Lost

  // The completion the worker is handling, its byte count and error; `body` until the handler has done its work.
  datatype Hand = Hand(op: Op, n: nat, failed: bool, body: bool)

  datatype Cells = Cells(
    ops: map<Op, OvData>,
    next: Op,
    armed: multiset<Op>,
    posted: multiset<Op>,
    freed: multiset<Op>,
    hand: Option<Hand>)

  predicate IsReceive(k: Kind) {
    k.OvtTcpReceive? || k.OvtUdpReceive?
  }

  const NoCells := Cells(map[], 0, multiset{}, multiset{}, multiset{}, None)

  // buffer.resize(PACKET_SIZE)
  function EmptyPacket(): Packet {
    seq(PACKET_SIZE, _ => 0)
  }

  // new OV_DATA: the cell is there before its fields are set.
  function Alloc(m: Cells): Cells {
    m.(ops := m.ops[m.next := OvData(0, OvtConnect, [])], next := m.next + 1)
  }

  function Write(m: Cells, op: Op, d: OvData): Cells {
    m.(ops := m.ops[op := d])
  }

  // deleteOV_DATA: an address not in the set is left alone.
  function Free(m: Cells, op: Op): Cells {
    if op in m.ops then m.(ops := m.ops - {op}, freed := m.freed + multiset{op}) else m
  }

  // A started operation's fate.
  function Settle(m: Cells, op: Op, outcome: Outcome): Cells {
    match outcome
    case Accepted => m.(armed := m.armed + multiset{op})
    case Posted => m.(posted := m.posted + multiset{op})
    case Lost => Free(m, op)
  }

  // An operation on a new cell, which ends up holding d.
  function Start(m: Cells, d: OvData, outcome: Outcome): Cells {
    Settle(m.(ops := m.ops[m.next := d], next := m.next + 1), m.next, outcome)
  }

  /** Allocating a cell, filling it in, starting the operation. */
  lemma StartSteps(m: Cells, d: OvData, outcome: Outcome)
    ensures Settle(Write(Alloc(m), m.next, d), m.next, outcome) == Start(m, d, outcome)
  {
    UpdatedTwice(m.ops, m.next, OvData(0, OvtConnect, []), d);
  }

  lemma WriteTwice(m: Cells, op: Op, d: OvData, d': OvData)
    ensures Write(Write(m, op, d), op, d') == Write(m, op, d')
  {
    UpdatedTwice(m.ops, op, d, d');
  }

  // startTcpReceive and startUdpReceive without a cell to reuse.
  function NewReceive(m: Cells, id: Id, kind: Kind, outcome: Outcome): Cells {
    Start(m, OvData(id, kind, EmptyPacket()), outcome)
  }

  // A send: when it is rejected its cell has become an empty receive.
  function NewSend(m: Cells, id: Id, kind: Kind, buffer: seq<byte>, outcome: Outcome): Cells {
    Start(m, if outcome.Accepted? then OvData(id, kind, buffer) else OvData(id, Retag(kind), []), outcome)
  }

  function Retag(kind: Kind): Kind {
    if kind.OvtTcpSend? then OvtTcpReceive else OvtUdpReceive
  }

  // ConnectEx: a rejection is reported to the caller and the cell deleted.
  function NewConnect(m: Cells, id: Id, outcome: Outcome): Cells {
    Start(m, OvData(id, OvtConnect, []), if outcome.Accepted? then Accepted else Lost)
  }

  // The worker takes a completion off the port. A receive's data has been written to its buffer.
  predicate CanTake(m: Cells, op: Op, data: seq<byte>, failed: bool) {
    && m.hand.None?
    && op in m.ops
    && (op in m.posted || op in m.armed)
    && (op in m.posted ==> data == [] && !failed)
    && (IsReceive(m.ops[op].kind) ==> |data| <= |m.ops[op].buffer|)
  }

  function Take(m: Cells, op: Op, data: seq<byte>, failed: bool): Cells
    requires CanTake(m, op, data, failed)
  {
    var posted := if op in m.posted then m.posted - multiset{op} else m.posted;
    var armed := if op in m.posted then m.armed else m.armed - multiset{op};
    Cells(Filled(m.ops, op, data), m.next, armed, posted, m.freed, Some(Hand(op, |data|, failed, true)))
  }

  // The cells once `data` has been written to a receive's buffer.
  function Filled(ops: map<Op, OvData>, op: Op, data: seq<byte>): (r: map<Op, OvData>)
    requires op in ops && (IsReceive(ops[op].kind) ==> |data| <= |ops[op].buffer|)
    ensures r.Keys == ops.Keys
    ensures forall o | o in ops :: r[o].id == ops[o].id && r[o].kind == ops[o].kind && |r[o].buffer| == |ops[o].buffer|
  {
    var d := ops[op];
    if IsReceive(d.kind) then ops[op := d.(buffer := Overwrite(d.buffer, data))] else ops
  }

  // The handler is through with its completion: the cell is armed again or deleted.
  predicate Rearms(m: Cells)
    requires m.hand.Some? && m.hand.value.op in m.ops
  {
    m.hand.value.n > 0 && IsReceive(m.ops[m.hand.value.op].kind)
  }

  function Release(m: Cells, outcome: Outcome): Cells
    requires m.hand.Some? && m.hand.value.op in m.ops
  {
    var op := m.hand.value.op;
    var t := m.(hand := None);
    if Rearms(m) then Settle(t, op, outcome) else Free(t, op)
  }

  // ---------------------------------------------------------------- the invariant

  // The completions of a cell that are still to come or being handled.
  function Completions(m: Cells, o: Op): nat {
    m.armed[o] + m.posted[o] + if m.hand.Some? && m.hand.value.op == o then 1 else 0
  }

  /** Every allocated cell has exactly one completion to come or is the one being handled, no other address has any;
      every address given out is allocated or has been deleted once. */
  ghost predicate Owned(m: Cells) {
    && (forall o: Op :: Completions(m, o) == if o in m.ops then 1 else 0)
    && (forall o | o in m.ops :: o < m.next)
    && (forall o: Op :: m.freed[o] == if o < m.next && o !in m.ops then 1 else 0)
  }

  // A receive buffer is full-size, or empty after a retag; what is posted is a receive; what the kernel reads
  // into is full-size.
  predicate FitFor(d: OvData, posted: bool, armed: bool) {
    && (IsReceive(d.kind) ==> |d.buffer| == 0 || |d.buffer| == PACKET_SIZE)
    && (posted ==> IsReceive(d.kind))
    && (armed && IsReceive(d.kind) ==> |d.buffer| == PACKET_SIZE)
  }

  /** A completion with data only ever meets a full-size receive buffer. */
  ghost predicate Buffered(m: Cells) {
    && (forall o | o in m.ops :: FitFor(m.ops[o], o in m.posted, o in m.armed))
    && (m.hand.Some? ==> HandReady(m))
  }

  predicate HandReady(m: Cells) {
    && m.hand.Some?
    && m.hand.value.op in m.ops
    && var d := m.ops[m.hand.value.op];
       (IsReceive(d.kind) && m.hand.value.n > 0 ==> |d.buffer| == PACKET_SIZE && m.hand.value.n <= PACKET_SIZE)
  }

  // The resource of its connection an operation stands for: the TCP stream is connecting or being read by one
  // operation, the UDP socket is being read by one.
  datatype Slot = NoSlot | TcpSlot | UdpSlot

  function SlotOf(d: OvData): Slot {
    match d.kind
    case OvtConnect => TcpSlot
    case OvtTcpReceive => if |d.buffer| == 0 then NoSlot else TcpSlot
    case OvtUdpReceive => if |d.buffer| == 0 then NoSlot else UdpSlot
    case _ => NoSlot
  }

  ghost predicate Exclusive(m: Cells) {
    forall a, b | a in m.ops && b in m.ops && a != b && m.ops[a].id == m.ops[b].id ::
      SlotOf(m.ops[a]).NoSlot? || SlotOf(m.ops[a]) != SlotOf(m.ops[b])
  }

  ghost predicate CellsOk(m: Cells) {
    Owned(m) && Buffered(m) && Exclusive(m)
  }

  ghost predicate SlotTaken(m: Cells, id: Id, slot: Slot) {
    exists o :: o in m.ops && m.ops[o].id == id && SlotOf(m.ops[o]) == slot
  }

  // ---------------------------------------------------------------- every operation keeps it

  // What a cell must hold to be started with this outcome.
  ghost predicate Startable(m: Cells, d: OvData, outcome: Outcome) {
    && FitFor(d, outcome.Posted?, outcome.Accepted?)
    && (!SlotOf(d).NoSlot? && !outcome.Lost? ==> !SlotTaken(m, d.id, SlotOf(d)))
  }

  lemma StartOk(m: Cells, d: OvData, outcome: Outcome)
    requires CellsOk(m) && Startable(m, d, outcome)
    ensures CellsOk(Start(m, d, outcome))
    ensures Start(m, d, outcome).ops == if outcome.Lost? then m.ops else m.ops[m.next := d]
  {
    StartOwned(m, d, outcome);
    StartBuffered(m, d, outcome);
    StartExclusive(m, d, outcome);
  }

  lemma StartBuffered(m: Cells, d: OvData, outcome: Outcome)
    requires CellsOk(m) && Startable(m, d, outcome)
    ensures Buffered(Start(m, d, outcome))
  {
    hide Owned, Exclusive, SlotTaken, FitFor;
    var t := Start(m, d, outcome);
    forall o | o in t.ops
      ensures FitFor(t.ops[o], o in t.posted, o in t.armed)
    {
      if o == m.next {
        NewAddress(m);
      }
    }
    NewAddress(m);
  }

  lemma StartExclusive(m: Cells, d: OvData, outcome: Outcome)
    requires CellsOk(m) && Startable(m, d, outcome)
    ensures Exclusive(Start(m, d, outcome))
  {
    NewAddress(m);
    hide Owned, Buffered;
    var t := Start(m, d, outcome);
    if outcome.Lost? {
      assert t.ops == m.ops;
    }
  }

  lemma NewAddress(m: Cells)
    requires Owned(m)
    ensures m.next !in m.ops && m.next !in m.armed && m.next !in m.posted
    ensures m.hand.Some? ==> m.hand.value.op < m.next
  {
    assert Completions(m, m.next) == 0;
    if m.hand.Some? {
      assert Completions(m, m.hand.value.op) == 1;
    }
  }

  lemma StartOwned(m: Cells, d: OvData, outcome: Outcome)
    requires Owned(m)
    ensures Owned(Start(m, d, outcome))
    ensures Start(m, d, outcome).ops == if outcome.Lost? then m.ops else m.ops[m.next := d]
  {
    var t := Start(m, d, outcome);
    NewAddress(m);
    if outcome.Lost? {
      assert t.ops == m.ops;
    }
    forall o: Op
      ensures Completions(t, o) == (if o in t.ops then 1 else 0)
    {
      assert Completions(m, o) == (if o in m.ops then 1 else 0);
    }
  }

  lemma NewReceiveOk(m: Cells, id: Id, kind: Kind, outcome: Outcome)
    requires CellsOk(m) && IsReceive(kind)
    requires !SlotTaken(m, id, if kind.OvtTcpReceive? then TcpSlot else UdpSlot)
    ensures CellsOk(NewReceive(m, id, kind, outcome))
  {
    StartOk(m, OvData(id, kind, EmptyPacket()), outcome);
  }

  lemma NewSendOk(m: Cells, id: Id, kind: Kind, buffer: seq<byte>, outcome: Outcome)
    requires CellsOk(m) && (kind.OvtTcpSend? || kind.OvtUdpSend?)
    ensures CellsOk(NewSend(m, id, kind, buffer, outcome))
  {
    StartOk(m, if outcome.Accepted? then OvData(id, kind, buffer) else OvData(id, Retag(kind), []), outcome);
  }

  lemma NewConnectOk(m: Cells, id: Id, outcome: Outcome)
    requires CellsOk(m) && !SlotTaken(m, id, TcpSlot)
    ensures CellsOk(NewConnect(m, id, outcome))
  {
    StartOk(m, OvData(id, OvtConnect, []), if outcome.Accepted? then Accepted else Lost);
  }

  // Cells with the same owners and slots are as exclusive.
  lemma SameSlots(m: Cells, t: Cells)
    requires Exclusive(m) && t.ops.Keys <= m.ops.Keys
    requires forall o | o in t.ops :: t.ops[o].id == m.ops[o].id && SlotOf(t.ops[o]) == SlotOf(m.ops[o])
    ensures Exclusive(t)
  {
  }

  lemma TakeOk(m: Cells, op: Op, data: seq<byte>, failed: bool)
    requires CellsOk(m) && CanTake(m, op, data, failed)
    ensures CellsOk(Take(m, op, data, failed))
    ensures forall o | o in m.ops :: var t := Take(m, op, data, failed);
              && o in t.ops && t.ops[o].id == m.ops[o].id && t.ops[o].kind == m.ops[o].kind
              && SlotOf(t.ops[o]) == SlotOf(m.ops[o])
    ensures Take(m, op, data, failed).ops.Keys == m.ops.Keys
  {
    var t := Take(m, op, data, failed);
    assert t.ops.Keys == m.ops.Keys;
    TakeOwned(m, op, data, failed);
    TakeBuffered(m, op, data, failed);
    hide Owned, Buffered, Filled;
    SameSlots(m, t);
  }

  lemma TakeOwned(m: Cells, op: Op, data: seq<byte>, failed: bool)
    requires CellsOk(m) && CanTake(m, op, data, failed)
    ensures Owned(Take(m, op, data, failed))
  {
    hide Buffered, Exclusive, Filled;
    var t := Take(m, op, data, failed);
    assert Completions(m, op) == 1;
    assert t.ops.Keys == m.ops.Keys;
    forall o: Op
      ensures Completions(t, o) == (if o in t.ops then 1 else 0)
    {
      assert Completions(m, o) == (if o in m.ops then 1 else 0);
    }
  }

  lemma TakeBuffered(m: Cells, op: Op, data: seq<byte>, failed: bool)
    requires CellsOk(m) && CanTake(m, op, data, failed)
    ensures Buffered(Take(m, op, data, failed))
  {
    hide Owned, Exclusive, Filled;
    var t := Take(m, op, data, failed);
    forall o | o in t.ops
      ensures FitFor(t.ops[o], o in t.posted, o in t.armed)
    {
    }
  }

  lemma ReleaseOk(m: Cells, outcome: Outcome)
    requires CellsOk(m) && m.hand.Some?
    ensures CellsOk(Release(m, outcome))
    ensures Release(m, outcome).ops == if Rearms(m) && !outcome.Lost? then m.ops else m.ops - {m.hand.value.op}
  {
    var t := Release(m, outcome);
    ReleaseOwned(m, outcome);
    ReleaseBuffered(m, outcome);
    hide Owned, Buffered;
    SameSlots(m, t);
  }

  lemma ReleaseOwned(m: Cells, outcome: Outcome)
    requires CellsOk(m) && m.hand.Some?
    ensures Owned(Release(m, outcome))
  {
    HeldOnce(m);
    hide Buffered, Exclusive;
    var t := Release(m, outcome);
    forall o: Op
      ensures Completions(t, o) == (if o in t.ops then 1 else 0)
    {
      assert Completions(m, o) == (if o in m.ops then 1 else 0);
    }
  }

  lemma ReleaseBuffered(m: Cells, outcome: Outcome)
    requires CellsOk(m) && m.hand.Some?
    ensures Buffered(Release(m, outcome))
  {
    HeldOnce(m);
    hide Owned, Exclusive;
    var op := m.hand.value.op;
    var t := Release(m, outcome);
  }

  lemma HeldOnce(m: Cells)
    requires Owned(m) && m.hand.Some?
    ensures m.hand.value.op in m.ops && m.hand.value.op !in m.armed && m.hand.value.op !in m.posted
  {
    assert Completions(m, m.hand.value.op) == 1;
  }
}
