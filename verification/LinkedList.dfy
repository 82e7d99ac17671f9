/**
 * The intrusive circular doubly linked list of netfilter/linkedlist.h: macros that assign the links of nodes they
 * are handed, here as methods on the same nodes. A list is its head and, for the proofs, the sequence of its entries;
 * what a macro may touch is in its frame, so every list made of other nodes stays the list it was.
 */
module LinkedList {

  // LIST_ENTRY
  class Entry {
    var Flink: Entry?
    var Blink: Entry?

    constructor ()
      ensures Flink == null && Blink == null
    {
      Flink, Blink := null, null;
    }
  }

  predicate Distinct(s: seq<Entry>) {
    forall i, j | 0 <= i < j < |s| :: s[i] != s[j]
  }

  // The node before position k of a list, and the one at it; the head stands before the first and after the last.
  ghost function Prev(head: Entry, s: seq<Entry>, k: nat): Entry
    requires k <= |s|
  {
    if k == 0 then head else s[k - 1]
  }

  ghost function At(head: Entry, s: seq<Entry>, k: nat): Entry
    requires k <= |s|
  {
    if k == |s| then head else s[k]
  }

  ghost function Nodes(head: Entry, s: seq<Entry>): set<Entry> {
    {head} + set e | e in s
  }

  /** `head` is the head of a list whose entries are s: neighbours all round are linked both ways. */
  ghost predicate IsList(head: Entry, s: seq<Entry>)
    reads Nodes(head, s)
  {
    && head !in s && Distinct(s)
    && forall k | 0 <= k <= |s| :: Prev(head, s, k).Flink == At(head, s, k) && At(head, s, k).Blink == Prev(head, s, k)
  }

  // ---------------------------------------------------------------- walking

  // The node k steps along Flink, or along Blink, from e, as long as the walk stays within `nodes`.
  ghost function Forward(e: Entry, nodes: set<Entry>, k: nat): Entry?
    reads nodes
  {
    if k == 0 then e
    else
      var p := Forward(e, nodes, k - 1);
      if p == null || p !in nodes then null else p.Flink
  }

  ghost function Backward(e: Entry, nodes: set<Entry>, k: nat): Entry?
    reads nodes
  {
    if k == 0 then e
    else
      var p := Backward(e, nodes, k - 1);
      if p == null || p !in nodes then null else p.Blink
  }

  /** The forward walk from the head meets the entries in order and comes round to the head. */
  lemma {:induction false} ForwardWalk(head: Entry, s: seq<Entry>, k: nat)
    requires IsList(head, s) && k <= |s| + 1
    ensures Forward(head, Nodes(head, s), k) == if k == 0 || k == |s| + 1 then head else s[k - 1]
  {
    if k > 0 {
      ForwardWalk(head, s, k - 1);
      assert Prev(head, s, k - 1).Flink == At(head, s, k - 1);
    }
  }

  /** The backward walk meets them in reverse. */
  lemma {:induction false} BackwardWalk(head: Entry, s: seq<Entry>, k: nat)
    requires IsList(head, s) && k <= |s| + 1
    ensures Backward(head, Nodes(head, s), k) == if k == 0 || k == |s| + 1 then head else s[|s| - k]
  {
    if k > 0 {
      BackwardWalk(head, s, k - 1);
      var at := |s| + 1 - k;
      assert At(head, s, at).Blink == Prev(head, s, at);
    }
  }

  /** The links alone determine the entries: a head is the head of one list. */
  lemma ListUnique(head: Entry, s: seq<Entry>, t: seq<Entry>)
    requires IsList(head, s) && IsList(head, t)
    ensures s == t
  {
    if |s| <= |t| {
      SamePrefix(head, s, t, |s|);
      RingCloses(head, s, t);
    } else {
      SamePrefix(head, t, s, |t|);
      RingCloses(head, t, s);
    }
  }

  lemma {:induction false} SamePrefix(head: Entry, s: seq<Entry>, t: seq<Entry>, k: nat)
    requires IsList(head, s) && IsList(head, t) && k <= |s| <= |t|
    ensures s[..k] == t[..k]
  {
    if k > 0 {
      SamePrefix(head, s, t, k - 1);
      assert k > 1 ==> s[k - 2] == s[..k - 1][k - 2] == t[..k - 1][k - 2] == t[k - 2];
      assert Prev(head, s, k - 1) == Prev(head, t, k - 1);
      assert At(head, s, k - 1) == At(head, t, k - 1);
    }
  }

  lemma RingCloses(head: Entry, s: seq<Entry>, t: seq<Entry>)
    requires IsList(head, s) && IsList(head, t) && |s| <= |t| && s == t[..|s|]
    ensures s == t
  {
    assert Prev(head, s, |s|) == Prev(head, t, |s|);
    assert At(head, s, |s|) == At(head, t, |s|);
  }

  // ---------------------------------------------------------------- the macros

  method InitializeListHead(head: Entry)
    modifies head
    ensures IsList(head, [])
  {
    head.Blink := head;
    head.Flink := head;
  }

  method IsListEmpty(head: Entry, ghost s: seq<Entry>) returns (empty: bool)
    requires IsList(head, s)
    ensures empty <==> s == []
  {
    empty := head.Flink == head;
    assert Prev(head, s, 0).Flink == At(head, s, 0);
  }

  method InsertTailList(head: Entry, entry: Entry, ghost s: seq<Entry>)
    requires IsList(head, s) && entry !in Nodes(head, s)
    modifies head`Blink, entry, Prev(head, s, |s|)`Flink
    ensures IsList(head, s + [entry])
  {
    assert At(head, s, |s|).Blink == Prev(head, s, |s|);
    var blink := head.Blink;
    entry.Flink := head;
    entry.Blink := blink;
    blink.Flink := entry;
    head.Blink := entry;
    ghost var t := s + [entry];
    forall k | 0 <= k <= |t|
      ensures Prev(head, t, k).Flink == At(head, t, k) && At(head, t, k).Blink == Prev(head, t, k)
    {
      if k < |s| {
        assert old(Prev(head, s, k).Flink) == At(head, s, k) && old(At(head, s, k).Blink) == Prev(head, s, k);
      }
    }
  }

  method InsertHeadList(head: Entry, entry: Entry, ghost s: seq<Entry>)
    requires IsList(head, s) && entry !in Nodes(head, s)
    modifies head`Flink, entry, At(head, s, 0)`Blink
    ensures IsList(head, [entry] + s)
  {
    assert Prev(head, s, 0).Flink == At(head, s, 0);
    var flink := head.Flink;
    entry.Flink := flink;
    entry.Blink := head;
    flink.Blink := entry;
    head.Flink := entry;
    ghost var t := [entry] + s;
    forall k | 0 <= k <= |t|
      ensures Prev(head, t, k).Flink == At(head, t, k) && At(head, t, k).Blink == Prev(head, t, k)
    {
      if k > 1 {
        assert old(Prev(head, s, k - 1).Flink) == At(head, s, k - 1) &&
            old(At(head, s, k - 1).Blink) == Prev(head, s, k - 1);
      }
    }
  }

  // The entry at position k leaves; its own links are not touched.
  method RemoveEntryList(entry: Entry, ghost head: Entry, ghost s: seq<Entry>, ghost k: nat)
    requires IsList(head, s) && k < |s| && s[k] == entry
    modifies Prev(head, s, k)`Flink, At(head, s, k + 1)`Blink
    ensures IsList(head, s[..k] + s[k + 1..])
    ensures entry.Flink == old(entry.Flink) && entry.Blink == old(entry.Blink)
  {
    assert Prev(head, s, k).Flink == At(head, s, k) == entry;
    assert Prev(head, s, k + 1).Flink == At(head, s, k + 1);
    var flink := entry.Flink;
    var blink := entry.Blink;
    blink.Flink := flink;
    flink.Blink := blink;
    ghost var t := s[..k] + s[k + 1..];
    forall i | 0 <= i <= |t|
      ensures Prev(head, t, i).Flink == At(head, t, i) && At(head, t, i).Blink == Prev(head, t, i)
    {
      if i < k {
        assert old(Prev(head, s, i).Flink) == At(head, s, i) && old(At(head, s, i).Blink) == Prev(head, s, i);
      } else if i > k {
        assert old(Prev(head, s, i + 1).Flink) == At(head, s, i + 1) &&
            old(At(head, s, i + 1).Blink) == Prev(head, s, i + 1);
      }
    }
  }

  // On an empty list the head itself comes back and nothing changes.
  method RemoveHeadList(head: Entry, ghost s: seq<Entry>) returns (entry: Entry)
    requires IsList(head, s)
    modifies head`Flink, At(head, s, if s == [] then 0 else 1)`Blink
    ensures entry == At(head, s, 0)
    ensures IsList(head, if s == [] then [] else s[1..])
  {
    assert Prev(head, s, 0).Flink == At(head, s, 0);
    entry := head.Flink;
    if entry == head {
      RemoveFromEmpty(head);
    } else {
      RemoveEntryList(head.Flink, head, s, 0);
      assert s[..0] + s[1..] == s[1..];
    }
  }

  method RemoveTailList(head: Entry, ghost s: seq<Entry>) returns (entry: Entry)
    requires IsList(head, s)
    modifies head`Blink, Prev(head, s, if s == [] then 0 else |s| - 1)`Flink
    ensures entry == Prev(head, s, |s|)
    ensures IsList(head, if s == [] then [] else s[..|s| - 1])
  {
    assert At(head, s, |s|).Blink == Prev(head, s, |s|);
    entry := head.Blink;
    if entry == head {
      RemoveFromEmpty(head);
    } else {
      RemoveEntryList(head.Blink, head, s, |s| - 1);
      assert s[..|s| - 1] + s[|s|..] == s[..|s| - 1];
    }
  }

  // The same assignments when the only node is the head.
  method RemoveFromEmpty(head: Entry)
    requires IsList(head, [])
    modifies head`Flink, head`Blink
    ensures IsList(head, []) && head.Flink == head && head.Blink == head
  {
    assert Prev(head, [], 0).Flink == At(head, [], 0);
    var flink := head.Flink;
    var blink := head.Blink;
    blink.Flink := flink;
    flink.Blink := blink;
  }

  // ---------------------------------------------------------------- any sequence of operations

  datatype Operation = PushHead(entry: Entry) | PushTail(entry: Entry) | PopHead | PopTail | Unlink(entry: Entry)

  ghost function IndexOf(s: seq<Entry>, e: Entry): nat
    requires e in s
    ensures IndexOf(s, e) < |s| && s[IndexOf(s, e)] == e
  {
    if s[0] == e then 0 else 1 + IndexOf(s[1..], e)
  }

  // A caller inserts nodes that are in no list and removes nodes that are in this one.
  ghost predicate Allowed(head: Entry, s: seq<Entry>, op: Operation) {
    match op
    case PushHead(e) => e !in Nodes(head, s)
    case PushTail(e) => e !in Nodes(head, s)
    case Unlink(e) => e in s
    case _ => true
  }

  // The deque.
  ghost function Applied(s: seq<Entry>, op: Operation): seq<Entry> {
    match op
    case PushHead(e) => [e] + s
    case PushTail(e) => s + [e]
    case PopHead => if s == [] then [] else s[1..]
    case PopTail => if s == [] then [] else s[..|s| - 1]
    case Unlink(e) => if e in s then s[..IndexOf(s, e)] + s[IndexOf(s, e) + 1..] else s
  }

  ghost function AppliedAll(s: seq<Entry>, ops: seq<Operation>): seq<Entry> {
    if ops == [] then s else Applied(AppliedAll(s, ops[..|ops| - 1]), ops[|ops| - 1])
  }

  ghost predicate AllAllowed(head: Entry, s: seq<Entry>, ops: seq<Operation>) {
    forall i | 0 <= i < |ops| :: Allowed(head, AppliedAll(s, ops[..i]), ops[i])
  }

  ghost function Touched(head: Entry, s: seq<Entry>, ops: seq<Operation>): set<Entry> {
    Nodes(head, s) + set op | op in ops && (op.PushHead? || op.PushTail? || op.Unlink?) :: op.entry
  }

  method PerformOne(head: Entry, op: Operation, ghost s: seq<Entry>)
    requires IsList(head, s) && Allowed(head, s, op)
    modifies Touched(head, s, [op])
    ensures IsList(head, Applied(s, op))
  {
    assert op in [op];
    match op {
      case PushHead(e) => InsertHeadList(head, e, s);
      case PushTail(e) => InsertTailList(head, e, s);
      case PopHead => var _ := RemoveHeadList(head, s);
      case PopTail => var _ := RemoveTailList(head, s);
      case Unlink(e) => RemoveEntryList(e, head, s, IndexOf(s, e));
    }
  }

  lemma AppliedNodes(head: Entry, s: seq<Entry>, op: Operation)
    ensures Nodes(head, Applied(s, op)) <= Touched(head, s, [op])
  {
    assert op in [op];
  }

  lemma TouchedOne(head: Entry, s: seq<Entry>, ops: seq<Operation>, i: nat, t: seq<Entry>)
    requires i < |ops| && Nodes(head, t) <= Touched(head, s, ops)
    ensures Touched(head, t, [ops[i]]) <= Touched(head, s, ops)
  {
    assert ops[i] in ops;
  }

  /** Any sequence of operations leaves the links of the deque it computes. */
  method Perform(head: Entry, ops: seq<Operation>, ghost s: seq<Entry>)
    requires IsList(head, s) && AllAllowed(head, s, ops)
    modifies Touched(head, s, ops)
    ensures IsList(head, AppliedAll(s, ops))
  {
    for i := 0 to |ops|
      invariant IsList(head, AppliedAll(s, ops[..i]))
      invariant Nodes(head, AppliedAll(s, ops[..i])) <= Touched(head, s, ops)
    {
      ghost var t := AppliedAll(s, ops[..i]);
      assert ops[..i + 1][..i] == ops[..i];
      assert Allowed(head, t, ops[i]);
      TouchedOne(head, s, ops, i, t);
      AppliedNodes(head, t, ops[i]);
      hide Applied, Nodes, Touched, Allowed, AllAllowed;
      PerformOne(head, ops[i], t);
    }
    assert ops[..|ops|] == ops;
  }

  /** Any list of other nodes is the list it was. */
  method PerformBeside(head: Entry, ops: seq<Operation>, ghost s: seq<Entry>, ghost other: Entry, ghost t: seq<Entry>)
    requires IsList(head, s) && AllAllowed(head, s, ops)
    requires IsList(other, t) && Nodes(other, t) !! Touched(head, s, ops)
    modifies Touched(head, s, ops)
    ensures IsList(head, AppliedAll(s, ops)) && IsList(other, t)
  {
    Perform(head, ops, s);
  }

  // ---------------------------------------------------------------- two lists

  /** Moving the first entry of one list to the end of another. */
  method MoveHead(from: Entry, to: Entry, ghost s: seq<Entry>, ghost t: seq<Entry>)
    requires IsList(from, s) && IsList(to, t) && Nodes(from, s) !! Nodes(to, t) && s != []
    modifies Nodes(from, s), Nodes(to, t)
    ensures IsList(from, s[1..]) && IsList(to, t + [s[0]])
    ensures Nodes(from, s[1..]) !! Nodes(to, t + [s[0]])
    ensures Nodes(from, s[1..]) + Nodes(to, t + [s[0]]) == Nodes(from, s) + Nodes(to, t)
  {
    var e := RemoveHeadList(from, s);
    InsertTailList(to, e, t);
    ghost var s', t' := s[1..], t + [s[0]];
    assert s == [s[0]] + s';
    assert forall x :: x in s <==> x == s[0] || x in s';
    assert forall x :: x in t' <==> x == s[0] || x in t;
  }

  // The two sequences after entries were moved from the one, or from the other, while there was one to move.
  ghost function Moved(s: seq<Entry>, t: seq<Entry>, moves: seq<bool>): (seq<Entry>, seq<Entry>) {
    if moves == [] then (s, t)
    else
      var (s', t') := Moved(s, t, moves[..|moves| - 1]);
      if moves[|moves| - 1] then
        (if s' == [] then (s', t') else (s'[1..], t' + [s'[0]]))
      else
        (if t' == [] then (s', t') else (s' + [t'[0]], t'[1..]))
  }

  /** However entries are moved to and fro, the two lists together hold what they held. */
  lemma {:induction false} MovesConserve(s: seq<Entry>, t: seq<Entry>, moves: seq<bool>)
    ensures multiset(Moved(s, t, moves).0) + multiset(Moved(s, t, moves).1) == multiset(s) + multiset(t)
  {
    if moves != [] {
      MovesConserve(s, t, moves[..|moves| - 1]);
      var (s', t') := Moved(s, t, moves[..|moves| - 1]);
      if moves[|moves| - 1] {
        MoveConserves(s', t');
      } else if t' != [] {
        MoveConserves(t', s');
        var gone, grown := t'[1..], s' + [t'[0]];
        assert multiset(grown) + multiset(gone) == multiset(gone) + multiset(grown) == multiset(t') + multiset(s');
        assert Moved(s, t, moves) == (grown, gone);
      }
    }
  }

  lemma MoveConserves(s: seq<Entry>, t: seq<Entry>)
    ensures s != [] ==> multiset(s[1..]) + multiset(t + [s[0]]) == multiset(s) + multiset(t)
  {
    if s != [] {
      assert s == [s[0]] + s[1..];
      assert multiset(s) == multiset([s[0]]) + multiset(s[1..]);
      assert multiset(t + [s[0]]) == multiset(t) + multiset([s[0]]);
    }
  }

  method MoveAbout(a: Entry, b: Entry, moves: seq<bool>, ghost s: seq<Entry>, ghost t: seq<Entry>)
    requires IsList(a, s) && IsList(b, t) && Nodes(a, s) !! Nodes(b, t)
    modifies Nodes(a, s), Nodes(b, t)
    ensures IsList(a, Moved(s, t, moves).0) && IsList(b, Moved(s, t, moves).1)
  {
    ghost var all := Nodes(a, s) + Nodes(b, t);
    for i := 0 to |moves|
      invariant var (s', t') := Moved(s, t, moves[..i]);
                && IsList(a, s') && IsList(b, t')
                && Nodes(a, s') !! Nodes(b, t') && Nodes(a, s') + Nodes(b, t') == all
    {
      ghost var (s', t') := Moved(s, t, moves[..i]);
      assert moves[..i + 1][..i] == moves[..i];
      if moves[i] {
        var none := IsListEmpty(a, s');
        if !none {
          MoveHead(a, b, s', t');
        }
      } else {
        var none := IsListEmpty(b, t');
        if !none {
          MoveHead(b, a, t', s');
        }
      }
    }
    assert moves[..|moves|] == moves;
  }
}
