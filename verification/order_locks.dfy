/** Receipts, returns and invoices moving the same order lines at once. Receipts and returns of an order
    exclude each other by locking the order, and write the received quantity they computed from what they
    read; invoices lock the lines they match and increment the invoiced quantity. A session's plain read sees
    what is committed; a row it writes stays locked, and unseen by others, until it commits or aborts. */
module OrderLocks {
  import opened Wrappers
  import opened Sums
  import opened Journal
  import opened WeightedAverage
  import opened Books
  import opened Purchasing
  import opened SupplierInvoicing
  import opened Invariants

  datatype Session = Session(
    op: Move,
    order: nat,
    want: map<nat, int>,
    holdsOrder: bool,
    rows: set<nat>,
    seen: Option<seq<OrderLine>>,
    pending: map<nat, OrderLine>)

  /** A committed receipt, return or invoice. */
  datatype Document = Document(op: Move, moved: map<nat, int>)

  datatype State = State(lines: seq<OrderLine>, sessions: map<nat, Session>, documents: seq<Document>)

  datatype Event =
    | Begin(id: nat, op: Move, order: nat, want: map<nat, int>)
    | LockOrder(id: nat)
    | LockRow(id: nat, line: nat)
    | Read(id: nat)
    | Write(id: nat, line: nat)
    | Commit(id: nat)
    | Abort(id: nat)

  predicate FitsLine(op: Move, l: OrderLine, quantity: int)
  {
    quantity <= if op == Move.Receipt then LeftToReceive(l) else LeftToInvoice(l)
  }

  /** The row an UPDATE leaves: received is overwritten from what was read, invoiced is incremented in place. */
  function Updated(op: Move, now: OrderLine, seen: OrderLine, quantity: int): OrderLine
  {
    MoveOne(if op == Move.Invoicing then now else now.(received := seen.received), op, quantity)
  }

  predicate OrderFree(s: State, id: nat, order: nat)
  {
    forall o :: o in s.sessions && o != id ==> !(s.sessions[o].holdsOrder && s.sessions[o].order == order)
  }

  predicate RowFree(s: State, id: nat, line: nat)
  {
    forall o :: o in s.sessions && o != id ==> line !in s.sessions[o].rows
  }

  predicate Requests(lines: seq<OrderLine>, op: Move, order: nat, want: map<nat, int>)
  {
    forall l :: l in want ==> l < |lines| && 0 <= want[l] && (op == Move.Invoicing || lines[l].order == order)
  }

  predicate Locked(x: Session)
  {
    if x.op == Move.Invoicing then x.want.Keys <= x.rows else x.holdsOrder
  }

  predicate AllFit(lines: seq<OrderLine>, x: Session)
  {
    forall l :: l in x.want ==> l < |lines| && FitsLine(x.op, lines[l], x.want[l])
  }

  function Ended(s: State, id: nat): State { s.(sessions := s.sessions - {id}) }

  function Applied(lines: seq<OrderLine>, pending: map<nat, OrderLine>): seq<OrderLine>
  {
    seq(|lines|, i requires 0 <= i < |lines| => if i in pending then pending[i] else lines[i])
  }

  /** Whether the session is at the point of updating the line. */
  predicate CanWrite(s: State, id: nat, line: nat)
  {
    && id in s.sessions
    && var x := s.sessions[id];
      x.seen.Some? && line in x.want && line !in x.pending && line < |s.lines| && line < |x.seen.value| && RowFree(s, id, line)
  }

  function Written(s: State, id: nat, line: nat): OrderLine
    requires CanWrite(s, id, line)
  {
    var x := s.sessions[id];
    Updated(x.op, s.lines[line], x.seen.value[line], x.want[line])
  }

  /** One step of one session; a step it must wait for changes nothing. With `check` the database refuses an
      update that breaks the constraints, and the session aborts. */
  function Next(check: bool, s: State, e: Event): State
  {
    match e
    case Begin(id, op, order, want) =>
      if id in s.sessions || !Requests(s.lines, op, order, want) then s
      else s.(sessions := s.sessions[id := Session(op, order, want, false, {}, None, map[])])
    case LockOrder(id) =>
      if id in s.sessions && s.sessions[id].op != Move.Invoicing && OrderFree(s, id, s.sessions[id].order)
      then s.(sessions := s.sessions[id := s.sessions[id].(holdsOrder := true)])
      else s
    case LockRow(id, line) =>
      if id in s.sessions && s.sessions[id].op == Move.Invoicing && line in s.sessions[id].want && RowFree(s, id, line)
      then s.(sessions := s.sessions[id := s.sessions[id].(rows := s.sessions[id].rows + {line})])
      else s
    case Read(id) =>
      if !(id in s.sessions && s.sessions[id].seen.None? && Locked(s.sessions[id])) then s
      else if !AllFit(s.lines, s.sessions[id]) then Ended(s, id)
      else s.(sessions := s.sessions[id := s.sessions[id].(seen := Some(s.lines))])
    case Write(id, line) =>
      if !CanWrite(s, id, line) then s
      else
        var x, row := s.sessions[id], Written(s, id, line);
        if check && !InOrder(row) then Ended(s, id)
        else s.(sessions := s.sessions[id := x.(rows := x.rows + {line}, pending := x.pending[line := row])])
    case Commit(id) =>
      if id in s.sessions && s.sessions[id].seen.Some? && s.sessions[id].pending.Keys == s.sessions[id].want.Keys
      then
        var x := s.sessions[id];
        State(Applied(s.lines, x.pending), s.sessions - {id}, s.documents + [Document(x.op, x.want)])
      else s
    case Abort(id) => Ended(s, id)
  }

  function Run(check: bool, start: State, events: seq<Event>): State
  {
    if events == [] then start else Next(check, Run(check, start, events[..|events| - 1]), events[|events| - 1])
  }

  predicate Opening(s: State)
  {
    s.sessions == map[] && s.documents == [] && forall r :: r in s.lines ==> InOrder(r)
  }

  predicate Only(ops: set<Move>, events: seq<Event>)
  {
    forall e :: e in events && e.Begin? ==> e.op in ops
  }

  // ---- the invariant ----

  /** Either the database checks, or returns and invoices never run side by side. */
  predicate Guarded(check: bool, ops: set<Move>)
  {
    check || Move.Return !in ops || Move.Invoicing !in ops
  }

  predicate Exclusive(s: State)
  {
    && (forall a, b :: a in s.sessions && b in s.sessions && a != b && s.sessions[a].holdsOrder && s.sessions[b].holdsOrder
         ==> s.sessions[a].order != s.sessions[b].order)
    && (forall a, b, l :: a in s.sessions && b in s.sessions && a != b && l in s.sessions[a].rows ==> l !in s.sessions[b].rows)
  }

  /** What a session read still stands under its locks, except that a receipt or return may find more invoiced. */
  predicate Stands(op: Move, seen: OrderLine, now: OrderLine)
  {
    if op == Move.Invoicing then seen == now else seen.invoiced <= now.invoiced && seen.(invoiced := now.invoiced) == now
  }

  predicate SessionHolds(ops: set<Move>, lines: seq<OrderLine>, x: Session)
  {
    && x.op in ops
    && Requests(lines, x.op, x.order, x.want)
    && (x.seen.Some? ==> Locked(x) && |x.seen.value| == |lines|)
    && (x.seen.Some? ==> forall l :: l in x.want ==>
         && Stands(x.op, x.seen.value[l], lines[l]) && FitsLine(x.op, x.seen.value[l], x.want[l])
         && (Move.Invoicing !in ops ==> x.seen.value[l] == lines[l]))
    && (x.seen.None? ==> x.pending == map[])
    && (forall l :: l in x.pending ==> PendingHolds(lines, x, l))
  }

  predicate PendingHolds(lines: seq<OrderLine>, x: Session, l: nat)
    requires l in x.pending && Requests(lines, x.op, x.order, x.want) && (x.seen.Some? ==> |x.seen.value| == |lines|)
  {
    l in x.want && l in x.rows && x.seen.Some? && x.pending[l] == Updated(x.op, lines[l], x.seen.value[l], x.want[l]) && InOrder(x.pending[l])
  }

  function ReceivedBy(documents: seq<Document>, line: nat): int
  {
    if documents == [] then 0
    else
      var d := documents[|documents| - 1];
      ReceivedBy(documents[..|documents| - 1], line)
        + if line !in d.moved || d.op == Move.Invoicing then 0 else if d.op == Move.Receipt then d.moved[line] else 0 - d.moved[line]
  }

  function InvoicedBy(documents: seq<Document>, line: nat): int
  {
    if documents == [] then 0
    else
      var d := documents[|documents| - 1];
      InvoicedBy(documents[..|documents| - 1], line) + if line in d.moved && d.op == Move.Invoicing then d.moved[line] else 0
  }

  /** No update is lost: each counter is where it began plus every committed document. */
  predicate Accounted(start: seq<OrderLine>, s: State)
  {
    && |s.lines| == |start|
    && forall l :: 0 <= l < |start| ==>
         s.lines[l] == start[l].(received := start[l].received + ReceivedBy(s.documents, l),
                                 invoiced := start[l].invoiced + InvoicedBy(s.documents, l))
  }

  predicate Holds(ops: set<Move>, start: seq<OrderLine>, s: State)
  {
    && (forall l :: 0 <= l < |s.lines| ==> InOrder(s.lines[l]))
    && Exclusive(s)
    && (forall id :: id in s.sessions ==> SessionHolds(ops, s.lines, s.sessions[id]))
    && Accounted(start, s)
  }

  /** An update breaks the constraints exactly when it is a return of more than is now received and not yet
      invoiced, which takes an invoice committed since the return read the line. */
  lemma {:induction false} RefusedWrites(ops: set<Move>, start: seq<OrderLine>, s: State, id: nat, line: nat)
    requires Holds(ops, start, s) && CanWrite(s, id, line)
    ensures var x, now := s.sessions[id], s.lines[line];
      && (InOrder(Written(s, id, line)) <==> !(x.op == Move.Return && x.want[line] > now.received - now.invoiced))
      && (!InOrder(Written(s, id, line)) ==> Move.Invoicing in ops && x.seen.value[line].invoiced < now.invoiced)
  {
    var x := s.sessions[id];
    assert SessionHolds(ops, s.lines, x);
    assert Stands(x.op, x.seen.value[line], s.lines[line]) && FitsLine(x.op, x.seen.value[line], x.want[line]);
    assert InOrder(s.lines[line]);
  }

  /** A session that moves on without touching the table disturbs nobody. */
  lemma {:induction false} AdvanceKeeps(ops: set<Move>, start: seq<OrderLine>, s: State, id: nat, x: Session)
    requires Holds(ops, start, s) && SessionHolds(ops, s.lines, x)
    requires x.holdsOrder ==> OrderFree(s, id, x.order)
    requires forall l :: l in x.rows ==> RowFree(s, id, l)
    ensures Holds(ops, start, s.(sessions := s.sessions[id := x]))
  {
    var t := s.(sessions := s.sessions[id := x]);
    forall o | o in t.sessions ensures SessionHolds(ops, t.lines, t.sessions[o]) {}
    forall a, b, l | a in t.sessions && b in t.sessions && a != b && l in t.sessions[a].rows ensures l !in t.sessions[b].rows {
      assert a == id ==> RowFree(s, id, l);
      assert b == id && l in x.rows ==> RowFree(s, id, l);
    }
  }

  /** What a session already holds is free of the others. */
  lemma {:induction false} HeldIsFree(s: State, id: nat)
    requires Exclusive(s) && id in s.sessions
    ensures s.sessions[id].holdsOrder ==> OrderFree(s, id, s.sessions[id].order)
    ensures forall l :: l in s.sessions[id].rows ==> RowFree(s, id, l)
  {
  }

  lemma {:induction false} EndKeeps(ops: set<Move>, start: seq<OrderLine>, s: State, id: nat)
    requires Holds(ops, start, s)
    ensures Holds(ops, start, Ended(s, id))
  {
  }

  lemma {:induction false} WriteKeeps(check: bool, ops: set<Move>, start: seq<OrderLine>, s: State, id: nat, line: nat)
    requires Guarded(check, ops) && Holds(ops, start, s)
    ensures Holds(ops, start, Next(check, s, Write(id, line)))
  {
    EndKeeps(ops, start, s, id);
    if CanWrite(s, id, line) {
      RefusedWrites(ops, start, s, id, line);
      if InOrder(Written(s, id, line)) {
        HeldIsFree(s, id);
        var x, row := s.sessions[id], Written(s, id, line);
        assert SessionHolds(ops, s.lines, x);
        var y := x.(rows := x.rows + {line}, pending := x.pending[line := row]);
        forall l | l in y.pending ensures PendingHolds(s.lines, y, l) {
          if l != line {
            assert PendingHolds(s.lines, x, l);
          }
        }
        AdvanceKeeps(ops, start, s, id, y);
      }
    }
  }

  lemma {:induction false} LockKeeps(check: bool, ops: set<Move>, start: seq<OrderLine>, s: State, e: Event)
    requires Guarded(check, ops) && Holds(ops, start, s) && (e.LockOrder? || e.LockRow?)
    ensures Holds(ops, start, Next(check, s, e))
  {
    var t := Next(check, s, e);
    if t != s {
      HeldIsFree(s, e.id);
      var x := s.sessions[e.id];
      assert SessionHolds(ops, s.lines, x);
      var y := if e.LockOrder? then x.(holdsOrder := true) else x.(rows := x.rows + {e.line});
      forall l | l in y.pending ensures PendingHolds(s.lines, y, l) {
        assert PendingHolds(s.lines, x, l);
      }
      AdvanceKeeps(ops, start, s, e.id, y);
    }
  }

  lemma {:induction false} ReadKeeps(check: bool, ops: set<Move>, start: seq<OrderLine>, s: State, id: nat)
    requires Guarded(check, ops) && Holds(ops, start, s)
    ensures Holds(ops, start, Next(check, s, Read(id)))
  {
    EndKeeps(ops, start, s, id);
    if id in s.sessions {
      HeldIsFree(s, id);
      var x := s.sessions[id];
      assert SessionHolds(ops, s.lines, x);
      if x.seen.None? && Locked(x) && AllFit(s.lines, x) {
        AdvanceKeeps(ops, start, s, id, x.(seen := Some(s.lines)));
      }
    }
  }

  /** What one session commits leaves standing what every other session read and wrote. */
  lemma {:induction false} CommitSpares(ops: set<Move>, s: State, id: nat, other: nat)
    requires Exclusive(s) && id in s.sessions && other in s.sessions && id != other
    requires SessionHolds(ops, s.lines, s.sessions[id]) && SessionHolds(ops, s.lines, s.sessions[other])
    requires s.sessions[id].seen.Some? && s.sessions[id].pending.Keys == s.sessions[id].want.Keys
    ensures SessionHolds(ops, Applied(s.lines, s.sessions[id].pending), s.sessions[other])
  {
    var x, y := s.sessions[id], s.sessions[other];
    var after := Applied(s.lines, x.pending);
    forall l | l in y.pending ensures l in y.rows && after[l] == s.lines[l] {
      assert PendingHolds(s.lines, y, l);
      assert l in x.pending ==> PendingHolds(s.lines, x, l);
    }
    forall l | l in y.want && y.seen.Some? && l in x.pending
      ensures x.op == Move.Invoicing && y.op != Move.Invoicing && l !in y.rows
    {
      assert PendingHolds(s.lines, x, l) && l !in y.rows;
      assert s.lines[l].order == x.order || x.op == Move.Invoicing;
    }
    assert Requests(after, y.op, y.order, y.want);
  }

  lemma {:induction false} CommitCounts(ops: set<Move>, start: seq<OrderLine>, s: State, id: nat)
    requires Holds(ops, start, s) && id in s.sessions
    requires s.sessions[id].seen.Some? && s.sessions[id].pending.Keys == s.sessions[id].want.Keys
    ensures Accounted(start, Next(true, s, Commit(id)))
  {
    var x, t := s.sessions[id], Next(true, s, Commit(id));
    assert SessionHolds(ops, s.lines, x);
    assert t.documents[..|s.documents|] == s.documents;
    forall l | 0 <= l < |start|
      ensures t.lines[l] == start[l].(received := start[l].received + ReceivedBy(t.documents, l),
                                      invoiced := start[l].invoiced + InvoicedBy(t.documents, l))
    {
      if l in x.want {
        assert PendingHolds(s.lines, x, l) && Stands(x.op, x.seen.value[l], s.lines[l]);
      }
    }
  }

  lemma {:induction false} CommitKeeps(check: bool, ops: set<Move>, start: seq<OrderLine>, s: State, id: nat)
    requires Guarded(check, ops) && Holds(ops, start, s)
    ensures Holds(ops, start, Next(check, s, Commit(id)))
  {
    var t := Next(check, s, Commit(id));
    if t != s {
      var x := s.sessions[id];
      assert SessionHolds(ops, s.lines, x);
      CommitCounts(ops, start, s, id);
      forall other | other in t.sessions ensures SessionHolds(ops, t.lines, t.sessions[other]) {
        CommitSpares(ops, s, id, other);
      }
      forall l | 0 <= l < |t.lines| ensures InOrder(t.lines[l]) {
        if l in x.pending {
          assert PendingHolds(s.lines, x, l);
        }
      }
    }
  }

  lemma {:induction false} NextKeeps(check: bool, ops: set<Move>, start: seq<OrderLine>, s: State, e: Event)
    requires Guarded(check, ops) && Holds(ops, start, s) && (e.Begin? ==> e.op in ops)
    ensures Holds(ops, start, Next(check, s, e))
  {
    match e
    case Begin(id, op, order, want) =>
      if id !in s.sessions && Requests(s.lines, op, order, want) {
        AdvanceKeeps(ops, start, s, id, Session(op, order, want, false, {}, None, map[]));
      }
    case LockOrder(id) => LockKeeps(check, ops, start, s, e);
    case LockRow(id, line) => LockKeeps(check, ops, start, s, e);
    case Read(id) => ReadKeeps(check, ops, start, s, id);
    case Write(id, line) => WriteKeeps(check, ops, start, s, id, line);
    case Commit(id) => CommitKeeps(check, ops, start, s, id);
    case Abort(id) => EndKeeps(ops, start, s, id);
  }

  /** In every interleaving: the counters stay in order, no update is lost, and the locks are exclusive -
      with the database's checks, or without them as long as returns and invoices are not mixed. */
  lemma {:induction false} InEveryInterleaving(check: bool, ops: set<Move>, start: State, events: seq<Event>)
    requires Guarded(check, ops) && Opening(start) && Only(ops, events)
    ensures Holds(ops, start.lines, Run(check, start, events))
  {
    if events != [] {
      InEveryInterleaving(check, ops, start, events[..|events| - 1]);
      NextKeeps(check, ops, start.lines, Run(check, start, events[..|events| - 1]), events[|events| - 1]);
    }
  }

  lemma {:induction false} RunStep(check: bool, start: State, events: seq<Event>, e: Event)
    ensures Run(check, start, events + [e]) == Next(check, Run(check, start, events), e)
  {
    assert (events + [e])[..|events|] == events;
  }

  lemma {:induction false} Do(check: bool, start: State, s: State, events: seq<Event>, e: Event, t: State) returns (more: seq<Event>)
    requires s == Run(check, start, events) && Next(check, s, e) == t
    ensures more == events + [e] && t == Run(check, start, more)
  {
    RunStep(check, start, events, e);
    more := events + [e];
  }

  // ---- the services, alone ----

  function WantOf(t: Tally<nat>): map<nat, int>
  {
    map l | l in (set i | 0 <= i < |t| :: t[i].0) :: Get(t, l)
  }

  /** The rows written by a session that reads them as they are. */
  function Writes(op: Move, lines: seq<OrderLine>, want: map<nat, int>): map<nat, OrderLine>
  {
    map l | l in want && l < |lines| :: Updated(op, lines[l], lines[l], want[l])
  }

  /** A document of the services that nobody gets between: its request is one a session may begin with, the lines
      it reads pass the session's check, and the lines it leaves are the ones the session writes. */
  ghost predicate MovesAlone(op: Move, order: nat, want: map<nat, int>, lines: seq<OrderLine>, after: seq<OrderLine>)
  {
    && Requests(lines, op, order, want)
    && (forall l :: l in want ==> FitsLine(op, lines[l], want[l]))
    && after == Applied(lines, Writes(op, lines, want))
  }

  lemma {:induction false} WantIs(t: Tally<nat>, l: nat)
    requires Distinct(t)
    ensures l in WantOf(t) <==> IndexOf(t, l) < |t|
    ensures Get(t, l) == if l in WantOf(t) then WantOf(t)[l] else 0
  {
    if l in WantOf(t) {
      var i :| 0 <= i < |t| && t[i].0 == l;
      IndexOfFound(t, i);
    }
  }

  lemma {:induction false} UpdatedUnread(op: Move, l: OrderLine, quantity: int)
    ensures Updated(op, l, l, quantity) == MoveOne(l, op, quantity)
    ensures MoveOne(l, op, 0) == l
  {
  }

  lemma {:induction false} MovedAt(op: Move, t: Tally<nat>, want: map<nat, int>, lines: seq<OrderLine>, l: nat)
    requires l < |lines| && Get(t, l) == if l in want then want[l] else 0
    ensures Moved(lines, t, op)[l] == Applied(lines, Writes(op, lines, want))[l]
  {
    var w := Writes(op, lines, want);
    MovedLine(lines, t, op, l);
    UpdatedUnread(op, lines[l], Get(t, l));
    assert Applied(lines, w)[l] == if l in w then w[l] else lines[l];
    if l in want {
      assert w[l] == Updated(op, lines[l], lines[l], want[l]);
    }
  }

  lemma {:induction false} MovedAsWritten(op: Move, t: Tally<nat>, want: map<nat, int>, lines: seq<OrderLine>)
    requires forall l :: 0 <= l < |lines| ==> Get(t, l) == if l in want then want[l] else 0
    ensures Moved(lines, t, op) == Applied(lines, Writes(op, lines, want))
  {
    forall l | 0 <= l < |lines| ensures Moved(lines, t, op)[l] == Applied(lines, Writes(op, lines, want))[l] {
      MovedAt(op, t, want, lines, l);
    }
  }

  lemma {:induction false} WantFits(op: Move, order: nat, t: Tally<nat>, lines: seq<OrderLine>, left: OrderLine -> int, l: nat)
    requires Counted(t, |lines|) && Fits(t, lines, left) && l in WantOf(t)
    requires forall r :: left(r) == if op == Move.Receipt then LeftToReceive(r) else LeftToInvoice(r)
    requires op == Move.Invoicing || forall i :: 0 <= i < |t| ==> t[i].0 < |lines| && lines[t[i].0].order == order
    ensures l < |lines| && 0 <= WantOf(t)[l] && (op == Move.Invoicing || lines[l].order == order) && FitsLine(op, lines[l], WantOf(t)[l])
  {
    WantIs(t, l);
    var i := IndexOf(t, l);
    assert t[i].0 == l;
  }

  lemma {:induction false} TallyMovesAlone(op: Move, order: nat, t: Tally<nat>, lines: seq<OrderLine>, left: OrderLine -> int)
    requires Counted(t, |lines|) && Fits(t, lines, left)
    requires forall r :: left(r) == if op == Move.Receipt then LeftToReceive(r) else LeftToInvoice(r)
    requires op == Move.Invoicing || forall i :: 0 <= i < |t| ==> lines[t[i].0].order == order
    ensures MovesAlone(op, order, WantOf(t), lines, Moved(lines, t, op))
  {
    forall l | l in WantOf(t)
      ensures l < |lines| && 0 <= WantOf(t)[l] && (op == Move.Invoicing || lines[l].order == order) && FitsLine(op, lines[l], WantOf(t)[l])
    {
      WantFits(op, order, t, lines, left, l);
    }
    forall l | 0 <= l < |lines| ensures Get(t, l) == if l in WantOf(t) then WantOf(t)[l] else 0 {
      WantIs(t, l);
    }
    MovedAsWritten(op, t, WantOf(t), lines);
  }

  lemma {:induction false} ReceiptsCheck(t: Tables, id: nat, date: Day, warehouse: nat, wants: seq<Want>)
    requires OrdersHold(t) && ReceiveOrder(t, id, date, warehouse, wants).Success?
    ensures MovesAlone(Move.Receipt, id, WantOf(Requested(wants)), t.orderLines, ReceiveOrder(t, id, date, warehouse, wants).value.orderLines)
  {
    ReceiveOrderDoes(t, id, date, warehouse, wants);
    RequestedOnOrder(t.orders[id], wants);
    TallyMovesAlone(Move.Receipt, id, Requested(wants), t.orderLines, LeftToReceive);
  }

  lemma {:induction false} ReturnsCheck(average: Averaging, t: Tables, id: nat, date: Day, warehouse: nat, wants: seq<Want>)
    requires OrdersHold(t) && CreateReturn(average, t, id, date, warehouse, wants).Success?
    ensures MovesAlone(Move.Return, id, WantOf(Requested(wants)), t.orderLines,
                       CreateReturn(average, t, id, date, warehouse, wants).value.orderLines)
  {
    CreateReturnDoes(average, t, id, date, warehouse, wants);
    RequestedOnOrder(t.orders[id], wants);
    TallyMovesAlone(Move.Return, id, Requested(wants), t.orderLines, LeftToInvoice);
  }

  lemma {:induction false} InvoicesCheck(t: Tables, supplier: nat, date: Day, due: Option<Day>, acceptVariance: bool, lines: seq<InvoiceInput>, order: nat)
    requires CreateInvoice(t, supplier, date, due, acceptVariance, lines).Success?
    ensures MovesAlone(Move.Invoicing, order, WantOf(Evaluate(t, supplier, lines).value.claimed), t.orderLines,
                       CreateInvoice(t, supplier, date, due, acceptVariance, lines).value.orderLines)
  {
    CreateInvoiceDoes(t, supplier, date, due, acceptVariance, lines);
    PrefixCheckIsAggregate(t, supplier, lines);
    TallyMovesAlone(Move.Invoicing, order, Evaluate(t, supplier, lines).value.claimed, t.orderLines, LeftToInvoice);
  }

  // ---- a return and an invoice of the same goods ----

  /** A line of five ordered and received. */
  function Five(received: int, invoiced: int): OrderLine { OrderLine(0, 0, 5, 1, received, invoiced) }

  const FIVE: map<nat, int> := map[0 := 5]
  const RECEIVED := State([Five(5, 0)], map[], [])
  const RETURNING := Session(Move.Return, 0, FIVE, true, {}, Some(RECEIVED.lines), map[])
  const INVOICED := State([Five(5, 5)], map[1 := RETURNING], [Document(Move.Invoicing, FIVE)])

  const ASKING := Session(Move.Return, 0, FIVE, false, {}, None, map[])
  const HOLDING := ASKING.(holdsOrder := true)

  function Alone(x: Session): State { RECEIVED.(sessions := map[1 := x]) }

  lemma {:induction false} ReturnBegins(check: bool)
    ensures Next(check, RECEIVED, Begin(1, Move.Return, 0, FIVE)) == Alone(ASKING)
  {
  }

  lemma {:induction false} ReturnLocksOrder(check: bool)
    ensures Next(check, Alone(ASKING), LockOrder(1)) == Alone(HOLDING)
  {
    assert OrderFree(Alone(ASKING), 1, 0);
    assert Alone(ASKING).sessions[1 := HOLDING] == Alone(HOLDING).sessions;
  }

  lemma {:induction false} ReturnReadsLine(check: bool)
    ensures Next(check, Alone(HOLDING), Read(1)) == Alone(RETURNING)
  {
    assert AllFit(RECEIVED.lines, HOLDING);
    assert Alone(HOLDING).sessions[1 := RETURNING] == Alone(RETURNING).sessions;
  }

  lemma {:induction false} ReturnAsks(check: bool) returns (events: seq<Event>)
    ensures Only({Move.Return, Move.Invoicing}, events)
    ensures Run(check, RECEIVED, events) == Alone(ASKING)
  {
    ReturnBegins(check);
    events := Do(check, RECEIVED, RECEIVED, [], Begin(1, Move.Return, 0, FIVE), Alone(ASKING));
  }

  lemma {:induction false} ReturnReads(check: bool) returns (events: seq<Event>)
    ensures Only({Move.Return, Move.Invoicing}, events)
    ensures Run(check, RECEIVED, events) == Alone(RETURNING)
  {
    events := ReturnAsks(check);
    ReturnLocksOrder(check);
    events := Do(check, RECEIVED, Alone(ASKING), events, LockOrder(1), Alone(HOLDING));
    ReturnReadsLine(check);
    events := Do(check, RECEIVED, Alone(HOLDING), events, Read(1), Alone(RETURNING));
  }

  const FRESH := Session(Move.Invoicing, 0, FIVE, false, {}, None, map[])
  const READY := Session(Move.Invoicing, 0, FIVE, false, {0}, Some(RECEIVED.lines), map[])
  const WRITTEN := Session(Move.Invoicing, 0, FIVE, false, {0}, Some(RECEIVED.lines), map[0 := Five(5, 5)])

  /** The return waiting to write, and the invoice as it stands. */
  function Both(x: Session): State { RECEIVED.(sessions := map[1 := RETURNING, 2 := x]) }

  lemma {:induction false} InvoiceBegins(check: bool)
    ensures Next(check, Alone(RETURNING), Begin(2, Move.Invoicing, 0, FIVE)) == Both(FRESH)
  {
  }

  lemma {:induction false} InvoiceLocksRow(check: bool)
    ensures Next(check, Both(FRESH), LockRow(2, 0)) == Both(FRESH.(rows := {0}))
  {
    assert FRESH.rows + {0} == {0};
    assert RowFree(Both(FRESH), 2, 0);
    assert Both(FRESH).sessions[2 := FRESH.(rows := {0})] == Both(FRESH.(rows := {0})).sessions;
  }

  lemma {:induction false} InvoiceReadsRow(check: bool)
    ensures Next(check, Both(FRESH.(rows := {0})), Read(2)) == Both(READY)
  {
  }

  lemma {:induction false} InvoiceWritesRow(check: bool)
    ensures Next(check, Both(READY), Write(2, 0)) == Both(WRITTEN)
  {
    assert READY.rows + {0} == {0} && READY.pending[0 := Five(5, 5)] == WRITTEN.pending;
    assert RowFree(Both(READY), 2, 0);
    assert Both(READY).sessions[2 := WRITTEN] == Both(WRITTEN).sessions;
  }

  lemma {:induction false} InvoiceWrites(check: bool) returns (events: seq<Event>)
    ensures Only({Move.Return, Move.Invoicing}, events)
    ensures Run(check, RECEIVED, events) == Both(WRITTEN)
  {
    events := ReturnReads(check);
    InvoiceBegins(check);
    events := Do(check, RECEIVED, Alone(RETURNING), events, Begin(2, Move.Invoicing, 0, FIVE), Both(FRESH));
    InvoiceLocksRow(check);
    events := Do(check, RECEIVED, Both(FRESH), events, LockRow(2, 0), Both(FRESH.(rows := {0})));
    InvoiceReadsRow(check);
    events := Do(check, RECEIVED, Both(FRESH.(rows := {0})), events, Read(2), Both(READY));
    InvoiceWritesRow(check);
    events := Do(check, RECEIVED, Both(READY), events, Write(2, 0), Both(WRITTEN));
  }

  lemma {:induction false} InvoiceCommits(check: bool) returns (events: seq<Event>)
    ensures Only({Move.Return, Move.Invoicing}, events)
    ensures Run(check, RECEIVED, events) == INVOICED
  {
    events := InvoiceWrites(check);
    events := Do(check, RECEIVED, Both(WRITTEN), events, Commit(2), INVOICED);
  }

  const OVERDRAWN := State([Five(0, 5)], map[], [Document(Move.Invoicing, FIVE), Document(Move.Return, FIVE)])
  const RETURNED := INVOICED.(sessions := map[1 := RETURNING.(rows := {0}, pending := map[0 := Five(0, 5)])])

  lemma {:induction false} CheckRefusesReturn()
    ensures Next(true, INVOICED, Write(1, 0)) == INVOICED.(sessions := map[])
  {
    assert RowFree(INVOICED, 1, 0);
    assert INVOICED.sessions - {1} == map[];
  }

  lemma {:induction false} UncheckedReturnWrites()
    ensures Next(false, INVOICED, Write(1, 0)) == RETURNED
  {
    assert RowFree(INVOICED, 1, 0);
    assert RETURNING.rows + {0} == {0} && RETURNING.pending[0 := Five(0, 5)] == map[0 := Five(0, 5)];
    assert INVOICED.sessions[1 := RETURNED.sessions[1]] == RETURNED.sessions;
  }

  lemma {:induction false} UncheckedReturnCommits()
    ensures Next(false, RETURNED, Commit(1)) == OVERDRAWN
  {
    assert RETURNED.sessions - {1} == map[];
    assert Applied(RETURNED.lines, RETURNED.sessions[1].pending) == [Five(0, 5)];
  }

  /** A return has read the line; an invoice of the same goods commits; the return then writes what it computed.
      The database refuses that. Without its check more stays invoiced than received. */
  lemma {:induction false} ReturnMeetsInvoice(check: bool) returns (events: seq<Event>)
    ensures Opening(RECEIVED) && Only({Move.Return, Move.Invoicing}, events)
    ensures Run(check, RECEIVED, events).lines == [if check then Five(5, 5) else Five(0, 5)]
  {
    events := InvoiceCommits(check);
    if check {
      CheckRefusesReturn();
      events := Do(check, RECEIVED, INVOICED, events, Write(1, 0), INVOICED.(sessions := map[]));
    } else {
      UncheckedReturnWrites();
      events := Do(check, RECEIVED, INVOICED, events, Write(1, 0), RETURNED);
      UncheckedReturnCommits();
      events := Do(check, RECEIVED, RETURNED, events, Commit(1), OVERDRAWN);
    }
  }
}
