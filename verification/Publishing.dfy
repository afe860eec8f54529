/**
 * The outbound buffer between the deliberation graph and the bus. Events already pushed to the
 * incremental sink are remembered by object address only, and addresses are reused after an object dies.
 */
module Publishing {
  import Engine

  /** Which object of the session an event object is: the n-th event, or the request with a call id. */
  datatype Identity = EventNo(n: nat) | RequestOf(callId: nat)

  /** An event object: the address that Python's `id` reports while it is alive, its identity, and its content. */
  datatype Obj = Obj(addr: nat, id: Identity, event: Engine.OutEvent)

  /** `held` are the buffered or once-buffered objects that something else keeps alive, such as pending requests. */
  datatype Box = Box(buffer: seq<Obj>, streamed: set<nat>, held: set<Obj>)

  const EMPTY := Box([], {}, {})

  datatype Op =
    | Post(o: Obj, keep: bool)
    | Again(o: Obj)
    | Emit(o: Obj, sinkAccepts: bool)
    | Release(o: Obj)
    | Drain

  function Undrained(buffer: seq<Obj>, streamed: set<nat>): seq<Obj> {
    if buffer == [] then []
    else
      var last := buffer[|buffer| - 1];
      Undrained(buffer[..|buffer| - 1], streamed) + (if last.addr in streamed then [] else [last])
  }

  /** With nothing buffered the drain returns before it clears the address set. */
  function Drained(b: Box): (seq<Obj>, Box) {
    if b.buffer == [] then ([], b) else (Undrained(b.buffer, b.streamed), b.(buffer := [], streamed := {}))
  }

  function Apply(b: Box, op: Op): Box {
    match op
    case Post(o, keep) => b.(buffer := b.buffer + [o], held := if keep then b.held + {o} else b.held)
    case Again(o) => b.(buffer := b.buffer + [o])
    case Emit(o, _) => b.(buffer := b.buffer + [o], streamed := b.streamed + {o.addr})
    case Release(o) => b.(held := b.held - {o})
    case Drain => Drained(b).1
  }

  /** A new object's address differs from that of every live one. */
  ghost predicate Allocatable(b: Box, o: Obj) {
    forall p :: p in b.buffer || p in b.held ==> p.addr != o.addr
  }

  // ---------------------------------------------------------------- runs

  function Final(ops: seq<Op>): Box {
    if ops == [] then EMPTY else Apply(Final(ops[..|ops| - 1]), ops[|ops| - 1])
  }

  /** Everything handed to the bus by drains so far, drain after drain. */
  function AllDrained(ops: seq<Op>): seq<Obj> {
    if ops == [] then []
    else
      var front, last := ops[..|ops| - 1], ops[|ops| - 1];
      AllDrained(front) + (if last.Drain? then Drained(Final(front)).0 else [])
  }

  /** The events produced for the drain, in production order. */
  function Posted(ops: seq<Op>): seq<Obj> {
    if ops == [] then []
    else
      var last := ops[|ops| - 1];
      Posted(ops[..|ops| - 1]) + (if last.Post? || last.Again? then [last.o] else [])
  }

  /** The events produced for the incremental sink, in production order. */
  function Emitted(ops: seq<Op>): seq<Obj> {
    if ops == [] then []
    else
      var last := ops[|ops| - 1];
      Emitted(ops[..|ops| - 1]) + (if last.Emit? then [last.o] else [])
  }

  /** What the sink took: all of `Emitted` as long as it never raises. */
  function Accepted(ops: seq<Op>): seq<Obj> {
    if ops == [] then []
    else
      var last := ops[|ops| - 1];
      Accepted(ops[..|ops| - 1]) + (if last.Emit? && last.sinkAccepts then [last.o] else [])
  }

  /** Posted and emitted objects are new, and only objects kept since they were posted are appended again. */
  ghost predicate Permitted(ops: seq<Op>) {
    ops == [] ||
    var front, last := ops[..|ops| - 1], ops[|ops| - 1];
    && Permitted(front)
    && (last.Post? || last.Emit? ==>
        Allocatable(Final(front), last.o) && last.o !in Posted(front) && last.o !in Emitted(front))
    && (last.Again? ==> last.o in Final(front).held)
  }

  /** What the memory allocator owes: a new object's address differs from that of every live one. */
  ghost predicate FreshlyAllocated(ops: seq<Op>) {
    ops == [] ||
    var front, last := ops[..|ops| - 1], ops[|ops| - 1];
    FreshlyAllocated(front) && (last.Post? || last.Emit? ==> Allocatable(Final(front), last.o))
  }

  lemma NothingAllocated()
    ensures FreshlyAllocated([])
  {
  }

  lemma RunSnoc(ops: seq<Op>, op: Op)
    ensures var all := ops + [op];
            && Final(all) == Apply(Final(ops), op)
            && AllDrained(all) == AllDrained(ops) + (if op.Drain? then Drained(Final(ops)).0 else [])
            && Posted(all) == Posted(ops) + (if op.Post? || op.Again? then [op.o] else [])
            && Emitted(all) == Emitted(ops) + (if op.Emit? then [op.o] else [])
  {
    assert (ops + [op])[..|ops|] == ops;
  }

  lemma PermittedSnoc(ops: seq<Op>, op: Op)
    ensures Permitted(ops + [op]) <==>
              && Permitted(ops)
              && (op.Post? || op.Emit? ==>
                  Allocatable(Final(ops), op.o) && op.o !in Posted(ops) && op.o !in Emitted(ops))
              && (op.Again? ==> op.o in Final(ops).held)
    ensures FreshlyAllocated(ops + [op]) <==>
              FreshlyAllocated(ops) && (op.Post? || op.Emit? ==> Allocatable(Final(ops), op.o))
  {
    assert (ops + [op])[..|ops|] == ops;
  }

  // ---------------------------------------------------------------- what the address set means

  /** Every remembered address belongs to a buffered object, and never to one that something else keeps. */
  ghost predicate AddressesCurrent(b: Box) {
    && (forall a :: a in b.streamed ==> exists i :: 0 <= i < |b.buffer| && b.buffer[i].addr == a)
    && (forall o :: o in b.held ==> o.addr !in b.streamed)
  }

  lemma {:induction false} UndrainedIgnores(buffer: seq<Obj>, streamed: set<nat>, a: nat)
    requires forall i :: 0 <= i < |buffer| ==> buffer[i].addr != a
    ensures Undrained(buffer, streamed + {a}) == Undrained(buffer, streamed)
  {
    if buffer != [] { UndrainedIgnores(buffer[..|buffer| - 1], streamed, a); }
  }

  lemma UndrainedSnoc(buffer: seq<Obj>, o: Obj, streamed: set<nat>)
    ensures Undrained(buffer + [o], streamed) == Undrained(buffer, streamed) + (if o.addr in streamed then [] else [o])
  {
    assert (buffer + [o])[..|buffer|] == buffer;
  }

  ghost predicate Ledger(ops: seq<Op>) {
    && AddressesCurrent(Final(ops))
    && Posted(ops) == AllDrained(ops) + Undrained(Final(ops).buffer, Final(ops).streamed)
    && (forall o :: o in Final(ops).held ==> o in Posted(ops))
    && (forall o :: o in Emitted(ops) ==> o !in Posted(ops))
  }

  lemma StepKeepsAddresses(b: Box, op: Op)
    requires AddressesCurrent(b)
    requires (op.Post? || op.Emit?) ==> Allocatable(b, op.o)
    requires op.Again? ==> op.o in b.held
    ensures AddressesCurrent(Apply(b, op))
  {
    var r := Apply(b, op);
    if op.Post? || op.Again? || op.Emit? {
      forall a | a in b.streamed ensures exists i :: 0 <= i < |r.buffer| && r.buffer[i].addr == a {
        var i :| 0 <= i < |b.buffer| && b.buffer[i].addr == a;
        assert r.buffer[i].addr == a;
      }
      assert r.buffer[|b.buffer|] == op.o;
    }
  }

  /** What one operation does to the part of the buffer still to be drained. */
  lemma UndrainedAfter(b: Box, op: Op)
    requires AddressesCurrent(b)
    requires (op.Post? || op.Emit?) ==> Allocatable(b, op.o)
    requires op.Again? ==> op.o in b.held
    ensures var was, r := Undrained(b.buffer, b.streamed), Apply(b, op);
            var left := Undrained(r.buffer, r.streamed);
            match op
            case Post(o, _) => left == was + [o]
            case Again(o) => left == was + [o]
            case Emit(_, _) => left == was
            case Release(_) => left == was
            case Drain => left == [] && Drained(b).0 == was
  {
    match op
    case Post(o, _) => UndrainedSnoc(b.buffer, o, b.streamed);
    case Again(o) => UndrainedSnoc(b.buffer, o, b.streamed);
    case Emit(o, _) =>
      UndrainedIgnores(b.buffer, b.streamed, o.addr);
      UndrainedSnoc(b.buffer, o, b.streamed + {o.addr});
    case Release(_) =>
    case Drain =>
  }

  /** Posting, streaming, releasing and draining keep the two sides of the ledger equal. */
  lemma BalanceAfter(ops: seq<Op>, op: Op)
    requires Permitted(ops + [op]) && Ledger(ops)
    ensures var all := ops + [op]; Posted(all) == AllDrained(all) + Undrained(Final(all).buffer, Final(all).streamed)
  {
    hide Undrained;
    hide Final;
    hide Apply;
    hide Posted;
    hide Emitted;
    hide AllDrained;
    hide Drained;
    hide AddressesCurrent;
    hide Allocatable;
    hide Permitted;
    RunSnoc(ops, op);
    PermittedSnoc(ops, op);
    UndrainedAfter(Final(ops), op);
  }

  lemma RecordsAfter(ops: seq<Op>, op: Op)
    requires Permitted(ops + [op]) && Ledger(ops)
    ensures var all := ops + [op];
            && (forall o :: o in Final(all).held ==> o in Posted(all))
            && (forall o :: o in Emitted(all) ==> o !in Posted(all))
  {
    hide Undrained;
    hide Final;
    hide Posted;
    hide Emitted;
    hide AllDrained;
    hide AddressesCurrent;
    hide Allocatable;
    hide Permitted;
    RunSnoc(ops, op);
    PermittedSnoc(ops, op);
  }

  lemma {:induction false} LedgerBalances(ops: seq<Op>)
    requires Permitted(ops)
    ensures Ledger(ops)
  {
    if ops != [] {
      hide Undrained;
      hide Posted;
      hide Emitted;
      hide AllDrained;
      var front, last := ops[..|ops| - 1], ops[|ops| - 1];
      assert ops == front + [last];
      LedgerBalances(front);
      StepKeepsAddresses(Final(front), last);
      BalanceAfter(front, last);
      RecordsAfter(front, last);
      hide Permitted;
      hide AddressesCurrent;
    }
  }

  /**
   * Exactly once, for every serial run of posting, streaming and draining: what has been drained, followed
   * by what the next drain would deliver, is exactly what was produced for draining, in production order;
   * no streamed event is ever drained; and the address set only names objects that are still buffered, so
   * a reused address hides nothing.
   */
  lemma PublishedExactlyOnce(ops: seq<Op>)
    requires Permitted(ops)
    ensures AllDrained(ops) + Undrained(Final(ops).buffer, Final(ops).streamed) == Posted(ops)
    ensures forall o :: o in Emitted(ops) ==>
        o !in AllDrained(ops) && o !in Undrained(Final(ops).buffer, Final(ops).streamed)
    ensures forall a :: a in Final(ops).streamed ==>
        exists i :: 0 <= i < |Final(ops).buffer| && Final(ops).buffer[i].addr == a
    ensures Final(ops).buffer == [] ==> Final(ops).streamed == {} && AllDrained(ops) == Posted(ops)
  {
    LedgerBalances(ops);
    assert forall o :: o in AllDrained(ops) + Undrained(Final(ops).buffer, Final(ops).streamed) <==> o in Posted(ops);
    if Final(ops).buffer == [] {
      assert forall a :: a !in Final(ops).streamed;
    }
  }

  /** An emitted event reaches the bus exactly when the sink took it: if the sink raised, no drain makes up for it. */
  lemma EmittedIsDeliveredIff(ops: seq<Op>, o: Obj)
    requires Permitted(ops) && o in Emitted(ops)
    ensures o in Accepted(ops) || o in AllDrained(ops) <==> Emit(o, true) in ops
  {
    PublishedExactlyOnce(ops);
    AcceptedIff(ops, o);
  }

  lemma {:induction false} AcceptedIff(ops: seq<Op>, o: Obj)
    ensures o in Accepted(ops) <==> Emit(o, true) in ops
  {
    if ops != [] {
      var front, last := ops[..|ops| - 1], ops[|ops| - 1];
      AcceptedIff(front, o);
      assert ops == front + [last];
    }
  }

  // ---------------------------------------------------------------- the object

  class Outbox {
    var outboundEvents: seq<Obj>
    var streamedEvents: set<nat>
    var errors: nat

    constructor ()
      ensures outboundEvents == [] && streamedEvents == {} && errors == 0
    {
      outboundEvents, streamedEvents, errors := [], {}, 0;
    }

    /** The sink is called last; when it raises, the event stays recorded as streamed. */
    method EmitOne(o: Obj, sinkAccepts: bool) returns (accepted: seq<Obj>)
      modifies this
      ensures forall held :: Box(outboundEvents, streamedEvents, held)
                             == Apply(Box(old(outboundEvents), old(streamedEvents), held), Emit(o, sinkAccepts))
      ensures accepted == if sinkAccepts then [o] else []
      ensures errors == old(errors) + if sinkAccepts then 0 else 1
    {
      outboundEvents := outboundEvents + [o];
      streamedEvents := streamedEvents + {o.addr};
      if sinkAccepts {
        accepted := [o];
      } else {
        accepted := [];
        errors := errors + 1;
      }
    }

    method TakeUndrained() returns (events: seq<Obj>)
      modifies this`outboundEvents, this`streamedEvents
      ensures forall held :: (events, Box(outboundEvents, streamedEvents, held))
                             == Drained(Box(old(outboundEvents), old(streamedEvents), held))
    {
      events := [];
      if outboundEvents == [] { return; }
      for i := 0 to |outboundEvents|
        invariant events == Undrained(outboundEvents[..i], streamedEvents)
      {
        assert outboundEvents[..i + 1][..i] == outboundEvents[..i];
        if outboundEvents[i].addr !in streamedEvents {
          events := events + [outboundEvents[i]];
        }
      }
      assert outboundEvents[..|outboundEvents|] == outboundEvents;
      outboundEvents := [];
      streamedEvents := {};
    }
  }
}
