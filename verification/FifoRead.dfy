/** The read direction of the DMA FIFO (util/fifo.cc): a piece is requested upstream and inserted
    downstream at the same time, and ends when both are over, whichever is first.  As in FifoWrite,
    an event is a flag that its handler finds cleared, and any scheduled event may fire next. */
module FifoRead {
  import opened Outcome
  import opened DmaPieces

  /** half lists the ids of the pieces for which exactly one side is over (readCompletion).  The
      fields after upstream only record what happened. */
  datatype Lane = Lane(
    unit: nat, capacity: nat,
    usage: int, wait: seq<Piece>, transfer: seq<Piece>,
    insertPending: bool, transferPending: bool,
    counter: nat, half: seq<nat>,
    insertDone: bool, begin: bool, submit: bool,  // scheduled events
    upstream: bool,                               // a DMA is outstanding upstream
    submitted: seq<Request>, sent: seq<Piece>, done: seq<Piece>, completed: seq<nat>,
    received: nat, inserted: nat)                 // pieces whose DMA, whose insertion is over

  predicate Sane(l: Lane) {
    0 < l.unit <= l.capacity
  }

  predicate SameFifo(l: Lane, m: Lane) {
    m.unit == l.unit && m.capacity == l.capacity
  }

  function Init(unit: nat, capacity: nat): Lane {
    Lane(unit, capacity, 0, [], [], false, false, 0, [], false, false, false, false, [], [], [], [], 0, 0)
  }

  // ---- Handlers ----

  function Split(l: Lane): Lane
    requires l.wait != [] && l.unit <= l.wait[0].size
  {
    var p := l.wait[0];
    l.(wait := [p.(size := l.unit, last := false),
                p.(addr := p.addr + l.unit, size := p.size - l.unit, last := true)] + l.wait[1..])
  }

  function Numbered(l: Lane): (m: Lane)
    requires l.wait != []
    ensures m.wait != []
  {
    l.(wait := [l.wait[0].(id := l.counter)] + l.wait[1..], counter := l.counter + 1)
  }

  function Requested(l: Lane): Lane
    requires l.wait != [] && 0 < l.unit
  {
    var p := l.wait[0];
    l.(transferPending := true, upstream := true, begin := true, sent := l.sent + [p],
       usage := l.usage + Rounded(l.unit, p.size), transfer := l.transfer + [p])
  }

  function BeginTransfer(l: Lane): Lane
    requires l.wait != [] && 0 < l.unit
  {
    Requested(Numbered(l))
  }

  predicate Held(l: Lane)
    requires l.wait != [] && 0 < l.unit
  {
    var size := Rounded(l.unit, l.wait[0].size);
    (l.transferPending || l.usage + size > l.capacity) && size <= l.capacity
  }

  function TransferRead(l: Lane): (m: Lane)
    requires l.wait != [] && Sane(l)
    ensures SameFifo(l, m)
  {
    if Held(l) then l
    else if Rounded(l.unit, l.wait[0].size) > l.capacity then BeginTransfer(Split(l))
    else BeginTransfer(l)
  }

  function TransferNext(l: Lane): (m: Lane)
    requires Sane(l)
    ensures SameFifo(l, m)
  {
    if l.wait != [] then TransferRead(l) else l
  }

  function DmaRead(l: Lane, q: Request): (m: Lane)
    requires Sane(l)
    ensures SameFifo(l, m)
  {
    if q.size == 0 then l
    else TransferNext(l.(wait := l.wait + [Piece(q.addr, q.size, true, 0, q.context)],
                         submitted := l.submitted + [q]))
  }

  function DmaReads(l: Lane, qs: seq<Request>): (m: Lane)
    requires Sane(l)
    ensures SameFifo(l, m)
    decreases |qs|
  {
    if qs == [] then l else DmaRead(DmaReads(l, qs[..|qs| - 1]), qs[|qs| - 1])
  }

  function InsertRead(l: Lane): (r: Result<Lane>)
    ensures r.Ok? ==> SameFifo(l, r.value)
  {
    if l.transfer == [] then Panic(FrontOfEmptyQueue)
    else if l.insertPending then Ok(l)
    else Ok(l.(insertPending := true, insertDone := true))
  }

  function NextInsert(l: Lane): (r: Result<Lane>)
    ensures r.Ok? ==> SameFifo(l, r.value)
  {
    if l.transfer != [] && !l.begin then InsertRead(l) else Ok(l)
  }

  function Pop(l: Lane): Lane
    requires l.transfer != [] && 0 < l.unit
  {
    var p := l.transfer[0];
    l.(usage := l.usage - Rounded(l.unit, p.size), insertPending := false, transfer := l.transfer[1..],
       done := l.done + [p], completed := l.completed + if p.last then [p.context] else [])
  }

  /** The callback of the request that ends here may submit the requests qs before it returns. */
  function InsertReadDoneNext(l: Lane, qs: seq<Request>): (r: Result<Lane>)
    requires Sane(l)
    ensures r.Ok? ==> SameFifo(l, r.value)
  {
    if l.transfer == [] then Panic(FrontOfEmptyQueue)
    else
      var called := if l.transfer[0].last then DmaReads(l, qs) else l;
      if called.transfer == [] then Panic(FrontOfEmptyQueue)
      else
        var next :- NextInsert(Pop(called));
        Ok(TransferNext(next))
  }

  function Without(s: seq<nat>, id: nat): seq<nat> {
    if s == [] then [] else if s[0] == id then s[1..] else [s[0]] + Without(s[1..], id)
  }

  /** Both sides are over; early says that the latency since the end of the DMA is not. */
  function Merge(l: Lane, id: nat, early: bool, qs: seq<Request>): (r: Result<Lane>)
    requires Sane(l)
    ensures r.Ok? ==> SameFifo(l, r.value)
  {
    var m :- if early then Ok(l.(submit := true)) else InsertReadDoneNext(l, qs);
    Ok(m.(half := Without(m.half, id)))
  }

  /** One side of piece id is over. */
  function SideDone(l: Lane, id: nat, early: bool, qs: seq<Request>): (r: Result<Lane>)
    requires Sane(l)
    ensures r.Ok? ==> SameFifo(l, r.value)
  {
    if id in l.half then Merge(l, id, early, qs) else Ok(l.(half := l.half + [id]))
  }

  function InsertReadDone(l: Lane, early: bool, qs: seq<Request>): (r: Result<Lane>)
    requires Sane(l)
    ensures r.Ok? ==> SameFifo(l, r.value)
  {
    if l.transfer == [] then Panic(FrontOfEmptyQueue)
    else SideDone(l.(inserted := l.inserted + 1), l.transfer[0].id, early, qs)
  }

  function TransferReadDone(l: Lane, early: bool, qs: seq<Request>): (r: Result<Lane>)
    requires Sane(l)
    ensures r.Ok? ==> SameFifo(l, r.value)
  {
    if l.wait == [] then Panic(FrontOfEmptyQueue)
    else
      var m :- SideDone(l, l.wait[0].id, early, qs);
      if m.wait == [] then Panic(FrontOfEmptyQueue)
      else Ok(TransferNext(Received(m)))
  }

  function Received(l: Lane): Lane
    requires l.wait != []
  {
    l.(wait := l.wait[1..], transferPending := false, received := l.received + 1)
  }

  // ---- Steps ----

  datatype Step =
    | Submit(q: Request)
    | Upstream(early: bool, qs: seq<Request>)
    | FireBegin
    | FireInsertDone(early: bool, qs: seq<Request>)
    | FireSubmit(qs: seq<Request>)

  predicate Enabled(l: Lane, e: Step) {
    match e
    case Submit(_) => true
    case Upstream(_, _) => l.upstream
    case FireBegin => l.begin
    case FireInsertDone(_, _) => l.insertDone
    case FireSubmit(_) => l.submit
  }

  function Next(l: Lane, e: Step): (r: Result<Lane>)
    requires Sane(l)
    ensures r.Ok? ==> SameFifo(l, r.value)
  {
    match e
    case Submit(q) => Ok(DmaRead(l, q))
    case Upstream(early, qs) => TransferReadDone(l.(upstream := false), early, qs)
    case FireBegin => InsertRead(l.(begin := false))
    case FireInsertDone(early, qs) => InsertReadDone(l.(insertDone := false), early, qs)
    case FireSubmit(qs) => InsertReadDoneNext(l.(submit := false), qs)
  }

  /** Whether the step ends the first piece of the transfer queue. */
  predicate Ends(l: Lane, e: Step) {
    match e
    case Upstream(early, _) => !early && l.wait != [] && l.wait[0].id in l.half
    case FireInsertDone(early, _) => !early && l.transfer != [] && l.transfer[0].id in l.half
    case FireSubmit(_) => true
    case _ => false
  }

  /** The requests that the step hands to the FIFO; those without a byte are ignored. */
  function Arrivals(l: Lane, e: Step): seq<Request> {
    if e.Submit? then Sized([e.q])
    else if Ends(l, e) && l.transfer != [] && l.transfer[0].last then Sized(e.qs)
    else []
  }

  predicate Legal(l: Lane, es: seq<Step>)
    requires Sane(l)
    decreases |es|
  {
    es == [] || (Enabled(l, es[0]) && (Next(l, es[0]).Ok? ==> Legal(Next(l, es[0]).value, es[1..])))
  }

  function Run(l: Lane, es: seq<Step>): (r: Result<Lane>)
    requires Sane(l)
    ensures r.Ok? ==> SameFifo(l, r.value)
    decreases |es|
  {
    if es == [] then Ok(l)
    else
      var m :- Next(l, es[0]);
      Run(m, es[1..])
  }

  // ---- Invariant ----

  ghost function Rest(l: Lane): seq<Piece>
    requires l.transferPending ==> l.wait != []
  {
    if l.transferPending then l.wait[1..] else l.wait
  }

  ghost predicate Wakes(l: Lane) {
    && (l.transferPending ==> l.wait != [])
    && (l.insertPending ==> l.transfer != [])
    && (l.begin ==> |l.transfer| >= if l.insertPending then 2 else 1)
    && (!l.begin && !l.insertPending ==> l.transfer == [])
  }

  ghost predicate Fits(l: Lane)
    requires Sane(l)
  {
    && l.usage == SumRounded(l.unit, l.transfer)
    && (l.transferPending && l.wait != [] ==> Rounded(l.unit, l.wait[0].size) <= l.capacity)
  }

  /** While every request fits the FIFO unsplit, so do the waiting pieces, and the usage stays within
      the capacity. */
  ghost predicate Room(l: Lane)
    requires Sane(l)
  {
    (forall q | q in l.submitted :: Rounded(l.unit, q.size) <= l.capacity) ==>
      && l.usage <= l.capacity
      && forall p | p in l.wait :: Rounded(l.unit, p.size) <= l.capacity
  }

  /** Pieces are numbered in the order of transfer. */
  ghost predicate Ids(l: Lane) {
    && l.counter == |l.done| + |l.transfer|
    && (forall i :: 0 <= i < |l.transfer| ==> l.transfer[i].id == |l.done| + i)
    && (l.transferPending && l.wait != [] ==> l.wait[0].id + 1 == l.counter)
  }

  ghost predicate Blocked(l: Lane)
    requires Sane(l)
  {
    l.wait != [] && !l.transferPending ==>
      var size := Rounded(l.unit, l.wait[0].size);
      size <= l.capacity && l.usage + size > l.capacity
  }

  ghost function Pipe(l: Lane): seq<Piece>
    requires l.transferPending ==> l.wait != []
  {
    l.done + l.transfer + Rest(l)
  }

  ghost predicate Logs(l: Lane)
    requires l.transferPending ==> l.wait != []
  {
    && AllLast(Rest(l))
    && Tiles(Pipe(l), l.submitted)
    && l.completed == Completions(l.done)
    && l.sent == l.done + l.transfer
  }

  /** What holds inside a handler as well. */
  ghost predicate Core(l: Lane) {
    Sane(l) && Wakes(l) && Fits(l) && Room(l) && Ids(l) && Logs(l)
  }

  /** The ids in half are those that one side has reached and the other has not. */
  ghost predicate HalfOk(half: seq<nat>, received: nat, inserted: nat) {
    && (forall i, j :: 0 <= i < j < |half| ==> half[i] != half[j])
    && forall id: nat :: id in half <==> (id < received) != (id < inserted)
  }

  /** How far the two sides are, given the piece that is being inserted. */
  ghost predicate Sides(l: Lane) {
    && (l.transferPending <==> l.upstream)
    && (l.insertDone || l.submit ==> l.insertPending)
    && !(l.insertDone && l.submit)
    && l.received == l.counter - Flag(l.transferPending)
    && l.inserted == |l.done| + Flag(l.insertPending && !l.insertDone)
    && |l.done| <= l.received
    && (l.submit ==> |l.done| < l.received)
    && (l.insertPending && !l.insertDone && !l.submit ==> |l.done| == l.received)
    && HalfOk(l.half, l.received, l.inserted)
  }

  ghost function Flag(b: bool): nat { if b then 1 else 0 }

  ghost predicate Inv(l: Lane) {
    Core(l) && Blocked(l) && Sides(l)
  }

  lemma InitInv(unit: nat, capacity: nat)
    requires 0 < unit <= capacity
    ensures Inv(Init(unit, capacity))
  {
  }

  // ---- Preservation ----

  /** What changes when pieces only enter the transfer queue. */
  ghost predicate Started(l: Lane, m: Lane) {
    && SameFifo(l, m)
    && m.done == l.done && m.completed == l.completed
    && m.insertPending == l.insertPending && m.insertDone == l.insertDone && m.submit == l.submit
    && l.transfer <= m.transfer
    && Advances(l, m)
  }

  ghost predicate Advances(l: Lane, m: Lane) {
    && m.half == l.half && m.received == l.received && m.inserted == l.inserted
    && (if l.transferPending then m.transferPending && m.upstream == l.upstream && m.counter == l.counter && l.wait <= m.wait
        else m.upstream == (l.upstream || m.transferPending) && m.counter == l.counter + Flag(m.transferPending))
  }

  lemma BeginSplitLogs(l: Lane)
    requires Sane(l) && Wakes(l) && Logs(l) && !l.transferPending && l.wait != [] && l.unit < l.wait[0].size
    ensures Logs(BeginTransfer(Split(l)))
  {
    hide Tiles, Completions, Rounded, Pipe, Wakes;
    var m, k := BeginTransfer(Split(l)), |l.done| + |l.transfer|;
    assert Rest(l)[0].last;
    SplitPipe(l);
    TilesCut(Pipe(l), l.submitted, k, l.unit, l.counter);
    SentLogs(l, m);
  }

  lemma SplitPipe(l: Lane)
    requires Sane(l) && !l.transferPending && l.wait != [] && l.unit < l.wait[0].size
    ensures BeginTransfer(Split(l)).wait != []
    ensures var k := |l.done| + |l.transfer|;
      && k < |Pipe(l)| && Pipe(l)[k] == l.wait[0]
      && Pipe(BeginTransfer(Split(l))) == Cut(Pipe(l), k, l.unit, l.counter)
  {
    hide Rounded, Cut;
    SplitRest(l);
    CutMiddle(l.done, l.transfer, l.wait, l.unit, l.counter);
    hide BeginTransfer;
  }

  lemma SplitRest(l: Lane)
    requires Sane(l) && !l.transferPending && l.wait != [] && l.unit < l.wait[0].size
    ensures var m := BeginTransfer(Split(l));
      var p := l.wait[0];
      && m.wait != [] && m.transferPending && m.done == l.done
      && m.transfer == l.transfer + [p.(size := l.unit, last := false, id := l.counter)]
      && Rest(m) == [p.(addr := p.addr + l.unit, size := p.size - l.unit, last := true)] + l.wait[1..]
  {
    hide Rounded;
  }

  lemma BeginPipe(l: Lane)
    requires Sane(l) && !l.transferPending && l.wait != []
    ensures BeginTransfer(l).wait != []
    ensures var k := |l.done| + |l.transfer|;
      && k < |Pipe(l)| && Pipe(BeginTransfer(l)) == Pipe(l)[k := Pipe(l)[k].(id := l.counter)]
  {
    hide Rounded;
    var front := l.wait[0].(id := l.counter);
    assert Pipe(l) == (l.done + l.transfer) + [l.wait[0]] + l.wait[1..] by {
      assert l.wait == [l.wait[0]] + l.wait[1..];
    }
    assert BeginTransfer(l).wait[1..] == l.wait[1..];
    assert Pipe(BeginTransfer(l)) == (l.done + l.transfer) + [front] + l.wait[1..];
    UpdateAt(l.done + l.transfer, l.wait[0], l.wait[1..], front);
  }

  lemma UpdateAt(a: seq<Piece>, x: Piece, b: seq<Piece>, y: Piece)
    ensures (a + [x] + b)[|a| := y] == a + [y] + b && (a + [x] + b)[|a|] == x
  {
  }

  lemma SentLogs(l: Lane, m: Lane)
    requires m.transfer != [] && m.transfer[..|m.transfer| - 1] == l.transfer
    requires l.sent == l.done + l.transfer && m.done == l.done && m.sent == l.sent + [m.transfer[|m.transfer| - 1]]
    ensures m.sent == m.done + m.transfer
  {
    assert m.transfer == l.transfer + [m.transfer[|m.transfer| - 1]];
  }

  lemma BeginTransferLogs(l: Lane)
    requires Sane(l) && Wakes(l) && Logs(l) && !l.transferPending && l.wait != []
    ensures Logs(BeginTransfer(l))
  {
    hide Tiles, Completions, Rounded, Pipe, Wakes;
    BeginPipe(l);
    TilesId(Pipe(l), l.submitted, |l.done| + |l.transfer|, l.counter);
    SentLogs(l, BeginTransfer(l));
  }

  ghost predicate Entered(l: Lane, m: Lane) {
    Core(m) && Blocked(m) && Started(l, m) && m.submitted == l.submitted
  }

  lemma BeginSplitCore(l: Lane)
    requires Core(l) && l.wait != [] && !Held(l) && Rounded(l.unit, l.wait[0].size) > l.capacity
    ensures l.unit <= l.wait[0].size && Entered(l, BeginTransfer(Split(l)))
  {
    BeginSplitLogs(l);
    SumAppend(l.unit, l.transfer, Split(l).wait[0].(id := l.counter));
    hide Tiles, Completions, SumRounded, Logs, Rounded;
  }

  lemma BeginTransferCore(l: Lane)
    requires Core(l) && l.wait != [] && !Held(l) && Rounded(l.unit, l.wait[0].size) <= l.capacity
    ensures Entered(l, BeginTransfer(l))
  {
    hide Tiles, Completions, SumRounded, Logs, Rounded;
    BeginTransferLogs(l);
    SumAppend(l.unit, l.transfer, l.wait[0].(id := l.counter));
  }

  lemma TransferReadCore(l: Lane)
    requires Core(l) && l.wait != []
    ensures Entered(l, TransferRead(l))
  {
    hide Tiles, Completions, SumRounded, Rounded, Logs, BeginTransfer, Split;
    if !Held(l) {
      if Rounded(l.unit, l.wait[0].size) > l.capacity {
        BeginSplitCore(l);
      } else {
        BeginTransferCore(l);
      }
    }
  }

  lemma TransferNextCore(l: Lane)
    requires Core(l)
    ensures Entered(l, TransferNext(l))
  {
    hide TransferRead, Tiles, Completions, SumRounded, Rounded, Logs;
    if l.wait != [] {
      TransferReadCore(l);
    }
  }

  lemma ArriveLogs(l: Lane, q: Request)
    requires Sane(l) && Wakes(l) && Logs(l) && 0 < q.size
    ensures var p := Piece(q.addr, q.size, true, 0, q.context);
      Logs(l.(wait := l.wait + [p], submitted := l.submitted + [q]))
  {
    hide Tiles, Completions;
    var p := Piece(q.addr, q.size, true, 0, q.context);
    var m := l.(wait := l.wait + [p], submitted := l.submitted + [q]);
    assert Rest(m) == Rest(l) + [p];
    assert Pipe(m) == Pipe(l) + [p];
    TilesSubmit(Pipe(l), l.submitted, p);
  }

  lemma ArriveCore(l: Lane, q: Request)
    requires Core(l) && 0 < q.size
    ensures var p := Piece(q.addr, q.size, true, 0, q.context);
      Core(l.(wait := l.wait + [p], submitted := l.submitted + [q]))
  {
    hide Tiles, Completions, SumRounded, Logs, Rounded;
    ArriveLogs(l, q);
  }

  lemma DmaReadCore(l: Lane, q: Request)
    requires Core(l) && Blocked(l)
    ensures var m := DmaRead(l, q); Core(m) && Blocked(m) && Started(l, m)
  {
    hide Tiles, Completions, SumRounded, Logs, Rounded, TransferNext;
    if q.size > 0 {
      ArriveCore(l, q);
      hide Core;
      TransferNextCore(l.(wait := l.wait + [Piece(q.addr, q.size, true, 0, q.context)],
                          submitted := l.submitted + [q]));
    }
  }

  lemma {:induction false} DmaReadsCore(l: Lane, qs: seq<Request>)
    requires Sane(l) && Core(l) && Blocked(l)
    ensures var m := DmaReads(l, qs); Core(m) && Blocked(m) && Started(l, m)
    decreases |qs|
  {
    hide Core, Blocked, DmaRead;
    if qs != [] {
      DmaReadsCore(l, qs[..|qs| - 1]);
      DmaReadCore(DmaReads(l, qs[..|qs| - 1]), qs[|qs| - 1]);
    }
  }

  lemma DmaReadSubmitted(l: Lane, q: Request)
    requires Sane(l)
    ensures DmaRead(l, q).submitted == l.submitted + if q.size == 0 then [] else [q]
  {
    hide Rounded;
  }

  lemma {:induction false} DmaReadsSubmitted(l: Lane, qs: seq<Request>)
    requires Sane(l)
    ensures DmaReads(l, qs).submitted == l.submitted + Sized(qs)
    decreases |qs|
  {
    hide DmaRead;
    if qs != [] {
      DmaReadsSubmitted(l, qs[..|qs| - 1]);
      DmaReadSubmitted(DmaReads(l, qs[..|qs| - 1]), qs[|qs| - 1]);
    }
  }

  /** The front of the transfer queue moves to the pieces that are done. */
  lemma FrontDone(done: seq<Piece>, transfer: seq<Piece>, rest: seq<Piece>)
    requires transfer != []
    ensures (done + [transfer[0]]) + transfer[1..] == done + transfer
    ensures (done + [transfer[0]]) + transfer[1..] + rest == done + transfer + rest
    ensures Completions(done + [transfer[0]]) == Completions(done) + if transfer[0].last then [transfer[0].context] else []
  {
    assert transfer == [transfer[0]] + transfer[1..];
    assert (done + [transfer[0]])[..|done|] == done;
  }

  lemma PopLogs(l: Lane)
    requires Sane(l) && Wakes(l) && Logs(l) && l.transfer != []
    ensures Logs(Pop(l))
  {
    hide Tiles, Rounded, Completions;
    FrontDone(l.done, l.transfer, Rest(l));
  }

  /** The piece at the front of the transfer queue ends, and the next insertion begins. */
  ghost predicate Popped(l: Lane, m: Lane) {
    && SameFifo(l, m)
    && |m.done| == |l.done| + 1 && !m.submit && (m.insertPending <==> m.insertDone)
    && Advances(l, m)
  }

  lemma PopInsertLogs(l: Lane)
    requires Sane(l) && Wakes(l) && Logs(l) && l.insertPending
    ensures NextInsert(Pop(l)).Ok? && Wakes(NextInsert(Pop(l)).value) && Logs(NextInsert(Pop(l)).value)
  {
    hide Tiles, Completions, Rounded;
    PopLogs(l);
    assert Pipe(NextInsert(Pop(l)).value) == Pipe(Pop(l));
  }

  lemma PopInsertCore(l: Lane)
    requires Core(l) && l.insertPending && !l.insertDone && !l.submit
    ensures NextInsert(Pop(l)).Ok?
    ensures var m := NextInsert(Pop(l)).value; Core(m) && Popped(l, m) && m.submitted == l.submitted
  {
    hide Tiles, Completions, Rounded, Logs;
    PopInsertLogs(l);
  }

  lemma Composed(l: Lane, called: Lane, next: Lane, m: Lane)
    requires Started(l, called) && Popped(called, next) && Started(next, m)
    ensures Popped(l, m)
  {
  }

  lemma CalledCore(l: Lane, qs: seq<Request>)
    requires Core(l) && Blocked(l) && l.insertPending && !l.insertDone && !l.submit
    ensures var called := if l.transfer[0].last then DmaReads(l, qs) else l;
      && Core(called) && Started(l, called)
      && called.transfer != [] && called.insertPending && !called.insertDone && !called.submit
      && called.submitted == l.submitted + if l.transfer[0].last then Sized(qs) else []
  {
    DmaReadsCore(l, qs);
    DmaReadsSubmitted(l, qs);
    hide Tiles, Completions, Rounded, Logs, SumRounded, DmaReads, Sized;
  }

  lemma DoneNextCore(l: Lane, qs: seq<Request>)
    requires Core(l) && Blocked(l) && l.insertPending && !l.insertDone && !l.submit
    ensures l.transfer != [] && InsertReadDoneNext(l, qs).Ok?
    ensures var m := InsertReadDoneNext(l, qs).value;
      && Core(m) && Blocked(m) && Popped(l, m)
      && m.submitted == l.submitted + if l.transfer[0].last then Sized(qs) else []
  {
    assert l.transfer != [];
    CalledCore(l, qs);
    var called := if l.transfer[0].last then DmaReads(l, qs) else l;
    hide Core, Blocked, Pop, NextInsert, TransferNext, DmaReads, Sized, Started, Popped;
    PopInsertCore(called);
    var next := NextInsert(Pop(called)).value;
    TransferNextCore(next);
    Composed(l, called, next, TransferNext(next));
  }

  lemma {:induction false} WithoutOnly(s: seq<nat>, id: nat)
    requires forall i, j :: 0 <= i < j < |s| ==> s[i] != s[j]
    ensures var t := Without(s, id);
      && (forall i, j :: 0 <= i < j < |t| ==> t[i] != t[j])
      && (forall x :: x in t <==> x in s && x != id)
  {
    if s != [] {
      WithoutOnly(s[1..], id);
      assert s == [s[0]] + s[1..] && s[0] !in s[1..];
      if s[0] != id {
        var t := Without(s[1..], id);
        assert s[0] !in t && Without(s, id) == [s[0]] + t;
      }
    }
  }

  /** The side that has finished first pieces finishes the next one. */
  lemma SideHalf(half: seq<nat>, first: nat, second: nat)
    requires HalfOk(half, first, second)
    ensures first in half <==> first < second
    ensures HalfOk(if first in half then Without(half, first) else half + [first], first + 1, second)
  {
    WithoutOnly(half, first);
  }

  lemma ReceivedCore(l: Lane)
    requires Core(l) && l.transferPending
    ensures Core(Received(l))
  {
    hide Tiles, Completions, SumRounded, Rounded;
    assert Pipe(Received(l)) == Pipe(l);
  }

  /** Events and counts do not matter to what holds inside a handler. */
  lemma EventsCore(l: Lane, m: Lane)
    requires Core(l) && Blocked(l)
    requires m == l.(upstream := m.upstream, insertDone := m.insertDone, submit := m.submit, half := m.half,
                     inserted := m.inserted)
    ensures Core(m) && Blocked(m)
  {
    hide Tiles, Completions, SumRounded, Rounded;
    assert Pipe(m) == Pipe(l);
  }

  lemma SubmitInv(l: Lane, q: Request)
    requires Inv(l)
    ensures Sane(l) && Inv(DmaRead(l, q)) && DmaRead(l, q).submitted == l.submitted + Arrivals(l, Submit(q))
  {
    hide HalfOk, Tiles, Completions, SumRounded, Rounded;
    DmaReadCore(l, q);
    DmaReadsSubmitted(l, [q]);
    assert [q][..0] == [] && DmaReads(l, [q]) == DmaRead(l, q);
    hide Core, Blocked, DmaRead;
  }

  lemma BeginInv(l: Lane)
    requires Inv(l) && l.begin
    ensures InsertRead(l.(begin := false)).Ok? && Inv(InsertRead(l.(begin := false)).value)
    ensures InsertRead(l.(begin := false)).value.submitted == l.submitted + Arrivals(l, FireBegin)
  {
    hide Tiles, Completions, SumRounded, Rounded, HalfOk;
    assert Pipe(InsertRead(l.(begin := false)).value) == Pipe(l);
  }

  lemma FireSubmitInv(l: Lane, qs: seq<Request>)
    requires Inv(l) && l.submit
    ensures l.transfer != []
    ensures var r := InsertReadDoneNext(l.(submit := false), qs);
      && r.Ok? && Inv(r.value)
      && r.value.submitted == l.submitted + Arrivals(l, FireSubmit(qs))
  {
    EventsCore(l, l.(submit := false));
    DoneNextCore(l.(submit := false), qs);
    hide Core, Blocked, HalfOk, InsertReadDoneNext, Sized;
  }

  ghost function HalfAfter(half: seq<nat>, id: nat): seq<nat> {
    if id in half then Without(half, id) else half + [id]
  }

  /** What becomes of a when one side of piece id is over. */
  ghost predicate SideOver(a: Lane, id: nat, early: bool, qs: seq<Request>, m: Lane) {
    && Core(m) && Blocked(m) && m.half == HalfAfter(a.half, id)
    && (if id !in a.half then m == a.(half := m.half)
        else if early then m == a.(half := m.half, submit := true)
        else Popped(a, m.(half := a.half)))
    && m.submitted
      == a.submitted + if id in a.half && !early && a.transfer != [] && a.transfer[0].last then Sized(qs) else []
  }

  lemma PoppedHalf(a: Lane, m: Lane, r: Lane)
    requires Popped(a, m) && r == m.(half := r.half)
    ensures m.half == a.half && Popped(a, r.(half := a.half))
  {
  }

  lemma SideDoneCore(a: Lane, id: nat, early: bool, qs: seq<Request>)
    requires Core(a) && Blocked(a)
    requires id in a.half ==> a.insertPending && !a.insertDone && !a.submit
    ensures SideDone(a, id, early, qs).Ok? && SideOver(a, id, early, qs, SideDone(a, id, early, qs).value)
  {
    hide Blocked, InsertReadDoneNext, Sized, Popped, Wakes, Fits, Room, Ids, Logs, Without;
    if id !in a.half {
      EventsCore(a, a.(half := a.half + [id]));
    } else if early {
      EventsCore(a, a.(submit := true, half := Without(a.half, id)));
    } else {
      DoneNextCore(a, qs);
      var m := InsertReadDoneNext(a, qs).value;
      var r := m.(half := Without(a.half, id));
      EventsCore(m, r);
      PoppedHalf(a, m, r);
    }
  }

  /** Each side has reached the piece at the front of its queue. */
  lemma Fronts(l: Lane)
    requires Inv(l)
    ensures Sane(l) && Core(l) && Blocked(l) && Sides(l)
    ensures l.upstream ==> l.wait != [] && l.wait[0].id == l.received && l.transfer != []
    ensures l.insertDone ==> l.transfer != [] && l.transfer[0].id == l.inserted
  {
    hide Tiles, Completions, SumRounded, Rounded, HalfOk, AllLast;
  }

  lemma InsertDoneInv(l: Lane, early: bool, qs: seq<Request>)
    requires Inv(l) && l.insertDone
    ensures l.transfer != []
    ensures var r := InsertReadDone(l.(insertDone := false), early, qs);
      && r.Ok? && Inv(r.value)
      && r.value.submitted == l.submitted + Arrivals(l, FireInsertDone(early, qs))
  {
    hide Core, Blocked, HalfOk, Sized, Tiles, Completions, SumRounded, Rounded, AllLast;
    Fronts(l);
    var a, id := l.(insertDone := false, inserted := l.inserted + 1), l.transfer[0].id;
    hide Core, Blocked, HalfOk, Sized, SideDone, SideOver, HalfAfter;
    HalfSwap(l.half, l.received, l.inserted);
    SideHalf(l.half, l.inserted, l.received);
    EventsCore(l, a);
    SideDoneCore(a, id, early, qs);
    InsertDoneSides(l, a, early, qs, SideDone(a, id, early, qs).value);
  }

  lemma InsertDoneSides(l: Lane, a: Lane, early: bool, qs: seq<Request>, m: Lane)
    requires Sides(l) && l.insertDone && l.transfer != []
    requires a == l.(insertDone := false, inserted := l.inserted + 1) && SideOver(a, l.inserted, early, qs, m)
    requires l.inserted in l.half <==> l.inserted < l.received
    requires HalfOk(HalfAfter(l.half, l.inserted), l.inserted + 1, l.received)
    ensures Sides(m) && Core(m) && Blocked(m)
    ensures m.submitted
      == l.submitted + if !early && l.inserted in l.half && l.transfer[0].last then Sized(qs) else []
  {
    hide Core, Blocked, HalfOk, Sized, HalfAfter;
    HalfSwap(HalfAfter(l.half, l.inserted), l.inserted + 1, l.received);
  }

  lemma HalfSwap(half: seq<nat>, first: nat, second: nat)
    requires HalfOk(half, first, second)
    ensures HalfOk(half, second, first)
  {
  }

  lemma UpstreamInv(l: Lane, early: bool, qs: seq<Request>)
    requires Inv(l) && l.upstream
    ensures l.wait != [] && l.transfer != []
    ensures var r := TransferReadDone(l.(upstream := false), early, qs);
      && r.Ok? && Inv(r.value)
      && r.value.submitted == l.submitted + Arrivals(l, Upstream(early, qs))
  {
    hide Core, Blocked, HalfOk, Sized, Tiles, Completions, SumRounded, Rounded, AllLast;
    Fronts(l);
    var a, id := l.(upstream := false), l.wait[0].id;
    hide Core, Blocked, HalfOk, Sized, SideDone, TransferNext, SideOver, HalfAfter, Received, Started;
    SideHalf(l.half, l.received, l.inserted);
    EventsCore(l, a);
    SideDoneCore(a, id, early, qs);
    var m := SideDone(a, id, early, qs).value;
    StillPending(a, id, early, qs, m);
    ReceivedCore(m);
    var n := TransferNext(Received(m));
    TransferNextCore(Received(m));
    UpstreamSides(l, a, early, qs, m, n);
  }

  lemma StillPending(a: Lane, id: nat, early: bool, qs: seq<Request>, m: Lane)
    requires SideOver(a, id, early, qs, m) && a.transferPending && a.wait != []
    ensures m.transferPending && m.wait != []
  {
  }

  lemma UpstreamSides(l: Lane, a: Lane, early: bool, qs: seq<Request>, m: Lane, n: Lane)
    requires Sides(l) && l.upstream && l.transfer != []
    requires a == l.(upstream := false) && SideOver(a, l.received, early, qs, m)
    requires l.received in l.half <==> l.received < l.inserted
    requires HalfOk(HalfAfter(l.half, l.received), l.received + 1, l.inserted)
    requires m.wait != [] && Started(Received(m), n) && n.submitted == m.submitted
    ensures Sides(n)
    ensures n.submitted
      == l.submitted + if !early && l.received in l.half && l.transfer[0].last then Sized(qs) else []
  {
    hide Core, Blocked, HalfOk, Sized, HalfAfter;
  }

  /** No enabled step meets an empty queue, and every step keeps the invariant. */
  lemma StepInv(l: Lane, e: Step)
    requires Inv(l) && Enabled(l, e)
    ensures Next(l, e).Ok? && Inv(Next(l, e).value)
    ensures Next(l, e).value.submitted == l.submitted + Arrivals(l, e)
  {
    InvSane(l);
    hide Inv, TransferReadDone, InsertRead, InsertReadDone, InsertReadDoneNext, DmaRead, Arrivals;
    match e
    case Submit(q) => SubmitInv(l, q);
    case Upstream(early, qs) => UpstreamInv(l, early, qs);
    case FireBegin => BeginInv(l);
    case FireInsertDone(early, qs) => InsertDoneInv(l, early, qs);
    case FireSubmit(qs) => FireSubmitInv(l, qs);
  }

  // ---- Whole runs ----

  ghost predicate Unfinished(l: Lane) {
    l.wait != [] || l.transfer != []
  }

  ghost predicate SomethingScheduled(l: Lane) {
    l.insertDone || l.begin || l.submit || l.upstream
  }

  lemma NoLostWakeUp(l: Lane)
    requires Inv(l)
    ensures Unfinished(l) ==> SomethingScheduled(l)
    ensures l.begin ==> l.transfer != []
  {
    hide Logs, HalfOk;
    if l.transfer == [] {
      assert SumRounded(l.unit, l.transfer) == 0;
    }
  }

  /** What an observer can rely on after any run.  A completed request has been received as well as
      inserted. */
  ghost predicate Delivers(l: Lane)
    requires Sane(l)
  {
    && (Unfinished(l) ==> SomethingScheduled(l))
    && l.completed == Completions(l.done) && l.completed <= Contexts(l.submitted)
    && |l.done| <= l.received && |l.done| <= l.inserted
    && (exists tail :: Tiles(l.sent + tail, l.submitted))
    && l.usage == SumRounded(l.unit, l.transfer)
    && ((forall q | q in l.submitted :: Rounded(l.unit, q.size) <= l.capacity) ==> l.usage <= l.capacity)
    && (!SomethingScheduled(l) ==>
          l.usage == 0 && l.half == [] && l.completed == Contexts(l.submitted) && Tiles(l.sent, l.submitted))
  }

  lemma PipeDelivers(l: Lane)
    requires Sane(l) && Wakes(l) && Logs(l)
    ensures l.completed == Completions(l.done) && l.completed <= Contexts(l.submitted) && l.sent <= Pipe(l)
    ensures l.wait == [] && l.transfer == [] ==> l.completed == Contexts(l.submitted) && l.sent == Pipe(l)
  {
    hide Tiles, Contexts, Completions, Rounded, AllLast;
    if l.wait == [] && l.transfer == [] {
      assert Pipe(l) == l.done;
    }
    TilesComplete(Pipe(l), l.submitted);
    CompletionsConcat(l.done, l.transfer + Rest(l));
    assert Pipe(l) == l.done + (l.transfer + Rest(l));
  }

  lemma InvDelivers(l: Lane)
    requires Inv(l)
    ensures Delivers(l)
  {
    hide Tiles, Completions, Contexts, Rounded, Blocked;
    NoLostWakeUp(l);
    PipeDelivers(l);
    var tail := Pipe(l)[|l.sent|..];
    assert l.sent + tail == Pipe(l);
    assert l.half != [] ==> l.half[0] in l.half;
  }

  lemma InvSane(l: Lane)
    requires Inv(l)
    ensures Sane(l)
  {
  }

  /** No run of the read direction meets an empty queue, and after any run the completed requests are
      the oldest ones, each once, in order, and only after both of its sides are over. */
  lemma {:induction false} ReadRun(l: Lane, es: seq<Step>)
    requires Inv(l) && Legal(l, es)
    ensures Run(l, es).Ok? && Inv(Run(l, es).value) && Delivers(Run(l, es).value)
    ensures l.submitted <= Run(l, es).value.submitted
    decreases |es|
  {
    hide Inv, Delivers, Enabled, Next, Arrivals;
    if es == [] {
      InvDelivers(l);
    } else {
      InvSane(l);
      StepInv(l, es[0]);
      ReadRun(Next(l, es[0]).value, es[1..]);
    }
  }

  // ---- Draining ----

  ghost function Measure(l: Lane): int
    requires l.transferPending ==> l.wait != []
  {
    8 * Bytes(Rest(l)) + 5 * |l.transfer| + Flag(l.begin) + Flag(l.upstream)
    - if !l.insertPending then 0 else if l.insertDone then 1 else if l.submit then 3 else 2
  }

  ghost predicate Silent(e: Step) {
    e.FireBegin? || (!e.Submit? && e.qs == [])
  }

  lemma SplitMeasure(l: Lane)
    requires l.wait != [] && 0 < l.unit <= l.wait[0].size && !l.transferPending
    ensures BeginTransfer(Split(l)).wait != [] && Measure(BeginTransfer(Split(l))) < Measure(l)
  {
    hide Rounded;
    var m := BeginTransfer(Split(l));
    assert Rest(m)[1..] == l.wait[1..];
  }

  lemma BeginMeasure(l: Lane)
    requires l.wait != [] && 0 < l.unit && 0 < l.wait[0].size && !l.transferPending
    ensures BeginTransfer(l).wait != [] && Measure(BeginTransfer(l)) <= Measure(l)
  {
    hide Rounded;
    assert Rest(BeginTransfer(l)) == l.wait[1..];
  }

  lemma TransferNextMeasure(l: Lane)
    requires Core(l)
    ensures var m := TransferNext(l); (m.transferPending ==> m.wait != []) && Measure(m) <= Measure(l)
  {
    hide Tiles, Completions, SumRounded, Pipe, Room, Measure, BeginTransfer, Split;
    if l.wait != [] && !Held(l) {
      assert Rest(l)[0] == l.wait[0];
      if Rounded(l.unit, l.wait[0].size) > l.capacity {
        SplitMeasure(l);
      } else {
        BeginMeasure(l);
      }
    }
  }

  lemma DoneNextMeasure(l: Lane)
    requires Core(l) && Blocked(l) && l.insertPending && !l.insertDone && !l.submit
    ensures InsertReadDoneNext(l, []).Ok?
    ensures var m := InsertReadDoneNext(l, []).value;
      && (m.transferPending ==> m.wait != [])
      && Measure(m) <= Measure(l) - 3
  {
    hide Tiles, Completions, SumRounded, Rounded, Logs, Fits, TransferNext;
    PopInsertCore(l);
    TransferNextMeasure(NextInsert(Pop(l)).value);
  }

  lemma SideDoneMeasure(a: Lane, id: nat, early: bool)
    requires Core(a) && Blocked(a)
    requires id in a.half ==> a.insertPending && !a.insertDone && !a.submit
    ensures SideDone(a, id, early, []).Ok?
    ensures var m := SideDone(a, id, early, []).value;
      (m.transferPending ==> m.wait != []) && Measure(m) <= Measure(a)
  {
    hide Tiles, Completions, SumRounded, Rounded, Logs, Fits, InsertReadDoneNext;
    if id in a.half && !early {
      DoneNextMeasure(a);
    }
  }

  /** A step that brings no request, and whose callback brings none, uses up some of the measure. */
  lemma UpstreamMeasure(l: Lane, early: bool)
    requires Inv(l) && l.upstream
    ensures Next(l, Upstream(early, [])).Ok? && Inv(Next(l, Upstream(early, [])).value)
    ensures Measure(Next(l, Upstream(early, [])).value) < Measure(l)
  {
    StepInv(l, Upstream(early, []));
    Fronts(l);
    hide Inv, Core, Blocked, HalfOk, Tiles, Completions, SumRounded, Rounded, SideDone, TransferNext;
    var a := l.(upstream := false);
    EventsCore(l, a);
    SideHalf(l.half, l.received, l.inserted);
    SideDoneCore(a, l.received, early, []);
    SideDoneMeasure(a, l.received, early);
    var m := SideDone(a, l.received, early, []).value;
    StillPending(a, l.received, early, [], m);
    ReceivedCore(m);
    TransferNextMeasure(Received(m));
  }

  lemma StepMeasure(l: Lane, e: Step)
    requires Inv(l) && Enabled(l, e) && Silent(e)
    ensures Next(l, e).Ok? && Inv(Next(l, e).value) && Measure(Next(l, e).value) < Measure(l)
  {
    hide Inv, Core, Blocked, HalfOk, Tiles, Completions, SumRounded, Rounded, SideDone, InsertReadDoneNext;
    StepInv(l, e);
    Fronts(l);
    match e
    case Upstream(early, qs) =>
      UpstreamMeasure(l, early);
    case FireBegin =>
    case FireInsertDone(early, qs) =>
      var a := l.(insertDone := false, inserted := l.inserted + 1);
      EventsCore(l, a);
      HalfSwap(l.half, l.received, l.inserted);
      SideHalf(l.half, l.inserted, l.received);
      SideDoneMeasure(a, l.inserted, early);
    case FireSubmit(qs) =>
      EventsCore(l, l.(submit := false));
      DoneNextMeasure(l.(submit := false));
  }

  lemma MeasureNat(l: Lane)
    requires Inv(l)
    ensures 0 <= Measure(l)
  {
  }

  /** Without new requests the lane stops after a bounded number of steps.  So whatever the order of
      the events, every submitted request is completed. */
  lemma {:induction false} Drains(l: Lane, es: seq<Step>)
    requires Inv(l) && Legal(l, es) && forall i :: 0 <= i < |es| ==> Silent(es[i])
    ensures |es| <= Measure(l)
    decreases |es|
  {
    hide Inv, Enabled, Next, Measure, Silent;
    if es == [] {
      MeasureNat(l);
    } else {
      InvSane(l);
      StepMeasure(l, es[0]);
      Drains(Next(l, es[0]).value, es[1..]);
    }
  }

  // ---- Capacity ----

  /** A transfer takes the usage above the capacity exactly when it splits a piece while less than
      one unit is free. */
  lemma OverCapacityExactly(l: Lane)
    requires Core(l) && l.wait != [] && l.usage <= l.capacity
    ensures TransferRead(l).usage > l.capacity
      <==> Rounded(l.unit, l.wait[0].size) > l.capacity && l.usage + l.unit > l.capacity
  {
    hide Logs, SumRounded, Rounded, Room, Ids;
  }

  lemma FirstUnit()
    ensures var l := DmaRead(Init(4, 4), Request(0, 16, 0));
      && l.unit == l.capacity == l.usage == 4 && l.transferPending && l.upstream && l.half == []
      && l.wait == [Piece(0, 4, false, 0, 0), Piece(4, 12, true, 0, 0)]
  {
    assert Rounded(4, 16) == 16 && Rounded(4, 4) == 4;
    hide Rounded;
  }

  lemma SecondUnit(l: Lane)
    requires l.unit == l.capacity == l.usage == 4 && l.half == []
    requires l.wait == [Piece(0, 4, false, 0, 0), Piece(4, 12, true, 0, 0)]
    ensures TransferReadDone(l, false, []).Ok? && TransferReadDone(l, false, []).value.usage == 8
  {
    assert Rounded(4, 12) == 12 && Rounded(4, 4) == 4;
    assert l.wait[1..] == [Piece(4, 12, true, 0, 0)];
    hide Rounded;
  }

  /** Split requests overrun it: a request of four units, in a FIFO of one unit. */
  lemma SplitOverruns()
    ensures var l := DmaRead(Init(4, 4), Request(0, 16, 0));
      Inv(l) && Enabled(l, Upstream(false, [])) && Next(l, Upstream(false, [])).Ok?
      && Next(l, Upstream(false, [])).value.usage == 8 > l.capacity
  {
    hide Inv, DmaRead, TransferReadDone;
    InitInv(4, 4);
    StepInv(Init(4, 4), Submit(Request(0, 16, 0)));
    FirstUnit();
    SecondUnit(DmaRead(Init(4, 4), Request(0, 16, 0)).(upstream := false));
  }
}
