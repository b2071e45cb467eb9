/** The write direction of the DMA FIFO (util/fifo.cc): pieces are inserted into the FIFO one after
    the other, and sent upstream from it.  Time is left out: an event is a flag that its handler
    finds cleared, and any scheduled event may fire next. */
module FifoWrite {
  import opened Outcome
  import opened DmaPieces

  /** The last four fields only record what happened. */
  datatype Lane = Lane(
    unit: nat, capacity: nat,
    usage: int, wait: seq<Piece>, transfer: seq<Piece>,
    insertPending: bool, transferPending: bool,
    insertDone: bool, begin: bool, submit: bool,  // scheduled events
    upstream: bool,                               // a DMA is outstanding upstream
    submitted: seq<Request>, sent: seq<Piece>, done: seq<Piece>, completed: seq<nat>)

  /** The FIFO's constructor panics on a transfer unit above the capacity. */
  predicate Sane(l: Lane) {
    0 < l.unit <= l.capacity
  }

  function Init(unit: nat, capacity: nat): Lane {
    Lane(unit, capacity, 0, [], [], false, false, false, false, false, false, [], [], [], [])
  }

  // ---- Handlers ----

  /** The first waiting piece becomes one unit, and what is left of it waits behind. */
  function Split(l: Lane): Lane
    requires l.wait != [] && l.unit <= l.wait[0].size
  {
    var p := l.wait[0];
    l.(wait := [p.(size := l.unit, last := false),
                p.(addr := p.addr + l.unit, size := p.size - l.unit, last := true)] + l.wait[1..])
  }

  function BeginInsert(l: Lane): Lane
    requires l.wait != [] && 0 < l.unit
  {
    l.(insertPending := true, insertDone := true, begin := true,
       usage := l.usage + Rounded(l.unit, l.wait[0].size), transfer := l.transfer + [l.wait[0]])
  }

  predicate Held(l: Lane)
    requires l.wait != [] && 0 < l.unit
  {
    var size := Rounded(l.unit, l.wait[0].size);
    (l.insertPending || l.usage + size > l.capacity) && size <= l.capacity
  }

  predicate SameFifo(l: Lane, m: Lane) {
    m.unit == l.unit && m.capacity == l.capacity
  }

  function InsertWrite(l: Lane): (m: Lane)
    requires l.wait != [] && Sane(l)
    ensures SameFifo(l, m)
  {
    if Held(l) then l
    else if Rounded(l.unit, l.wait[0].size) > l.capacity then BeginInsert(Split(l))
    else BeginInsert(l)
  }

  function InsertNext(l: Lane): (m: Lane)
    requires Sane(l)
    ensures SameFifo(l, m)
  {
    if l.wait != [] then InsertWrite(l) else l
  }

  function InsertWriteDone(l: Lane): (r: Result<Lane>)
    requires Sane(l)
    ensures r.Ok? ==> SameFifo(l, r.value)
  {
    if l.wait == [] then Panic(FrontOfEmptyQueue)
    else Ok(InsertNext(l.(wait := l.wait[1..], insertPending := false)))
  }

  function TransferWrite(l: Lane): (r: Result<Lane>)
    ensures r.Ok? ==> SameFifo(l, r.value)
  {
    if l.transfer == [] then Panic(FrontOfEmptyQueue)
    else if l.transferPending then Ok(l)
    else Ok(l.(transferPending := true, upstream := true, sent := l.sent + [l.transfer[0]]))
  }

  function DmaWrite(l: Lane, q: Request): (m: Lane)
    requires Sane(l)
    ensures SameFifo(l, m)
  {
    if q.size == 0 then l
    else InsertWrite(l.(wait := l.wait + [Piece(q.addr, q.size, true, 0, q.context)],
                        submitted := l.submitted + [q]))
  }

  function DmaWrites(l: Lane, qs: seq<Request>): (m: Lane)
    requires Sane(l)
    ensures SameFifo(l, m)
    decreases |qs|
  {
    if qs == [] then l else DmaWrite(DmaWrites(l, qs[..|qs| - 1]), qs[|qs| - 1])
  }

  /** The callback of the request that ends here may submit the requests qs before it returns. */
  function TransferWriteDoneNext(l: Lane, qs: seq<Request>): (r: Result<Lane>)
    requires Sane(l)
    ensures r.Ok? ==> SameFifo(l, r.value)
  {
    if l.transfer == [] then Panic(FrontOfEmptyQueue)
    else
      var p := l.transfer[0];
      var called := if p.last then DmaWrites(l, qs) else l;
      if called.transfer == [] then Panic(FrontOfEmptyQueue)
      else
        var next :- NextTransfer(Pop(called));
        Ok(InsertNext(next))
  }

  function Pop(l: Lane): Lane
    requires l.transfer != [] && 0 < l.unit
  {
    var p := l.transfer[0];
    l.(usage := l.usage - Rounded(l.unit, p.size), transferPending := false, transfer := l.transfer[1..],
       done := l.done + [p], completed := l.completed + if p.last then [p.context] else [])
  }

  function NextTransfer(l: Lane): (r: Result<Lane>)
    ensures r.Ok? ==> SameFifo(l, r.value)
  {
    if l.transfer != [] && !l.begin then TransferWrite(l) else Ok(l)
  }

  /** The upstream DMA ends; early says that the downstream insertion is not over yet. */
  function TransferWriteDone(l: Lane, early: bool, qs: seq<Request>): (r: Result<Lane>)
    requires Sane(l)
    ensures r.Ok? ==> SameFifo(l, r.value)
  {
    if l.transfer == [] then Panic(FrontOfEmptyQueue)
    else if early then Ok(l.(submit := true))
    else TransferWriteDoneNext(l, qs)
  }

  // ---- Steps ----

  datatype Step =
    | Submit(q: Request)
    | FireInsertDone
    | FireBegin
    | Upstream(early: bool, qs: seq<Request>)
    | FireSubmit(qs: seq<Request>)

  predicate Enabled(l: Lane, e: Step) {
    match e
    case Submit(_) => true
    case FireInsertDone => l.insertDone
    case FireBegin => l.begin
    case Upstream(_, _) => l.upstream
    case FireSubmit(_) => l.submit
  }

  function Next(l: Lane, e: Step): (r: Result<Lane>)
    requires Sane(l)
    ensures r.Ok? ==> SameFifo(l, r.value)
  {
    match e
    case Submit(q) => Ok(DmaWrite(l, q))
    case FireInsertDone => InsertWriteDone(l.(insertDone := false))
    case FireBegin => TransferWrite(l.(begin := false))
    case Upstream(early, qs) => TransferWriteDone(l.(upstream := false), early, qs)
    case FireSubmit(qs) => TransferWriteDoneNext(l.(submit := false), qs)
  }

  /** The requests that the step hands to the FIFO; those without a byte are ignored. */
  function Arrivals(l: Lane, e: Step): seq<Request> {
    match e
    case Submit(q) => Sized([q])
    case Upstream(early, qs) => if !early && l.transfer != [] && l.transfer[0].last then Sized(qs) else []
    case FireSubmit(qs) => if l.transfer != [] && l.transfer[0].last then Sized(qs) else []
    case _ => []
  }

  /** Steps taken one after the other, each of them enabled when it is taken. */
  predicate Legal(l: Lane, es: seq<Step>)
    requires Sane(l)
    decreases |es|
  {
    es == [] || (Enabled(l, es[0]) && (Next(l, es[0]).Ok? ==> Legal(Next(l, es[0]).value, es[1..])))
  }

  function Run(l: Lane, es: seq<Step>): (r: Result<Lane>)
    requires Sane(l)
    ensures r.Ok? ==> SameFifo(l, r.value)
    decreases |es|
  {
    if es == [] then Ok(l)
    else
      var m :- Next(l, es[0]);
      Run(m, es[1..])
  }

  // ---- Invariant ----

  ghost function Rest(l: Lane): seq<Piece>
    requires l.insertPending ==> l.wait != []
  {
    if l.insertPending then l.wait[1..] else l.wait
  }

  /** Who holds the next wake-up. */
  ghost predicate Wakes(l: Lane) {
    && (l.insertPending <==> l.insertDone)
    && (l.insertPending ==> l.wait != [])
    && (l.transferPending ==> l.transfer != [])
    && (l.begin ==> |l.transfer| >= if l.transferPending then 2 else 1)
    && (!l.begin && !l.transferPending ==> l.transfer == [])
  }

  ghost predicate Fits(l: Lane)
    requires Sane(l)
  {
    && l.usage == SumRounded(l.unit, l.transfer)
    && (l.insertPending && l.wait != [] ==> Rounded(l.unit, l.wait[0].size) <= l.capacity)
  }

  /** While every request fits the FIFO unsplit, so do the waiting pieces, and the usage stays within
      the capacity. */
  ghost predicate Room(l: Lane)
    requires Sane(l)
  {
    (forall q | q in l.submitted :: Rounded(l.unit, q.size) <= l.capacity) ==>
      && l.usage <= l.capacity
      && forall p | p in l.wait :: Rounded(l.unit, p.size) <= l.capacity
  }

  /** A waiting piece is held only by a pending insertion or by a FIFO that has no room for it. */
  ghost predicate Blocked(l: Lane)
    requires Sane(l)
  {
    l.wait != [] && !l.insertPending ==>
      var size := Rounded(l.unit, l.wait[0].size);
      size <= l.capacity && l.usage + size > l.capacity
  }

  /** Every piece, in the order of transfer. */
  ghost function Pipe(l: Lane): seq<Piece>
    requires l.insertPending ==> l.wait != []
  {
    l.done + l.transfer + Rest(l)
  }

  ghost predicate Logs(l: Lane)
    requires l.insertPending ==> l.wait != []
    requires l.transferPending ==> l.transfer != []
  {
    && AllLast(Rest(l))
    && Tiles(Pipe(l), l.submitted)
    && l.completed == Completions(l.done)
    && l.sent == l.done + if l.transferPending then [l.transfer[0]] else []
  }

  /** What holds inside a handler as well. */
  ghost predicate Core(l: Lane) {
    Sane(l) && Wakes(l) && Fits(l) && Room(l) && Logs(l)
  }

  ghost predicate Inv(l: Lane) {
    && Core(l) && Blocked(l)
    && (l.transferPending <==> l.upstream || l.submit)
    && !(l.upstream && l.submit)
  }

  lemma InitInv(unit: nat, capacity: nat)
    requires 0 < unit <= capacity
    ensures Inv(Init(unit, capacity))
  {
  }

  // ---- Preservation ----

  /** What changes between two lanes when pieces are only inserted. */
  ghost predicate Inserted(l: Lane, m: Lane) {
    && m.upstream == l.upstream && m.submit == l.submit && m.transferPending == l.transferPending
    && SameFifo(l, m)
    && m.done == l.done && m.completed == l.completed
  }

  lemma BeginSplitLogs(l: Lane)
    requires Sane(l) && Wakes(l) && Logs(l) && !l.insertPending && l.wait != [] && l.unit < l.wait[0].size
    ensures Logs(BeginInsert(Split(l)))
  {
    hide Tiles, Completions, Rounded, Cut;
    var k := |l.done| + |l.transfer|;
    assert Rest(l)[0].last;
    SplitRest(l);
    CutMiddle(l.done, l.transfer, l.wait, l.unit, l.wait[0].id);
    TilesCut(Pipe(l), l.submitted, k, l.unit, l.wait[0].id);
    hide BeginInsert, Split;
  }

  lemma SplitRest(l: Lane)
    requires Sane(l) && !l.insertPending && l.wait != [] && l.unit < l.wait[0].size
    ensures var m := BeginInsert(Split(l));
      var p := l.wait[0];
      && m.wait != [] && m.insertPending && m.done == l.done && m.transferPending == l.transferPending
      && m.sent == l.sent && m.completed == l.completed && m.submitted == l.submitted
      && m.transfer == l.transfer + [p.(size := l.unit, last := false)]
      && Rest(m) == [p.(addr := p.addr + l.unit, size := p.size - l.unit, last := true)] + l.wait[1..]
  {
    hide Rounded;
  }

  lemma BeginInsertLogs(l: Lane)
    requires Sane(l) && Wakes(l) && Logs(l) && !l.insertPending && l.wait != []
    ensures Logs(BeginInsert(l))
  {
    hide Tiles, Completions, Rounded;
    assert l.wait == [l.wait[0]] + l.wait[1..];
    assert Pipe(BeginInsert(l)) == Pipe(l);
  }

  ghost predicate Entered(l: Lane, m: Lane) {
    Core(m) && Blocked(m) && Inserted(l, m) && m.submitted == l.submitted
  }

  lemma BeginSplitCore(l: Lane)
    requires Core(l) && l.wait != [] && !Held(l) && Rounded(l.unit, l.wait[0].size) > l.capacity
    ensures l.unit <= l.wait[0].size && Entered(l, BeginInsert(Split(l)))
  {
    BeginSplitLogs(l);
    SumAppend(l.unit, l.transfer, Split(l).wait[0]);
    hide Tiles, Completions, SumRounded, Logs, Rounded;
  }

  lemma BeginInsertCore(l: Lane)
    requires Core(l) && l.wait != [] && !Held(l) && Rounded(l.unit, l.wait[0].size) <= l.capacity
    ensures Entered(l, BeginInsert(l))
  {
    hide Tiles, Completions, SumRounded, Logs, Rounded;
    BeginInsertLogs(l);
    SumAppend(l.unit, l.transfer, l.wait[0]);
  }

  lemma InsertWriteCore(l: Lane)
    requires Core(l) && l.wait != []
    ensures Entered(l, InsertWrite(l))
  {
    hide Tiles, Completions, SumRounded, Rounded, Logs, BeginInsert, Split;
    if !Held(l) {
      if Rounded(l.unit, l.wait[0].size) > l.capacity {
        BeginSplitCore(l);
      } else {
        BeginInsertCore(l);
      }
    }
  }

  lemma InsertNextCore(l: Lane)
    requires Core(l)
    ensures Entered(l, InsertNext(l))
  {
    if l.wait != [] {
      InsertWriteCore(l);
    }
  }

  lemma ArriveLogs(l: Lane, q: Request)
    requires Sane(l) && Wakes(l) && Logs(l) && 0 < q.size
    ensures var p := Piece(q.addr, q.size, true, 0, q.context);
      Logs(l.(wait := l.wait + [p], submitted := l.submitted + [q]))
  {
    hide Tiles, Completions;
    var p := Piece(q.addr, q.size, true, 0, q.context);
    var m := l.(wait := l.wait + [p], submitted := l.submitted + [q]);
    assert Rest(m) == Rest(l) + [p];
    assert Pipe(m) == Pipe(l) + [p];
    TilesSubmit(Pipe(l), l.submitted, p);
  }

  lemma DmaWriteCore(l: Lane, q: Request)
    requires Core(l) && Blocked(l)
    ensures var m := DmaWrite(l, q); Core(m) && Blocked(m) && Inserted(l, m)
    ensures DmaWrite(l, q).submitted == if q.size == 0 then l.submitted else l.submitted + [q]
  {
    hide Tiles, Completions, SumRounded, Logs, Rounded, InsertWrite;
    if q.size > 0 {
      ArriveLogs(l, q);
      InsertWriteCore(l.(wait := l.wait + [Piece(q.addr, q.size, true, 0, q.context)],
                         submitted := l.submitted + [q]));
    }
  }

  lemma {:induction false} DmaWritesCore(l: Lane, qs: seq<Request>)
    requires Sane(l) && Core(l) && Blocked(l)
    ensures var m := DmaWrites(l, qs); Core(m) && Blocked(m) && Inserted(l, m)
    decreases |qs|
  {
    hide Core, Blocked, DmaWrite;
    if qs != [] {
      DmaWritesCore(l, qs[..|qs| - 1]);
      DmaWriteCore(DmaWrites(l, qs[..|qs| - 1]), qs[|qs| - 1]);
    }
  }

  lemma {:induction false} DmaWritesSubmitted(l: Lane, qs: seq<Request>)
    requires Sane(l)
    ensures DmaWrites(l, qs).submitted == l.submitted + Sized(qs)
    decreases |qs|
  {
    hide Rounded;
    if qs != [] {
      DmaWritesSubmitted(l, qs[..|qs| - 1]);
    }
  }

  /** The front of the transfer queue moves to the pieces that are done. */
  lemma FrontDone(done: seq<Piece>, transfer: seq<Piece>, rest: seq<Piece>)
    requires transfer != []
    ensures (done + [transfer[0]]) + transfer[1..] == done + transfer
    ensures (done + [transfer[0]]) + transfer[1..] + rest == done + transfer + rest
    ensures Completions(done + [transfer[0]]) == Completions(done) + if transfer[0].last then [transfer[0].context] else []
  {
    assert transfer == [transfer[0]] + transfer[1..];
    assert (done + [transfer[0]])[..|done|] == done;
  }

  lemma PopLogs(l: Lane)
    requires Sane(l) && Wakes(l) && Logs(l) && l.transferPending
    ensures Logs(Pop(l))
  {
    hide Tiles, Rounded, Completions;
    FrontDone(l.done, l.transfer, Rest(l));
  }

  lemma NextTransferLogs(l: Lane)
    requires (l.insertPending ==> l.wait != []) && !l.transferPending && Logs(l)
    ensures NextTransfer(l).Ok?
    ensures var m := NextTransfer(l).value; (m.transferPending ==> m.transfer != []) && Logs(m)
  {
    hide Tiles, Rounded, Completions;
    assert Pipe(NextTransfer(l).value) == Pipe(l);
  }

  lemma PopTransferCore(l: Lane)
    requires Core(l) && l.transferPending
    ensures NextTransfer(Pop(l)).Ok? && Core(NextTransfer(Pop(l)).value)
    ensures var m := NextTransfer(Pop(l)).value;
      m.upstream == (l.upstream || m.transferPending) && m.submit == l.submit && m.submitted == l.submitted
  {
    hide Tiles, Completions, Logs, Rounded;
    PopLogs(l);
    NextTransferLogs(Pop(l));
  }

  lemma EventTaken(l: Lane)
    requires Core(l) && Blocked(l)
    ensures Core(l.(upstream := false)) && Blocked(l.(upstream := false))
    ensures Core(l.(submit := false)) && Blocked(l.(submit := false))
  {
    hide Tiles, Completions, SumRounded, Rounded;
    assert Pipe(l.(upstream := false)) == Pipe(l) == Pipe(l.(submit := false));
  }

  lemma InsertedCore(l: Lane)
    requires Core(l) && l.insertPending
    ensures Core(l.(insertDone := false, wait := l.wait[1..], insertPending := false))
  {
    hide Tiles, Completions, SumRounded, Rounded;
    assert Pipe(l.(insertDone := false, wait := l.wait[1..], insertPending := false)) == Pipe(l);
  }

  lemma DoneNextInv(l: Lane, qs: seq<Request>)
    requires Core(l) && Blocked(l) && l.transferPending && !l.upstream && !l.submit
    ensures TransferWriteDoneNext(l, qs).Ok? && Inv(TransferWriteDoneNext(l, qs).value)
    ensures TransferWriteDoneNext(l, qs).value.submitted == l.submitted + if l.transfer[0].last then Sized(qs) else []
  {
    hide Tiles, Completions, SumRounded, Logs, Fits, Rounded;
    DmaWritesCore(l, qs);
    DmaWritesSubmitted(l, qs);
    var called := if l.transfer[0].last then DmaWrites(l, qs) else l;
    PopTransferCore(called);
    InsertNextCore(NextTransfer(Pop(called)).value);
  }

  /** r is a lane that keeps the invariant, with the requests qs submitted since l. */
  ghost predicate Sound(l: Lane, r: Result<Lane>, qs: seq<Request>) {
    r.Ok? && Inv(r.value) && r.value.submitted == l.submitted + qs
  }

  lemma SubmitInv(l: Lane, q: Request)
    requires Inv(l)
    ensures Sound(l, Ok(DmaWrite(l, q)), Sized([q]))
  {
    hide Tiles, Completions, SumRounded, Rounded, Logs, Fits, Pipe;
    DmaWriteCore(l, q);
    assert [q][..0] == [];
  }

  lemma InsertDoneInv(l: Lane)
    requires Inv(l) && l.insertDone
    ensures Sound(l, InsertWriteDone(l.(insertDone := false)), [])
  {
    hide Tiles, Completions, SumRounded, Rounded, Logs, Fits, Pipe;
    InsertedCore(l);
    InsertNextCore(l.(insertDone := false, wait := l.wait[1..], insertPending := false));
  }

  lemma BeginInv(l: Lane)
    requires Inv(l) && l.begin
    ensures Sound(l, TransferWrite(l.(begin := false)), [])
  {
    hide Tiles, Completions, SumRounded, Rounded;
  }

  lemma UpstreamInv(l: Lane, early: bool, qs: seq<Request>)
    requires Inv(l) && l.upstream
    ensures Sound(l, TransferWriteDone(l.(upstream := false), early, qs), Arrivals(l, Upstream(early, qs)))
  {
    hide Tiles, Completions, SumRounded, Rounded, Sized, TransferWriteDoneNext;
    EventTaken(l);
    if !early {
      hide Core, Blocked;
      Transferring(l);
      DoneNextInv(l.(upstream := false), qs);
    }
  }

  lemma FireSubmitInv(l: Lane, qs: seq<Request>)
    requires Inv(l) && l.submit
    ensures Sound(l, TransferWriteDoneNext(l.(submit := false), qs), Arrivals(l, FireSubmit(qs)))
  {
    hide Core, Blocked, Sized, TransferWriteDoneNext;
    EventTaken(l);
    Transferring(l);
    DoneNextInv(l.(submit := false), qs);
  }

  lemma Transferring(l: Lane)
    requires Core(l) && l.transferPending
    ensures Sane(l) && l.transfer != []
  {
  }

  /** No enabled step meets an empty queue, and every step keeps the invariant. */
  lemma StepInv(l: Lane, e: Step)
    requires Inv(l) && Enabled(l, e)
    ensures Next(l, e).Ok? && Inv(Next(l, e).value)
    ensures Next(l, e).value.submitted == l.submitted + Arrivals(l, e)
  {
    hide Inv, DmaWrite, InsertWriteDone, TransferWrite, TransferWriteDone, TransferWriteDoneNext, Sized;
    match e
    case Submit(q) => SubmitInv(l, q);
    case FireInsertDone => InsertDoneInv(l);
    case FireBegin => BeginInv(l);
    case Upstream(early, qs) => UpstreamInv(l, early, qs);
    case FireSubmit(qs) => FireSubmitInv(l, qs);
  }

  // ---- Whole runs ----

  ghost predicate Unfinished(l: Lane) {
    l.wait != [] || l.transfer != []
  }

  ghost predicate SomethingScheduled(l: Lane) {
    l.insertDone || l.begin || l.submit || l.upstream
  }

  lemma NoLostWakeUp(l: Lane)
    requires Inv(l)
    ensures Unfinished(l) ==> SomethingScheduled(l)
    ensures l.begin ==> l.transfer != []
  {
    hide Logs;
    if l.transfer == [] {
      assert SumRounded(l.unit, l.transfer) == 0;
    }
  }

  /** What an observer can rely on after any run. */
  ghost predicate Delivers(l: Lane)
    requires Sane(l)
  {
    && (Unfinished(l) ==> SomethingScheduled(l))
    && l.completed <= Contexts(l.submitted)
    && (exists tail :: Tiles(l.sent + tail, l.submitted))
    && l.usage == SumRounded(l.unit, l.transfer)
    && ((forall q | q in l.submitted :: Rounded(l.unit, q.size) <= l.capacity) ==> l.usage <= l.capacity)
    && (!SomethingScheduled(l) ==> l.usage == 0 && l.completed == Contexts(l.submitted) && Tiles(l.sent, l.submitted))
  }

  lemma PipeDelivers(l: Lane)
    requires Sane(l) && Wakes(l) && Logs(l)
    ensures l.completed <= Contexts(l.submitted) && l.sent <= Pipe(l)
    ensures l.wait == [] && l.transfer == [] ==> l.completed == Contexts(l.submitted) && l.sent == Pipe(l)
  {
    hide Tiles, Contexts, Completions, Rounded, AllLast;
    if l.wait == [] && l.transfer == [] {
      assert Pipe(l) == l.done;
    }
    TilesComplete(Pipe(l), l.submitted);
    CompletionsConcat(l.done, l.transfer + Rest(l));
    assert Pipe(l) == l.done + (l.transfer + Rest(l));
    if l.transferPending {
      assert l.transfer[..1] == [l.transfer[0]] && l.done + l.transfer[..1] <= l.done + l.transfer;
    }
  }

  lemma InvDelivers(l: Lane)
    requires Inv(l)
    ensures Delivers(l)
  {
    hide Tiles, Completions, Contexts, Rounded, Blocked;
    NoLostWakeUp(l);
    PipeDelivers(l);
    var tail := Pipe(l)[|l.sent|..];
    assert l.sent + tail == Pipe(l);
  }

  /** No run of the write direction meets an empty queue.  After any run, the requests completed so
      far are the oldest ones, each once and in order; the pieces sent upstream are the beginning of
      an exact tiling; and once nothing is scheduled, all is done. */
  lemma {:induction false} WriteRun(l: Lane, es: seq<Step>)
    requires Inv(l) && Legal(l, es)
    ensures Run(l, es).Ok? && Inv(Run(l, es).value) && Delivers(Run(l, es).value)
    ensures l.submitted <= Run(l, es).value.submitted
    decreases |es|
  {
    hide Inv, Delivers, Enabled, Next, Arrivals;
    if es == [] {
      InvDelivers(l);
    } else {
      InvSane(l);
      StepInv(l, es[0]);
      WriteRun(Next(l, es[0]).value, es[1..]);
    }
  }

  lemma InvSane(l: Lane)
    requires Inv(l)
    ensures Sane(l)
  {
  }

  // ---- Draining ----

  ghost function Flag(b: bool): nat { if b then 1 else 0 }

  ghost function Measure(l: Lane): int
    requires l.insertPending ==> l.wait != []
  {
    6 * Bytes(Rest(l)) + 3 * |l.transfer| + Flag(l.begin) + Flag(l.insertDone) - Flag(l.upstream) - 2 * Flag(l.submit)
  }

  lemma SplitMeasure(l: Lane)
    requires l.wait != [] && 0 < l.unit <= l.wait[0].size && !l.insertPending
    ensures BeginInsert(Split(l)).wait != [] && Measure(BeginInsert(Split(l))) <= Measure(l)
  {
    hide Rounded;
    assert Rest(BeginInsert(Split(l)))[1..] == l.wait[1..];
  }

  lemma BeginMeasure(l: Lane)
    requires l.wait != [] && 0 < l.unit && 0 < l.wait[0].size && !l.insertPending
    ensures BeginInsert(l).wait != [] && Measure(BeginInsert(l)) <= Measure(l)
  {
    hide Rounded;
    assert Rest(BeginInsert(l)) == l.wait[1..];
  }

  lemma InsertNextMeasure(l: Lane)
    requires Core(l)
    ensures var m := InsertNext(l); (m.insertPending ==> m.wait != []) && Measure(m) <= Measure(l)
  {
    hide Tiles, Completions, SumRounded, Pipe, Room, Measure, BeginInsert, Split;
    if l.wait != [] && !Held(l) {
      assert Rest(l)[0] == l.wait[0];
      if Rounded(l.unit, l.wait[0].size) > l.capacity {
        SplitMeasure(l);
      } else {
        BeginMeasure(l);
      }
    }
  }

  /** A step that brings no request, and whose callback brings none, uses up some of the measure. */
  lemma DoneNextMeasure(l: Lane)
    requires Core(l) && l.transferPending && !l.upstream && !l.submit
    ensures TransferWriteDoneNext(l, []).Ok?
    ensures var m := TransferWriteDoneNext(l, []).value;
      (m.insertPending ==> m.wait != []) && Measure(m) <= Measure(l) - 3
  {
    hide Tiles, Completions, SumRounded, Rounded, Logs, Fits, InsertNext;
    PopTransferCore(l);
    InsertNextMeasure(NextTransfer(Pop(l)).value);
  }

  /** r is a lane that is closer to its end than l. */
  ghost predicate Closer(l: Lane, r: Result<Lane>)
    requires l.insertPending ==> l.wait != []
  {
    r.Ok? && (r.value.insertPending ==> r.value.wait != []) && Measure(r.value) < Measure(l)
  }

  lemma InsertDoneMeasure(l: Lane)
    requires Inv(l) && l.insertDone
    ensures Closer(l, InsertWriteDone(l.(insertDone := false)))
  {
    hide Tiles, Completions, SumRounded, Rounded, Fits, Blocked, InsertNext, Logs;
    InsertedCore(l);
    InsertNextMeasure(l.(insertDone := false, wait := l.wait[1..], insertPending := false));
  }

  lemma TransferMeasure(l: Lane)
    requires Inv(l) && l.begin
    ensures Closer(l, TransferWrite(l.(begin := false)))
  {
    hide Tiles, Completions, SumRounded, Rounded, Fits, Blocked, Logs;
  }

  lemma UpstreamMeasure(l: Lane, early: bool)
    requires Inv(l) && l.upstream
    ensures Closer(l, TransferWriteDone(l.(upstream := false), early, []))
  {
    hide Tiles, Completions, SumRounded, Rounded, Fits, Blocked, Logs, TransferWriteDoneNext;
    EventTaken(l);
    if !early {
      DoneNextMeasure(l.(upstream := false));
    }
  }

  lemma FireSubmitMeasure(l: Lane)
    requires Inv(l) && l.submit
    ensures Closer(l, TransferWriteDoneNext(l.(submit := false), []))
  {
    hide Tiles, Completions, SumRounded, Rounded, Fits, Blocked, Logs, TransferWriteDoneNext;
    EventTaken(l);
    DoneNextMeasure(l.(submit := false));
  }

  lemma StepMeasure(l: Lane, e: Step)
    requires Inv(l) && Enabled(l, e) && Silent(e)
    ensures Next(l, e).Ok? && Inv(Next(l, e).value) && 0 <= Measure(Next(l, e).value) < Measure(l)
  {
    hide Core, Blocked, InsertWriteDone, TransferWrite, TransferWriteDone, TransferWriteDoneNext, Measure;
    StepInv(l, e);
    InvSane(l);
    MeasurePositive(Next(l, e).value);
    match e
    case FireInsertDone => InsertDoneMeasure(l);
    case FireBegin => TransferMeasure(l);
    case Upstream(early, qs) => UpstreamMeasure(l, early);
    case FireSubmit(qs) => FireSubmitMeasure(l);
  }

  lemma MeasurePositive(l: Lane)
    requires Inv(l)
    ensures (l.insertPending ==> l.wait != []) && 0 <= Measure(l)
  {
    hide Tiles, Completions, SumRounded, Rounded, Fits, Blocked, Logs;
  }

  ghost predicate Silent(e: Step) {
    match e
    case Submit(_) => false
    case Upstream(_, qs) => qs == []
    case FireSubmit(qs) => qs == []
    case _ => true
  }

  /** Without new requests the lane stops after a bounded number of steps.  So whatever the order of
      the events, every submitted request is completed. */
  lemma {:induction false} Drains(l: Lane, es: seq<Step>)
    requires Inv(l) && Legal(l, es) && forall i :: 0 <= i < |es| ==> Silent(es[i])
    ensures |es| <= Measure(l)
    decreases |es|
  {
    hide Inv, Enabled, Next, Measure, Silent;
    if es == [] {
      MeasureNat(l);
    } else {
      InvSane(l);
      StepMeasure(l, es[0]);
      Drains(Next(l, es[0]).value, es[1..]);
    }
  }

  lemma MeasureNat(l: Lane)
    requires Inv(l)
    ensures 0 <= Measure(l)
  {
  }

  // ---- Capacity ----

  /** An insertion takes the usage above the capacity exactly when it splits a piece while less than
      one unit is free. */
  lemma OverCapacityExactly(l: Lane)
    requires Core(l) && l.wait != [] && l.usage <= l.capacity
    ensures InsertWrite(l).usage > l.capacity
      <==> Rounded(l.unit, l.wait[0].size) > l.capacity && l.usage + l.unit > l.capacity
  {
    hide Logs, SumRounded;
  }

  /** Split requests overrun it: a request of four units, in a FIFO of one unit. */
  lemma SplitOverruns()
    ensures var l := DmaWrite(Init(4, 4), Request(0, 16, 0));
      Inv(l) && Enabled(l, FireInsertDone) && Next(l, FireInsertDone).value.usage == 8 > l.capacity
  {
    InitInv(4, 4);
    StepInv(Init(4, 4), Submit(Request(0, 16, 0)));
  }
}
