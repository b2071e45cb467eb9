/** The two directions of the DMA FIFO (util/fifo.cc) as objects that their handlers change in place.
    Every handler is proved against FifoWrite or FifoRead, whose invariant Valid() states. */
module FifoObject {
  import opened Outcome
  import opened DmaPieces
  import W = FifoWrite
  import R = FifoRead

  class WriteQueue {
    const unit: nat
    const capacity: nat
    var usage: int
    var wait: seq<Piece>
    var transfer: seq<Piece>
    var insertPending: bool
    var transferPending: bool
    var insertDoneScheduled: bool
    var beginScheduled: bool
    var submitScheduled: bool
    var upstream: bool
    ghost var submitted: seq<Request>
    ghost var sent: seq<Piece>
    ghost var done: seq<Piece>
    ghost var completed: seq<nat>

    ghost function State(): W.Lane
      reads this
    {
      W.Lane(unit, capacity, usage, wait, transfer, insertPending, transferPending, insertDoneScheduled,
             beginScheduled, submitScheduled, upstream, submitted, sent, done, completed)
    }

    ghost predicate Valid()
      reads this
    {
      W.Inv(State())
    }

    constructor (unit: nat, capacity: nat)
      requires 0 < unit <= capacity
      ensures Valid() && State() == W.Init(unit, capacity)
    {
      this.unit, this.capacity := unit, capacity;
      usage, wait, transfer := 0, [], [];
      insertPending, transferPending := false, false;
      insertDoneScheduled, beginScheduled, submitScheduled, upstream := false, false, false, false;
      submitted, sent, done, completed := [], [], [], [];
      new;
      W.InitInv(unit, capacity);
    }

    method SplitFront()
      requires wait != [] && unit <= wait[0].size
      modifies this
      ensures State() == W.Split(old(State())) && wait != [] && transfer == old(transfer)
    {
      var p := wait[0];
      var copy := p.(last := true, addr := p.addr + unit, size := p.size - unit);
      wait := [p.(last := false, size := unit), copy] + wait[1..];
    }

    method StartFront(size: nat)
      requires wait != [] && 0 < unit && size == Rounded(unit, wait[0].size)
      modifies this
      ensures State() == W.BeginInsert(old(State())) && old(transfer) <= transfer
    {
      hide Rounded;
      insertPending := true;
      usage := usage + size;
      insertDoneScheduled := true;
      if !beginScheduled {
        beginScheduled := true;
      }
      transfer := transfer + [wait[0]];
    }

    method InsertWrite()
      requires W.Sane(State()) && wait != []
      modifies this
      ensures State() == W.InsertWrite(old(State())) && old(transfer) <= transfer
    {
      hide W.Split, W.BeginInsert;
      var size := Rounded(unit, wait[0].size);
      if (insertPending || usage + size > capacity) && size <= capacity {
        return;
      }
      if size > capacity {
        SplitFront();
        size := Rounded(unit, wait[0].size);
      }
      StartFront(size);
    }

    method InsertWriteDone()
      requires Valid() && insertDoneScheduled
      modifies this
      ensures Valid() && W.Next(old(State()), W.FireInsertDone) == Ok(State())
    {
      hide W.Inv, W.InsertWrite;
      W.StepInv(State(), W.FireInsertDone);
      W.InvSane(State());
      insertDoneScheduled := false;
      wait := wait[1..];
      insertPending := false;
      if |wait| > 0 {
        InsertWrite();
      }
    }

    method TransferWrite()
      requires transfer != []
      modifies this
      ensures W.TransferWrite(old(State())) == Ok(State())
    {
      if transferPending {
        return;
      }
      transferPending := true;
      upstream := true;
      sent := sent + [transfer[0]];
    }

    method BeginTransfer()
      requires Valid() && beginScheduled
      modifies this
      ensures Valid() && W.Next(old(State()), W.FireBegin) == Ok(State())
    {
      hide W.Inv;
      W.StepInv(State(), W.FireBegin);
      beginScheduled := false;
      TransferWrite();
    }

    method DmaWrite(q: Request)
      requires W.Sane(State())
      modifies this
      ensures State() == W.DmaWrite(old(State()), q) && old(transfer) <= transfer
    {
      if q.size == 0 {
        return;
      }
      wait := wait + [Piece(q.addr, q.size, true, 0, q.context)];
      submitted := submitted + [q];
      InsertWrite();
    }

    /** A new request, from outside any handler. */
    method Submit(q: Request)
      requires Valid()
      modifies this
      ensures Valid() && W.Next(old(State()), W.Submit(q)) == Ok(State())
    {
      hide W.Core, W.Blocked;
      W.StepInv(State(), W.Submit(q));
      W.InvSane(State());
      DmaWrite(q);
    }

    /** The requests that a callback submits before it returns. */
    method CallBack(qs: seq<Request>)
      requires W.Sane(State())
      modifies this
      ensures State() == W.DmaWrites(old(State()), qs) && old(transfer) <= transfer
    {
      hide W.DmaWrite, Rounded;
      ghost var start := State();
      for i := 0 to |qs|
        invariant State() == W.DmaWrites(start, qs[..i]) && start.transfer <= transfer
      {
        assert qs[..i + 1][..i] == qs[..i];
        DmaWrite(qs[i]);
      }
      assert qs[..|qs|] == qs;
    }

    method PopFront()
      requires transfer != [] && 0 < unit
      modifies this
      ensures State() == W.Pop(old(State()))
    {
      hide Rounded;
      var p := transfer[0];
      if p.last {
        completed := completed + [p.context];
      }
      done := done + [p];
      usage := usage - Rounded(unit, p.size);
      transferPending := false;
      transfer := transfer[1..];
    }

    method TransferWriteDoneNext(qs: seq<Request>)
      requires W.Sane(State()) && W.TransferWriteDoneNext(State(), qs).Ok?
      modifies this
      ensures W.TransferWriteDoneNext(old(State()), qs) == Ok(State())
    {
      hide W.InsertWrite, W.DmaWrites, W.Pop, Rounded;
      var p := transfer[0];
      if p.last {
        CallBack(qs);
        assert transfer[0] == p;
      }
      ghost var called := State();
      PopFront();
      if |transfer| > 0 {
        if !beginScheduled {
          TransferWrite();
        }
      }
      assert W.NextTransfer(W.Pop(called)) == Ok(State());
      hide W.NextTransfer;
      if |wait| > 0 {
        InsertWrite();
      }
    }

    method TransferWriteDone(early: bool, qs: seq<Request>)
      requires Valid() && upstream
      modifies this
      ensures Valid() && W.Next(old(State()), W.Upstream(early, qs)) == Ok(State())
    {
      hide W.Inv, W.TransferWriteDoneNext;
      W.StepInv(State(), W.Upstream(early, qs));
      W.InvSane(State());
      upstream := false;
      if !early {
        TransferWriteDoneNext(qs);
      } else {
        submitScheduled := true;
      }
    }

    method SubmitCompletion(qs: seq<Request>)
      requires Valid() && submitScheduled
      modifies this
      ensures Valid() && W.Next(old(State()), W.FireSubmit(qs)) == Ok(State())
    {
      hide W.Inv, W.TransferWriteDoneNext;
      W.StepInv(State(), W.FireSubmit(qs));
      W.InvSane(State());
      submitScheduled := false;
      TransferWriteDoneNext(qs);
    }
  }

  class ReadQueue {
    const unit: nat
    const capacity: nat
    var usage: int
    var wait: seq<Piece>
    var transfer: seq<Piece>
    var insertPending: bool
    var transferPending: bool
    var counter: nat
    var readCompletion: seq<nat>
    var insertDoneScheduled: bool
    var beginScheduled: bool
    var submitScheduled: bool
    var upstream: bool
    ghost var submitted: seq<Request>
    ghost var sent: seq<Piece>
    ghost var done: seq<Piece>
    ghost var completed: seq<nat>
    ghost var received: nat
    ghost var inserted: nat

    ghost function State(): R.Lane
      reads this
    {
      R.Lane(unit, capacity, usage, wait, transfer, insertPending, transferPending, counter, readCompletion,
             insertDoneScheduled, beginScheduled, submitScheduled, upstream,
             submitted, sent, done, completed, received, inserted)
    }

    ghost predicate Valid()
      reads this
    {
      R.Inv(State())
    }

    constructor (unit: nat, capacity: nat)
      requires 0 < unit <= capacity
      ensures Valid() && State() == R.Init(unit, capacity)
    {
      this.unit, this.capacity := unit, capacity;
      usage, wait, transfer, counter, readCompletion := 0, [], [], 0, [];
      insertPending, transferPending := false, false;
      insertDoneScheduled, beginScheduled, submitScheduled, upstream := false, false, false, false;
      submitted, sent, done, completed, received, inserted := [], [], [], [], 0, 0;
      new;
      R.InitInv(unit, capacity);
    }

    method SplitFront()
      requires wait != [] && unit <= wait[0].size
      modifies this
      ensures State() == R.Split(old(State())) && wait != [] && transfer == old(transfer)
    {
      var p := wait[0];
      var copy := p.(last := true, addr := p.addr + unit, size := p.size - unit);
      wait := [p.(last := false, size := unit), copy] + wait[1..];
    }

    method NumberFront()
      requires wait != []
      modifies this
      ensures State() == R.Numbered(old(State())) && wait != [] && transfer == old(transfer)
      ensures wait[0].size == old(wait)[0].size
    {
      wait := [wait[0].(id := counter)] + wait[1..];
      counter := counter + 1;
    }

    method StartFront(size: nat)
      requires wait != [] && 0 < unit && size == Rounded(unit, wait[0].size)
      modifies this
      ensures State() == R.Requested(old(State())) && old(transfer) <= transfer
    {
      hide Rounded;
      ghost var s := State();
      Reserve(size);
      assert State() == s.(transferPending := true, usage := s.usage + size, upstream := true);
      AppendFront();
    }

    method Reserve(size: nat)
      modifies this`transferPending, this`usage, this`upstream
      ensures State() == old(State()).(transferPending := true, usage := old(usage) + size, upstream := true)
    {
      transferPending := true;
      usage := usage + size;
      upstream := true;
    }

    method AppendFront()
      requires wait != []
      modifies this`sent, this`beginScheduled, this`transfer
      ensures State() == old(State()).(sent := old(sent) + [wait[0]], begin := true,
                                       transfer := old(transfer) + [wait[0]])
    {
      sent := sent + [wait[0]];
      if !beginScheduled {
        beginScheduled := true;
      }
      transfer := transfer + [wait[0]];
    }

    method TransferRead()
      requires R.Sane(State()) && wait != []
      modifies this
      ensures State() == R.TransferRead(old(State())) && old(transfer) <= transfer
    {
      hide R.Split, R.Numbered, R.Requested;
      var size := Rounded(unit, wait[0].size);
      if (transferPending || usage + size > capacity) && size <= capacity {
        return;
      }
      if size > capacity {
        SplitFront();
        size := Rounded(unit, wait[0].size);
      }
      NumberFront();
      StartFront(size);
    }

    method DmaRead(q: Request)
      requires R.Sane(State())
      modifies this
      ensures State() == R.DmaRead(old(State()), q) && old(transfer) <= transfer
    {
      if q.size == 0 {
        return;
      }
      wait := wait + [Piece(q.addr, q.size, true, 0, q.context)];
      submitted := submitted + [q];
      TransferRead();
    }

    /** A new request, from outside any handler. */
    method Submit(q: Request)
      requires Valid()
      modifies this
      ensures Valid() && R.Next(old(State()), R.Submit(q)) == Ok(State())
    {
      hide R.Core, R.Blocked, R.Sides;
      R.StepInv(State(), R.Submit(q));
      R.InvSane(State());
      DmaRead(q);
    }

    method InsertRead()
      requires transfer != []
      modifies this
      ensures R.InsertRead(old(State())) == Ok(State())
    {
      if insertPending {
        return;
      }
      insertPending := true;
      if !insertDoneScheduled {
        insertDoneScheduled := true;
      }
    }

    method BeginTransfer()
      requires Valid() && beginScheduled
      modifies this
      ensures Valid() && R.Next(old(State()), R.FireBegin) == Ok(State())
    {
      hide R.Inv;
      R.StepInv(State(), R.FireBegin);
      beginScheduled := false;
      InsertRead();
    }

    /** The requests that a callback submits before it returns. */
    method CallBack(qs: seq<Request>)
      requires R.Sane(State())
      modifies this
      ensures State() == R.DmaReads(old(State()), qs) && old(transfer) <= transfer
    {
      hide R.DmaRead, Rounded;
      ghost var start := State();
      for i := 0 to |qs|
        invariant State() == R.DmaReads(start, qs[..i]) && start.transfer <= transfer
      {
        assert qs[..i + 1][..i] == qs[..i];
        DmaRead(qs[i]);
      }
      assert qs[..|qs|] == qs;
    }

    method PopFront()
      requires transfer != [] && 0 < unit
      modifies this
      ensures State() == R.Pop(old(State()))
    {
      hide Rounded;
      ghost var s := State();
      Finish();
      assert State() == s.(completed := s.completed + if s.transfer[0].last then [s.transfer[0].context] else [],
                           done := s.done + [s.transfer[0]]);
      var size := Rounded(unit, transfer[0].size);
      ReleaseFront(size);
    }

    /** The front request of the transfer queue is counted as done. */
    ghost method Finish()
      requires transfer != []
      modifies this`completed, this`done
      ensures State() == old(State()).(
        completed := old(completed) + if transfer[0].last then [transfer[0].context] else [],
        done := old(done) + [transfer[0]])
    {
      if transfer[0].last {
        completed := completed + [transfer[0].context];
      }
      done := done + [transfer[0]];
    }

    method ReleaseFront(size: nat)
      requires transfer != []
      modifies this`usage, this`insertPending, this`transfer
      ensures State() == old(State()).(usage := old(usage) - size, insertPending := false, transfer := old(transfer)[1..])
    {
      usage := usage - size;
      insertPending := false;
      transfer := transfer[1..];
    }

    method InsertReadDoneNext(qs: seq<Request>)
      requires R.Sane(State()) && R.InsertReadDoneNext(State(), qs).Ok?
      modifies this
      ensures R.InsertReadDoneNext(old(State()), qs) == Ok(State())
    {
      hide R.TransferRead, R.DmaReads, R.Pop, Rounded;
      var p := transfer[0];
      if p.last {
        CallBack(qs);
        assert transfer[0] == p;
      }
      ghost var called := State();
      PopFront();
      if |transfer| > 0 {
        if !beginScheduled {
          InsertRead();
        }
      }
      ghost var next := State();
      assert R.NextInsert(R.Pop(called)) == Ok(next);
      hide R.NextInsert, R.InsertRead;
      if |wait| > 0 {
        TransferRead();
      }
    }

    /** find and erase: the position of the entry with this id, or the length */
    method Find(id: nat) returns (k: nat)
      ensures k <= |readCompletion| && (k < |readCompletion| <==> id in readCompletion)
      ensures k < |readCompletion| ==>
        readCompletion[..k] + readCompletion[k + 1..] == R.Without(readCompletion, id)
    {
      k := 0;
      while k < |readCompletion| && readCompletion[k] != id
        invariant k <= |readCompletion|
        invariant id !in readCompletion[..k]
      {
        k := k + 1;
      }
      if k < |readCompletion| {
        WithoutAt(readCompletion, id, k);
      }
    }

    method SideDone(id: nat, early: bool, qs: seq<Request>)
      requires R.Sane(State()) && R.SideDone(State(), id, early, qs).Ok?
      modifies this
      ensures R.SideDone(old(State()), id, early, qs) == Ok(State())
    {
      hide R.InsertReadDoneNext;
      var k := Find(id);
      if k == |readCompletion| {
        readCompletion := readCompletion + [id];
      } else {
        ghost var before := readCompletion;
        if early {
          submitScheduled := true;
        } else {
          KeepsHalf(State(), qs);
          InsertReadDoneNext(qs);
        }
        assert readCompletion == before;
        readCompletion := readCompletion[..k] + readCompletion[k + 1..];
      }
    }

    method InsertReadDone(early: bool, qs: seq<Request>)
      requires Valid() && insertDoneScheduled
      modifies this
      ensures Valid() && R.Next(old(State()), R.FireInsertDone(early, qs)) == Ok(State())
    {
      hide R.Inv, R.SideDone;
      R.StepInv(State(), R.FireInsertDone(early, qs));
      R.InvSane(State());
      insertDoneScheduled := false;
      inserted := inserted + 1;
      SideDone(transfer[0].id, early, qs);
    }

    method Receive()
      requires wait != []
      modifies this
      ensures State() == R.Received(old(State()))
    {
      wait := wait[1..];
      transferPending := false;
      received := received + 1;
    }

    method TransferReadDone(early: bool, qs: seq<Request>)
      requires Valid() && upstream
      modifies this
      ensures Valid() && R.Next(old(State()), R.Upstream(early, qs)) == Ok(State())
    {
      hide R.Inv, R.TransferReadDone;
      R.StepInv(State(), R.Upstream(early, qs));
      R.InvSane(State());
      upstream := false;
      EndTransfer(early, qs);
    }

    method EndTransfer(early: bool, qs: seq<Request>)
      requires R.Sane(State()) && R.TransferReadDone(State(), early, qs).Ok?
      modifies this
      ensures R.TransferReadDone(old(State()), early, qs) == Ok(State())
    {
      hide R.SideDone, R.TransferRead, R.Received;
      SideDone(wait[0].id, early, qs);
      ghost var m := State();
      Receive();
      assert State() == R.Received(m);
      if |wait| > 0 {
        TransferRead();
      }
    }

    method SubmitCompletion(qs: seq<Request>)
      requires Valid() && submitScheduled
      modifies this
      ensures Valid() && R.Next(old(State()), R.FireSubmit(qs)) == Ok(State())
    {
      hide R.Inv, R.InsertReadDoneNext;
      R.StepInv(State(), R.FireSubmit(qs));
      R.InvSane(State());
      submitScheduled := false;
      InsertReadDoneNext(qs);
    }
  }

  lemma {:induction false} WithoutAt(s: seq<nat>, id: nat, k: nat)
    requires k < |s| && s[k] == id && id !in s[..k]
    ensures s[..k] + s[k + 1..] == R.Without(s, id)
  {
    if k > 0 {
      assert s[0] == s[..k][0] && s[1..][..k - 1] == s[..k][1..];
      WithoutAt(s[1..], id, k - 1);
    }
  }

  /** Ending a piece does not touch the list of half-done pieces. */
  lemma KeepsHalf(l: R.Lane, qs: seq<Request>)
    requires R.Sane(l) && R.InsertReadDoneNext(l, qs).Ok?
    ensures R.InsertReadDoneNext(l, qs).value.half == l.half
  {
    hide R.DmaReads, R.TransferNext, R.NextInsert, Rounded;
    ReadsKeepHalf(l, qs);
    var called := if l.transfer[0].last then R.DmaReads(l, qs) else l;
    NextInsertKeepsHalf(R.Pop(called));
    TransferKeepsHalf(R.NextInsert(R.Pop(called)).value);
  }

  lemma NextInsertKeepsHalf(l: R.Lane)
    ensures R.NextInsert(l).Ok? ==> R.NextInsert(l).value.half == l.half
  {
  }

  lemma TransferKeepsHalf(l: R.Lane)
    requires R.Sane(l)
    ensures R.TransferNext(l).half == l.half
  {
    hide Rounded, R.Split, R.Numbered, R.Requested;
    if l.wait != [] {
      SplitKeepsHalf(l);
      var m := if Rounded(l.unit, l.wait[0].size) > l.capacity then R.Split(l) else l;
      RequestKeepsHalf(m);
    }
  }

  lemma SplitKeepsHalf(l: R.Lane)
    requires l.wait != []
    ensures l.unit <= l.wait[0].size ==> R.Split(l).half == l.half && R.Split(l).wait != [] && R.Split(l).unit == l.unit
  {
  }

  lemma RequestKeepsHalf(l: R.Lane)
    requires l.wait != [] && 0 < l.unit
    ensures R.Numbered(l).wait != [] && R.Requested(R.Numbered(l)).half == l.half
  {
    hide Rounded;
  }

  lemma {:induction false} ReadsKeepHalf(l: R.Lane, qs: seq<Request>)
    requires R.Sane(l)
    ensures R.DmaReads(l, qs).half == l.half
    decreases |qs|
  {
    hide R.TransferNext;
    if qs != [] {
      var m, q := R.DmaReads(l, qs[..|qs| - 1]), qs[|qs| - 1];
      ReadsKeepHalf(l, qs[..|qs| - 1]);
      TransferKeepsHalf(m.(wait := m.wait + [Piece(q.addr, q.size, true, 0, q.context)], submitted := m.submitted + [q]));
    }
  }
}
