/** Requests and the pieces a DMA FIFO (util/fifo.cc) cuts them into. */
module DmaPieces {

  datatype Request = Request(addr: nat, size: nat, context: nat)

  /** A FIFOEntry: last marks the final piece of a request. */
  datatype Piece = Piece(addr: nat, size: nat, last: bool, id: nat, context: nat)

  /** calcSize: sizes below the transfer unit are kept, others rounded up to whole units. */
  function Rounded(unit: nat, size: nat): (r: nat)
    requires 0 < unit
    ensures size < unit ==> r == size
    ensures size >= unit ==> size <= r < size + unit
    ensures size == unit ==> r == size
  {
    if size < unit then size
    else
      assert size - 1 == (size - 1) / unit * unit + (size - 1) % unit;
      assert ((size - 1) / unit + 1) * unit == (size - 1) / unit * unit + unit;
      assert size == unit ==> (size - 1) / unit == 0;
      ((size - 1) / unit + 1) * unit
  }

  ghost predicate AllLast(s: seq<Piece>) {
    forall i :: 0 <= i < |s| ==> s[i].last && 0 < s[i].size
  }

  /** The requests that have a byte to transfer. */
  function Sized(qs: seq<Request>): seq<Request> {
    if qs == [] then []
    else Sized(qs[..|qs| - 1]) + if qs[|qs| - 1].size == 0 then [] else [qs[|qs| - 1]]
  }

  ghost function SumRounded(unit: nat, s: seq<Piece>): nat
    requires 0 < unit
  {
    if s == [] then 0 else Rounded(unit, s[0].size) + SumRounded(unit, s[1..])
  }

  lemma {:induction false} SumAppend(unit: nat, s: seq<Piece>, p: Piece)
    requires 0 < unit
    ensures SumRounded(unit, s + [p]) == SumRounded(unit, s) + Rounded(unit, p.size)
  {
    if s == [] {
      assert [p][1..] == [];
    } else {
      assert (s + [p])[1..] == s[1..] + [p];
      SumAppend(unit, s[1..], p);
    }
  }

  ghost function Bytes(s: seq<Piece>): nat {
    if s == [] then 0 else s[0].size + Bytes(s[1..])
  }

  /** The contexts of the final pieces, in order: the completions that the pieces cause. */
  ghost function Completions(s: seq<Piece>): seq<nat> {
    if s == [] then []
    else Completions(s[..|s| - 1]) + if s[|s| - 1].last then [s[|s| - 1].context] else []
  }

  ghost function Contexts(rs: seq<Request>): seq<nat> {
    if rs == [] then [] else [rs[0].context] + Contexts(rs[1..])
  }

  /** What is left of a request after n bytes. */
  ghost function After(r: Request, n: nat): Request
    requires n <= r.size
  {
    Request(r.addr + n, r.size - n, r.context)
  }

  /** The pieces cover the requests exactly, in order and without gap or overlap; the final piece
      of each request, and only that one, is marked last. */
  ghost predicate Tiles(s: seq<Piece>, rs: seq<Request>)
    decreases |s|
  {
    if s == [] then rs == []
    else
      && rs != [] && 0 < s[0].size && s[0].addr == rs[0].addr && s[0].context == rs[0].context
      && if s[0].last then s[0].size == rs[0].size && Tiles(s[1..], rs[1..])
         else s[0].size < rs[0].size && Tiles(s[1..], [After(rs[0], s[0].size)] + rs[1..])
  }

  lemma {:induction false} TilesSubmit(s: seq<Piece>, rs: seq<Request>, p: Piece)
    requires Tiles(s, rs) && 0 < p.size && p.last
    ensures Tiles(s + [p], rs + [Request(p.addr, p.size, p.context)])
    decreases |s|
  {
    var r := Request(p.addr, p.size, p.context);
    if s == [] {
      assert [p][1..] == [] && [r][1..] == [] && s + [p] == [p] && rs + [r] == [r];
    } else {
      assert (s + [p])[1..] == s[1..] + [p];
      if s[0].last {
        assert (rs + [r])[1..] == rs[1..] + [r];
        TilesSubmit(s[1..], rs[1..], p);
      } else {
        var rest := [After(rs[0], s[0].size)] + rs[1..];
        assert [After((rs + [r])[0], s[0].size)] + (rs + [r])[1..] == rest + [r];
        TilesSubmit(s[1..], rest, p);
      }
    }
  }

  /** Cutting piece k, which is marked last, after n bytes; its front part is numbered id. */
  ghost function Cut(s: seq<Piece>, k: nat, n: nat, id: nat): seq<Piece>
    requires k < |s| && n <= s[k].size
  {
    s[..k] + [s[k].(size := n, last := false, id := id), s[k].(addr := s[k].addr + n, size := s[k].size - n, last := true)] + s[k + 1..]
  }

  /** Cutting the first waiting piece, whose front goes on to the transfer queue. */
  lemma CutMiddle(done: seq<Piece>, transfer: seq<Piece>, wait: seq<Piece>, n: nat, id: nat)
    requires wait != [] && n <= wait[0].size
    ensures var s, k := done + transfer + wait, |done| + |transfer|;
      var front, back := wait[0].(size := n, last := false, id := id),
                         wait[0].(addr := wait[0].addr + n, size := wait[0].size - n, last := true);
      s[k] == wait[0] && Cut(s, k, n, id) == done + (transfer + [front]) + ([back] + wait[1..])
  {
    var s, k := done + transfer + wait, |done| + |transfer|;
    assert s[..k] == done + transfer && s[k + 1..] == wait[1..];
  }

  lemma {:induction false} TilesCut(s: seq<Piece>, rs: seq<Request>, k: nat, n: nat, id: nat)
    requires Tiles(s, rs) && k < |s| && s[k].last && 0 < n < s[k].size
    ensures Tiles(Cut(s, k, n, id), rs)
    decreases |s|
  {
    var t := Cut(s, k, n, id);
    if k == 0 {
      var second := s[0].(addr := s[0].addr + n, size := s[0].size - n, last := true);
      assert t[1..] == [second] + s[1..];
      assert ([second] + s[1..])[1..] == s[1..];
      assert ([After(rs[0], n)] + rs[1..])[1..] == rs[1..];
    } else {
      assert t[1..] == Cut(s[1..], k - 1, n, id);
      TilesCut(s[1..], if s[0].last then rs[1..] else [After(rs[0], s[0].size)] + rs[1..], k - 1, n, id);
    }
  }

  /** Numbering a piece changes nothing that a request can see. */
  lemma {:induction false} TilesId(s: seq<Piece>, rs: seq<Request>, k: nat, id: nat)
    requires Tiles(s, rs) && k < |s|
    ensures Tiles(s[k := s[k].(id := id)], rs)
    decreases |s|
  {
    var t := s[k := s[k].(id := id)];
    if k == 0 {
      assert t[1..] == s[1..];
    } else {
      assert t[1..] == s[1..][k - 1 := s[k].(id := id)];
      TilesId(s[1..], if s[0].last then rs[1..] else [After(rs[0], s[0].size)] + rs[1..], k - 1, id);
    }
  }

  lemma {:induction false} CompletionsConcat(a: seq<Piece>, b: seq<Piece>)
    ensures Completions(a + b) == Completions(a) + Completions(b)
    decreases |b|
  {
    if b == [] {
      assert a + b == a;
    } else {
      assert (a + b)[..|a + b| - 1] == a + b[..|b| - 1];
      CompletionsConcat(a, b[..|b| - 1]);
    }
  }

  lemma {:induction false} CompletionsFirst(s: seq<Piece>)
    requires s != []
    ensures Completions(s) == (if s[0].last then [s[0].context] else []) + Completions(s[1..])
  {
    assert s == [s[0]] + s[1..];
    assert Completions([s[0]]) == if s[0].last then [s[0].context] else [] by {
      assert [s[0]][..0] == [];
    }
    CompletionsConcat([s[0]], s[1..]);
  }

  /** Pieces that tile requests complete every request exactly once, in order. */
  lemma {:induction false} TilesComplete(s: seq<Piece>, rs: seq<Request>)
    requires Tiles(s, rs)
    ensures Completions(s) == Contexts(rs)
    decreases |s|
  {
    if s != [] {
      CompletionsFirst(s);
      if s[0].last {
        TilesComplete(s[1..], rs[1..]);
      } else {
        var rest := [After(rs[0], s[0].size)] + rs[1..];
        assert rest[1..] == rs[1..];
        TilesComplete(s[1..], rest);
      }
    }
  }
}
