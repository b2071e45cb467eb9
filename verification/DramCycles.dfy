/** Cycle accounting of the DRAM power model (lib/drampower/src/CmdHandlers.cc, CommandAnalysis.cc):
    every clock cycle is counted once, in one of the counters that MemoryPowerModel.cc adds up. */
module DramCycles {

  /** Clock cycles of the memory's timing: refresh, and precharge. */
  datatype Timing = Timing(RFC: nat, RP: nat)

  datatype Mode = Powered | FastActive | SlowActive | FastPrecharged | SlowPrecharged | SelfRefresh

  /** The counters that make up window_cycles. */
  datatype Counters = Counters(
    act: int, pre: int, fAct: int, sAct: int, fPre: int, sPre: int,
    sref: int, srefAct: int, srefPre: int, spupAct: int, spupPre: int)

  datatype State = State(
    count: Counters,
    firstAct: int, lastPre: int, pdn: int,
    srefCycle: int, srefWindow: int, actWindow: int, preWindow: int,
    banks: seq<bool>, lastBanks: seq<bool>,  // which banks are active
    mode: Mode)

  function ZeroGuard(cycles: int): int {
    if cycles < 0 then 0 else cycles
  }

  function Active(banks: seq<bool>): nat {
    if banks == [] then 0 else (if banks[0] then 1 else 0) + Active(banks[1..])
  }

  function NoneActive(banks: seq<bool>): seq<bool> {
    seq(|banks|, _ => false)
  }

  const ZERO := Counters(0, 0, 0, 0, 0, 0, 0, 0, 0, 0, 0)

  function Init(banks: nat): State {
    State(ZERO, 0, 0, 0, 0, 0, 0, 0, seq(banks, _ => false), seq(banks, _ => false), Powered)
  }

  // ---- Handlers ----

  function HandleAct(s: State, bank: nat, ts: int): State
    requires bank < |s.banks|
  {
    if s.banks[bank] then s
    else
      var t := if Active(s.banks) == 0 then
                 s.(firstAct := ts, count := s.count.(pre := s.count.pre + ZeroGuard(ts - s.lastPre)))
               else s;
      t.(banks := t.banks[bank := true])
  }

  function HandleRef(t: Timing, s: State, ts: int): State {
    s.(firstAct := ts, lastPre := ts + t.RFC - t.RP, banks := NoneActive(s.banks),
       count := s.count.(pre := s.count.pre + ZeroGuard(ts - s.lastPre), act := s.count.act + t.RFC - t.RP))
  }

  function HandlePre(s: State, bank: nat, ts: int): State
    requires bank < |s.banks|
  {
    if !s.banks[bank] then s
    else
      var t := if Active(s.banks) == 1 then
                 s.(lastPre := ts, count := s.count.(act := s.count.act + ZeroGuard(ts - s.firstAct)))
               else s;
      t.(banks := t.banks[bank := false])
  }

  function HandlePreA(s: State, ts: int): State {
    if Active(s.banks) == 0 then s
    else s.(lastPre := ts, banks := NoneActive(s.banks),
            count := s.count.(act := s.count.act + ZeroGuard(ts - s.firstAct)))
  }

  function HandlePdnAct(s: State, fast: bool, ts: int): State {
    s.(lastBanks := s.banks, pdn := ts, mode := if fast then FastActive else SlowActive,
       count := s.count.(act := s.count.act + ZeroGuard(ts - s.firstAct)))
  }

  function HandlePdnPre(s: State, fast: bool, ts: int): State {
    s.(pdn := ts, mode := if fast then FastPrecharged else SlowPrecharged,
       count := s.count.(pre := s.count.pre + ZeroGuard(ts - s.lastPre)))
  }

  function HandlePupAct(s: State, ts: int): State {
    var c := match s.mode
      case FastActive => s.count.(fAct := s.count.fAct + ZeroGuard(ts - s.pdn))
      case SlowActive => s.count.(sAct := s.count.sAct + ZeroGuard(ts - s.pdn))
      case _ => s.count;
    s.(count := c, mode := Powered, banks := s.lastBanks, firstAct := ts)
  }

  function HandlePupPre(s: State, ts: int): State {
    var c := match s.mode
      case FastPrecharged => s.count.(fPre := s.count.fPre + ZeroGuard(ts - s.pdn))
      case SlowPrecharged => s.count.(sPre := s.count.sPre + ZeroGuard(ts - s.pdn))
      case _ => s.count;
    s.(count := c, mode := Powered, lastPre := ts)
  }

  function HandleSREn(s: State, ts: int): State {
    s.(srefCycle := ts, srefWindow := ts, preWindow := 0, actWindow := 0, mode := SelfRefresh,
       count := s.count.(pre := s.count.pre + ZeroGuard(ts - s.lastPre)))
  }

  /** Context 1: the initial refresh is over. */
  function ExitAfter(t: Timing, s: State, ts: int): State {
    var c := s.count;
    var slept := if s.srefWindow > s.srefCycle + t.RFC then ts - s.srefWindow else ts - s.srefCycle - t.RFC;
    s.(mode := Powered, lastPre := ts,
       count := c.(srefAct := c.srefAct + t.RFC - t.RP - s.actWindow, srefPre := c.srefPre + t.RP - s.preWindow,
                   sref := c.sref + ZeroGuard(slept)))
  }

  /** Context 2A: its active part is over. */
  function ExitInPre(t: Timing, s: State, duration: int, ts: int): State {
    var c := s.count;
    var preCycles := duration - (t.RFC - t.RP) - s.preWindow;
    var spup := t.RP - preCycles;
    s.(mode := Powered, lastPre := ts + spup,
       count := c.(srefAct := c.srefAct + t.RFC - t.RP - s.actWindow, srefPre := c.srefPre + preCycles,
                   spupPre := c.spupPre + spup))
  }

  /** Context 2B: it is still in its active part. */
  function ExitInAct(t: Timing, s: State, duration: int, ts: int): State {
    var c := s.count;
    var spup := t.RFC - t.RP - duration;
    s.(mode := Powered, lastPre := ts + spup + t.RP,
       count := c.(srefAct := c.srefAct + duration - s.actWindow, spupAct := c.spupAct + spup,
                   spupPre := c.spupPre + t.RP))
  }

  function HandleSREx(t: Timing, s: State, ts: int): State {
    var duration := if ts - s.srefCycle <= 0 then 0 else ts - s.srefCycle;
    if duration >= t.RFC then ExitAfter(t, s, ts)
    else if duration >= t.RFC - t.RP then ExitInPre(t, s, duration, ts)
    else ExitInAct(t, s, duration, ts)
  }

  /** The initial refresh of a self-refresh is over, or partly over, at ts. */
  function EndActPart(t: Timing, s: State): State {
    var refAct := t.RFC - t.RP;
    if s.srefWindow <= s.srefCycle + refAct then
      s.(count := s.count.(srefAct := s.count.srefAct + refAct - s.actWindow),
         actWindow := refAct, srefWindow := s.srefCycle + refAct)
    else s
  }

  function EndPrePart(t: Timing, s: State): State {
    if s.srefWindow <= s.srefCycle + t.RFC then
      s.(count := s.count.(srefPre := s.count.srefPre + t.RP - s.preWindow),
         preWindow := t.RP, srefWindow := s.srefCycle + t.RFC)
    else s
  }

  function EndAsleep(t: Timing, s: State, ts: int): State {
    if ts > s.srefCycle + t.RFC then
      var u := EndPrePart(t, EndActPart(t, s));
      u.(count := u.count.(sref := u.count.sref + ZeroGuard(ts - u.srefWindow)))
    else if ts > s.srefCycle + t.RFC - t.RP then
      var u := EndActPart(t, s);
      var more := ts - u.srefWindow;
      u.(preWindow := u.preWindow + more, count := u.count.(srefPre := u.count.srefPre + more))
    else
      var more := ts - s.srefWindow;
      s.(actWindow := s.actWindow + more, count := s.count.(srefAct := s.count.srefAct + more))
  }

  function HandleNopEnd(t: Timing, s: State, ts: int): State {
    var c := s.count;
    match s.mode
    case Powered =>
      if Active(s.banks) > 0 then s.(count := c.(act := c.act + ZeroGuard(ts - s.firstAct)))
      else s.(count := c.(pre := c.pre + ZeroGuard(ts - s.lastPre)))
    case FastActive => s.(count := c.(fAct := c.fAct + ZeroGuard(ts - s.pdn)))
    case SlowActive => s.(count := c.(sAct := c.sAct + ZeroGuard(ts - s.pdn)))
    case FastPrecharged => s.(count := c.(fPre := c.fPre + ZeroGuard(ts - s.pdn)))
    case SlowPrecharged => s.(count := c.(sPre := c.sPre + ZeroGuard(ts - s.pdn)))
    case SelfRefresh => EndAsleep(t, s, ts)
  }

  function ClearStats(s: State, ts: int): State {
    var t := s.(count := ZERO, firstAct := ts, pdn := ts, srefWindow := ts);
    if ts == 0 then t.(srefCycle := 0, lastPre := 0, actWindow := 0, preWindow := 0)
    else t.(lastPre := if ts > s.lastPre then ts else s.lastPre)
  }

  datatype Command =
    | ACT(bank: nat) | RD(bank: nat) | WR(bank: nat) | REF | REFB(bank: nat) | PRE(bank: nat) | PREA
    | PDNACT(fast: bool) | PDNPRE(fast: bool) | PUPACT | PUPPRE | SREN | SREX

  function Handle(t: Timing, s: State, c: Command, ts: int): State
    requires Named(s, c)
  {
    match c
    case ACT(bank) => HandleAct(s, bank, ts)
    case REF => HandleRef(t, s, ts)
    case PRE(bank) => HandlePre(s, bank, ts)
    case PREA => HandlePreA(s, ts)
    case PDNACT(fast) => HandlePdnAct(s, fast, ts)
    case PDNPRE(fast) => HandlePdnPre(s, fast, ts)
    case PUPACT => HandlePupAct(s, ts)
    case PUPPRE => HandlePupPre(s, ts)
    case SREN => HandleSREn(s, ts)
    case SREX => HandleSREx(t, s, ts)
    case _ => s  // RD, WR and REFB change none of these fields
  }

  predicate Named(s: State, c: Command) {
    c.ACT? || c.PRE? ==> c.bank < |s.banks|
  }

  // ---- Conservation ----

  function WindowCycles(c: Counters): int {
    c.act + c.pre + c.fAct + c.fPre + c.sAct + c.sPre + c.sref + c.srefAct + c.srefPre + c.spupAct + c.spupPre
  }

  /** The cycle up to which the counters account for all cycles. */
  function Frontier(s: State): int {
    match s.mode
    case Powered => if Active(s.banks) > 0 then s.firstAct else s.lastPre
    case SelfRefresh => s.srefWindow
    case _ => s.pdn
  }

  /** Whether the handlers take the command for what it is; they only warn about others. */
  predicate InMode(s: State, c: Command) {
    match c
    case PUPACT => s.mode.FastActive? || s.mode.SlowActive?
    case PUPPRE => s.mode.FastPrecharged? || s.mode.SlowPrecharged?
    case SREX => s.mode.SelfRefresh?
    case PDNACT(_) => s.mode.Powered? && Active(s.banks) > 0
    case REF => s.mode.Powered? && Active(s.banks) == 0
    case PDNPRE(_) => s.mode.Powered? && Active(s.banks) == 0
    case SREN => s.mode.Powered? && Active(s.banks) == 0
    case _ => s.mode.Powered?
  }

  /** Whether the command closes a period, so that its cycles are counted. */
  predicate Closes(s: State, c: Command)
    requires Named(s, c)
  {
    match c
    case ACT(bank) => Active(s.banks) == 0
    case PRE(bank) => Active(s.banks) == 1 && s.banks[bank]
    case PREA => Active(s.banks) > 0
    case RD(_) => false
    case WR(_) => false
    case REFB(_) => false
    case _ => true
  }

  /** A self-refresh that windows have ended in: what they counted of its initial refresh. */
  predicate SelfRefreshOk(t: Timing, s: State) {
    s.mode.SelfRefresh? ==>
      var w := s.srefWindow - s.srefCycle;
      && 0 <= w
      && s.actWindow == (if w <= t.RFC - t.RP then w else t.RFC - t.RP)
      && s.preWindow == (if w <= t.RFC - t.RP then 0 else if w <= t.RFC then w - (t.RFC - t.RP) else t.RP)
  }

  /** past cycles were counted in earlier windows. */
  predicate Inv(t: Timing, past: int, s: State) {
    && t.RP <= t.RFC
    && |s.lastBanks| == |s.banks|
    && past + WindowCycles(s.count) == Frontier(s)
    && SelfRefreshOk(t, s)
    && (s.mode.FastActive? || s.mode.SlowActive? ==> Active(s.lastBanks) > 0)
    && (!s.mode.Powered? && !s.mode.FastActive? && !s.mode.SlowActive? ==> Active(s.banks) == 0)
  }

  lemma {:induction false} ActiveUpdate(banks: seq<bool>, k: nat, v: bool)
    requires k < |banks|
    ensures Active(banks[k := v]) == Active(banks) + (if v then 1 else 0) - (if banks[k] then 1 else 0)
    decreases |banks|
  {
    if k == 0 {
      assert banks[0 := v][1..] == banks[1..];
    } else {
      assert banks[k := v][1..] == banks[1..][k - 1 := v];
      ActiveUpdate(banks[1..], k - 1, v);
    }
  }

  lemma {:induction false} NoneActiveAll(banks: seq<bool>)
    requires forall k :: 0 <= k < |banks| ==> !banks[k]
    ensures Active(banks) == 0
  {
    if banks != [] {
      NoneActiveAll(banks[1..]);
    }
  }

  lemma ZeroCycles(c: Counters)
    requires c == ZERO
    ensures WindowCycles(c) == 0
  {
  }

  lemma StartInv(t: Timing, s: State)
    requires t.RP <= t.RFC && s.mode.Powered? && |s.lastBanks| == |s.banks| && s.count == ZERO && s.lastPre == 0
    requires forall k :: 0 <= k < |s.banks| ==> !s.banks[k]
    ensures Inv(t, 0, s)
  {
    hide Active, WindowCycles;
    NoneActiveAll(s.banks);
    ZeroCycles(s.count);
  }

  lemma InitInv(t: Timing, banks: nat)
    requires t.RP <= t.RFC
    ensures Inv(t, 0, Init(banks))
  {
    StartInv(t, Init(banks));
  }

  /** Every command taken in its mode keeps the account exact, provided that it does not come before
      the cycle up to which all cycles are counted already. */
  lemma HandleInv(t: Timing, past: int, s: State, c: Command, ts: int)
    requires Inv(t, past, s) && Named(s, c) && InMode(s, c)
    requires Closes(s, c) ==> ts >= Frontier(s)
    ensures Inv(t, past, Handle(t, s, c, ts))
    ensures Closes(s, c) ==> ts <= Frontier(Handle(t, s, c, ts))
    ensures !Closes(s, c) ==> Frontier(Handle(t, s, c, ts)) == Frontier(s)
  {
    NoneActiveAll(NoneActive(s.banks));
    match c
    case ACT(bank) =>
      ActiveUpdate(s.banks, bank, true);
      ActiveUpdate(s.banks, bank, false);
    case PRE(bank) => ActiveUpdate(s.banks, bank, false);
    case SREX => SRExInv(t, past, s, ts);
    case _ =>
  }

  /** Leaving self-refresh: the initial refresh may be over, in its precharge part or in its active
      part, and windows may have ended in any of these before. */
  lemma SRExInv(t: Timing, past: int, s: State, ts: int)
    requires Inv(t, past, s) && s.mode.SelfRefresh? && ts >= Frontier(s)
    ensures Inv(t, past, HandleSREx(t, s, ts)) && ts <= Frontier(HandleSREx(t, s, ts))
  {
    hide Active;
  }

  /** Leaving self-refresh before its initial refresh is over schedules the end of that refresh, unless
      a window has ended in its precharge part: that part is then scheduled a second time. */
  lemma EarlyExitEnd(t: Timing, past: int, s: State, ts: int)
    requires Inv(t, past, s) && s.mode.SelfRefresh? && Frontier(s) <= ts < s.srefCycle + t.RFC
    ensures Frontier(HandleSREx(t, s, ts)) == s.srefCycle + t.RFC + s.preWindow
    ensures Frontier(HandleSREx(t, s, ts)) == s.srefCycle + t.RFC <==> s.srefWindow <= s.srefCycle + t.RFC - t.RP
  {
    hide Active;
  }

  /** For the commands outside self-refresh, coming too early is exactly what breaks the account. */
  lemma HandleExactly(t: Timing, past: int, s: State, c: Command, ts: int)
    requires Inv(t, past, s) && Named(s, c) && InMode(s, c) && !c.SREX?
    ensures past + WindowCycles(Handle(t, s, c, ts).count) == Frontier(Handle(t, s, c, ts))
      <==> (Closes(s, c) ==> ts >= Frontier(s))
  {
    NoneActiveAll(NoneActive(s.banks));
    match c
    case ACT(bank) =>
      ActiveUpdate(s.banks, bank, true);
      ActiveUpdate(s.banks, bank, false);
    case PRE(bank) => ActiveUpdate(s.banks, bank, false);
    case _ =>
  }

  /** The END command accounts for all cycles up to its timestamp, unless more are counted already. */
  lemma EndCycles(t: Timing, past: int, s: State, ts: int)
    requires Inv(t, past, s) && (s.mode.SelfRefresh? ==> ts >= Frontier(s))
    ensures past + WindowCycles(HandleNopEnd(t, s, ts).count) == if ts >= Frontier(s) then ts else Frontier(s)
  {
  }

  // ---- Windows ----

  /** A window ends at ts: the counters are completed, read and cleared. */
  function EndWindow(t: Timing, s: State, ts: int): State {
    ClearStats(HandleNopEnd(t, s, ts), ts)
  }

  /** Windows may end anywhere, even inside a self-refresh or while a refresh is still going on. */
  lemma EndWindowInv(t: Timing, past: int, s: State, ts: int)
    requires Inv(t, past, s) && 0 < ts
    requires (s.mode.Powered? && Active(s.banks) == 0) || ts >= Frontier(s)
    ensures Inv(t, past + WindowCycles(HandleNopEnd(t, s, ts).count), EndWindow(t, s, ts))
  {
    hide Active, WindowCycles, HandleNopEnd;
    EndModes(t, s, ts);
    if s.mode.SelfRefresh? {
      EndSelfRefresh(t, s, ts);
    }
    EndCycles(t, past, s, ts);
    ZeroCycles(EndWindow(t, s, ts).count);
  }

  lemma EndModes(t: Timing, s: State, ts: int)
    ensures var u := HandleNopEnd(t, s, ts);
      && u.mode == s.mode && u.banks == s.banks && u.lastBanks == s.lastBanks
      && u.lastPre == s.lastPre && u.srefCycle == s.srefCycle
  {
  }

  lemma EndSelfRefresh(t: Timing, s: State, ts: int)
    requires s.mode.SelfRefresh? && SelfRefreshOk(t, s) && ts >= s.srefWindow && t.RP <= t.RFC
    ensures SelfRefreshOk(t, HandleNopEnd(t, s, ts).(srefWindow := ts))
  {
  }

  datatype Event = Issue(c: Command, ts: int) | Window(ts: int)

  /** past is what earlier windows counted. */
  datatype Account = Account(past: int, s: State)

  function Step(t: Timing, a: Account, e: Event): Account
    requires e.Issue? ==> Named(a.s, e.c)
  {
    match e
    case Issue(c, ts) => a.(s := Handle(t, a.s, c, ts))
    case Window(ts) => Account(a.past + WindowCycles(HandleNopEnd(t, a.s, ts).count), EndWindow(t, a.s, ts))
  }

  predicate Allowed(a: Account, e: Event) {
    match e
    case Issue(c, ts) => Named(a.s, c) && InMode(a.s, c) && (Closes(a.s, c) ==> ts >= Frontier(a.s))
    case Window(ts) => 0 < ts && ((a.s.mode.Powered? && Active(a.s.banks) == 0) || ts >= Frontier(a.s))
  }

  predicate Legal(t: Timing, a: Account, es: seq<Event>)
    decreases |es|
  {
    es == [] || (Allowed(a, es[0]) && Legal(t, Step(t, a, es[0]), es[1..]))
  }

  function Run(t: Timing, a: Account, es: seq<Event>): Account
    requires Legal(t, a, es)
    decreases |es|
  {
    if es == [] then a else Run(t, Step(t, a, es[0]), es[1..])
  }

  /** Over any legal trace, cut into windows in any way, the cycles of all windows add up to the
      frontier; and an END command not before the frontier makes them add up to its timestamp. */
  lemma {:induction false} CyclesConserved(t: Timing, a: Account, es: seq<Event>, end: int)
    requires Inv(t, a.past, a.s) && Legal(t, a, es)
    ensures var r := Run(t, a, es);
      && Inv(t, r.past, r.s)
      && r.past + WindowCycles(r.s.count) == Frontier(r.s)
      && (end >= Frontier(r.s) ==> r.past + WindowCycles(HandleNopEnd(t, r.s, end).count) == end)
    decreases |es|
  {
    if es == [] {
      if end >= Frontier(a.s) {
        EndCycles(t, a.past, a.s, end);
      }
      hide Active, HandleNopEnd;
    } else {
      match es[0] {
        case Issue(c, ts) => HandleInv(t, a.past, a.s, c, ts);
        case Window(ts) => EndWindowInv(t, a.past, a.s, ts);
      }
      hide Inv, Frontier, WindowCycles, HandleNopEnd, EndWindow, Handle;
      CyclesConserved(t, Step(t, a, es[0]), es[1..], end);
    }
  }

  // ---- An early exit ----

  /** A refresh of 10 cycles, of which the last 4 precharge. */
  const SHORT := Timing(10, 4)

  /** A self-refresh entered at cycle 1 and left at cycle 9, with a window that ends at cycle 8. */
  function EarlyExit(window: int): seq<Event> {
    [Issue(SREN, 1), Window(window), Issue(SREX, 9)]
  }

  /** The refresh is over at cycle 11.  If the window ends in its active part, cycles are scheduled up to
      there; if it ends at cycle 8, inside the precharge part, one cycle too many is. */
  lemma EarlyExitAccount(window: int)
    requires 1 <= window <= 9
    ensures Legal(SHORT, Account(0, Init(1)), EarlyExit(window))
    ensures Frontier(Run(SHORT, Account(0, Init(1)), EarlyExit(window)).s) == 11 + if window <= 7 then 0 else window - 7
  {
    hide Frontier, WindowCycles, Active;
    var a0 := Account(0, Init(1));
    NoneActiveAll(a0.s.banks);
    InitInv(SHORT, 1);
    EarlySteps(a0, window);
    var a1 := Step(SHORT, a0, Issue(SREN, 1));
    var a2 := Step(SHORT, a1, Window(window));
    var a3 := Step(SHORT, a2, Issue(SREX, 9));
    hide Step, Allowed;
    assert EarlyExit(window)[1..] == [Window(window), Issue(SREX, 9)];
    assert [Window(window), Issue(SREX, 9)][1..] == [Issue(SREX, 9)];
    assert [Issue(SREX, 9)][1..] == [];
    assert Legal(SHORT, a3, []) && Run(SHORT, a3, []) == a3;
    assert Legal(SHORT, a2, [Issue(SREX, 9)]) && Run(SHORT, a2, [Issue(SREX, 9)]) == a3;
    assert Legal(SHORT, a1, [Window(window), Issue(SREX, 9)]) && Run(SHORT, a1, [Window(window), Issue(SREX, 9)]) == a3;
  }

  /** In the self-refresh entered at cycle 1, with windows ended up to the given cycle. */
  predicate EarlyAsleep(s: State, window: int) {
    && s.mode == SelfRefresh && Active(s.banks) == 0 && s.srefCycle == 1 && s.srefWindow == window
    && s.actWindow == (if window <= 7 then window - 1 else 6) && s.preWindow == (if window <= 7 then 0 else window - 7)
  }

  lemma EarlyEntry(s: State)
    requires Active(s.banks) == 0
    ensures EarlyAsleep(Handle(SHORT, s, SREN, 1), 1)
  {
    hide Active;
  }

  lemma EarlyWindow(s: State, window: int)
    requires EarlyAsleep(s, 1) && 1 <= window <= 9
    ensures EarlyAsleep(EndWindow(SHORT, s, window), window)
  {
    hide Active;
  }

  lemma EarlyLeft(s: State, window: int)
    requires EarlyAsleep(s, window) && 1 <= window <= 9
    ensures Frontier(Handle(SHORT, s, SREX, 9)) == 11 + if window <= 7 then 0 else window - 7
  {
    hide Active;
  }

  lemma EarlySteps(a: Account, window: int)
    requires a == Account(0, Init(1)) && Active(a.s.banks) == 0 && 1 <= window <= 9
    ensures var a1 := Step(SHORT, a, Issue(SREN, 1));
      && Allowed(a, Issue(SREN, 1)) && Allowed(a1, Window(window))
      && var a2 := Step(SHORT, a1, Window(window));
      && Allowed(a2, Issue(SREX, 9))
      && Frontier(Step(SHORT, a2, Issue(SREX, 9)).s) == 11 + if window <= 7 then 0 else window - 7
  {
    hide Active, WindowCycles, Handle, EndWindow, HandleNopEnd;
    EarlyEntry(a.s);
    var a1 := Step(SHORT, a, Issue(SREN, 1));
    EarlyWindow(a1.s, window);
    var a2 := Step(SHORT, a1, Window(window));
    EarlyLeft(a2.s, window);
  }
}
