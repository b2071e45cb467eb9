/** The command handlers of the DRAM power model (lib/drampower/src/CmdHandlers.cc) as methods of the
    object whose counters they change. */
module DramObject {
  import opened DramCycles

  class CommandAnalysis {
    const t: Timing
    var count: Counters  // actcycles, precycles and the other counters of a window
    var firstActCycle: int
    var lastPreCycle: int
    var pdnCycle: int
    var srefCycle: int
    var srefCycleWindow: int
    var srefRefActCyclesWindow: int
    var srefRefPreCyclesWindow: int
    var bankState: seq<bool>
    var lastBankState: seq<bool>
    var memState: Mode
    ghost var past: int  // cycles counted in earlier windows

    ghost function State(): State
      reads this
    {
      DramCycles.State(
        count,
        firstActCycle, lastPreCycle, pdnCycle,
        srefCycle, srefCycleWindow, srefRefActCyclesWindow, srefRefPreCyclesWindow,
        bankState, lastBankState, memState)
    }

    ghost predicate Valid()
      reads this
    {
      Inv(t, past, State())
    }

    /** What every handler needs: the command fits the mode, and does not come too early. */
    ghost predicate Accepts(c: Command, ts: int)
      reads this
    {
      && Valid() && Named(State(), c) && InMode(State(), c)
      && (Closes(State(), c) ==> ts >= Frontier(State()))
    }

    constructor (timing: Timing, nbrOfBanks: nat)
      requires timing.RP <= timing.RFC
      ensures Valid() && State() == Init(nbrOfBanks) && t == timing && past == 0
    {
      hide Active, Inv;
      t := timing;
      count := ZERO;
      firstActCycle, lastPreCycle, pdnCycle := 0, 0, 0;
      srefCycle, srefCycleWindow, srefRefActCyclesWindow, srefRefPreCyclesWindow := 0, 0, 0, 0;
      bankState, lastBankState := seq(nbrOfBanks, _ => false), seq(nbrOfBanks, _ => false);
      memState := Powered;
      past := 0;
      new;
      InitInv(timing, nbrOfBanks);
    }

    method HandleAct(bank: nat, timestamp: int)
      requires Accepts(ACT(bank), timestamp)
      modifies this
      ensures Valid() && past == old(past) && State() == Handle(t, old(State()), ACT(bank), timestamp)
    {
      hide Inv, InMode, Closes, Active, WindowCycles, Frontier;
      HandleInv(t, past, State(), ACT(bank), timestamp);
      if !bankState[bank] {
        if Active(bankState) == 0 {
          firstActCycle := timestamp;
          count := count.(pre := count.pre + ZeroGuard(timestamp - lastPreCycle));
        }
        bankState := bankState[bank := true];
      }
    }

    method HandleRef(timestamp: int)
      requires Accepts(REF, timestamp)
      modifies this
      ensures Valid() && past == old(past) && State() == Handle(t, old(State()), REF, timestamp)
    {
      hide Inv, InMode, Closes, Active, WindowCycles, Frontier;
      HandleInv(t, past, State(), REF, timestamp);
      firstActCycle := timestamp;
      count := count.(pre := count.pre + ZeroGuard(timestamp - lastPreCycle));
      lastPreCycle := timestamp + t.RFC - t.RP;
      count := count.(act := count.act + t.RFC - t.RP);
      bankState := NoneActive(bankState);
    }

    method HandlePre(bank: nat, timestamp: int)
      requires Accepts(PRE(bank), timestamp)
      modifies this
      ensures Valid() && past == old(past) && State() == Handle(t, old(State()), PRE(bank), timestamp)
    {
      hide Inv, InMode, Closes, Active, WindowCycles, Frontier;
      HandleInv(t, past, State(), PRE(bank), timestamp);
      if bankState[bank] {
        if Active(bankState) == 1 {
          count := count.(act := count.act + ZeroGuard(timestamp - firstActCycle));
          lastPreCycle := timestamp;
        }
        bankState := bankState[bank := false];
      }
    }

    method HandlePreA(timestamp: int)
      requires Accepts(PREA, timestamp)
      modifies this
      ensures Valid() && past == old(past) && State() == Handle(t, old(State()), PREA, timestamp)
    {
      hide Inv, InMode, Closes, Active, WindowCycles, Frontier;
      HandleInv(t, past, State(), PREA, timestamp);
      if Active(bankState) > 0 {
        count := count.(act := count.act + ZeroGuard(timestamp - firstActCycle));
        lastPreCycle := timestamp;
        bankState := NoneActive(bankState);
      }
    }

    method HandlePdnFAct(timestamp: int)
      requires Accepts(PDNACT(true), timestamp)
      modifies this
      ensures Valid() && past == old(past) && State() == Handle(t, old(State()), PDNACT(true), timestamp)
    {
      hide Inv, InMode, Closes, Active, WindowCycles, Frontier;
      HandleInv(t, past, State(), PDNACT(true), timestamp);
      lastBankState := bankState;
      pdnCycle := timestamp;
      count := count.(act := count.act + ZeroGuard(timestamp - firstActCycle));
      memState := FastActive;
    }

    method HandlePdnSAct(timestamp: int)
      requires Accepts(PDNACT(false), timestamp)
      modifies this
      ensures Valid() && past == old(past) && State() == Handle(t, old(State()), PDNACT(false), timestamp)
    {
      hide Inv, InMode, Closes, Active, WindowCycles, Frontier;
      HandleInv(t, past, State(), PDNACT(false), timestamp);
      lastBankState := bankState;
      pdnCycle := timestamp;
      count := count.(act := count.act + ZeroGuard(timestamp - firstActCycle));
      memState := SlowActive;
    }

    method HandlePdnFPre(timestamp: int)
      requires Accepts(PDNPRE(true), timestamp)
      modifies this
      ensures Valid() && past == old(past) && State() == Handle(t, old(State()), PDNPRE(true), timestamp)
    {
      hide Inv, InMode, Closes, Active, WindowCycles, Frontier;
      HandleInv(t, past, State(), PDNPRE(true), timestamp);
      pdnCycle := timestamp;
      count := count.(pre := count.pre + ZeroGuard(timestamp - lastPreCycle));
      memState := FastPrecharged;
    }

    method HandlePdnSPre(timestamp: int)
      requires Accepts(PDNPRE(false), timestamp)
      modifies this
      ensures Valid() && past == old(past) && State() == Handle(t, old(State()), PDNPRE(false), timestamp)
    {
      hide Inv, InMode, Closes, Active, WindowCycles, Frontier;
      HandleInv(t, past, State(), PDNPRE(false), timestamp);
      pdnCycle := timestamp;
      count := count.(pre := count.pre + ZeroGuard(timestamp - lastPreCycle));
      memState := SlowPrecharged;
    }

    method HandlePupAct(timestamp: int)
      requires Accepts(PUPACT, timestamp)
      modifies this
      ensures Valid() && past == old(past) && State() == Handle(t, old(State()), PUPACT, timestamp)
    {
      hide Inv, InMode, Closes, Active, WindowCycles, Frontier;
      HandleInv(t, past, State(), PUPACT, timestamp);
      if memState == FastActive {
        count := count.(fAct := count.fAct + ZeroGuard(timestamp - pdnCycle));
      } else if memState == SlowActive {
        count := count.(sAct := count.sAct + ZeroGuard(timestamp - pdnCycle));
      }
      memState := Powered;
      bankState := lastBankState;
      firstActCycle := timestamp;
    }

    method HandlePupPre(timestamp: int)
      requires Accepts(PUPPRE, timestamp)
      modifies this
      ensures Valid() && past == old(past) && State() == Handle(t, old(State()), PUPPRE, timestamp)
    {
      hide Inv, InMode, Closes, Active, WindowCycles, Frontier;
      HandleInv(t, past, State(), PUPPRE, timestamp);
      if memState == FastPrecharged {
        count := count.(fPre := count.fPre + ZeroGuard(timestamp - pdnCycle));
      } else if memState == SlowPrecharged {
        count := count.(sPre := count.sPre + ZeroGuard(timestamp - pdnCycle));
      }
      memState := Powered;
      lastPreCycle := timestamp;
    }

    method HandleSREn(timestamp: int)
      requires Accepts(SREN, timestamp)
      modifies this
      ensures Valid() && past == old(past) && State() == Handle(t, old(State()), SREN, timestamp)
    {
      hide Inv, InMode, Closes, Active, WindowCycles, Frontier;
      HandleInv(t, past, State(), SREN, timestamp);
      srefCycle := timestamp;
      srefCycleWindow := timestamp;
      srefRefPreCyclesWindow := 0;
      srefRefActCyclesWindow := 0;
      count := count.(pre := count.pre + ZeroGuard(timestamp - lastPreCycle));
      memState := SelfRefresh;
    }

    method HandleSREx(timestamp: int)
      requires Accepts(SREX, timestamp)
      modifies this
      ensures Valid() && past == old(past) && State() == Handle(t, old(State()), SREX, timestamp)
    {
      hide Inv, InMode, Closes, Active, WindowCycles, Frontier, DramCycles.ExitAfter, DramCycles.ExitInPre, DramCycles.ExitInAct;
      HandleInv(t, past, State(), SREX, timestamp);
      var srefDuration := timestamp - srefCycle;
      if srefDuration <= 0 {
        srefDuration := 0;
      }
      if srefDuration >= t.RFC {
        ExitAfter(timestamp);
      } else {
        var refActCycles := t.RFC - t.RP;
        if srefDuration >= refActCycles {
          ExitInPre(srefDuration, timestamp);
        } else {
          ExitInAct(srefDuration, timestamp);
        }
      }
    }

    method ExitAfter(timestamp: int)
      modifies this
      ensures past == old(past) && State() == DramCycles.ExitAfter(t, old(State()), timestamp)
    {
      count := count.(srefAct := count.srefAct + t.RFC - t.RP - srefRefActCyclesWindow);
      count := count.(srefPre := count.srefPre + t.RP - srefRefPreCyclesWindow);
      lastPreCycle := timestamp;
      if srefCycleWindow > srefCycle + t.RFC {
        count := count.(sref := count.sref + ZeroGuard(timestamp - srefCycleWindow));
      } else {
        count := count.(sref := count.sref + ZeroGuard(timestamp - srefCycle - t.RFC));
      }
      memState := Powered;
    }

    method ExitInPre(srefDuration: int, timestamp: int)
      modifies this
      ensures past == old(past) && State() == DramCycles.ExitInPre(t, old(State()), srefDuration, timestamp)
    {
      var refActCycles := t.RFC - t.RP;
      var preCycles := srefDuration - refActCycles - srefRefPreCyclesWindow;
      count := count.(srefAct := count.srefAct + refActCycles - srefRefActCyclesWindow);
      count := count.(srefPre := count.srefPre + preCycles);
      var spupPre := t.RP - preCycles;
      count := count.(spupPre := count.spupPre + spupPre);
      lastPreCycle := timestamp + spupPre;
      memState := Powered;
    }

    method ExitInAct(srefDuration: int, timestamp: int)
      modifies this
      ensures past == old(past) && State() == DramCycles.ExitInAct(t, old(State()), srefDuration, timestamp)
    {
      count := count.(srefAct := count.srefAct + srefDuration - srefRefActCyclesWindow);
      var spupAct := t.RFC - t.RP - srefDuration;
      count := count.(spupAct := count.spupAct + spupAct);
      count := count.(spupPre := count.spupPre + t.RP);
      lastPreCycle := timestamp + spupAct + t.RP;
      memState := Powered;
    }

    method HandleNopEnd(timestamp: int)
      requires Valid() && (memState.SelfRefresh? ==> timestamp >= Frontier(State()))
      modifies this
      ensures past == old(past) && State() == DramCycles.HandleNopEnd(t, old(State()), timestamp)
      ensures past + WindowCycles(State().count) == if timestamp >= old(Frontier(State())) then timestamp
                                                    else old(Frontier(State()))
    {
      EndCycles(t, past, State(), timestamp);
      hide Inv, Active, WindowCycles, Frontier, DramCycles.EndAsleep;
      if Active(bankState) > 0 && memState == Powered {
        count := count.(act := count.act + ZeroGuard(timestamp - firstActCycle));
      } else if Active(bankState) == 0 && memState == Powered {
        count := count.(pre := count.pre + ZeroGuard(timestamp - lastPreCycle));
      } else if memState == FastActive {
        count := count.(fAct := count.fAct + ZeroGuard(timestamp - pdnCycle));
      } else if memState == SlowActive {
        count := count.(sAct := count.sAct + ZeroGuard(timestamp - pdnCycle));
      } else if memState == FastPrecharged {
        count := count.(fPre := count.fPre + ZeroGuard(timestamp - pdnCycle));
      } else if memState == SlowPrecharged {
        count := count.(sPre := count.sPre + ZeroGuard(timestamp - pdnCycle));
      } else if memState == SelfRefresh {
        EndAsleep(timestamp);
      }
    }

    /** The end of a window inside self-refresh: the parts of the initial refresh that are over. */
    method EndAsleep(timestamp: int)
      modifies this
      ensures past == old(past) && State() == DramCycles.EndAsleep(t, old(State()), timestamp)
    {
      hide DramCycles.EndActPart, DramCycles.EndPrePart;
      var rfcMinusRp := t.RFC - t.RP;
      if timestamp > srefCycle + t.RFC {
        EndActPart(rfcMinusRp);
        EndPrePart();
        count := count.(sref := count.sref + ZeroGuard(timestamp - srefCycleWindow));
      } else if timestamp > srefCycle + rfcMinusRp {
        EndActPart(rfcMinusRp);
        srefRefPreCyclesWindow := srefRefPreCyclesWindow + timestamp - srefCycleWindow;
        count := count.(srefPre := count.srefPre + timestamp - srefCycleWindow);
      } else {
        srefRefActCyclesWindow := srefRefActCyclesWindow + timestamp - srefCycleWindow;
        count := count.(srefAct := count.srefAct + timestamp - srefCycleWindow);
      }
    }

    method EndActPart(rfcMinusRp: int)
      requires rfcMinusRp == t.RFC - t.RP
      modifies this
      ensures past == old(past) && State() == DramCycles.EndActPart(t, old(State()))
    {
      if srefCycleWindow <= srefCycle + rfcMinusRp {
        count := count.(srefAct := count.srefAct + rfcMinusRp - srefRefActCyclesWindow);
        srefRefActCyclesWindow := rfcMinusRp;
        srefCycleWindow := srefCycle + rfcMinusRp;
      }
    }

    method EndPrePart()
      modifies this
      ensures past == old(past) && State() == DramCycles.EndPrePart(t, old(State()))
    {
      if srefCycleWindow <= srefCycle + t.RFC {
        count := count.(srefPre := count.srefPre + t.RP - srefRefPreCyclesWindow);
        srefRefPreCyclesWindow := t.RP;
        srefCycleWindow := srefCycle + t.RFC;
      }
    }

    method ClearStats(timestamp: int)
      modifies this
      ensures State() == DramCycles.ClearStats(old(State()), timestamp)
      ensures past == old(past + WindowCycles(State().count))
    {
      hide WindowCycles;
      past := past + WindowCycles(State().count);
      count := ZERO;
      firstActCycle, pdnCycle, srefCycleWindow := timestamp, timestamp, timestamp;
      if timestamp == 0 {
        srefCycle, lastPreCycle, srefRefActCyclesWindow, srefRefPreCyclesWindow := 0, 0, 0, 0;
      } else {
        lastPreCycle := if timestamp > lastPreCycle then timestamp else lastPreCycle;
      }
    }

    /** The end of a window, as calcWindowEnergy brings it about. */
    method EndWindow(timestamp: int)
      requires Valid() && 0 < timestamp
      requires (memState.Powered? && Active(bankState) == 0) || timestamp >= Frontier(State())
      modifies this
      ensures Valid() && State() == DramCycles.EndWindow(t, old(State()), timestamp)
    {
      EndWindowInv(t, past, State(), timestamp);
      hide Inv, Active, WindowCycles, Frontier, DramCycles.HandleNopEnd, DramCycles.ClearStats;
      HandleNopEnd(timestamp);
      ClearStats(timestamp);
    }
  }
}
