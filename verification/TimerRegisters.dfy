/** The machine timer as the kernel reaches it: two 64-bit registers read and written in 32-bit halves, while the
    clock runs. What the rest of the model takes for one look at the clock is justified here. */
module TimerRegisters {
  import opened KernelState
  import opened KernelOps
  import opened WaitStart

  const WORD: nat := 0x1_0000_0000

  /** A value of a 64-bit register; the clock stays a tick short of wrapping round. */
  type Clock = c: nat | c < WORD * WORD - TICK_COUNTS
  type Word = w: nat | w < WORD

  class MachineTimer {
    var mtime: Clock
    var cmpHigh: Word
    var cmpLow: Word
    ghost var comparands: seq<nat> // every value the compare register has had

    ghost function Comparand(): nat
      reads this
    {
      cmpHigh * WORD + cmpLow
    }

    /** Any time passes. */
    method Run()
      modifies this`mtime
      ensures mtime >= old(mtime)
    {
      var later: Clock :| mtime <= later;
      mtime := later;
    }

    method ReadHigh() returns (w: Word)
      modifies this`mtime
      ensures mtime >= old(mtime) && w == mtime / WORD
    {
      Run();
      w := mtime / WORD;
    }

    method ReadLow() returns (w: Word)
      modifies this`mtime
      ensures mtime >= old(mtime) && w == mtime % WORD
    {
      Run();
      w := mtime % WORD;
    }

    /** read_mtime: the time it returns is the clock's at some moment of the call, however often it carries. */
    method ReadMtime() returns (r: Clock)
      modifies this`mtime
      ensures old(mtime) <= r <= mtime
    {
      var high := ReadHigh();
      var low := ReadLow();
      ghost var read := mtime;
      var nextHigh := ReadHigh();
      while high != nextHigh
        invariant old(mtime) <= read <= mtime && low == read % WORD && high <= read / WORD <= nextHigh == mtime / WORD
        decreases WORD - high
      {
        high := ReadHigh();
        low := ReadLow();
        read := mtime;
        nextHigh := ReadHigh();
      }
      r := high * WORD + low;
    }

    /** pass_elapsed_periods with the clock running on: the count is the one of a look at the clock at one moment
        of the call, the last read. */
    method PassElapsedPeriods(cmp: nat) returns (periods: nat, ahead: nat, ghost moment: nat)
      modifies this`mtime
      ensures old(mtime) <= moment <= mtime
      ensures periods == Pending(cmp, moment) && ahead == cmp + periods * TICK_COUNTS
    {
      periods, ahead := 0, cmp;
      var now := ReadMtime();
      while now >= ahead
        invariant old(mtime) <= now <= mtime
        invariant ahead == cmp + periods * TICK_COUNTS
        invariant periods > 0 ==> ahead - TICK_COUNTS <= now
        decreases WORD * WORD + TICK_COUNTS - ahead
      {
        ahead := ahead + TICK_COUNTS;
        periods := periods + 1;
        now := ReadMtime();
      }
      moment := now;
      EdgesPassed(cmp, moment, periods);
    }

    method WriteHigh(w: Word)
      modifies this`cmpHigh, this`comparands
      ensures cmpHigh == w && comparands == old(comparands) + [w * WORD + cmpLow]
    {
      cmpHigh := w;
      comparands := comparands + [Comparand()];
    }

    method WriteLow(w: Word)
      modifies this`cmpLow, this`comparands
      ensures cmpLow == w && comparands == old(comparands) + [cmpHigh * WORD + w]
    {
      cmpLow := w;
      comparands := comparands + [Comparand()];
    }

    /** write_mtimecmp: on the way to the new value the register is never below both the old and the new one, so no
        interrupt comes that neither of them asks for. */
    method WriteMtimecmp(value: nat)
      requires value < WORD * WORD
      modifies this`cmpHigh, this`cmpLow, this`comparands
      ensures Comparand() == value
      ensures |comparands| == |old(comparands)| + 3 && comparands[..|old(comparands)|] == old(comparands)
      ensures forall i :: |old(comparands)| <= i < |comparands| ==> comparands[i] >= old(Comparand()) || comparands[i] >= value
    {
      WriteLow(WORD - 1);
      WriteHigh(value / WORD);
      WriteLow(value % WORD);
    }
  }

  /** The count of edges up to a time is the one that leaves the next edge ahead of it and the last one not. */
  lemma EdgesPassed(cmp: nat, now: nat, p: nat)
    requires cmp + p * TICK_COUNTS > now
    requires p > 0 ==> cmp + p * TICK_COUNTS - TICK_COUNTS <= now
    ensures p == Pending(cmp, now)
  {
    PendingIs(cmp, now);
  }
}
