/** kernel/intctl.c and the trap entries of start.S as they are written: registers and tables updated in place. Each
    method is proved to do what module Interrupts says. The locals tkmc_external_interrupt keeps across the call of a
    handler are on the trap stack. */
module InterruptControllers {
  import opened Types
  import opened KernelState
  import I = Interrupts
  import opened Interrupts

  class Controller {
    const handlers: array<Option<Handler>>
    const pri: array<nat>
    const enable: array<set<Bit>>
    var threshold: nat
    var pending: set<Src>
    var claimed: set<Src>
    var ie: bool
    var mtie: bool
    var msie: bool
    var msip: bool
    var depth: nat
    var stack: seq<Frame>
    ghost var log: seq<Event>

    ghost predicate Valid()
      reads this
    {
      handlers.Length == CFN_MAX_INTNO && pri.Length == PLIC_SOURCE_COUNT && enable.Length == ENABLE_WORDS
    }

    ghost function State(): IState
      requires Valid()
      reads this, handlers, pri, enable
    {
      I(handlers[..], pri[..], enable[..], threshold, pending, claimed, ie, mtie, msie, msip, depth, stack, log)
    }

    ghost predicate Sound()
      reads this, handlers, pri, enable
    {
      Valid() && IInv(State()) == true
    }

    /** What the start code makes of a controller found in any state: tkmc_init_intctl, then EI. */
    constructor (registers: Levels, enabled: Words)
      requires registers[0] == 0
      ensures Valid() && State() == Ready()
    {
      handlers := new Option<Handler>[CFN_MAX_INTNO](_ => None);
      pri := new nat[PLIC_SOURCE_COUNT](i requires 0 <= i < PLIC_SOURCE_COUNT => registers[i]);
      enable := new set<Bit>[ENABLE_WORDS](i requires 0 <= i < ENABLE_WORDS => enabled[i]);
      threshold, pending, claimed, stack, log := 0, {}, {}, [], [];
      mtie, msie, msip, depth, ie := true, true, false, 0, false;
      new;
      InitIntctl();
      ie := true;
    }

    /** tkmc_init_intctl, whatever the registers held. Priority 0 is of no source. */
    method InitIntctl()
      requires Valid() && pri[0] == 0
      modifies this`threshold, handlers, pri, enable
      ensures Valid() && State() == old(State()).(handlers := Ready().handlers, pri := Ready().pri,
                                                  enable := Ready().enable, threshold := 0)
    {
      for intno := 0 to CFN_MAX_INTNO
        modifies handlers
        invariant forall k :: 0 <= k < intno ==> handlers[k] == None
      {
        handlers[intno] := None;
      }
      for src := 1 to PLIC_SOURCE_COUNT
        modifies pri
        invariant forall k :: 0 <= k < src ==> pri[k] == 0
      {
        pri[src] := 0;
      }
      for word := 0 to ENABLE_WORDS
        modifies enable
        invariant forall k :: 0 <= k < word ==> enable[k] == {}
      {
        enable[word] := {};
      }
      threshold := 0;
      assert handlers[..] == Ready().handlers && pri[..] == Ready().pri && enable[..] == Ready().enable;
    }

    method IsEnabled(x: Src) returns (on: bool)
      requires Valid()
      ensures on == IsOn(State().enable, x)
    {
      on := x % 32 in enable[x / 32];
    }

    method SetEnabled(x: Src, on: bool)
      requires Valid()
      modifies enable
      ensures State() == old(State()).(enable := SetOn(old(State()).enable, x, on))
    {
      var word := enable[x / 32];
      enable[x / 32] := if on then word + {x % 32} else word - {x % 32};
    }

    method TkDefInt(n: int, pk: Option<IntPacket>) returns (ercd: ER)
      requires Valid()
      modifies handlers
      ensures (State(), ercd) == I.TkDefInt(old(State()), n, pk)
    {
      if !ie || depth > 0 {
        ercd := E_CTX;
      } else if !IsIntno(n) {
        ercd := E_PAR;
      } else if pk.None? {
        handlers[n] := None;
        ercd := E_OK;
      } else if pk.value.intatr != {TA_HLNG} {
        ercd := E_RSATR;
      } else if pk.value.inthdr.None? {
        ercd := E_PAR;
      } else {
        handlers[n] := pk.value.inthdr;
        ercd := E_OK;
      }
    }

    method EnableInt(n: int, level: int)
      requires Valid()
      modifies pri, enable
      ensures State() == I.EnableInt(old(State()), n, level)
    {
      if !IsIntno(n) || level < 1 || level > PLIC_MAX_PRIORITY {
        return;
      }
      pri[n] := level;
      SetEnabled(n, true);
    }

    method DisableInt(n: int)
      requires Valid()
      modifies enable
      ensures State() == I.DisableInt(old(State()), n)
    {
      if !IsIntno(n) {
        return;
      }
      SetEnabled(n, false);
    }

    /** A read of the claim register. */
    method Claim() returns (c: Src)
      requires Valid()
      modifies this`pending, this`claimed
      ensures Valid() && c == Best(old(State()), PLIC_SOURCE_COUNT)
      ensures State() == if c == 0 then old(State()) else Take(old(State()), c)
    {
      c := Best(I(handlers[..], pri[..], enable[..], threshold, pending, claimed, ie, mtie, msie, msip, depth, stack, []),
                PLIC_SOURCE_COUNT);
      SameBest(State(), State().(log := []), PLIC_SOURCE_COUNT);
      if c != 0 {
        pending := pending - {c};
        claimed := claimed + {c};
      }
    }

    /** A write of the completion register. */
    method WriteCompletion(x: Src)
      requires Valid()
      modifies this`claimed, this`log
      ensures Valid() && State() == Complete(old(State()), x)
    {
      var on := IsEnabled(x);
      if on {
        claimed := claimed - {x};
      }
      log := log + [Completed(x, on)];
    }

    /** The end of tkmc_external_interrupt. */
    method FinishSource(x: Src, handled: bool)
      requires Valid()
      modifies this`claimed, this`log, enable
      ensures Valid() && State() == Completion(old(State()), x, handled)
    {
      var on := IsEnabled(x);
      var staysOn := handled && on;
      SetEnabled(x, true);
      WriteCompletion(x);
      if !staysOn {
        SetEnabled(x, false);
      }
    }

    /** MSIP is read, and if it is up, cleared and served: schedule() is called from the outermost trap only. */
    method SwitchIfAsked()
      requires Valid() && depth == 1
      modifies this`msip, this`log
      ensures Valid() && State() == ServeSwitch(old(State()))
    {
      if msip {
        msip := false;
        log := log + [Scheduled(depth)];
      }
    }

    /** external_interrupt up to the call of tkmc_external_interrupt; the frame keeps the mie bits it returns. */
    method EnterExternal() returns (timer: bool, software: bool)
      requires Valid()
      modifies this`ie, this`depth, this`mtie, this`msie
      ensures Valid() && State() == Entry(old(State())) && timer == old(mtie) && software == old(msie)
    {
      timer, software := mtie, msie;
      ie := false;
      depth := depth + 1;
      if depth == 1 {
        mtie, msie := false, false;
      }
    }

    /** A claimed source up to the call of its handler, which is returned, or to mret if it has none. */
    method ServeSource(intno: Src, timer: bool, software: bool) returns (handler: Option<Handler>)
      requires Valid() && depth > 0
      modifies this, enable
      ensures Valid()
      ensures var k := old(State());
              handler == HandlerOf(k, intno) &&
              State() == if handler.Some? then
                           k.(threshold := k.pri[intno], stack := k.stack + [Frame(intno, k.threshold, k.pri[intno], timer, software)])
                         else Exit(Completion(k, intno, false), timer, software)
    {
      handler := if IsIntno(intno) then handlers[intno] else None;
      if handler.Some? {
        stack := stack + [Frame(intno, threshold, pri[intno], timer, software)];
        threshold := pri[intno];
      } else {
        FinishSource(intno, false);
        LeaveExternal(timer, software);
      }
    }

    /** An external interrupt up to the call of a handler, which is returned, or to mret if there is none to call. */
    method ExternalInterrupt() returns (handler: Option<Handler>)
      requires Valid() && ie
      modifies this, enable
      ensures Valid() && State() == Enter(old(State())) && handler == Called(old(State()))
    {
      var timer, software := EnterExternal();
      var intno := Claim();
      if intno == 0 {
        LeaveExternal(timer, software);
        return None;
      }
      handler := ServeSource(intno, timer, software);
    }

    /** The handler has returned, with interrupts off. */
    method HandlerReturned()
      requires Valid() && stack != [] && depth > 0 && !ie
      modifies this, enable
      ensures Valid() && State() == Return(old(State()))
    {
      var f := stack[|stack| - 1];
      stack := stack[..|stack| - 1];
      threshold := f.threshold;
      FinishSource(f.src, true);
      LeaveExternal(f.mtie, f.msie);
    }

    method LeaveExternal(timer: bool, software: bool)
      requires Valid() && depth > 0
      modifies this`msip, this`log, this`mtie, this`msie, this`depth, this`ie
      ensures Valid() && State() == Exit(old(State()), timer, software)
    {
      if depth == 1 {
        SwitchIfAsked();
        mtie, msie := mtie || timer, msie || software;
      }
      depth := depth - 1;
      ie := true;
    }

    /** timer_interrupt, in which the timer handler asks for a switch or does not; that it is not nested is what lets
        it do without a branch on the depth. */
    method TimerInterrupt(asks: bool)
      requires Sound() && ie && mtie
      modifies this`ie, this`depth, this`msip, this`log
      ensures Sound() && State() == ShortTrap(old(State()), asks)
      ensures !msip && log == old(log) + if asks || old(msip) then [Scheduled(1)] else []
    {
      StepKeeps(State(), Timer(asks));
      ShortTrapIs(State(), asks);
      Trap(asks);
    }

    method Trap(asks: bool)
      requires Valid() && depth == 0
      modifies this`ie, this`depth, this`msip, this`log
      ensures Valid() && State() == ShortTrap(old(State()), asks)
    {
      ie := false;
      depth := depth + 1;
      msip := msip || asks;
      SwitchIfAsked();
      depth := depth - 1;
      ie := true;
    }

    /** mtrap_handler: it always switches, as it is the request itself that caused it. */
    method SoftwareInterrupt()
      requires Sound() && ie && msie && msip
      modifies this`ie, this`depth, this`msip, this`log
      ensures Sound() && State() == ShortTrap(old(State()), false) && !msip && log == old(log) + [Scheduled(1)]
    {
      StepKeeps(State(), Software);
      ie := false;
      depth := depth + 1;
      msip := false;
      log := log + [Scheduled(depth)];
      depth := depth - 1;
      ie := true;
    }
  }
}
