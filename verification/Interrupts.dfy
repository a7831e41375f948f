/** The interrupt controller driver and the three trap entries: sources claimed and completed, handlers that nest. The
    handler of a source is code outside the kernel: what it may do between the claim and the completion is any number
    of the other steps. */
module Interrupts {
  import opened Types
  import opened KernelState

  const CFN_MAX_INTNO: nat := 32
  const PLIC_SOURCE_COUNT: nat := 96
  const PLIC_MAX_PRIORITY: nat := 7
  const ENABLE_WORDS: nat := (PLIC_SOURCE_COUNT + 31) / 32

  /** A source of the PLIC. 0 is none. */
  type Src = x: nat | x < PLIC_SOURCE_COUNT

  type Handler = nat // the address of a handler

  type Handlers = h: seq<Option<Handler>> | |h| == CFN_MAX_INTNO witness seq(CFN_MAX_INTNO, _ => None)
  type Levels = p: seq<nat> | |p| == PLIC_SOURCE_COUNT witness seq(PLIC_SOURCE_COUNT, _ => 0)

  /** The enable registers: the bits of 32 sources share a word. */
  type Words = e: seq<set<Bit>> | |e| == ENABLE_WORDS witness seq(ENABLE_WORDS, _ => {})

  /** A trap whose handler has not returned: the source it serves, the threshold it found, the priority it put there,
      and the mie bits it found. */
  datatype Frame = Frame(src: Src, threshold: nat, level: nat, mtie: bool, msie: bool)

  /** What was written to the completion register, and when schedule() was called. */
  datatype Event = Completed(src: Src, enabled: bool) | Scheduled(depth: nat)

  datatype IState = I(
    handlers: Handlers, pri: Levels, enable: Words, threshold: nat, pending: set<Src>, claimed: set<Src>,
    ie: bool, mtie: bool, msie: bool, msip: bool, depth: nat, stack: seq<Frame>, log: seq<Event>)

  predicate IsIntno(n: int) {
    1 <= n < CFN_MAX_INTNO
  }

  predicate IsOn(e: Words, x: Src) {
    x % 32 in e[x / 32]
  }

  /** set_enabled: read, modify and write of the word that holds the source's bit. */
  function SetOn(e: Words, x: Src, on: bool): Words {
    var word := e[x / 32];
    e[x / 32 := if on then word + {x % 32} else word - {x % 32}]
  }

  /** The other bits of the word stay. */
  lemma SetOnIs(e: Words, x: Src, on: bool)
    ensures forall y: Src :: IsOn(SetOn(e, x, on), y) == if y == x then on else IsOn(e, y)
  {
    forall y: Src ensures IsOn(SetOn(e, x, on), y) == if y == x then on else IsOn(e, y) {
      assert y == x <==> y / 32 == x / 32 && y % 32 == x % 32;
    }
  }

  lemma SetOnBack(e: Words, x: Src)
    ensures SetOn(SetOn(e, x, true), x, IsOn(e, x)) == e
  {
    var w, b := e[x / 32], x % 32;
    assert if b in w then (w + {b}) + {b} == w else (w + {b}) - {b} == w;
  }

  /* ---- the PLIC ---- */

  predicate Claimable(s: IState, x: Src) {
    x in s.pending && IsOn(s.enable, x) && s.pri[x] > 0
  }

  /** The external interrupt is up: a source that can be claimed is above the threshold. */
  ghost predicate Raised(s: IState) {
    exists x: Src :: Claimable(s, x) && s.pri[x] > s.threshold
  }

  /** The claim register, over the sources below n: the highest priority that can be claimed, the lowest number of
      equals, or 0. The threshold has no part in it. */
  function Best(s: IState, n: nat): (c: Src)
    requires n <= PLIC_SOURCE_COUNT
    ensures c != 0 ==> c < n && Claimable(s, c)
    ensures forall x: Src :: 0 < x < n && Claimable(s, x) ==> c != 0 && s.pri[x] <= s.pri[c]
    ensures forall x: Src :: 0 < x < c && Claimable(s, x) ==> s.pri[x] < s.pri[c]
  {
    if n <= 1 then 0
    else
      var c := Best(s, n - 1);
      var x: Src := n - 1;
      if Claimable(s, x) && (c == 0 || s.pri[x] > s.pri[c]) then x else c
  }

  function Take(s: IState, c: Src): IState {
    s.(pending := s.pending - {c}, claimed := s.claimed + {c})
  }

  /** The completion register: the PLIC ignores the completion of a source that is not enabled. */
  function Complete(s: IState, x: Src): IState {
    var on := IsOn(s.enable, x);
    s.(claimed := if on then s.claimed - {x} else s.claimed, log := s.log + [Completed(x, on)])
  }

  /* ---- intctl.c ---- */

  function HandlerOf(s: IState, x: Src): Option<Handler> {
    if IsIntno(x) then s.handlers[x] else None
  }

  /** The end of tkmc_external_interrupt: the completion, with the source enabled for it. */
  function Completion(s: IState, x: Src, handled: bool): IState {
    var staysOn := handled && IsOn(s.enable, x);
    var c := Complete(s.(enable := SetOn(s.enable, x, true)), x);
    if staysOn then c else c.(enable := SetOn(c.enable, x, false))
  }

  /** tk_def_int with a valid packet, or with none. */
  function DefInt(s: IState, n: int, h: Option<Handler>): (IState, ER) {
    if !s.ie || s.depth > 0 then (s, E_CTX)
    else if !IsIntno(n) then (s, E_PAR)
    else (s.(handlers := s.handlers[n := h]), E_OK)
  }

  // The interrupt attributes: TA_HLNG is bit 0.
  const TA_HLNG: Bit := 0

  datatype IntPacket = IntPacket(intatr: Ptn, inthdr: Option<Handler>)

  /** tk_def_int */
  function TkDefInt(s: IState, n: int, pk: Option<IntPacket>): (IState, ER) {
    if !s.ie || s.depth > 0 then (s, E_CTX)
    else if !IsIntno(n) then (s, E_PAR)
    else match pk
         case None => DefInt(s, n, None)
         case Some(k) =>
           if k.intatr != {TA_HLNG} then (s, E_RSATR)
           else if k.inthdr.None? then (s, E_PAR)
           else DefInt(s, n, k.inthdr)
  }

  function EnableInt(s: IState, n: int, level: int): IState {
    if !IsIntno(n) || level < 1 || level > PLIC_MAX_PRIORITY then s
    else s.(pri := s.pri[n := level], enable := SetOn(s.enable, n, true))
  }

  function DisableInt(s: IState, n: int): IState {
    if !IsIntno(n) then s else s.(enable := SetOn(s.enable, n, false))
  }

  /* ---- start.S ---- */

  /** A request is cleared and served: schedule(). */
  function ServeSwitch(s: IState): IState {
    if s.msip then s.(msip := false, log := s.log + [Scheduled(s.depth)]) else s
  }

  /** external_interrupt after the C part. Only the outermost trap serves a switch and puts the mie bits back. */
  function Exit(s: IState, mtie: bool, msie: bool): IState
    requires s.depth > 0
  {
    var d := s.depth;
    var t := if d == 1 then ServeSwitch(s).(mtie := s.mtie || mtie, msie := s.msie || msie) else s;
    t.(depth := d - 1, ie := true)
  }

  /** external_interrupt up to the claim: only the outermost trap masks the timer and software interrupts. */
  function Entry(s: IState): IState {
    var d := s.(ie := false, depth := s.depth + 1);
    if d.depth == 1 then d.(mtie := false, msie := false) else d
  }

  /** An external interrupt up to the call of the handler, or to its end if none is called. */
  function Enter(s: IState): IState {
    var e := Entry(s);
    var c := Best(e, PLIC_SOURCE_COUNT);
    if c == 0 then Exit(e, s.mtie, s.msie)
    else
      var k := Take(e, c);
      if HandlerOf(k, c).Some? then
        k.(threshold := k.pri[c], stack := k.stack + [Frame(c, k.threshold, k.pri[c], s.mtie, s.msie)])
      else Exit(Completion(k, c, false), s.mtie, s.msie)
  }

  /** The handler that an external interrupt calls. */
  function Called(s: IState): Option<Handler> {
    var c := Best(Entry(s), PLIC_SOURCE_COUNT);
    if c == 0 then None else HandlerOf(s, c)
  }

  function Top(s: IState): Frame
    requires s.stack != []
  {
    s.stack[|s.stack| - 1]
  }

  /** The rest, once the handler has returned. */
  function Return(s: IState): IState
    requires s.stack != [] && s.depth > 0
  {
    var f := Top(s);
    Exit(Completion(s.(threshold := f.threshold, stack := s.stack[..|s.stack| - 1]), f.src, true), f.mtie, f.msie)
  }

  /** timer_interrupt, whose handler may ask for a switch, and mtrap_handler, whose cause is the request. */
  function ShortTrap(s: IState, asks: bool): IState {
    var d := s.depth;
    ServeSwitch(s.(ie := false, depth := d + 1, msip := s.msip || asks)).(depth := d, ie := true)
  }

  /* ---- runs ---- */

  datatype IStep =
    | Raise(src: Src)                    // a device asks
    | External | HandlerReturns | Timer(asks: bool) | Software
    | SetIe(on: bool)                    // DI and EI of the code that runs, task or handler
    | AskSwitch                          // dispatch()
    | Enable(n: int, level: int) | Disable(n: int) | Define(n: int, h: Option<Handler>)

  /** When a step can happen. A handler turns interrupts off again before it returns. */
  ghost predicate CanStep(s: IState, step: IStep) {
    match step
    case External => s.ie && Raised(s)
    case HandlerReturns => s.stack != [] && s.depth > 0 && !s.ie
    case Timer(_) => s.ie && s.mtie
    case Software => s.ie && s.msie && s.msip
    case _ => true
  }

  /** A gateway holds a source back while it is claimed. */
  function Do(s: IState, step: IStep): IState
    requires step == HandlerReturns ==> s.stack != [] && s.depth > 0
  {
    match step
    case Raise(x) => if x == 0 || x in s.claimed then s else s.(pending := s.pending + {x})
    case External => Enter(s)
    case HandlerReturns => Return(s)
    case Timer(asks) => ShortTrap(s, asks)
    case Software => ShortTrap(s, false)
    case SetIe(on) => s.(ie := on)
    case AskSwitch => s.(msip := true)
    case Enable(n, level) => EnableInt(s, n, level)
    case Disable(n) => DisableInt(s, n)
    case Define(n, h) => DefInt(s, n, h).0
  }

  /** After tkmc_init_intctl and the first EI. */
  function Ready(): IState {
    I(seq(CFN_MAX_INTNO, _ => None), seq(PLIC_SOURCE_COUNT, _ => 0), seq(ENABLE_WORDS, _ => {}), 0, {}, {},
      true, true, true, false, 0, [], [])
  }

  ghost predicate IsRun(states: seq<IState>, steps: seq<IStep>) {
    && |states| == |steps| + 1 && states[0] == Ready()
    && forall i :: 0 <= i < |steps| ==> CanStep(states[i], steps[i]) && states[i + 1] == Do(states[i], steps[i])
  }

  /* ---- the invariant ---- */

  function LevelBelow(st: seq<Frame>, i: nat): nat
    requires i <= |st|
  {
    if i == 0 then 0 else st[i - 1].level
  }

  /** Each handler found the threshold its outer one set, and raised it. */
  ghost predicate Chained(st: seq<Frame>) {
    forall i: nat :: i < |st| ==> LevelBelow(st, i) == st[i].threshold < st[i].level <= PLIC_MAX_PRIORITY
  }

  ghost predicate Serving(st: seq<Frame>, x: Src) {
    exists i :: 0 <= i < |st| && st[i].src == x
  }

  ghost predicate SourcesApart(st: seq<Frame>) {
    forall i, j :: 0 <= i < j < |st| ==> st[i].src != st[j].src
  }

  /** Completions were written with the source enabled, and schedule() ran at depth 1. */
  ghost predicate LogOk(log: seq<Event>) {
    forall e :: e in log ==> match e case Completed(_, on) => on case Scheduled(d) => d == 1
  }

  ghost predicate IInv(s: IState) {
    && Chained(s.stack) && SourcesApart(s.stack) && LogOk(s.log)
    && s.threshold == LevelBelow(s.stack, |s.stack|)
    && s.depth == |s.stack|
    && (forall x: Src :: x in s.claimed <==> Serving(s.stack, x))
    && s.pending !! s.claimed && 0 !in s.pending
    && (forall x: Src :: s.pri[x] <= PLIC_MAX_PRIORITY)
    && (if s.stack == [] then s.mtie && s.msie else !s.mtie && !s.msie && s.stack[0].mtie && s.stack[0].msie)
  }

  /** The thresholds of the handlers on the trap stack strictly increase, so there are at most seven. */
  lemma {:induction false} LevelsIncrease(st: seq<Frame>, i: nat, j: nat)
    requires Chained(st) && i < j < |st|
    ensures st[i].level < st[j].level
    decreases j
  {
    var k := j - 1;
    assert LevelBelow(st, j) == st[k].level;
    if i < k { LevelsIncrease(st, i, k); }
  }

  lemma {:induction false} DepthBounded(st: seq<Frame>, n: nat)
    requires Chained(st) && n <= |st|
    ensures n <= LevelBelow(st, n) <= PLIC_MAX_PRIORITY
  {
    if n > 0 {
      DepthBounded(st, n - 1);
      assert LevelBelow(st, n - 1) == st[n - 1].threshold;
    }
  }

  /** When the interrupt is up, the claim finds a source, and one above the threshold. */
  lemma RaisedClaims(s: IState, c: Src)
    requires IInv(s) && Raised(s) && c == Best(s, PLIC_SOURCE_COUNT)
    ensures c != 0 && c in s.pending && s.threshold < s.pri[c] && c !in s.claimed
  {
    var x: Src :| Claimable(s, x) && s.pri[x] > s.threshold;
  }

  lemma {:induction false} SameBest(s: IState, r: IState, n: nat)
    requires n <= PLIC_SOURCE_COUNT && r.pending == s.pending && r.enable == s.enable && r.pri == s.pri
    ensures Best(r, n) == Best(s, n)
  {
    if n > 1 { SameBest(s, r, n - 1); }
  }

  /** A completion is never ignored, and the enable bits are as they were, or off for a source without a handler. */
  lemma CompletionIs(s: IState, x: Src, handled: bool)
    ensures var e := if handled then s.enable else Completion(s, x, handled).enable;
            Completion(s, x, handled) == s.(enable := e, claimed := s.claimed - {x}, log := s.log + [Completed(x, true)])
    ensures !handled ==> forall y: Src :: IsOn(Completion(s, x, handled).enable, y) == (y != x && IsOn(s.enable, y))
  {
    SetOnIs(s.enable, x, true);
    SetOnBack(s.enable, x);
    SetOnIs(SetOn(s.enable, x, true), x, false);
  }

  /** A source without a handler is switched off and no longer claimed, and nothing else is left of the trap. */
  ghost predicate SwitchedOff(s: IState, r: IState, c: Src) {
    && (forall y: Src :: IsOn(r.enable, y) == (y != c && IsOn(s.enable, y)))
    && r == s.(pending := s.pending - {c}, enable := r.enable, msip := s.msip && s.depth > 0, log := r.log)
    && r.log == s.log + [Completed(c, true)] + if s.msip && s.depth == 0 then [Scheduled(1)] else []
  }

  lemma UnhandledIs(s: IState, c: Src)
    requires s.ie && c !in s.claimed && (s.depth == 0 ==> s.mtie && s.msie)
    ensures SwitchedOff(s, Exit(Completion(Take(Entry(s), c), c, false), s.mtie, s.msie), c)
  {
    var k := Take(Entry(s), c);
    CompletionIs(k, c, false);
    assert k.claimed - {c} == s.claimed;
    var m := Completion(k, c, false);
    assert m.log == s.log + [Completed(c, true)];
  }

  /** With a handler the source is the new innermost. */
  function Served(s: IState, c: Src): IState {
    s.(ie := false, depth := s.depth + 1, mtie := false, msie := false, pending := s.pending - {c}, claimed := s.claimed + {c},
       threshold := s.pri[c], stack := s.stack + [Frame(c, s.threshold, s.pri[c], s.mtie, s.msie)])
  }

  /** What an external interrupt does: its source is above every handler it interrupts. */
  lemma EnterIs(s: IState, c: Src)
    requires IInv(s) && s.ie && Raised(s) && c == Best(s, PLIC_SOURCE_COUNT)
    ensures c in s.pending && s.threshold < s.pri[c] && !Serving(s.stack, c)
    ensures if HandlerOf(s, c).Some? then Enter(s) == Served(s, c) else SwitchedOff(s, Enter(s), c)
    ensures Called(s) == HandlerOf(s, c)
  {
    RaisedClaims(s, c);
    SameBest(s, Entry(s), PLIC_SOURCE_COUNT);
    if HandlerOf(s, c).None? { UnhandledIs(s, c); }
  }

  /** What the return of a handler does: the outer threshold is back, its source can be raised again, the enable bits
      are as the handler left them; and at the outermost exit a switch asked for is made and the mie bits are back. */
  lemma ReturnIs(s: IState)
    requires IInv(s) && s.stack != [] && !s.ie
    ensures var r := Return(s);
            var n: nat := |s.stack| - 1;
            && r.stack == s.stack[..n] && r.depth == n && r.threshold == LevelBelow(s.stack, n)
            && r.claimed == s.claimed - {Top(s).src} && r.ie && r.mtie == r.msie == (n == 0) && r.msip == (s.msip && n > 0)
            && r == s.(stack := r.stack, depth := r.depth, threshold := r.threshold, claimed := r.claimed, ie := true,
                       mtie := r.mtie, msie := r.msie, msip := r.msip, log := r.log)
            && r.log == s.log + [Completed(Top(s).src, true)] + if s.msip && n == 0 then [Scheduled(1)] else []
  {
    hide Completion;
    var n: nat := |s.stack| - 1;
    var u := s.(threshold := Top(s).threshold, stack := s.stack[..n]);
    CompletionIs(u, Top(s).src, true);
  }

  lemma EnterKeeps(s: IState)
    requires IInv(s) && s.ie && Raised(s)
    ensures IInv(Enter(s))
  {
    var c := Best(s, PLIC_SOURCE_COUNT);
    EnterIs(s, c);
    if HandlerOf(s, c).Some? {
      ServedKeeps(s, c);
    } else {
      SwitchedOffKeeps(s, Enter(s), c);
    }
  }

  lemma ServedKeeps(s: IState, c: Src)
    requires IInv(s) && s.threshold < s.pri[c] && !Serving(s.stack, c)
    ensures IInv(Served(s, c))
  {
    Pushed(s.stack, Frame(c, s.threshold, s.pri[c], s.mtie, s.msie));
  }

  lemma SwitchedOffKeeps(s: IState, r: IState, c: Src)
    requires IInv(s) && SwitchedOff(s, r, c)
    ensures IInv(r)
  {
  }

  lemma Pushed(st: seq<Frame>, f: Frame)
    requires Chained(st) && SourcesApart(st) && !Serving(st, f.src) && LevelBelow(st, |st|) == f.threshold < f.level <= PLIC_MAX_PRIORITY
    ensures Chained(st + [f]) && SourcesApart(st + [f])
    ensures forall x: Src :: Serving(st + [f], x) <==> Serving(st, x) || x == f.src
  {
    var t := st + [f];
    forall i: nat | i < |t| ensures LevelBelow(t, i) == t[i].threshold < t[i].level <= PLIC_MAX_PRIORITY {
      assert LevelBelow(t, i) == LevelBelow(st, i);
    }
    forall x: Src ensures Serving(t, x) <==> Serving(st, x) || x == f.src {
      if Serving(st, x) {
        var i :| 0 <= i < |st| && st[i].src == x;
        assert t[i].src == x;
      }
      if x == f.src { assert t[|st|].src == x; }
    }
  }

  lemma Popped(st: seq<Frame>, n: nat)
    requires Chained(st) && SourcesApart(st) && |st| == n + 1
    ensures Chained(st[..n]) && SourcesApart(st[..n]) && LevelBelow(st[..n], n) == LevelBelow(st, n)
    ensures forall x: Src :: Serving(st[..n], x) <==> Serving(st, x) && x != st[n].src
  {
    var t := st[..n];
    forall i: nat | i < n ensures LevelBelow(t, i) == t[i].threshold < t[i].level <= PLIC_MAX_PRIORITY {
      assert LevelBelow(t, i) == LevelBelow(st, i);
    }
    forall x: Src ensures Serving(t, x) <==> Serving(st, x) && x != st[n].src {
      if Serving(st, x) && x != st[n].src {
        var i :| 0 <= i < |st| && st[i].src == x;
        assert t[i].src == x;
      }
      if Serving(t, x) {
        var i :| 0 <= i < n && t[i].src == x;
        assert st[i].src == x;
      }
    }
  }

  lemma ReturnKeeps(s: IState)
    requires IInv(s) && s.stack != [] && !s.ie
    ensures IInv(Return(s))
  {
    ReturnIs(s);
    hide Return;
    Popped(s.stack, |s.stack| - 1);
  }

  /** A definition is a step of the machine or changes nothing; it succeeds exactly outside handlers and critical sections,
      for a good number, with no packet or one for a handler in a high-level language; and then that handler is the one
      called for the number. */
  lemma DefinitionIs(s: IState, n: int, pk: Option<IntPacket>)
    ensures var (r, e) := TkDefInt(s, n, pk);
            && (e == E_OK <==>
                  s.ie && s.depth == 0 && IsIntno(n) && (pk.None? || (pk.value.intatr == {TA_HLNG} && pk.value.inthdr.Some?)))
            && (e != E_OK ==> r == s)
            && (e == E_OK ==> var h := if pk.None? then None else pk.value.inthdr;
                  r == Do(s, Define(n, h)) && forall x: Src :: HandlerOf(r, x) == if x == n then h else HandlerOf(s, x))
  {
  }

  /** Every step keeps the invariant. */
  lemma StepKeeps(s: IState, step: IStep)
    requires IInv(s) && CanStep(s, step)
    ensures IInv(Do(s, step))
  {
    match step
    case External => EnterKeeps(s);
    case HandlerReturns => ReturnKeeps(s);
    case _ =>
  }

  /** Every state of every run satisfies the invariant. */
  lemma {:induction false} RunsKeep(states: seq<IState>, steps: seq<IStep>, i: nat)
    requires IsRun(states, steps) && i < |states|
    ensures IInv(states[i])
  {
    if i > 0 {
      var j: nat := i - 1;
      RunsKeep(states, steps, j);
      StepKeeps(states[j], steps[j]);
    }
  }

  /** The nesting theorem: in every state of every run the thresholds on the trap stack strictly increase, the current
      threshold is the innermost handler's, at most seven handlers are nested, every completion so far was taken by
      the PLIC, nothing is claimed but what a handler is serving, and schedule() ran only at depth 1. */
  lemma Nesting(states: seq<IState>, steps: seq<IStep>, k: nat)
    requires IsRun(states, steps) && k < |states|
    ensures var s := states[k];
            && (forall i, j :: 0 <= i < j < |s.stack| ==> s.stack[i].level < s.stack[j].level)
            && s.threshold == (if s.stack == [] then 0 else Top(s).level)
            && s.depth == |s.stack| <= PLIC_MAX_PRIORITY
            && LogOk(s.log) && (forall x: Src :: x in s.claimed ==> Serving(s.stack, x))
            && (s.depth == 0 ==> s.mtie && s.msie)
  {
    RunsKeep(states, steps, k);
    var s := states[k];
    forall i, j | 0 <= i < j < |s.stack| ensures s.stack[i].level < s.stack[j].level {
      LevelsIncrease(s.stack, i, j);
    }
    DepthBounded(s.stack, |s.stack|);
  }

  /** A handler is interrupted only by a source of a higher priority than the one it was called with, and never by the
      timer or a switch. */
  lemma OnlyHigherInterrupts(s: IState, step: IStep)
    requires IInv(s) && CanStep(s, step) && s.stack != [] && (step == External || step.Timer? || step == Software)
    ensures step == External && s.pri[Best(s, PLIC_SOURCE_COUNT)] > Top(s).level
  {
    if step == External { EnterIs(s, Best(s, PLIC_SOURCE_COUNT)); }
  }

  lemma ShortTrapKeeps(s: IState, asks: bool)
    ensures ShortTrap(s, asks).stack == s.stack
  {
  }

  /** What a timer or software trap does, taken outside any handler: the switch that was asked for, before it or by the
      timer handler, is made, and nothing else is left of it. */
  lemma ShortTrapIs(s: IState, asks: bool)
    requires IInv(s) && s.ie && (s.mtie || s.msie)
    ensures ShortTrap(s, asks) == s.(msip := false, log := s.log + if asks || s.msip then [Scheduled(1)] else [])
  {
  }

  /** Something asks for a switch in a step, or has done so before. */
  predicate Asked(s: IState, step: IStep) {
    s.msip || step == AskSwitch || step == Timer(true)
  }

  /** The step is a trap that has left to code outside every handler. */
  predicate LeavesTraps(step: IStep, r: IState) {
    (step == External || step == HandlerReturns || step.Timer? || step == Software) && r.stack == []
  }

  /** The step r of s adds l to the log. */
  ghost predicate Adds(s: IState, r: IState, l: seq<Event>) {
    r.log == s.log + l
  }

  /** How often the events call schedule() at depth 1. */
  function Calls(l: seq<Event>): nat {
    multiset(l)[Scheduled(1)]
  }

  /** A request is served at most once, and is pending until then; a trap leaves none to code outside every handler. */
  ghost predicate ServesOnce(s: IState, step: IStep, r: IState) {
    && s.log <= r.log
    && (var calls := Calls(r.log[|s.log|..]);
        calls <= 1 && r.msip == (Asked(s, step) && calls == 0) && (calls == 1 ==> Asked(s, step)) && (LeavesTraps(step, r) ==> !r.msip))
  }

  lemma AddedServes(s: IState, step: IStep, r: IState, l: seq<Event>)
    requires Adds(s, r, l) && Calls(l) <= 1 && r.msip == (Asked(s, step) && Calls(l) == 0) && (Calls(l) == 1 ==> Asked(s, step))
    requires LeavesTraps(step, r) ==> !r.msip
    ensures ServesOnce(s, step, r)
  {
    assert r.log[|s.log|..] == l;
  }

  lemma ExternalServes(s: IState)
    requires IInv(s) && CanStep(s, External)
    ensures ServesOnce(s, External, Enter(s))
  {
    var c := Best(s, PLIC_SOURCE_COUNT);
    EnterIs(s, c);
    hide Enter, Best, LeavesTraps, ServesOnce;
    if HandlerOf(s, c).Some? {
      AddedServes(s, External, Enter(s), []) by { ServedLeaves(s, c); }
    } else {
      SwitchedOffLeaves(s, Enter(s), c);
    }
  }

  lemma ServedLeaves(s: IState, c: Src)
    ensures Adds(s, Served(s, c), []) && Served(s, c).msip == s.msip && !LeavesTraps(External, Served(s, c))
  {
  }

  lemma SwitchedOffLeaves(s: IState, r: IState, c: Src)
    requires IInv(s) && SwitchedOff(s, r, c)
    ensures ServesOnce(s, External, r)
  {
    var l := [Completed(c, true)] + if s.msip && s.depth == 0 then [Scheduled(1)] else [];
    assert r.log == s.log + l;
    assert Calls(l) == if s.msip && s.depth == 0 then 1 else 0;
    hide ServesOnce, Calls;
    AddedServes(s, External, r, l);
  }

  lemma ReturnServes(s: IState)
    requires IInv(s) && CanStep(s, HandlerReturns)
    ensures ServesOnce(s, HandlerReturns, Return(s))
  {
    ReturnIs(s);
    var l := [Completed(Top(s).src, true)] + if s.msip && |s.stack| == 1 then [Scheduled(1)] else [];
    assert Return(s).log == s.log + l;
    assert Calls(l) == if s.msip && |s.stack| == 1 then 1 else 0;
    hide Return, ServesOnce, IInv, Calls;
    AddedServes(s, HandlerReturns, Return(s), l);
  }

  lemma ShortTrapServes(s: IState, step: IStep, asks: bool)
    requires IInv(s) && CanStep(s, step) && (step == Timer(asks) || (step == Software && !asks))
    ensures ServesOnce(s, step, ShortTrap(s, asks))
  {
    ShortTrapIs(s, asks);
    hide ShortTrap, ServesOnce, IInv;
    AddedServes(s, step, ShortTrap(s, asks), if asks || s.msip then [Scheduled(1)] else []);
  }

  /** No switch is lost and none is made twice: in every step one that is asked for is pending until schedule() is called,
      which happens at most once in a step, only if it was asked for, and at the latest where a trap returns to code
      outside every handler. */
  lemma SwitchServedOnce(s: IState, step: IStep)
    requires IInv(s) && CanStep(s, step)
    ensures ServesOnce(s, step, Do(s, step))
  {
    hide IInv, ServesOnce, Enter, Return, ShortTrap;
    match step
    case External => ExternalServes(s);
    case HandlerReturns => ReturnServes(s);
    case Timer(asks) => ShortTrapServes(s, step, asks);
    case Software => ShortTrapServes(s, step, false);
    case _ => QuietServes(s, step);
  }

  lemma QuietServes(s: IState, step: IStep)
    requires !(step == External || step == HandlerReturns || step.Timer? || step == Software)
    ensures ServesOnce(s, step, Do(s, step))
  {
    hide ServesOnce;
    AddedServes(s, step, Do(s, step), []);
  }

  /** tkmc_enable_int: for a good number and level the source has that priority and is on; no other source is touched. */
  lemma EnableIs(s: IState, n: int, level: int)
    ensures var r := EnableInt(s, n, level);
            if 1 <= n < CFN_MAX_INTNO && 1 <= level <= PLIC_MAX_PRIORITY then
              && r == s.(pri := r.pri, enable := r.enable)
              && forall x: Src :: r.pri[x] == (if x == n then level else s.pri[x]) && IsOn(r.enable, x) == (x == n || IsOn(s.enable, x))
            else r == s
  {
    if IsIntno(n) { SetOnIs(s.enable, n, true); }
  }

  /** tkmc_disable_int: for a good number the source is off; no other source is touched. */
  lemma DisableIs(s: IState, n: int)
    ensures var r := DisableInt(s, n);
            if 1 <= n < CFN_MAX_INTNO then
              r == s.(enable := r.enable) && forall x: Src :: IsOn(r.enable, x) == (x != n && IsOn(s.enable, x))
            else r == s
  {
    if IsIntno(n) { SetOnIs(s.enable, n, false); }
  }

  /** The steps of devices and of the code that runs: a source that is not claimed becomes pending, and a claimed one is
      held back; interrupts go on or off; a switch is asked for. */
  lemma SmallStepsAre(s: IState, x: Src, on: bool)
    ensures var r := Do(s, Raise(x));
            r == s.(pending := r.pending) && forall y: Src :: y in r.pending <==> y in s.pending || (y == x && x != 0 && x !in s.claimed)
    ensures Do(s, SetIe(on)) == s.(ie := on) && Do(s, AskSwitch) == s.(msip := true)
  {
  }

  lemma StepKeepsFrames(s: IState, step: IStep, r: IState, n: nat)
    requires IInv(s) && CanStep(s, step) && r == Do(s, step) && n <= |s.stack| && n <= |r.stack|
    ensures r.stack[..n] == s.stack[..n]
  {
    hide IInv, Enter, Return, ShortTrap;
    match step
    case External => EnterIs(s, Best(s, PLIC_SOURCE_COUNT));
    case HandlerReturns => ReturnIs(s);
    case Timer(asks) => ShortTrapKeeps(s, asks);
    case Software => ShortTrapKeeps(s, false);
    case _ =>
  }

  /** Whatever nests inside a handler is over without a trace on the trap stack below it: as long as the stack stays
      deeper than n, its first n frames do not change. */
  lemma {:induction false} OuterFramesKept(states: seq<IState>, steps: seq<IStep>, i: nat, k: nat, n: nat)
    requires IsRun(states, steps) && i <= k < |states|
    requires forall j :: i <= j <= k ==> n <= |states[j].stack|
    ensures states[k].stack[..n] == states[i].stack[..n]
    decreases k - i
  {
    if i < k {
      var j: nat := k - 1;
      OuterFramesKept(states, steps, i, j, n);
      RunsKeep(states, steps, j);
      StepKeepsFrames(states[j], steps[j], states[k], n);
    }
  }

  /** The trap stack says what the threshold, the depth, the claimed sources and the mie bits are. */
  lemma StackTells(s: IState, r: IState)
    requires IInv(s) && IInv(r) && s.stack == r.stack
    ensures r.threshold == s.threshold && r.depth == s.depth && r.claimed == s.claimed && r.mtie == s.mtie && r.msie == s.msie
  {
    assert forall x: Src :: x in r.claimed <==> x in s.claimed;
  }

  /** A nested interrupt gives the machine back as it found it: when the stack is again as deep as it was, never having
      been less deep, so are the stack, the threshold, the depth, the claimed sources and the mie bits. */
  lemma NestedTrapBalanced(states: seq<IState>, steps: seq<IStep>, i: nat, k: nat)
    requires IsRun(states, steps) && i <= k < |states| && |states[k].stack| == |states[i].stack|
    requires forall j :: i <= j <= k ==> |states[i].stack| <= |states[j].stack|
    ensures var s, r := states[i], states[k];
            r.stack == s.stack && r.threshold == s.threshold && r.depth == s.depth && r.claimed == s.claimed
            && r.mtie == s.mtie && r.msie == s.msie
  {
    RunsKeep(states, steps, i);
    RunsKeep(states, steps, k);
    var n := |states[i].stack|;
    OuterFramesKept(states, steps, i, k, n);
    assert states[k].stack[..n] == states[k].stack && states[i].stack[..n] == states[i].stack;
    StackTells(states[i], states[k]);
  }
}
