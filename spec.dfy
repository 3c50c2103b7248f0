/** The machine state of the CHIP-8 interpreter as a value, and the meaning of
    its three operations (construction, program load, one emulated cycle) as
    functions on that value. The class in module Chip8 is proved to follow
    these functions; the lemmas at the end state what each operation does. */
module Chip8Spec {
  import opened Opcode

  const MEMORY_SIZE: nat := 4096
  const REGISTER_COUNT: nat := 16
  const SCREEN_WIDTH: nat := 64
  const SCREEN_HEIGHT: nat := 32
  const GFX_SIZE: nat := SCREEN_WIDTH * SCREEN_HEIGHT
  const KEY_COUNT: nat := 16
  /** Where programs are loaded and where execution starts. */
  const PROGRAM_START: nat := 0x200
  /** Where the font glyphs are copied at construction. */
  const FONT_START: nat := 0x050

  /** The sixteen hexadecimal digit glyphs, five bytes each. */
  const FONTSET: seq<U8> := [
    0xF0, 0x90, 0x90, 0x90, 0xF0, // 0
    0x20, 0x60, 0x20, 0x20, 0x70, // 1
    0xF0, 0x10, 0xF0, 0x80, 0xF0, // 2
    0xF0, 0x10, 0xF0, 0x10, 0xF0, // 3
    0x90, 0x90, 0xF0, 0x10, 0x10, // 4
    0xF0, 0x80, 0xF0, 0x10, 0xF0, // 5
    0xF0, 0x80, 0xF0, 0x90, 0xF0, // 6
    0xF0, 0x10, 0x20, 0x40, 0x40, // 7
    0xF0, 0x90, 0xF0, 0x90, 0xF0, // 8
    0xF0, 0x90, 0xF0, 0x10, 0xF0, // 9
    0xF0, 0x90, 0xF0, 0x90, 0x90, // A
    0xE0, 0x90, 0xE0, 0x90, 0xE0, // B
    0xF0, 0x80, 0x80, 0x80, 0xF0, // C
    0xE0, 0x90, 0x90, 0x90, 0xE0, // D
    0xF0, 0x80, 0xF0, 0x80, 0xF0, // E
    0xF0, 0x80, 0xF0, 0x80, 0x80  // F
  ]

  /** The compatibility toggles chosen at construction. The engine stores them
      and never consults them. */
  datatype Quirks = Quirks(shiftUsesVy: bool, bnnnUsesVx: bool, fx55IncreasesI: bool)

  /** The whole state the engine owns. */
  datatype Machine = Machine(
    memory: seq<U8>,
    v: seq<U8>,
    i: U16,
    pc: U16,
    gfx: seq<U8>,
    delayTimer: U8,
    soundTimer: U8,
    stack: seq<U16>,
    keypad: seq<bool>,
    drawFlag: bool,
    quirks: Quirks)

  /** The fixed sizes of the source's arrays. */
  predicate WellFormed(m: Machine) {
    && |m.memory| == MEMORY_SIZE
    && |m.v| == REGISTER_COUNT
    && |m.gfx| == GFX_SIZE
    && |m.keypad| == KEY_COUNT
  }

  function Zeros(n: nat): (s: seq<U8>)
  {
    seq(n, _ => 0)
  }

  /** Memory right after construction: zero, with the font at 0x050. */
  function BootMemory(): (mem: seq<U8>)
    ensures |mem| == MEMORY_SIZE
    ensures forall a :: 0 <= a < MEMORY_SIZE ==>
              mem[a] == if FONT_START <= a < FONT_START + |FONTSET| then FONTSET[a - FONT_START] else 0
  {
    Zeros(FONT_START) + FONTSET + Zeros(MEMORY_SIZE - FONT_START - |FONTSET|)
  }

  /** The state `Chip8::new` builds. */
  function Initial(q: Quirks): (m: Machine)
    ensures WellFormed(m)
    ensures m.pc == PROGRAM_START && m.i == 0 && m.stack == []
    ensures m.delayTimer == 0 && m.soundTimer == 0 && !m.drawFlag && m.quirks == q
    ensures forall r :: 0 <= r < REGISTER_COUNT ==> m.v[r] == 0
    ensures forall p :: 0 <= p < GFX_SIZE ==> m.gfx[p] == 0
    ensures forall k :: 0 <= k < KEY_COUNT ==> !m.keypad[k]
    ensures m.memory[FONT_START..FONT_START + |FONTSET|] == FONTSET
    ensures forall a :: 0 <= a < MEMORY_SIZE && !(FONT_START <= a < FONT_START + |FONTSET|) ==>
              m.memory[a] == 0
  {
    Machine(BootMemory(), Zeros(REGISTER_COUNT), 0, PROGRAM_START, Zeros(GFX_SIZE),
            0, 0, [], seq(KEY_COUNT, _ => false), false, q)
  }

  datatype LoadError = ProgramTooLarge

  datatype Result<T> = Ok(value: T) | Err(error: LoadError)

  /** The largest program that fits: 4096 - 0x200 bytes. */
  const MAX_PROGRAM_SIZE: nat := MEMORY_SIZE - PROGRAM_START

  /** The program loader: rejects a program that does not fit above 0x200,
      and otherwise places byte k at address 0x200 + k and changes nothing
      else. */
  function Load(m: Machine, bytes: seq<U8>): (r: Result<Machine>)
    requires WellFormed(m)
    ensures r.Err? <==> |bytes| > MAX_PROGRAM_SIZE
    ensures r.Ok? ==> WellFormed(r.value) && r.value == m.(memory := r.value.memory)
    ensures r.Ok? ==> forall a :: 0 <= a < MEMORY_SIZE ==>
              r.value.memory[a] == if PROGRAM_START <= a < PROGRAM_START + |bytes|
                                   then bytes[a - PROGRAM_START] else m.memory[a]
  {
    if PROGRAM_START + |bytes| > MEMORY_SIZE then Err(ProgramTooLarge)
    else Ok(m.(memory := m.memory[..PROGRAM_START] + bytes + m.memory[PROGRAM_START + |bytes|..]))
  }

  /** Fetching reads `memory[pc]` and `memory[pc + 1]`; Rust panics when
      either index is past the end of memory. */
  predicate CanFetch(m: Machine)
    ensures CanFetch(m) ==> m.pc + 2 <= MEMORY_SIZE < 0x1_0000
  {
    WellFormed(m) && m.pc + 1 < MEMORY_SIZE
  }

  /** The instruction word at `pc`. */
  function Fetch(m: Machine): (op: U16)
    requires CanFetch(m)
    ensures op / 0x100 == m.memory[m.pc] && op % 0x100 == m.memory[m.pc + 1]
  {
    Combine(m.memory[m.pc], m.memory[m.pc + 1])
  }

  /** A cycle runs to completion unless it panics: the fetch stays in memory,
      and a return does not pop an empty stack (`expect` aborts). */
  predicate CanStep(m: Machine)
    ensures CanStep(m) <==>
              && WellFormed(m) && m.pc + 1 < MEMORY_SIZE
              && (m.memory[m.pc] / 0x10 == 0 && m.memory[m.pc + 1] == 0xEE ==> |m.stack| > 0)
  {
    CanFetch(m) && (Decode(Fetch(m)).Return? ==> |m.stack| > 0)
  }

  /** `u8::wrapping_add`. */
  function WrappingAdd(a: U8, b: U8): (r: U8)
    ensures r == a + b || r == a + b - 0x100
    ensures r < a <==> a + b >= 0x100
  {
    (a + b) % 0x100
  }

  /** The effect of an instruction body, on a state whose pc has already been
      advanced past the instruction. */
  function Execute(m: Machine, ins: Instr): (m': Machine)
    requires WellFormed(m)
    requires ins.Return? ==> |m.stack| > 0
    ensures WellFormed(m')
    ensures m' == m.(pc := m'.pc, v := m'.v, gfx := m'.gfx, drawFlag := m'.drawFlag, stack := m'.stack)
    ensures m'.drawFlag != m.drawFlag ==> ins.ClearScreen?
  {
    match ins
    case ClearScreen => m.(gfx := Zeros(GFX_SIZE), drawFlag := true)
    case Return => m.(pc := m.stack[|m.stack| - 1], stack := m.stack[..|m.stack| - 1])
    case Jump(a) => m.(pc := a)
    case Call(a) => m.(stack := m.stack + [m.pc], pc := a)
    case LoadImm(x, kk) => m.(v := m.v[x := kk])
    case AddImm(x, kk) => m.(v := m.v[x := WrappingAdd(m.v[x], kk)])
    case Unknown(_) => m
  }

  /** One timer's tick: it counts down and stays at zero. */
  function Countdown(t: U8): (t': U8)
    ensures t' <= t && t - t' <= 1
    ensures t' == t <==> t == 0
  {
    if t > 0 then t - 1 else t
  }

  /** The timer tick at the end of every cycle. */
  function Tick(m: Machine): (m': Machine)
    ensures m'.(delayTimer := m.delayTimer, soundTimer := m.soundTimer) == m
    ensures m.delayTimer - m'.delayTimer == if m.delayTimer > 0 then 1 else 0
    ensures m.soundTimer - m'.soundTimer == if m.soundTimer > 0 then 1 else 0
  {
    m.(delayTimer := Countdown(m.delayTimer), soundTimer := Countdown(m.soundTimer))
  }

  /** The tick beeps when the sound timer is 1 (tested inside the branch
      where it is positive). */
  predicate Beeps(m: Machine)
    ensures Beeps(m) <==> m.soundTimer > 0 && Countdown(m.soundTimer) == 0
  {
    m.soundTimer == 1
  }

  datatype Step = Step(next: Machine, beep: bool)

  /** One `emulate_cycle`: fetch, advance pc by 2, run the instruction body,
      tick the timers; `beep` tells whether the tick beeped. */
  function Cycle(m: Machine): (r: Step)
    requires CanStep(m)
    ensures WellFormed(r.next)
    ensures r.next.memory == m.memory && r.next.i == m.i
    ensures r.next.keypad == m.keypad && r.next.quirks == m.quirks
    ensures r.next.delayTimer == Countdown(m.delayTimer)
    ensures r.next.soundTimer == Countdown(m.soundTimer)
    ensures r.beep <==> m.soundTimer == 1
  {
    var m1 := Execute(m.(pc := m.pc + 2), Decode(Fetch(m)));
    Step(Tick(m1), Beeps(m1))
  }

  // ----- What one cycle does, instruction by instruction -----

  /** The state a cycle leaves when its instruction body only moves pc to
      `pc'`: the timers tick and nothing else changes. */
  predicate OnlyPcAndTimers(m: Machine, pc': U16, m': Machine) {
    m' == m.(pc := pc', delayTimer := Countdown(m.delayTimer), soundTimer := Countdown(m.soundTimer))
  }

  /** 00E0: every pixel becomes 0 and the draw flag is set; registers, i,
      memory and stack are untouched and pc moves past the instruction. */
  lemma ClearScreenCycle(m: Machine)
    requires CanStep(m) && Decode(Fetch(m)) == ClearScreen
    ensures var m' := Cycle(m).next;
      && (forall p :: 0 <= p < GFX_SIZE ==> m'.gfx[p] == 0)
      && m'.drawFlag
      && OnlyPcAndTimers(m.(gfx := m'.gfx, drawFlag := true), m.pc + 2, m')
  {
  }

  /** 1nnn: pc becomes nnn, which is at most 0xFFF. */
  lemma JumpCycle(m: Machine)
    requires CanStep(m) && Family(Fetch(m)) == 1
    ensures var m' := Cycle(m).next;
      && m'.pc == NNN(Fetch(m)) && m'.pc <= 0xFFF
      && OnlyPcAndTimers(m, m'.pc, m')
  {
  }

  /** 2nnn: the advanced pc is pushed and pc becomes nnn. */
  lemma CallCycle(m: Machine)
    requires CanStep(m) && Family(Fetch(m)) == 2
    ensures var m' := Cycle(m).next;
      && m'.stack == m.stack + [m.pc + 2]
      && OnlyPcAndTimers(m.(stack := m'.stack), NNN(Fetch(m)), m')
  {
  }

  /** 00EE: pc becomes the top of the stack and the stack loses its top. */
  lemma ReturnCycle(m: Machine)
    requires CanStep(m) && Decode(Fetch(m)) == Return
    ensures |m.stack| > 0
    ensures var m' := Cycle(m).next;
      && m'.stack + [m'.pc] == m.stack
      && OnlyPcAndTimers(m.(stack := m'.stack), m.stack[|m.stack| - 1], m')
  {
  }

  /** A call whose target holds a return comes back to the instruction after
      the call, with the stack as it was before the call. */
  lemma CallThenReturn(m: Machine)
    requires CanStep(m) && Decode(Fetch(m)).Call?
    requires CanFetch(Cycle(m).next) && Decode(Fetch(Cycle(m).next)) == Return
    ensures CanStep(Cycle(m).next)
    ensures var m'' := Cycle(Cycle(m).next).next;
      m''.pc == m.pc + 2 && m''.stack == m.stack &&
      m''.v == m.v && m''.i == m.i && m''.gfx == m.gfx && m''.memory == m.memory
  {
  }

  /** The registers after a cycle: only v[x] changes, and only for 6xkk and
      7xkk; 6xkk loads kk and 7xkk adds kk modulo 256 without touching VF. */
  lemma RegisterCycle(m: Machine)
    requires CanStep(m)
    ensures var op, m' := Fetch(m), Cycle(m).next;
      && m'.i == m.i && m'.memory == m.memory && m'.keypad == m.keypad && m'.quirks == m.quirks
      && (forall r :: 0 <= r < REGISTER_COUNT && r != X(op) ==> m'.v[r] == m.v[r])
      && m'.v[X(op)] == match Family(op)
           case 6 => KK(op)
           case 7 => (m.v[X(op)] + KK(op)) % 0x100
           case _ => m.v[X(op)]
  {
  }

  /** 6xkk: v[x] becomes kk, pc moves past the instruction, and nothing else
      but the timers changes. */
  lemma LoadImmCycle(m: Machine)
    requires CanStep(m) && Family(Fetch(m)) == 6
    ensures var op, m' := Fetch(m), Cycle(m).next;
      OnlyPcAndTimers(m.(v := m.v[X(op) := KK(op)]), m.pc + 2, m')
  {
  }

  /** 7xkk: v[x] becomes v[x] + kk modulo 256, VF is not written (unless x is
      F), pc moves past the instruction, and nothing else but the timers
      changes. */
  lemma AddImmCycle(m: Machine)
    requires CanStep(m) && Family(Fetch(m)) == 7
    ensures var op, m' := Fetch(m), Cycle(m).next;
      OnlyPcAndTimers(m.(v := m.v[X(op) := (m.v[X(op)] + KK(op)) % 0x100]), m.pc + 2, m')
  {
  }

  /** The default advance of pc by 2 survives every instruction body except
      those that set pc: jump, call and return. */
  lemma AdvanceCycle(m: Machine)
    requires CanStep(m)
    requires Family(Fetch(m)) != 1 && Family(Fetch(m)) != 2 && !Decode(Fetch(m)).Return?
    ensures Cycle(m).next.pc == m.pc + 2
  {
  }

  /** 6xkk followed by 7x00 leaves kk in v[x]. */
  lemma LoadThenAddZero(m: Machine)
    requires CanStep(m) && Decode(Fetch(m)).LoadImm?
    requires CanFetch(Cycle(m).next) && Decode(Fetch(Cycle(m).next)) == AddImm(X(Fetch(m)), 0)
    ensures CanStep(Cycle(m).next)
    ensures Cycle(Cycle(m).next).next.v[X(Fetch(m))] == KK(Fetch(m))
  {
  }

  /** A word the engine does not implement moves pc past itself and ticks the
      timers, and changes nothing else. */
  lemma UnknownCycle(m: Machine)
    requires CanStep(m) && Decode(Fetch(m)).Unknown?
    ensures OnlyPcAndTimers(m, m.pc + 2, Cycle(m).next)
  {
  }

  /** The tick: each timer loses one exactly when it is positive and never
      goes below zero; the beep sounds exactly when the sound timer was 1. */
  lemma TimerCycle(m: Machine)
    requires CanStep(m)
    ensures var s := Cycle(m);
      && (s.next.delayTimer == m.delayTimer - 1 <==> m.delayTimer > 0)
      && (s.next.soundTimer == m.soundTimer - 1 <==> m.soundTimer > 0)
      && (m.delayTimer == 0 ==> s.next.delayTimer == 0)
      && (m.soundTimer == 0 ==> s.next.soundTimer == 0)
      && (s.beep <==> m.soundTimer == 1)
  {
  }

  // ----- The timers over many cycles -----

  /** A timer's value after n ticks. */
  function CountdownN(t: U8, n: nat): (t': U8)
    decreases n
  {
    if n == 0 then t else CountdownN(Countdown(t), n - 1)
  }

  /** How many of n ticks beep when the sound timer starts at t. */
  function BeepCount(t: U8, n: nat): (c: nat)
    decreases n
  {
    if n == 0 then 0 else (if t == 1 then 1 else 0) + BeepCount(Countdown(t), n - 1)
  }

  /** After n ticks a timer that started at t stands at max(t - n, 0). */
  lemma {:induction false} CountdownAfter(t: U8, n: nat)
    ensures CountdownN(t, n) == if n <= t then t - n else 0
  {
    if n > 0 {
      CountdownAfter(Countdown(t), n - 1);
    }
  }

  /** A sound timer set to t > 0 beeps exactly once within its first n >= t
      ticks (on tick t, as it goes from 1 to 0), and never when t == 0. */
  lemma {:induction false} BeepsOnce(t: U8, n: nat)
    ensures BeepCount(t, n) == if 0 < t <= n then 1 else 0
  {
    if n > 0 {
      BeepsOnce(Countdown(t), n - 1);
    }
  }

  // ----- The loader at its limits -----

  /** A 3600-byte program is rejected. */
  lemma LoadRejectsOversized(m: Machine, bytes: seq<U8>)
    requires WellFormed(m) && |bytes| == 3600
    ensures Load(m, bytes) == Err(ProgramTooLarge)
  {
  }

  /** A 3584-byte program fills memory: its last byte lands at 0xFFF. */
  lemma LoadFillsMemory(m: Machine, bytes: seq<U8>)
    requires WellFormed(m) && |bytes| == MAX_PROGRAM_SIZE
    ensures Load(m, bytes).Ok?
    ensures Load(m, bytes).value.memory[0xFFF] == bytes[|bytes| - 1]
  {
  }
}
