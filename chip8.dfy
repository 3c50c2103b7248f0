/** The interpreter engine: the `Chip8` object whose fields its methods update
    in place. Each method is proved to have exactly the effect the functions of
    module Chip8Spec give it on the abstract state `Abs()`. */
module Chip8 {
  import opened Opcode
  import opened Chip8Spec

  class Chip8 {
    const memory: array<U8>
    const v: array<U8>
    var i: U16
    var pc: U16
    const gfx: array<U8>
    var delayTimer: U8
    var soundTimer: U8
    var stack: seq<U16>
    const keypad: array<bool>
    var drawFlag: bool
    /** Stored at construction and never read (the source calls it `quirls`). */
    const quirks: Quirks

    /** The arrays have the source's fixed sizes; those sizes also keep the
        three byte arrays apart. */
    ghost predicate Valid()
      reads this
    {
      && memory.Length == MEMORY_SIZE
      && v.Length == REGISTER_COUNT
      && gfx.Length == GFX_SIZE
      && keypad.Length == KEY_COUNT
    }

    /** The machine state held in the object. */
    ghost function Abs(): (m: Machine)
      reads this, memory, v, gfx, keypad
      requires Valid()
      ensures WellFormed(m)
    {
      Machine(memory[..], v[..], i, pc, gfx[..], delayTimer, soundTimer, stack,
              keypad[..], drawFlag, quirks)
    }

    /** `Chip8::new`: everything zero, pc at 0x200, the font copied to 0x050. */
    constructor (quirks: Quirks)
      ensures Valid() && fresh(memory) && fresh(v) && fresh(gfx) && fresh(keypad)
      ensures Abs() == Initial(quirks)
    {
      memory := new U8[MEMORY_SIZE](_ => 0);
      v := new U8[REGISTER_COUNT](_ => 0);
      i := 0;
      pc := PROGRAM_START;
      gfx := new U8[GFX_SIZE](_ => 0);
      delayTimer := 0;
      soundTimer := 0;
      stack := [];
      keypad := new bool[KEY_COUNT](_ => false);
      drawFlag := false;
      this.quirks := quirks;
      new;
      for k := 0 to |FONTSET|
        modifies memory
        invariant forall a :: 0 <= a < MEMORY_SIZE ==>
                    memory[a] == if FONT_START <= a < FONT_START + k then FONTSET[a - FONT_START] else 0
      {
        memory[FONT_START + k] := FONTSET[k];
      }
      assert memory[..] == BootMemory();
    }

    /** `load_rom`, taking the file's bytes. A program that does not fit above
        0x200 is rejected before any write; otherwise byte k goes to 0x200 + k.
        The source's copy loop writes every byte to the fixed address
        `0x200 + 1` and sits after the `return Err`, where it never runs; this
        loop is the evident intent, not the literal text. */
    method LoadProgram(bytes: seq<U8>) returns (r: Result<()>)
      requires Valid()
      modifies memory
      ensures Valid()
      ensures r.Err? <==> Load(old(Abs()), bytes).Err?
      ensures r.Err? ==> r.error == ProgramTooLarge && memory[..] == old(memory[..])
      ensures r.Ok? ==> Abs() == Load(old(Abs()), bytes).value
    {
      if PROGRAM_START + |bytes| > MEMORY_SIZE {
        return Err(ProgramTooLarge);
      }
      for k := 0 to |bytes|
        invariant forall a :: 0 <= a < MEMORY_SIZE ==>
                    memory[a] == if PROGRAM_START <= a < PROGRAM_START + k
                                 then bytes[a - PROGRAM_START] else old(memory[a])
      {
        memory[PROGRAM_START + k] := bytes[k];
      }
      assert memory[..] == Load(old(Abs()), bytes).value.memory;
      return Ok(());
    }

    /** `emulate_cycle`: fetch the big-endian word at pc, advance pc by 2, run
        the instruction body, tick the timers. `beep` stands for the "BEEP!"
        the source prints. Memory and the keypad are never written. */
    method EmulateCycle() returns (beep: bool)
      requires Valid() && CanStep(Abs())
      modifies this, v, gfx
      ensures Valid()
      ensures Step(Abs(), beep) == Cycle(old(Abs()))
    {
      ghost var m := Abs();
      var opcode := Combine(memory[pc], memory[pc + 1]);
      assert opcode == Fetch(m);
      pc := pc + 2;
      ghost var advanced := Abs();
      assert advanced == m.(pc := m.pc + 2);

      var family := opcode / 0x1000;
      if family == 0x0 {
        var low := opcode % 0x100;
        if low == 0xE0 {
          forall p | 0 <= p < gfx.Length {
            gfx[p] := 0;
          }
          drawFlag := true;
        } else if low == 0xEE {
          pc := stack[|stack| - 1];
          stack := stack[..|stack| - 1];
        } else {
          // unknown 0NNN word: only a diagnostic
        }
      } else if family == 0x1 {
        pc := NNN(opcode);
      } else if family == 0x2 {
        stack := stack + [pc];
        pc := NNN(opcode);
      } else if family == 0x6 {
        var x := X(opcode);
        v[x] := KK(opcode);
      } else if family == 0x7 {
        var x := X(opcode);
        v[x] := WrappingAdd(v[x], KK(opcode));
      } else {
        // unknown word: only a diagnostic
      }
      ghost var m1 := Abs();
      assert m1 == Execute(advanced, Decode(Fetch(m)));

      beep := TickTimers();
      assert Abs() == Tick(m1);
    }

    /** The tail of `emulate_cycle`: each positive timer loses one, and the
        sound timer's step from 1 to 0 beeps. */
    method TickTimers() returns (beep: bool)
      requires Valid()
      modifies this
      ensures Valid()
      ensures Abs() == Tick(old(Abs())) && beep == Beeps(old(Abs()))
    {
      beep := false;
      if delayTimer > 0 {
        delayTimer := delayTimer - 1;
      }
      if soundTimer > 0 {
        if soundTimer == 1 {
          beep := true;
        }
        soundTimer := soundTimer - 1;
      }
    }
  }
}
