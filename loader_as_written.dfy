/** `load_rom` as its text stands, beside the loader the rest of the model
    uses (Chip8Spec.Load and Chip8.Chip8.LoadProgram). The text has two
    defects: the copy loop stands after `return Err` inside the size check, so
    it is never reached, and its body writes every byte to the fixed address
    `0x200 + 1`. `LoadAsWritten` models the first, `CopyLoopAsWritten` what the
    loop body would do if it ran. */
module LoaderAsWritten {
  import opened Opcode
  import opened Chip8Spec

  /** The loader as its control flow stands: the size check rejects a
      program that does not fit, and a program that fits falls past the check
      with nothing copied, because the loop lies inside the rejecting branch
      after its `return`. */
  function LoadAsWritten(m: Machine, bytes: seq<U8>): (r: Result<Machine>)
    requires WellFormed(m)
    ensures r.Err? <==> |bytes| > MAX_PROGRAM_SIZE
    ensures r.Ok? ==> r.value == m
  {
    if PROGRAM_START + |bytes| > MEMORY_SIZE then Err(ProgramTooLarge)
    else Ok(m)
  }

  /** Whenever a program fits and its first byte is not already at 0x200, the
      loader as written and the intended loader both succeed but leave
      different memories: the program is dropped. */
  lemma AsWrittenLoadDropsProgram(m: Machine, bytes: seq<U8>)
    requires WellFormed(m) && 0 < |bytes| <= MAX_PROGRAM_SIZE
    requires bytes[0] != m.memory[PROGRAM_START]
    ensures LoadAsWritten(m, bytes).Ok? && Load(m, bytes).Ok?
    ensures LoadAsWritten(m, bytes).value.memory != Load(m, bytes).value.memory
  {
  }

  /** The loop as written: every byte is stored at the fixed address
      `0x200 + 1`, so only the last byte survives, there, and 0x200 and every
      address past 0x201 keep their old contents. */
  function CopyLoopAsWritten(mem: seq<U8>, bytes: seq<U8>): (r: seq<U8>)
    requires |mem| == MEMORY_SIZE
    ensures |r| == MEMORY_SIZE
    ensures bytes == [] ==> r == mem
    ensures bytes != [] ==> r == mem[PROGRAM_START + 1 := bytes[|bytes| - 1]]
    decreases |bytes|
  {
    if bytes == [] then mem
    else CopyLoopAsWritten(mem[PROGRAM_START + 1 := bytes[0]], bytes[1..])
  }

  /** A two-byte program on a fresh machine: the intended loader puts 0xAA at
      0x200 and 0xBB at 0x201; the loop as written leaves 0x200 at 0 and puts
      0xBB at 0x201. */
  lemma AsWrittenLoopMisplacesProgram(q: Quirks)
    ensures var m, prog := Initial(q), [0xAA, 0xBB];
      && Load(m, prog).Ok?
      && Load(m, prog).value.memory[PROGRAM_START] == 0xAA
      && Load(m, prog).value.memory[PROGRAM_START + 1] == 0xBB
      && CopyLoopAsWritten(m.memory, prog)[PROGRAM_START] == 0
      && CopyLoopAsWritten(m.memory, prog)[PROGRAM_START + 1] == 0xBB
  {
  }

  /** For a program of two or more bytes that fits, the loop as written and
      the intended loader give different memories whenever the first byte
      differs from the old byte at 0x200 (they disagree there) or the second
      byte differs from the last (they disagree at 0x201). */
  lemma AsWrittenLoopDiffersFromLoad(m: Machine, bytes: seq<U8>)
    requires WellFormed(m) && 2 <= |bytes| <= MAX_PROGRAM_SIZE
    requires bytes[0] != m.memory[PROGRAM_START] || bytes[1] != bytes[|bytes| - 1]
    ensures CopyLoopAsWritten(m.memory, bytes) != Load(m, bytes).value.memory
  {
    var asWritten, intended := CopyLoopAsWritten(m.memory, bytes), Load(m, bytes).value.memory;
    if bytes[0] != m.memory[PROGRAM_START] {
      assert asWritten[PROGRAM_START] != intended[PROGRAM_START];
    } else {
      assert asWritten[PROGRAM_START + 1] != intended[PROGRAM_START + 1];
    }
  }
}
