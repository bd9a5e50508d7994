/**
 * The interpreter object: every field of the CHIP-8 machine, updated in
 * place. Each method is proved to leave the object in the state that the
 * corresponding function of module Semantics computes from the old state.
 */
module Chip8 {
  import opened Bits
  import opened Semantics

  /** What a step reports to its caller: it went through, or it hit a fault. */
  datatype Outcome = Pass | Fail(fault: Fault)

  class CPU {
    var pc: u16               // program counter
    const ram: array<u8>
    const screen: array<bool> // 64 x 32 pixels, row-major
    const vReg: array<u8>     // V0 to VF
    var iReg: u16             // index register
    var sp: u16               // stack pointer: the first free slot
    const stack: array<u16>
    const keys: array<bool>
    var dt: u8                // delay timer
    var st: u8                // sound timer

    ghost predicate Valid()
      reads this
    {
      ram.Length == RAM_SIZE && screen.Length == SCREEN_SIZE && vReg.Length == NUM_REGS &&
      stack.Length == STACK_SIZE && keys.Length == NUM_KEYS && sp as nat <= STACK_SIZE &&
      ram != vReg && screen != keys
    }

    /** The value of every field. */
    ghost function Snapshot(): (s: State)
      reads this, ram, screen, vReg, stack, keys
      ensures Valid() ==> WellFormed(s)
    {
      State(pc, ram[..], screen[..], vReg[..], iReg, sp, stack[..], keys[..], dt, st)
    }

    /** The object holds the state res describes, or is unchanged when res is a fault. */
    ghost predicate Follows(res: Result<State>, r: Outcome, before: State)
      reads this, ram, screen, vReg, stack, keys
    {
      match res
      case Ok(t) => r == Pass && Snapshot() == t
      case Err(f) => r == Fail(f) && Snapshot() == before
    }

    /** All state zero, pc at 0x200 and the font sprites at the bottom of RAM. */
    constructor ()
      ensures Valid() && Snapshot() == Initial()
      ensures fresh(ram) && fresh(screen) && fresh(vReg) && fresh(stack) && fresh(keys)
    {
      pc := START_ADDR;
      ram := new u8[RAM_SIZE](_ => 0);
      screen := new bool[SCREEN_SIZE](_ => false);
      vReg := new u8[NUM_REGS](_ => 0);
      iReg := 0;
      sp := 0;
      stack := new u16[STACK_SIZE](_ => 0);
      keys := new bool[NUM_KEYS](_ => false);
      dt := 0;
      st := 0;
      new;
      forall a | 0 <= a < FONTSET_SIZE {
        ram[a] := FONTSET[a];
      }
      assert ram[..] == Initial().ram;
    }

    /** Back to exactly the state of a fresh interpreter, whatever came before. */
    method Reset()
      requires Valid()
      modifies this, ram, screen, vReg, stack, keys
      ensures Valid() && Snapshot() == Initial()
    {
      pc := START_ADDR;
      forall a | 0 <= a < ram.Length {
        ram[a] := 0;
      }
      forall p | 0 <= p < screen.Length {
        screen[p] := false;
      }
      forall r | 0 <= r < vReg.Length {
        vReg[r] := 0;
      }
      iReg := 0;
      sp := 0;
      forall j | 0 <= j < stack.Length {
        stack[j] := 0;
      }
      forall k | 0 <= k < keys.Length {
        keys[k] := false;
      }
      dt := 0;
      st := 0;
      forall a | 0 <= a < FONTSET_SIZE {
        ram[a] := FONTSET[a];
      }
      assert ram[..] == Initial().ram;
      assert screen[..] == Initial().screen;
      assert vReg[..] == Initial().vReg;
      assert stack[..] == Initial().stack;
      assert keys[..] == Initial().keys;
    }

    method Push(val: u16)
      requires Valid() && (sp as nat) < STACK_SIZE
      modifies this, stack
      ensures Valid() && Snapshot() == Semantics.Push(old(Snapshot()), val)
    {
      stack[sp] := val;
      sp := sp + 1;
    }

    method Pop() returns (val: u16)
      requires Valid() && sp > 0
      modifies this
      ensures Valid() && (Snapshot(), val) == Semantics.Pop(old(Snapshot()))
    {
      sp := sp - 1;
      val := stack[sp];
    }

    /** One clock cycle: the opcode is fetched and not yet decoded or executed. */
    method Tick() returns (r: Outcome)
      requires Valid()
      modifies this
      ensures Valid() && Follows(Semantics.Tick(old(Snapshot())), r, old(Snapshot()))
    {
      if (pc as nat) + 1 >= RAM_SIZE {
        return Fail(PcOutOfRange);
      }
      var op := Fetch();
      r := Pass;
    }

    method Fetch() returns (op: u16)
      requires Valid() && (pc as nat) + 1 < RAM_SIZE
      modifies this
      ensures Valid() && (Snapshot(), op) == Semantics.Fetch(old(Snapshot()))
    {
      var hi := ram[pc] as u16;
      var lo := ram[pc + 1] as u16;
      op := Or16(hi * 0x100, lo);
      pc := pc + 2;
    }

    /** Count both timers down; beep is raised as the sound timer runs out. */
    method TickTimers() returns (beep: bool)
      requires Valid()
      modifies this
      ensures Valid() && (Snapshot(), beep) == Semantics.TickTimers(old(Snapshot()))
    {
      if dt > 0 {
        dt := dt - 1;
      }
      beep := false;
      if st > 0 {
        if st == 1 {
          beep := true;
        }
        st := st - 1;
      }
    }

    /** The `pc += 2` of a taken skip. */
    method SkipNext() returns (r: Outcome)
      requires Valid()
      modifies this
      ensures Valid() && Follows(Skip(old(Snapshot())), r, old(Snapshot()))
    {
      if (pc as int) + 2 < 0x1_0000 {
        pc := pc + 2;
        r := Pass;
      } else {
        r := Fail(PcOverflow);
      }
    }

    method Execute(op: u16) returns (r: Outcome)
      requires Valid()
      modifies this, screen, vReg, stack
      ensures Valid() && Follows(Semantics.Execute(old(Snapshot()), op), r, old(Snapshot()))
    {
      var (d1, d2, d3, d4) := Nibbles(op);
      match (d1, d2, d3, d4)
      case (0, 0, 0, 0) =>
        r := Pass;
      case (0, 0, 0xE, 0) =>
        forall p | 0 <= p < screen.Length {
          screen[p] := false;
        }
        assert screen[..] == seq(SCREEN_SIZE, _ => false);
        r := Pass;
      case (0, 0, 0xE, 0xE) =>
        if sp == 0 {
          r := Fail(StackUnderflow);
        } else {
          var addr := Pop();
          pc := addr;
          r := Pass;
        }
      case (1, _, _, _) =>
        pc := Nnn(op);
        r := Pass;
      case (2, _, _, _) =>
        if sp as nat == STACK_SIZE {
          r := Fail(StackOverflow);
        } else {
          Push(pc);
          pc := Nnn(op);
          r := Pass;
        }
      case (3, _, _, _) =>
        if vReg[d2] == Nn(op) {
          r := SkipNext();
        } else {
          r := Pass;
        }
      case (4, _, _, _) =>
        if vReg[d2] != Nn(op) {
          r := SkipNext();
        } else {
          r := Pass;
        }
      case (5, _, _, 0) =>
        if vReg[d2] == vReg[d3] {
          r := SkipNext();
        } else {
          r := Pass;
        }
      case (6, _, _, _) =>
        vReg[d2] := Nn(op);
        r := Pass;
      case (7, _, _, _) =>
        vReg[d2] := ((vReg[d2] as int + Nn(op) as int) % 0x100) as u8;
        r := Pass;
      case (8, _, _, 0) =>
        vReg[d2] := vReg[d3];
        r := Pass;
      case (8, _, _, 1) | (8, _, _, 2) | (8, _, _, 3) =>
        vReg[d2] := Or8(vReg[d2], vReg[d3]);
        r := Pass;
      case (8, _, _, 4) =>
        var total := vReg[d2] as int + vReg[d3] as int;
        var carry: u8 := if total >= 0x100 then 1 else 0;
        vReg[d2] := (total % 0x100) as u8;
        vReg[VF] := carry;
        r := Pass;
      case (8, _, _, 5) =>
        var total := vReg[d2] as int + vReg[d3] as int;
        var borrow: u8 := if total >= 0x100 then 1 else 0;
        vReg[d2] := (total % 0x100) as u8;
        vReg[VF] := borrow;
        r := Pass;
      case _ =>
        r := Fail(Unimplemented(op));
    }
  }
}
