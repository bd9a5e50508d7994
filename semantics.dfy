/**
 * The CHIP-8 interpreter core as a state machine over values.
 *
 * `State` is one snapshot of every field of the interpreter. Each operation
 * of the interpreter is a function from the old snapshot to the new one;
 * the class in module Chip8 is proved to update its arrays and fields
 * exactly as these functions say, and the lemmas below state what the
 * operations promise.
 */
module Semantics {
  import opened Bits

  const SCREEN_WIDTH: nat := 64
  const SCREEN_HEIGHT: nat := 32
  const SCREEN_SIZE: nat := SCREEN_WIDTH * SCREEN_HEIGHT
  const RAM_SIZE: nat := 4096
  const NUM_REGS: nat := 16
  const STACK_SIZE: nat := 16
  const NUM_KEYS: nat := 16
  const START_ADDR: u16 := 0x200
  const FONTSET_SIZE: nat := 80
  /** The flag register VF. */
  const VF: nat := 0xF

  /** Sprites for the hexadecimal digits 0 to F, five rows of one byte each. */
  const FONTSET: seq<u8> := [
    0xF0, 0x90, 0x90, 0x90, 0xF0, // 0
    0x20, 0x60, 0x20, 0x20, 0x70, // 1
    0xF0, 0x10, 0xF0, 0x80, 0xF0, // 2
    0xF0, 0x10, 0xF0, 0x10, 0xF0, // 3
    0x90, 0x90, 0xF0, 0x10, 0x10, // 4
    0xF0, 0x80, 0xF0, 0x10, 0xF0, // 5
    0xF0, 0x80, 0xF0, 0x90, 0xF0, // 6
    0xF0, 0x10, 0x20, 0x40, 0x40, // 7
    0xF0, 0x90, 0xF0, 0x90, 0xF0, // 8
    0xF0, 0x90, 0xF0, 0x10, 0xF0, // 9
    0xF0, 0x90, 0xF0, 0x90, 0x90, // A
    0xE0, 0x90, 0xE0, 0x90, 0xE0, // B
    0xF0, 0x80, 0x80, 0x80, 0xF0, // C
    0xE0, 0x90, 0x90, 0x90, 0xE0, // D
    0xF0, 0x80, 0xF0, 0x80, 0xF0, // E
    0xF0, 0x80, 0xF0, 0x80, 0x80  // F
  ]

  /** Every field of the interpreter. */
  datatype State = State(
    pc: u16,
    ram: seq<u8>,
    screen: seq<bool>,
    vReg: seq<u8>,
    iReg: u16,
    sp: u16,
    stack: seq<u16>,
    keys: seq<bool>,
    dt: u8,
    st: u8)

  /**
   * The conditions under which the interpreter raises a panic. Here they
   * are results that the caller can tell apart, and the state is left as
   * it was.
   */
  datatype Fault =
    | StackOverflow        // push with all 16 slots in use
    | StackUnderflow       // pop from an empty stack
    | PcOverflow           // a skip whose `pc += 2` passes 0xFFFF
    | PcOutOfRange         // fetch reading past the end of RAM
    | Unimplemented(op: u16)

  datatype Result<T> = Ok(value: T) | Err(fault: Fault)

  /** The fixed sizes of the arrays, and the stack pointer within the stack. */
  predicate WellFormed(s: State)
  {
    |s.ram| == RAM_SIZE && |s.screen| == SCREEN_SIZE && |s.vReg| == NUM_REGS &&
    |s.stack| == STACK_SIZE && |s.keys| == NUM_KEYS && s.sp as nat <= STACK_SIZE
  }

  /** The state of a freshly constructed interpreter. */
  function Initial(): (s: State)
    ensures WellFormed(s)
    ensures s.pc == 0x200
    ensures s.ram[..FONTSET_SIZE] == FONTSET
    ensures forall a :: FONTSET_SIZE <= a < RAM_SIZE ==> s.ram[a] == 0
    ensures (forall p :: 0 <= p < SCREEN_SIZE ==> !s.screen[p]) && (forall k :: 0 <= k < NUM_KEYS ==> !s.keys[k])
    ensures (forall r :: 0 <= r < NUM_REGS ==> s.vReg[r] == 0) && (forall j :: 0 <= j < STACK_SIZE ==> s.stack[j] == 0)
    ensures s.iReg == 0 && s.sp == 0 && s.dt == 0 && s.st == 0
  {
    State(
      START_ADDR,
      seq(RAM_SIZE, a requires 0 <= a => if a < FONTSET_SIZE then FONTSET[a] else 0),
      seq(SCREEN_SIZE, _ => false),
      seq(NUM_REGS, _ => 0),
      0,
      0,
      seq(STACK_SIZE, _ => 0),
      seq(NUM_KEYS, _ => false),
      0,
      0)
  }

  // ---- The call stack ----

  /** Store val in the first free slot and advance the stack pointer. */
  function Push(s: State, val: u16): (t: State)
    requires WellFormed(s) && (s.sp as nat) < STACK_SIZE
    ensures WellFormed(t) && t.sp == s.sp + 1
    ensures t.stack[s.sp] == val
    ensures forall j :: 0 <= j < STACK_SIZE && j != s.sp as int ==> t.stack[j] == s.stack[j]
    ensures t == s.(sp := t.sp, stack := t.stack)
  {
    s.(stack := s.stack[s.sp := val], sp := s.sp + 1)
  }

  /** Retreat the stack pointer and return the value in the slot it names. */
  function Pop(s: State): (r: (State, u16))
    requires WellFormed(s) && s.sp > 0
    ensures WellFormed(r.0) && r.0.sp == s.sp - 1 && r.1 == s.stack[s.sp - 1]
    ensures r.0 == s.(sp := r.0.sp)
  {
    var sp := s.sp - 1;
    (s.(sp := sp), s.stack[sp])
  }

  /** Popping right after pushing gives back the pushed value and the old stack pointer. */
  lemma PushThenPop(s: State, val: u16)
    requires WellFormed(s) && (s.sp as nat) < STACK_SIZE
    ensures Pop(Push(s, val)) == (s.(stack := s.stack[s.sp := val]), val)
  {
  }

  /** Pushing the popped value back restores the state exactly. */
  lemma PopThenPush(s: State)
    requires WellFormed(s) && s.sp > 0
    ensures Push(Pop(s).0, Pop(s).1) == s
  {
    var (t, v) := Pop(s);
    assert Push(t, v).stack == s.stack;
  }

  // ---- One clock cycle ----

  /**
   * Read the big-endian opcode at pc and advance pc by two. The high byte
   * is shifted left by eight and ORed with the low byte.
   */
  function Fetch(s: State): (r: (State, u16))
    requires WellFormed(s) && (s.pc as nat) + 1 < RAM_SIZE
    ensures r.1 as int == s.ram[s.pc] as int * 0x100 + s.ram[s.pc + 1] as int
    ensures r.0.pc as int == s.pc as int + 2 && r.0 == s.(pc := r.0.pc)
  {
    var hi := s.ram[s.pc] as u16;
    var lo := s.ram[s.pc + 1] as u16;
    JoinBytes(hi as u8, lo as u8);
    (s.(pc := s.pc + 2), Or16(hi * 0x100, lo))
  }

  /**
   * One clock cycle. It fetches and discards the opcode: decode and
   * execute are not yet wired in, so only pc moves.
   */
  function Tick(s: State): (r: Result<State>)
    requires WellFormed(s)
    ensures r.Err? <==> (s.pc as nat) + 1 >= RAM_SIZE
    ensures r.Err? ==> r.fault == PcOutOfRange
    ensures r.Ok? ==> r.value.pc as int == s.pc as int + 2 && r.value == s.(pc := r.value.pc)
  {
    if (s.pc as nat) + 1 < RAM_SIZE then Ok(Fetch(s).0) else Err(PcOutOfRange)
  }

  /**
   * Count both timers down by one unless they are already zero. The second
   * component reports the beep, raised when the sound timer is about to
   * go from 1 to 0.
   */
  function TickTimers(s: State): (r: (State, bool))
    ensures r.0.dt as int == if s.dt > 0 then s.dt as int - 1 else 0
    ensures r.0.st as int == if s.st > 0 then s.st as int - 1 else 0
    ensures r.1 <==> s.st == 1
    ensures r.0 == s.(dt := r.0.dt, st := r.0.st)
  {
    var dt := if s.dt > 0 then s.dt - 1 else s.dt;
    var beep := s.st == 1;
    var st := if s.st > 0 then s.st - 1 else s.st;
    (s.(dt := dt, st := st), beep)
  }

  /** The state after n timer ticks; the interpreter's host calls tick_timers at a fixed rate. */
  ghost function TickTimersTimes(s: State, n: nat): (t: State)
    decreases n
  {
    if n == 0 then s else TickTimersTimes(TickTimers(s).0, n - 1)
  }

  /**
   * After n ticks each timer has counted down by n, stopping at zero, and
   * nothing else moves.
   */
  lemma {:induction false} TimersAfter(s: State, n: nat)
    ensures var t := TickTimersTimes(s, n);
      t.dt as int == if s.dt as int > n then s.dt as int - n else 0
    ensures var t := TickTimersTimes(s, n);
      t.st as int == if s.st as int > n then s.st as int - n else 0
    ensures var t := TickTimersTimes(s, n); t == s.(dt := t.dt, st := t.st)
    decreases n
  {
    if n > 0 {
      TimersAfter(TickTimers(s).0, n - 1);
    }
  }

  // ---- Opcode execution ----

  /** pc advanced past the next instruction, or the fault if that overflows 16 bits. */
  function Skip(s: State): (r: Result<State>)
    ensures r.Ok? <==> s.pc as int + 2 <= 0xFFFF
    ensures r.Err? ==> r.fault == PcOverflow
    ensures r.Ok? ==> r.value.pc as int == s.pc as int + 2 && r.value == s.(pc := r.value.pc)
  {
    if (s.pc as int) + 2 < 0x1_0000 then Ok(s.(pc := s.pc + 2)) else Err(PcOverflow)
  }

  /** Register x set to val. */
  function SetReg(s: State, x: Nibble, val: u8): (t: State)
    requires WellFormed(s)
    ensures WellFormed(t) && t.vReg[x] == val && OnlyRegChanged(s, t, x)
  {
    s.(vReg := s.vReg[x := val])
  }

  /** Register x set to sum, then VF set to the carry of overflowing_add. */
  function AddWithCarry(s: State, x: Nibble, y: Nibble): (t: State)
    requires WellFormed(s)
    ensures var total := s.vReg[x] as int + s.vReg[y] as int;
      WellFormed(t) && t == s.(vReg := t.vReg) &&
      t.vReg[VF] == (if total > 0xFF then 1 else 0) &&
      (x != VF ==> t.vReg[x] as int == total % 0x100) &&
      (forall r :: 0 <= r < NUM_REGS && r != x && r != VF ==> t.vReg[r] == s.vReg[r])
  {
    var total := s.vReg[x] as int + s.vReg[y] as int;
    var sum := (total % 0x100) as u8;
    var carry: u8 := if total >= 0x100 then 1 else 0;
    s.(vReg := s.vReg[x := sum][VF := carry])
  }

  /**
   * Execute one opcode. Dispatch is on its four nibbles, tried in the
   * order the interpreter lists them; only the opcodes below exist so far.
   * No opcode touches RAM, the keys, the index register or the timers, and
   * every one keeps the array sizes and the stack pointer in range.
   */
  function Execute(s: State, op: u16): (r: Result<State>)
    requires WellFormed(s)
    ensures r.Ok? ==> WellFormed(r.value)
    ensures r.Ok? ==> r.value.ram == s.ram && r.value.keys == s.keys && r.value.iReg == s.iReg
    ensures r.Ok? ==> r.value.dt == s.dt && r.value.st == s.st
  {
    var (d1, d2, d3, d4) := Nibbles(op);
    match (d1, d2, d3, d4)
    // 0000: no operation
    case (0, 0, 0, 0) => Ok(s)
    // 00E0: clear the screen
    case (0, 0, 0xE, 0) => Ok(s.(screen := seq(SCREEN_SIZE, _ => false)))
    // 00EE: return from a subroutine
    case (0, 0, 0xE, 0xE) =>
      if s.sp == 0 then Err(StackUnderflow)
      else var (t, addr) := Pop(s); Ok(t.(pc := addr))
    // 1NNN: jump
    case (1, _, _, _) => Ok(s.(pc := Nnn(op)))
    // 2NNN: call a subroutine
    case (2, _, _, _) =>
      if s.sp as nat == STACK_SIZE then Err(StackOverflow)
      else Ok(Push(s, s.pc).(pc := Nnn(op)))
    // 3XNN: skip if Vx == NN
    case (3, _, _, _) => if s.vReg[d2] == Nn(op) then Skip(s) else Ok(s)
    // 4XNN: skip if Vx != NN
    case (4, _, _, _) => if s.vReg[d2] != Nn(op) then Skip(s) else Ok(s)
    // 5XY0: skip if Vx == Vy
    case (5, _, _, 0) => if s.vReg[d2] == s.vReg[d3] then Skip(s) else Ok(s)
    // 6XNN: Vx = NN
    case (6, _, _, _) => Ok(SetReg(s, d2, Nn(op)))
    // 7XNN: Vx += NN, wrapping, VF untouched
    case (7, _, _, _) => Ok(SetReg(s, d2, ((s.vReg[d2] as int + Nn(op) as int) % 0x100) as u8))
    // 8XY0: Vx = Vy
    case (8, _, _, 0) => Ok(SetReg(s, d2, s.vReg[d3]))
    // 8XY1, 8XY2, 8XY3: all three are Vx |= Vy
    case (8, _, _, 1) | (8, _, _, 2) | (8, _, _, 3) => Ok(SetReg(s, d2, Or8(s.vReg[d2], s.vReg[d3])))
    // 8XY4: Vx += Vy, VF = carry
    case (8, _, _, 4) => Ok(AddWithCarry(s, d2, d3))
    // 8XY5: also Vx += Vy, VF = carry
    case (8, _, _, 5) => Ok(AddWithCarry(s, d2, d3))
    case _ => Err(Unimplemented(op))
  }

  /**
   * The opcodes this interpreter implements, stated on the opcode's value
   * rather than its nibbles.
   */
  predicate Implemented(op: u16)
  {
    var top := op / 0x1000;
    op == 0x0000 || op == 0x00E0 || op == 0x00EE ||
    (1 <= top <= 4) || (top == 5 && op % 0x10 == 0) || top == 6 || top == 7 ||
    (top == 8 && op % 0x10 <= 5)
  }

  /** Execute reports an unimplemented opcode exactly for the opcodes outside the table. */
  lemma UnimplementedExactly(s: State, op: u16)
    requires WellFormed(s)
    ensures Execute(s, op) == Err(Unimplemented(op)) <==> !Implemented(op)
  {
  }

  /** 0000 does nothing at all. */
  lemma Nop(s: State)
    requires WellFormed(s)
    ensures Execute(s, 0x0000) == Ok(s)
  {
  }

  /** 00EE pops the top return address into pc and changes nothing else. */
  lemma Return(s: State)
    requires WellFormed(s) && s.sp > 0
    ensures Execute(s, 0x00EE) == Ok(s.(sp := s.sp - 1, pc := s.stack[s.sp - 1]))
  {
  }

  /** 2NNN pushes pc and jumps to NNN; nothing else changes. */
  lemma Call(s: State, op: u16)
    requires WellFormed(s) && op / 0x1000 == 2 && (s.sp as nat) < STACK_SIZE
    ensures Execute(s, op) == Ok(s.(stack := s.stack[s.sp := s.pc], sp := s.sp + 1, pc := op % 0x1000))
  {
  }

  /** 00E0 turns every pixel off and changes nothing else. */
  lemma ClearScreen(s: State)
    requires WellFormed(s)
    ensures Execute(s, 0x00E0).Ok?
    ensures var t := Execute(s, 0x00E0).value;
      (forall p :: 0 <= p < SCREEN_SIZE ==> !t.screen[p]) && |t.screen| == SCREEN_SIZE &&
      t == s.(screen := t.screen)
  {
  }

  /** 1NNN sets pc to the low twelve bits of the opcode and nothing else. */
  lemma Jump(s: State, op: u16)
    requires WellFormed(s) && op / 0x1000 == 1
    ensures Execute(s, op) == Ok(s.(pc := op % 0x1000))
  {
  }

  /**
   * 2NNN at pc = p followed by 00EE returns to p with the stack pointer
   * restored; the slot above it still holds p.
   */
  lemma CallThenReturn(s: State, op: u16)
    requires WellFormed(s) && op / 0x1000 == 2 && (s.sp as nat) < STACK_SIZE
    ensures Execute(s, op).Ok? && Execute(s, op).value.pc == op % 0x1000
    ensures Execute(Execute(s, op).value, 0x00EE) == Ok(s.(stack := s.stack[s.sp := s.pc]))
  {
  }

  /** Call faults exactly on a full stack, return exactly on an empty one. */
  lemma StackFaults(s: State, op: u16)
    requires WellFormed(s)
    ensures op / 0x1000 == 2 ==> (Execute(s, op) == Err(StackOverflow) <==> s.sp as nat == STACK_SIZE)
    ensures Execute(s, 0x00EE) == Err(StackUnderflow) <==> s.sp == 0
  {
  }

  /** The skip condition of 3XNN, 4XNN and 5XY0, on the opcode's value. */
  predicate SkipTaken(s: State, op: u16)
    requires WellFormed(s)
  {
    var top := op / 0x1000;
    var x := (op as int / 0x100) % 0x10;
    var y := (op as int / 0x10) % 0x10;
    (top == 3 && s.vReg[x] as int == op as int % 0x100) ||
    (top == 4 && s.vReg[x] as int != op as int % 0x100) ||
    (top == 5 && op % 0x10 == 0 && s.vReg[x] == s.vReg[y])
  }

  /**
   * The skip family moves pc on by two exactly when its comparison holds,
   * faulting only if that would pass 0xFFFF; nothing else changes.
   */
  lemma SkipFamily(s: State, op: u16)
    requires WellFormed(s)
    requires op / 0x1000 == 3 || op / 0x1000 == 4 || (op / 0x1000 == 5 && op % 0x10 == 0)
    ensures Execute(s, op).Err? <==> SkipTaken(s, op) && s.pc as int + 2 > 0xFFFF
    ensures Execute(s, op).Err? ==> Execute(s, op).fault == PcOverflow
    ensures Execute(s, op).Ok? ==>
      var t := Execute(s, op).value;
      t == s.(pc := t.pc) &&
      (t.pc as int == s.pc as int + 2 <==> SkipTaken(s, op)) &&
      (t.pc == s.pc <==> !SkipTaken(s, op))
  {
  }

  /** t differs from s at most in register x. */
  predicate OnlyRegChanged(s: State, t: State, x: nat)
    requires WellFormed(s) && WellFormed(t)
  {
    t == s.(vReg := t.vReg) && forall r :: 0 <= r < NUM_REGS && r != x ==> t.vReg[r] == s.vReg[r]
  }

  /** 6XNN loads the byte NN into Vx and touches nothing else. */
  lemma LoadImmediate(s: State, op: u16)
    requires WellFormed(s) && op / 0x1000 == 6
    ensures Execute(s, op).Ok?
    ensures var t := Execute(s, op).value; var x := (op as int / 0x100) % 0x10;
      WellFormed(t) && t.vReg[x] as int == op as int % 0x100 && OnlyRegChanged(s, t, x)
  {
  }

  /**
   * 7XNN adds NN to Vx modulo 256 and leaves VF alone (unless x is F);
   * no carry is recorded.
   */
  lemma AddImmediate(s: State, op: u16)
    requires WellFormed(s) && op / 0x1000 == 7
    ensures Execute(s, op).Ok?
    ensures var t := Execute(s, op).value; var x := (op as int / 0x100) % 0x10;
      WellFormed(t) && t.vReg[x] as int == (s.vReg[x] as int + op as int % 0x100) % 0x100 &&
      OnlyRegChanged(s, t, x)
  {
  }

  /** 8XY0 copies Vy into Vx. */
  lemma Move(s: State, op: u16)
    requires WellFormed(s) && op / 0x1000 == 8 && op % 0x10 == 0
    ensures Execute(s, op).Ok?
    ensures var t := Execute(s, op).value; var x := (op as int / 0x100) % 0x10; var y := (op as int / 0x10) % 0x10;
      WellFormed(t) && t.vReg[x] == s.vReg[y] && OnlyRegChanged(s, t, x)
  {
  }

  /**
   * 8XY1, 8XY2 and 8XY3 all set Vx to the bitwise OR of Vx and Vy: bit k
   * of the new Vx is set exactly when it is set in Vx or in Vy.
   */
  lemma OrFamily(s: State, op: u16, k: nat)
    requires WellFormed(s) && op / 0x1000 == 8 && 1 <= op % 0x10 <= 3
    ensures Execute(s, op).Ok?
    ensures var t := Execute(s, op).value; var x := (op as int / 0x100) % 0x10; var y := (op as int / 0x10) % 0x10;
      WellFormed(t) && OnlyRegChanged(s, t, x) &&
      (Bit(t.vReg[x] as nat, k) <==> k < 8 && (Bit(s.vReg[x] as nat, k) || Bit(s.vReg[y] as nat, k)))
  {
    var x := (op as int / 0x100) % 0x10;
    var y := (op as int / 0x10) % 0x10;
    OrBit(s.vReg[x] as nat, s.vReg[y] as nat, 8, k);
  }

  /**
   * 8XY4 and 8XY5 both set Vx to (Vx + Vy) mod 256 and then VF to 1 on a
   * carry out of eight bits, 0 otherwise. VF is written last, so with
   * x = F the flag is what remains.
   */
  lemma AddRegisters(s: State, op: u16)
    requires WellFormed(s) && op / 0x1000 == 8 && (op % 0x10 == 4 || op % 0x10 == 5)
    ensures Execute(s, op).Ok?
    ensures var t := Execute(s, op).value;
      var x := (op as int / 0x100) % 0x10; var y := (op as int / 0x10) % 0x10;
      var total := s.vReg[x] as int + s.vReg[y] as int;
      WellFormed(t) && t == s.(vReg := t.vReg) &&
      t.vReg[VF] == (if total > 0xFF then 1 else 0) &&
      (x != VF ==> t.vReg[x] as int == total % 0x100) &&
      (forall r :: 0 <= r < NUM_REGS && r != x && r != VF ==> t.vReg[r] == s.vReg[r])
  {
  }

  /** As written, 8XY2 (AND) and 8XY3 (XOR) behave exactly like 8XY1 (OR). */
  lemma AndXorAreOr(s: State, op: u16)
    requires WellFormed(s) && op / 0x1000 == 8 && (op % 0x10 == 2 || op % 0x10 == 3)
    ensures Execute(s, op) == Execute(s, op - op % 0x10 + 1)
  {
  }

  /** As written, 8XY5 (subtract) behaves exactly like 8XY4 (add). */
  lemma SubtractAdds(s: State, op: u16)
    requires WellFormed(s) && op / 0x1000 == 8 && op % 0x10 == 5
    ensures Execute(s, op) == Execute(s, op - 1)
  {
  }

  /** For instance, with V0 = 5 and V1 = 3, 8015 leaves 8 in V0 rather than 2. */
  lemma SubtractExample(s: State)
    requires WellFormed(s) && s.vReg[0] == 5 && s.vReg[1] == 3
    ensures Execute(s, 0x8015).Ok? && Execute(s, 0x8015).value.vReg[0] == 8
  {
  }
}
