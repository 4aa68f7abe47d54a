/**
 The memory map over whole runs of the emulator: every physical byte holds the last value that an
 accepted store put there, whatever program runs.
 */
module MemoryMap {
  import opened Words
  import opened Isa
  import opened Machine
  import opened Source

  /** The address and the byte that the next step stores, if it stores at all: SW and PUSH do. */
  function StoreOf(s: State): Option<(word, byte)> {
    if Halted(s) then None
    else
      var (pc0, s1) := Fetch(s);
      if pc0 / 16 == 2 then
        var (addr, s2) := FetchAddress(s1, pc0);
        Some((addr, s2.g.Get(RegOf(pc0 % 8))))
      else if pc0 / 16 == 3 then
        var (v, s2) := FetchImm8Pc0Reg(s1, pc0);
        Some((s2.sp, v))
      else None
  }

  /** The state with the store of the next step made, and nothing else done. */
  function AfterStore(s: State): State {
    match StoreOf(s)
    case None => s
    case Some(store) => Poke(s, store.0, store.1)
  }

  /** Memory, banks and MB agree. */
  predicate SameStorage(s: State, s': State) {
    s'.mem == s.mem && s'.banks == s.banks && s'.mb == s.mb && s'.writeProtect == s.writeProtect
  }

  lemma PokeStorage(s: State, s': State, a: word, v: byte)
    requires SameStorage(s, s')
    ensures SameStorage(Poke(s, a, v), Poke(s', a, v))
  {
  }

  lemma FetchStorage(s: State, pc0: byte)
    ensures SameStorage(s, Fetch(s).1) && SameStorage(s, FetchAddress(s, pc0).1) && SameStorage(s, FetchImm8Pc0Reg(s, pc0).1)
    ensures SameStorage(s, FetchImm8Reg(s, pc0).1) && SameStorage(s, FetchImm16(s).1)
  {
    hide Peek, Bit, RegOf, Pair;
  }

  lemma PortStorage(s: State, port: byte, v: byte)
    ensures SameStorage(s, In(s, port).1) && SameStorage(s, Out(s, port, v))
  {
  }

  /** A step changes memory, banks and MB by its store alone. */
  lemma StepStores(s: State)
    ensures SameStorage(AfterStore(s), Step(s))
  {
    hide Peek, Poke, Alu, Bit, Halted, RegOf, Regs.Get, Regs.Set, In, Out, Fetch, FetchAddress, FetchImm8Pc0Reg, FetchImm8Reg, FetchImm16;
    if !Halted(s) {
      var (pc0, s1) := Fetch(s);
      FetchStorage(s, pc0);
      FetchStorage(s1, pc0);
      if pc0 / 16 == 2 {
        var (addr, s2) := FetchAddress(s1, pc0);
        PokeStorage(s, s2, addr, s2.g.Get(RegOf(pc0 % 8)));
      } else if pc0 / 16 == 3 {
        var (v, s2) := FetchImm8Pc0Reg(s1, pc0);
        PokeStorage(s, s2.(sp := U16(s2.sp - 1)), s2.sp, v);
      } else if pc0 / 16 == 7 {
        var (port, s2) := FetchImm8Reg(s1, pc0);
        PortStorage(s2, port, 0);
      } else if pc0 / 16 == 8 {
        var (port, s2) := FetchImm8Reg(s1, pc0);
        PortStorage(s2, port, s2.g.Get(RegOf(pc0 % 8)));
      }
    }
  }

  // ----- the stores of a run -----

  /** Cells that only stores change: memory, banks, and the two bytes of MB. */
  predicate Stored(c: Cell) {
    match c
    case Main(_) => true
    case Banked(_, _) => true
    case Special(k) => k < 2
    case Absent => false
  }

  /** What the next step puts where, if the store is accepted. */
  function Accepted(s: State): seq<(Cell, byte)> {
    match StoreOf(s)
    case None => []
    case Some(store) => if Refused(s, store.0) then [] else [(Locate(s, store.0), store.1)]
  }

  /** All accepted stores of n steps, in order. */
  function Log(s: State, n: nat): seq<(Cell, byte)>
    decreases n
  {
    if n == 0 then [] else Accepted(s) + Log(Step(s), n - 1)
  }

  /** The last value stored in a cell. */
  function Last(log: seq<(Cell, byte)>, c: Cell): Option<byte> {
    if log == [] then None
    else if log[|log| - 1].0 == c then Some(log[|log| - 1].1)
    else Last(log[..|log| - 1], c)
  }

  lemma {:induction false} LastAppend(x: seq<(Cell, byte)>, y: seq<(Cell, byte)>, c: Cell)
    ensures Last(x + y, c) == if Last(y, c).Some? then Last(y, c) else Last(x, c)
    decreases |y|
  {
    if y == [] {
      assert x + y == x;
    } else {
      var k := |y| - 1;
      assert (x + y)[..|x + y| - 1] == x + y[..k] && (x + y)[|x + y| - 1] == y[k];
      LastAppend(x, y[..k], c);
    }
  }

  lemma PokeReads(s: State, a: word, v: byte, c: Cell)
    requires Stored(c) && ValidCell(s, c)
    ensures ValidCell(Poke(s, a, v), c)
    ensures Read(Poke(s, a, v), c) == if !Refused(s, a) && Locate(s, a) == c then v else Read(s, c)
  {
  }

  lemma SameReads(s: State, s': State, c: Cell)
    requires SameStorage(s, s') && Stored(c) && ValidCell(s, c)
    ensures ValidCell(s', c) && Read(s', c) == Read(s, c)
  {
  }

  lemma StepReads(s: State, c: Cell)
    requires Stored(c) && ValidCell(s, c)
    ensures ValidCell(Step(s), c)
    ensures Read(Step(s), c) == if Last(Accepted(s), c).Some? then Last(Accepted(s), c).value else Read(s, c)
  {
    hide Step, Read, Locate, Poke, StoreOf, ValidCell, Refused;
    StepStores(s);
    match StoreOf(s)
    case None => SameReads(s, Step(s), c);
    case Some(store) =>
      PokeReads(s, store.0, store.1, c);
      SameReads(Poke(s, store.0, store.1), Step(s), c);
  }

  /**
   After any number of steps a physical byte holds the last value that was stored in it, or what
   it held before: the memory map is a store with one value to each cell.
   */
  lemma {:induction false} ReadsLastWrite(s: State, n: nat, c: Cell)
    requires Stored(c) && ValidCell(s, c)
    ensures ValidCell(Run(s, n), c)
    ensures Read(Run(s, n), c) == if Last(Log(s, n), c).Some? then Last(Log(s, n), c).value else Read(s, c)
    decreases n
  {
    hide Step, Read, Accepted, ValidCell, Last;
    if n == 0 {
      assert Last([], c) == None by { NoneLast(c); }
    } else {
      StepReads(s, c);
      ReadsLastWrite(Step(s), n - 1, c);
      LastAppend(Accepted(s), Log(Step(s), n - 1), c);
    }
  }

  lemma NoneLast(c: Cell)
    ensures Last([], c) == None
  {
  }

  // ----- what follows -----

  lemma {:induction false} NotLast(log: seq<(Cell, byte)>, c: Cell)
    requires forall k | 0 <= k < |log| :: log[k].0 != c
    ensures Last(log, c) == None
    decreases |log|
  {
    if log != [] {
      NotLast(log[..|log| - 1], c);
    }
  }

  lemma {:induction false} RunProtects(s: State, n: nat)
    ensures Run(s, n).writeProtect == s.writeProtect
    decreases n
  {
    hide Step, StoreOf;
    if n != 0 {
      StepStores(s);
      PokeProtects(s);
      RunProtects(Step(s), n - 1);
    }
  }

  lemma PokeProtects(s: State)
    ensures AfterStore(s).writeProtect == s.writeProtect && AfterStore(s).banks.Keys == s.banks.Keys
  {
    hide StoreOf;
  }

  /** Under write protection no store reaches ROM. */
  lemma {:induction false} RomNotLogged(s: State, n: nat, c: Cell)
    requires s.writeProtect && c.Main? && c.offset < 0x8000
    ensures forall k | 0 <= k < |Log(s, n)| :: Log(s, n)[k].0 != c
    decreases n
  {
    hide Step, StoreOf;
    if n != 0 {
      StepStores(s);
      PokeProtects(s);
      RomNotLogged(Step(s), n - 1, c);
    }
  }

  /** ROM reads the same after any run, whatever the program does. */
  lemma RomStays(s: State, n: nat, a: word)
    requires s.writeProtect && a < 0x8000
    ensures Peek(Run(s, n), a) == Peek(s, a)
  {
    hide Run, Log, Last;
    ReadsLastWrite(s, n, Main(a));
    RomNotLogged(s, n, Main(a));
    NotLast(Log(s, n), Main(a));
  }

  /** MB selects the bank in one of the first n states. */
  ghost predicate Selects(s: State, n: nat, b: word) {
    exists j: nat {:trigger Run(s, j)} :: j < n && Run(s, j).mb == b
  }

  lemma {:induction false} BankNotLogged(s: State, n: nat, b: word, offset: nat)
    requires !Selects(s, n, b)
    ensures forall k | 0 <= k < |Log(s, n)| :: Log(s, n)[k].0 != Banked(b, offset)
    decreases n
  {
    hide Step, StoreOf;
    if n != 0 {
      assert Run(s, 0).mb != b;
      forall j: nat | j < n - 1
        ensures Run(Step(s), j).mb != b
      {
        assert Run(s, j + 1) == Run(Step(s), j);
      }
      BankNotLogged(Step(s), n - 1, b, offset);
    }
  }

  /** A bank changes only while MB selects it. */
  lemma BankStays(s: State, n: nat, b: word, offset: nat)
    requires !Selects(s, n, b) && b in s.banks && offset < 0x8000
    ensures b in Run(s, n).banks && Run(s, n).banks[b][offset] == s.banks[b][offset]
  {
    hide Run, Log, Last, Selects;
    ReadsLastWrite(s, n, Banked(b, offset));
    BankNotLogged(s, n, b, offset);
    NotLast(Log(s, n), Banked(b, offset));
  }

  /** MB, SP and PC as bytes in memory: a store sets that byte of the register and leaves the other. */
  lemma SpecialBytes(s: State, a: word, v: byte)
    requires a >= ADDR_MB
    ensures var s' := Poke(s, a, v);
      && Peek(s', a) == v && s'.mem == s.mem && s'.banks == s.banks && s'.g == s.g
      && s'.mb == (if a == ADDR_MB then Pair(Hi(s.mb), v) else if a == ADDR_MB + 1 then Pair(v, Lo(s.mb)) else s.mb)
      && s'.sp == (if a == ADDR_SP then Pair(Hi(s.sp), v) else if a == ADDR_SP + 1 then Pair(v, Lo(s.sp)) else s.sp)
      && s'.pc == (if a == ADDR_PC then Pair(Hi(s.pc), v) else if a == ADDR_PC + 1 then Pair(v, Lo(s.pc)) else s.pc)
  {
  }


  // ----- the memory map in numbers -----

  /** ROM below 0x8000, the bank that MB selects up to 0xBFFF, RAM, and the registers from 0xFFFA on. */
  lemma PeekIs(s: State, a: word)
    ensures a < 0x8000 || 0xC000 <= a < 0xFFFA ==> Peek(s, a) == s.mem[a]
    ensures 0x8000 <= a < 0xC000 && s.mb == 0 ==> Peek(s, a) == s.mem[a]
    ensures 0x8000 <= a < 0xC000 && s.mb != 0 ==> Peek(s, a) == if s.mb in s.banks then s.banks[s.mb][a - 0x8000] else 0
    ensures Peek(s, 0xFFFA) == s.mb % 256 && Peek(s, 0xFFFB) == s.mb / 256
    ensures Peek(s, 0xFFFC) == s.sp % 256 && Peek(s, 0xFFFD) == s.sp / 256
    ensures Peek(s, 0xFFFE) == s.pc % 256 && Peek(s, 0xFFFF) == s.pc / 256
  {
  }

  /** A bank is selected at this address, and it is not there. */
  predicate NoBank(s: State, a: word) { 0x8000 <= a < 0xC000 && s.mb != 0 && s.mb !in s.banks }

  /** A store changes one byte, or nothing: in ROM under protection, and where there is no bank. */
  lemma PokeIs(s: State, a: word, v: byte)
    ensures (a < 0x8000 && s.writeProtect) || NoBank(s, a) ==> Poke(s, a, v) == s
    ensures (a < 0x8000 && !s.writeProtect) || 0xC000 <= a < 0xFFFA || (0x8000 <= a < 0xC000 && s.mb == 0)
      ==> Poke(s, a, v) == s.(mem := s.mem[a := v])
    ensures 0x8000 <= a < 0xC000 && s.mb != 0 && s.mb in s.banks
      ==> Poke(s, a, v) == s.(banks := s.banks[s.mb := s.banks[s.mb][a - 0x8000 := v]])
    ensures Poke(s, 0xFFFA, v) == s.(mb := s.mb / 256 * 256 + v) && Poke(s, 0xFFFB, v) == s.(mb := 256 * v + s.mb % 256)
    ensures Poke(s, 0xFFFC, v) == s.(sp := s.sp / 256 * 256 + v) && Poke(s, 0xFFFD, v) == s.(sp := 256 * v + s.sp % 256)
    ensures Poke(s, 0xFFFE, v) == s.(pc := s.pc / 256 * 256 + v) && Poke(s, 0xFFFF, v) == s.(pc := 256 * v + s.pc % 256)
  {
  }

  /** The byte that was stored is read back, from every address that is not ROM and has a byte. */
  lemma ReadsBack(s: State, a: word, v: byte)
    requires 0x8000 <= a && !NoBank(s, a)
    ensures Peek(Poke(s, a, v), a) == v
  {
    hide Peek, Poke;
    if a >= 0xFFFA {
      SpecialBytes(s, a, v);
    } else {
      PokeIs(s, a, v);
      PeekIs(Poke(s, a, v), a);
    }
  }

  /** Everywhere, protected or not: exactly when a byte comes back. */
  lemma ReadBackExact(s: State, a: word, v: byte)
    ensures Peek(Poke(s, a, v), a) == v
      <==> if a < 0x8000 then !s.writeProtect || s.mem[a] == v else NoBank(s, a) ==> v == 0
  {
    hide Peek, Poke;
    PokeIs(s, a, v);
    PeekIs(s, a);
    if a >= 0x8000 && !NoBank(s, a) {
      ReadsBack(s, a, v);
    } else {
      PeekIs(Poke(s, a, v), a);
    }
  }

  /** Below the registers a store changes what one address reads and no other. */
  lemma OthersStay(s: State, a: word, v: byte, b: word)
    requires a < 0xFFFA && b != a
    ensures Peek(Poke(s, a, v), b) == Peek(s, b)
  {
  }

  /** A store is accepted unless it goes to ROM under protection. */
  lemma AcceptedExactly(s: State)
    ensures Accepted(s) != [] <==> StoreOf(s).Some? && (StoreOf(s).value.0 >= 0x8000 || !s.writeProtect)
  {
    hide StoreOf;
  }

  // ----- stores of instructions -----

  /** The byte that a step stores at such an address is read there after the step. */
  lemma StepReadsBack(s: State, a: word, v: byte)
    requires StoreOf(s) == Some((a, v)) && 0x8000 <= a < 0xFFFA && !NoBank(s, a)
    ensures Peek(Step(s), a) == v
  {
    hide Step, StoreOf, Poke, Peek;
    StepStores(s);
    ReadsBack(s, a, v);
    SamePeek(Poke(s, a, v), Step(s), a);
  }

  lemma SamePeek(s: State, s': State, a: word)
    requires SameStorage(s, s') && a < 0xFFFA
    ensures Peek(s', a) == Peek(s, a)
  {
  }

  /** Also after any number of further steps, if none of them stores to the same byte again. */
  lemma StoreStays(s: State, a: word, v: byte, n: nat)
    requires StoreOf(s) == Some((a, v)) && 0x8000 <= a < 0xFFFA && !NoBank(s, a)
    requires forall k | 0 <= k < |Log(Step(s), n)| :: Log(Step(s), n)[k].0 != Locate(s, a)
    ensures ValidCell(Run(Step(s), n), Locate(s, a)) && Read(Run(Step(s), n), Locate(s, a)) == v
  {
    hide Step, StoreOf, Read, Run, Log, Last, ValidCell;
    var c := Locate(s, a);
    CellIs(s, a);
    AcceptedExactly(s);
    assert Last(Accepted(s), c) == Some(v) by { LastOne(c, v); }
    StepReads(s, c);
    ReadsLastWrite(Step(s), n, c);
    NotLast(Log(Step(s), n), c);
  }

  lemma CellIs(s: State, a: word)
    requires 0x8000 <= a < 0xFFFA && !NoBank(s, a)
    ensures Stored(Locate(s, a)) && ValidCell(s, Locate(s, a))
    ensures Locate(s, a) == if s.mb != 0 && a < 0xC000 then Banked(s.mb, a - 0x8000) else Main(a)
  {
  }

  lemma LastOne(c: Cell, v: byte)
    ensures Last([(c, v)], c) == Some(v)
  {
  }

  lemma Below(s: State, i: Native)
    requires Holds(s, s.pc, i)
    ensures s.pc + Size(i) <= 0xFFFA
  {
  }

  /** SW stores its register there. */
  lemma SwReadsBack(s: State, at: Arg16, r: Reg)
    requires !Halted(s) && Holds(s, s.pc, SW(at, r))
    requires 0x8000 <= at.Value(s.g) < 0xFFFA && !NoBank(s, at.Value(s.g))
    ensures Peek(Step(s), at.Value(s.g)) == s.g.Get(r)
  {
    hide Step, Halted, Holds, Peek, Poke, Arg16.Value;
    StepMeetsSpec(s, SW(at, r));
    Below(s, SW(at, r));
    ReadsBack(s.(pc := s.pc + Size(SW(at, r))), at.Value(s.g), s.g.Get(r));
  }

  /** PUSH stores its operand where SP points, and moves SP down. */
  lemma PushReadsBack(s: State, x: Arg8)
    requires !Halted(s) && Holds(s, s.pc, PUSH(x))
    requires 0x8000 <= s.sp < 0xFFFA && !NoBank(s, s.sp)
    ensures Peek(Step(s), s.sp) == x.Value(s.g) && Step(s).sp == s.sp - 1
  {
    hide Step, Halted, Holds, Peek, Poke, Arg8.Value;
    StepMeetsSpec(s, PUSH(x));
    Below(s, PUSH(x));
    var s' := s.(pc := s.pc + Size(PUSH(x)), sp := s.sp - 1);
    ReadsBack(s', s.sp, x.Value(s.g));
    PokeIs(s', s.sp, x.Value(s.g));
  }
}
