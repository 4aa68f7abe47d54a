/**
 The symbolic program and its bytes: the image that the assembler makes, run by the emulator's
 `step`, follows the program instruction by instruction.
 */
module Simulation {
  import opened Words
  import opened Isa
  import opened Machine
  import opened Source

  // ----- symbolic meaning of a program -----

  ghost predicate OpAt(lines: seq<Line>, base: word, k: nat, pc: int)
    requires Good(lines, base)
  {
    k < |lines| && lines[k].Op? && Address(lines, base, k) == pc
  }

  /** Operations take room, so no two of them share an address. */
  lemma OneOpAt(lines: seq<Line>, base: word, j: nat, k: nat)
    requires Good(lines, base) && j < |lines| && k < |lines| && lines[j].Op? && lines[k].Op?
    requires Address(lines, base, j) == Address(lines, base, k)
    ensures j == k
  {
    if j < k {
      OffsetGrows(lines, j + 1, k);
    } else if k < j {
      OffsetGrows(lines, k + 1, j);
    }
  }

  /** The operations of a program by address, labels and `$` resolved. */
  ghost function CodeOf(lines: seq<Line>, base: word): Code
    requires Good(lines, base)
  {
    map pc: word | 0 <= pc < 65536 && HasOp(lines, base, pc) ::
      var k: nat :| OpAt(lines, base, k, pc); Resolved(lines, base, k)
  }

  ghost predicate HasOp(lines: seq<Line>, base: word, pc: word)
    requires Good(lines, base)
  {
    exists k: nat :: OpAt(lines, base, k, pc)
  }

  lemma CodeAt(lines: seq<Line>, base: word, k: nat)
    requires Good(lines, base) && k < |lines| && lines[k].Op?
    ensures
      var pc := Address(lines, base, k);
      pc in CodeOf(lines, base) && CodeOf(lines, base)[pc] == Resolved(lines, base, k)
  {
    hide Resolved;
    var pc := Address(lines, base, k);
    assert OpAt(lines, base, k, pc);
    forall j: nat | OpAt(lines, base, j, pc)
      ensures j == k
    {
      OneOpAt(lines, base, j, k);
    }
  }

  /** One operation of the program. */
  function SymStep(code: Code, s: State): State
    requires s.pc in code && s.pc + Size(code[s.pc]) < 65536
  {
    Exec(code[s.pc], s.(pc := s.pc + Size(code[s.pc])))
  }

  // ----- the image in memory -----

  ghost predicate Loaded(s: State, lines: seq<Line>, base: word)
    requires Good(lines, base)
  {
    && base + Offset(lines, |lines|) <= ADDR_MB
    && forall n | 0 <= n < Offset(lines, |lines|) :: Peek(s, base + n) == Image(lines, base, |lines|)[n]
  }

  lemma {:induction false} ImagePart(lines: seq<Line>, base: word, k: nat, m: nat, n: nat)
    requires Good(lines, base) && k < m <= |lines| && n < SizeOf(lines[k])
    ensures Offset(lines, k) + n < Offset(lines, m)
    ensures Image(lines, base, m)[Offset(lines, k) + n] == BytesOf(lines, base, k)[n]
    decreases m
  {
    hide Good, BytesOf;
    if k < m - 1 {
      ImagePart(lines, base, k, m - 1, n);
    }
  }

  /** Where an operation lies, the image holds its encoding. */
  lemma CodeHolds(s: State, lines: seq<Line>, base: word, pc: word)
    requires Good(lines, base) && Loaded(s, lines, base) && pc in CodeOf(lines, base)
    ensures Holds(s, pc, CodeOf(lines, base)[pc])
  {
    hide Peek, Encode, Resolved, Good, Loaded, CodeOf, Image, BytesOf, SizeOf, Size;
    var k := LineAt(lines, base, pc);
    var i := Resolved(lines, base, k);
    LastByte(s, lines, base, k);
    forall n | 0 <= n < Size(i)
      ensures Peek(s, pc + n) == Encode(i)[n]
    {
      ByteHeld(s, lines, base, k, n);
    }
  }

  lemma LineAt(lines: seq<Line>, base: word, pc: word) returns (k: nat)
    requires Good(lines, base) && pc in CodeOf(lines, base)
    ensures k < |lines| && lines[k].Op? && Address(lines, base, k) == pc && CodeOf(lines, base)[pc] == Resolved(lines, base, k)
  {
    hide Resolved;
    k :| OpAt(lines, base, k, pc);
    CodeAt(lines, base, k);
  }

  lemma LastByte(s: State, lines: seq<Line>, base: word, k: nat)
    requires Good(lines, base) && Loaded(s, lines, base) && k < |lines| && lines[k].Op?
    ensures Address(lines, base, k) + Size(Resolved(lines, base, k)) <= ADDR_MB
  {
    hide Peek, Resolved, Image;
    OffsetGrows(lines, k + 1, |lines|);
  }

  lemma ByteHeld(s: State, lines: seq<Line>, base: word, k: nat, n: nat)
    requires Good(lines, base) && Loaded(s, lines, base) && k < |lines| && lines[k].Op? && n < Size(Resolved(lines, base, k))
    ensures Address(lines, base, k) + n < ADDR_MB
    ensures Peek(s, Address(lines, base, k) + n) == Encode(Resolved(lines, base, k))[n]
  {
    hide Peek, Encode, Resolved, Image;
    LastByte(s, lines, base, k);
    ImagePart(lines, base, k, |lines|, n);
    var at := Offset(lines, k) + n;
    assert Peek(s, base + at) == Image(lines, base, |lines|)[at];
  }

  // ----- stores -----

  /** The address an instruction is about to write. */
  function StoreAddress(i: Native, s: State): Option<word> {
    match i
    case SW(at, _) => Some(at.Value(s.g))
    case PUSH(_) => Some(s.sp)
    case _ => None
  }

  /** No store into the image, nor into MB when part of the image lies in the banked window. */
  ghost predicate Harmless(i: Native, s: State, lines: seq<Line>, base: word)
    requires Good(lines, base)
  {
    match StoreAddress(i, s)
    case None => true
    case Some(a) =>
      var end := base + Offset(lines, |lines|);
      !(base <= a < end) && (ADDR_MB <= a < ADDR_SP ==> end <= 0x8000 || 0xC000 <= base)
  }

  lemma PokeElsewhere(s: State, a: word, v: byte, b: word)
    requires a != b && b < ADDR_MB && (ADDR_MB <= a < ADDR_SP ==> !InWindow(b))
    ensures Peek(Poke(s, a, v), b) == Peek(s, b)
  {
  }

  /** Peek looks at memory and at MB, not at registers, ports or status. */
  lemma PeekSame(s: State, s': State, b: word)
    requires b < ADDR_MB && s'.mem == s.mem && s'.banks == s.banks && s'.mb == s.mb
    ensures Peek(s', b) == Peek(s, b)
  {
  }

  lemma ExecPeek(i: Native, s: State, b: word)
    requires b < ADDR_MB
    requires match StoreAddress(i, s) case None => true case Some(a) => a != b && (ADDR_MB <= a < ADDR_SP ==> !InWindow(b))
    ensures Peek(Exec(i, s), b) == Peek(s, b)
  {
    hide Peek, Poke, Alu, Regs.Set, Regs.Get;
    match i
    case SW(at, r) => PokeElsewhere(s, at.Value(s.g), s.g.Get(r), b);
    case PUSH(x) =>
      var s1 := s.(sp := U16(s.sp - 1));
      PokeElsewhere(s1, s.sp, x.Value(s.g), b);
      PeekSame(s, s1, b);
    case _ => PeekSame(s, Exec(i, s), b);
  }

  /** A harmless step leaves the image as it was. */
  lemma StaysLoaded(s: State, lines: seq<Line>, base: word)
    requires Good(lines, base) && Loaded(s, lines, base)
    requires s.pc in CodeOf(lines, base) && s.pc + Size(CodeOf(lines, base)[s.pc]) < 65536
    requires Harmless(CodeOf(lines, base)[s.pc], s, lines, base)
    ensures Loaded(SymStep(CodeOf(lines, base), s), lines, base)
  {
    hide Peek, Exec, CodeOf, Image;
    var i := CodeOf(lines, base)[s.pc];
    var s1 := s.(pc := s.pc + Size(i));
    var image := Image(lines, base, |lines|);
    forall n | 0 <= n < Offset(lines, |lines|)
      ensures Peek(Exec(i, s1), base + n) == image[n]
    {
      assert Peek(s, base + n) == image[n];
      PeekSame(s, s1, base + n);
      ExecPeek(i, s1, base + n);
    }
  }

  // ----- the theorem -----

  /** The symbolic run of n operations exists and keeps clear of its own image. */
  ghost predicate Follows(s: State, lines: seq<Line>, base: word, n: nat)
    requires Good(lines, base)
    decreases n
  {
    n == 0 || (
      var code := CodeOf(lines, base);
      && !Halted(s) && s.pc in code && s.pc + Size(code[s.pc]) < 65536
      && Harmless(code[s.pc], s, lines, base)
      && Follows(SymStep(code, s), lines, base, n - 1))
  }

  function SymRun(code: Code, s: State, n: nat): State
    decreases n
  {
    if n == 0 || !(s.pc in code && s.pc + Size(code[s.pc]) < 65536) then s else SymRun(code, SymStep(code, s), n - 1)
  }

  /**
   Assembler and emulator together are correct: with the assembled image in memory, any number
   of emulator steps is that number of operations of the symbolic program.
   */
  lemma {:induction false} ImageSimulates(s: State, lines: seq<Line>, base: word, n: nat)
    requires Good(lines, base) && Loaded(s, lines, base) && Follows(s, lines, base, n)
    ensures Run(s, n) == SymRun(CodeOf(lines, base), s, n)
    ensures Loaded(Run(s, n), lines, base)
    decreases n
  {
    hide Step, Exec, Good, Loaded, CodeOf, Holds, Harmless, Halted;
    if n != 0 {
      var code := CodeOf(lines, base);
      CodeHolds(s, lines, base, s.pc);
      StepMeetsSpec(s, code[s.pc]);
      StaysLoaded(s, lines, base);
      ImageSimulates(SymStep(code, s), lines, base, n - 1);
    }
  }
}
