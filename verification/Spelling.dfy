/**
 What the built-in macros expand to, for all registers and arguments: the blocks of native
 instructions whose effect the modules Macros and Blocks describe.
 */
module Spelling {
  import opened Words
  import opened Source
  import opened MacroTable
  import opened Expand
  import opened Core
  import opened Macros
  import opened Blocks
  import opened Logic
  import I = Isa

  /** The lines of a block; x is the operand of its LDA, when that is a label. */
  function Lay(b: Block, x: Operand, after: Lines): Lines {
    match b
    case Nop => after
    case Single(i) => Put(if i.LDA? && x.Ref? then Op(I.LDA(0), x) else Op(i, Written), after)
    case Join(p, q) => Lay(p, x, Lay(q, x, after))
  }

  /** Lay, one block at a time. */
  lemma Laying()
    ensures forall x, after {:trigger Lay(Nop, x, after)} :: Lay(Nop, x, after) == after
    ensures forall i, x, after {:trigger Lay(One(i), x, after)} ::
      Lay(One(i), x, after) == Put(if i.LDA? && x.Ref? then Op(I.LDA(0), x) else Op(i, Written), after)
    ensures forall p, q, x, after {:trigger Lay(Cat(p, q), x, after)} :: Lay(Cat(p, q), x, after) == Lay(p, x, Lay(q, x, after))
  {
  }

  /** The operation expands to the block, wherever it stands and however deep. */
  ghost predicate Spells(depth: nat, op: Operation, b: Block, x: Operand) {
    forall d: nat, after {:trigger ExpandTo(d, op, after)} | d > depth :: ExpandTo(d, op, after) == Some(Lay(b, x, after))
  }

  function A1(a: Arg): Args { Args(a, NoArgs) }

  function A2(a: Arg, b: Arg): Args { Args(a, A1(b)) }

  function A3(a: Arg, b: Arg, c: Arg): Args { Args(a, A2(b, c)) }

  function A4(a: Arg, b: Arg, c: Arg, d: Arg): Args { Args(a, A3(b, c, d)) }

  function A5(a: Arg, b: Arg, c: Arg, d: Arg, e: Arg): Args { Args(a, A4(b, c, d, e)) }

  predicate Small(x: Arg) { x.Register? || (x.Number? && x.v <= 255) }

  /** Where a jump goes: to a label in brackets, or to a number. */
  predicate IsTarget(t: Arg) { t.Symbol? || t.Number? }

  /** The word that the LDA of a jump holds until its label is known, and the label. */
  function FarWord(t: Arg): word { if t.Number? then U16(t.v) else 0 }

  function FarOperand(t: Arg): (x: Operand)
    ensures !x.Here?
  {
    if t.Symbol? then Ref(t.name, t.dotted) else Written
  }

  /** The lines that a macro call is replaced by. */
  function RewriteOf(op: Operation): Option<Text> {
    var m := FirstMatch(Overloads(op.name), op.args);
    if IsNative(op) || m.NoMacros? then None else Splice(m.body, op.args, End)
  }

  function ExpandEach(d: nat, text: Text, after: Lines): Option<Lines> {
    match text
    case Uses(op, rest) =>
      var more := ExpandEach(d, rest, after);
      if more.Some? then ExpandTo(d, op, more.value) else None
    case _ => Some(after)
  }

  lemma SpliceEach(d: nat, body: Body, args: Args, text: Text, after: Lines)
    requires Splice(body, args, End) == Some(text)
    ensures ExpandBody(d, body, args, after) == ExpandEach(d, text, after)
  {
    hide FilledAll, ExpandTo, Overloads;
    forall row: Row, more: Option<Text>, lines: Option<Lines> {:trigger SpliceRow(row, args, more), ExpandRow(d, row, args, lines)}
      | SpliceRow(row, args, more).Some? && lines == ExpandEach(d, more.value, after)
      ensures ExpandRow(d, row, args, lines) == ExpandEach(d, SpliceRow(row, args, more).value, after)
    {
    }
    assert ExpandEach(d, End, after) == Some(after);
  }

  /** The lines of a macro, one after the other, make up the block. */
  ghost predicate EachSpells(depth: nat, text: Text, b: Block, x: Operand) {
    forall d: nat, after {:trigger ExpandEach(d, text, after)} | d > depth :: ExpandEach(d, text, after) == Some(Lay(b, x, after))
  }

  lemma Each()
    ensures forall d, after {:trigger ExpandEach(d, End, after)} :: ExpandEach(d, End, after) == Some(after)
    ensures forall d, op, rest, after {:trigger ExpandEach(d, Uses(op, rest), after)} ::
      ExpandEach(d, Uses(op, rest), after)
        == var more := ExpandEach(d, rest, after); if more.Some? then ExpandTo(d, op, more.value) else None
  {
    hide ExpandTo;
  }

  /** A macro call expands to its lines, one nesting deeper. */
  lemma Becomes(d: nat, op: Operation, after: Lines)
    requires d > 0 && RewriteOf(op).Some?
    ensures ExpandTo(d, op, after) == ExpandEach(d - 1, RewriteOf(op).value, after)
  {
    hide IsNative, NativeLine, Overloads, FirstMatch, Splice, ExpandBody, ExpandEach;
    SpliceEach(d - 1, FirstMatch(Overloads(op.name), op.args).body, op.args, RewriteOf(op).value, after);
  }

  lemma Settle(depth: nat, op: Operation, text: Text, b: Block, x: Operand)
    requires RewriteOf(op) == Some(text) && EachSpells(depth, text, b, x)
    ensures Spells(depth + 1, op, b, x)
  {
    hide ExpandTo, ExpandEach, RewriteOf, Lay;
    forall d: nat, after | d > depth + 1
      ensures ExpandTo(d, op, after) == Some(Lay(b, x, after))
    {
      Becomes(d, op, after);
    }
  }

  // ----- evaluation of a call, rule by rule -----

  lemma Accepting()
    ensures Accepts(NoParams, NoArgs)
    ensures forall a, args {:trigger Accepts(NoParams, Args(a, args))} :: !Accepts(NoParams, Args(a, args))
    ensures forall p, ps {:trigger Accepts(Params(p, ps), NoArgs)} :: Accepts(Params(p, ps), NoArgs) == Optional(p)
    ensures forall p, ps, a, args {:trigger Accepts(Params(p, ps), Args(a, args))} ::
      Accepts(Params(p, ps), Args(a, args))
        == if Fails(p, a) then Optional(p) && Accepts(ps, Args(a, args)) else Accepts(ps, args)
    ensures forall args {:trigger FirstMatch(NoMacros, args)} :: FirstMatch(NoMacros, args) == NoMacros
    ensures forall ps, body, rest, args {:trigger FirstMatch(Macro(ps, body, rest), args)} ::
      FirstMatch(Macro(ps, body, rest), args)
        == if Accepts(ps, args) then Macro(ps, body, rest) else FirstMatch(rest, args)
  {
  }

  lemma Filling()
    ensures forall a, args, k: nat {:trigger ArgAt(Args(a, args), k)} ::
      ArgAt(Args(a, args), k) == if k == 0 then Some(a) else ArgAt(args, k - 1)
    ensures forall k, args {:trigger Filled(P(k), args)} ::
      ArgAt(args, k).Some? && !ArgAt(args, k).value.Symbol? ==> Filled(P(k), args) == ArgAt(args, k)
    ensures forall k, args {:trigger Filled(InBrackets(k), args)} ::
      ArgAt(args, k).Some? && !ArgAt(args, k).value.Register? ==> Filled(InBrackets(k), args) == ArgAt(args, k)
    ensures forall r, args {:trigger Filled(R(r), args)} :: Filled(R(r), args) == Some(Register(r))
    ensures forall v, args {:trigger Filled(N(v), args)} :: Filled(N(v), args) == Some(Number(v))
    ensures forall k, args {:trigger Filled(LowOf(k), args)} ::
      Filled(LowOf(k), args) == if NumberAt(args, k).Some? then Evaluated(NumberAt(args, k).value % 256) else None
    ensures forall k, args {:trigger Filled(HighOf(k), args)} ::
      Filled(HighOf(k), args) == if NumberAt(args, k).Some? then Evaluated(NumberAt(args, k).value / 256 % 256) else None
    ensures forall k, n: word, args {:trigger Filled(PlusOf(k, n), args)} ::
      Filled(PlusOf(k, n), args) == if NumberAt(args, k).Some? then Evaluated(NumberAt(args, k).value + n) else None
    ensures forall ahead: word, high, args {:trigger Filled(HereT(ahead, high), args)} ::
      Filled(HereT(ahead, high), args) == Some(HereByte(ahead, high))
  {
  }

  lemma Splicing()
    ensures forall a, m {:trigger Before(Some(a), Some(m))} :: Before(Some(a), Some(m)) == Some(Args(a, m))
    ensures forall name, pieces, args, rest {:trigger SpliceRow(Row(name, pieces), args, Some(rest))} ::
      SpliceRow(Row(name, pieces), args, Some(rest)) ==
        if FilledAll(pieces, args).Some? then Some(Uses(Do(name, FilledAll(pieces, args).value), rest)) else None
  {
    hide FilledAll;
  }

  /** A line with two arguments. */
  lemma SpliceTwo(name: Name, p: Piece, q: Piece, args: Args, a: Arg, b: Arg, rest: Text)
    requires Filled(p, args) == Some(a) && Filled(q, args) == Some(b)
    ensures SpliceRow(Row(name, With2(p, q)), args, Some(rest)) == Some(Uses(Do(name, A2(a, b)), rest))
  {
    hide Filled;
  }

  // ----- native operations -----

  lemma AluSpells(name: Name, r: I.Reg, v: Arg, x: Operand)
    requires AluOf(name).Some? && Small(v)
    ensures Spells(0, Do(name, A2(Register(r), v)), One(I.ALU(AluOf(name).value, r, ByteArg(v))), x)
  {
    hide Overloads, FirstMatch, ExpandBody;
  }

  lemma MwSpells(r: I.Reg, v: Arg, x: Operand)
    requires Small(v)
    ensures Spells(0, Do(Name.MW, A2(Register(r), v)), One(I.MW(r, ByteArg(v))), x)
  {
    hide Overloads, FirstMatch, ExpandBody;
  }

  lemma StackSpells(r: I.Reg, x: Operand)
    ensures Spells(0, Do(Name.PUSH, A1(Register(r))), One(I.PUSH(I.Rg(r))), x)
    ensures Spells(0, Do(Name.POP, A1(Register(r))), One(I.POP(r)), x)
  {
    hide Overloads, FirstMatch, ExpandBody;
  }

  lemma JnzSpells(v: Arg, x: Operand)
    requires Small(v)
    ensures Spells(0, Do(Name.JNZ, A1(v)), One(I.JNZ(ByteArg(v))), x)
  {
    hide Overloads, FirstMatch, ExpandBody;
  }

  lemma LdaSpells(t: Arg)
    requires IsTarget(t)
    ensures Spells(0, Do(Name.LDA, A1(t)), One(I.LDA(FarWord(t))), FarOperand(t))
  {
    hide Overloads, FirstMatch, ExpandBody;
  }

  lemma MemorySpells(r: I.Reg, a: Arg, x: Operand)
    requires a.Number?
    ensures Spells(0, Do(Name.LW, A2(Register(r), a)), One(I.LW(r, I.Abs(U16(a.v)))), x)
    ensures Spells(0, Do(Name.SW, A2(a, Register(r))), One(I.SW(I.Abs(U16(a.v)), r)), x)
  {
    hide Overloads, FirstMatch, ExpandBody;
  }

  lemma LwHlSpells(r: I.Reg, x: Operand)
    ensures Spells(0, Do(Name.LW, A1(Register(r))), One(I.LW(r, I.AtHL)), x)
  {
    hide Overloads, FirstMatch, ExpandBody;
  }

  lemma SwHlSpells(r: I.Reg, x: Operand)
    ensures Spells(0, Do(Name.SW, A1(Register(r))), One(I.SW(I.AtHL, r)), x)
  {
    hide Overloads, FirstMatch, ExpandBody;
  }

  lemma AluNames()
    ensures AluOf(Name.ADD) == Some(I.ADD) && AluOf(Name.ADC) == Some(I.ADC) && AluOf(Name.AND) == Some(I.AND)
    ensures AluOf(Name.OR) == Some(I.OR) && AluOf(Name.NOR) == Some(I.NOR) && AluOf(Name.CMP) == Some(I.CMP) && AluOf(Name.SBB) == Some(I.SBB)
  {
  }

  // ----- the table, entry by entry -----

  lemma NotEntry()
    ensures Overloads(Name.NOT) == NotMacros() && NativeParams(Name.NOT) == None
  {
    hide Lowers, Layer;
  }

  lemma NandEntry()
    ensures Overloads(Name.NAND) == NandMacros() && NativeParams(Name.NAND) == None
  {
    hide Lowers, Layer;
  }

  lemma XorEntry()
    ensures Overloads(Name.XOR) == XorMacros() && NativeParams(Name.XOR) == None
  {
    hide Lowers, Layer;
  }

  lemma XnorEntry()
    ensures Overloads(Name.XNOR) == XnorMacros() && NativeParams(Name.XNOR) == None
  {
    hide Lowers, Layer;
  }

  lemma Inc16Entry()
    ensures Overloads(Name.INC16) == Inc16Macros() && NativeParams(Name.INC16) == None
  {
    hide Lowers, Layer;
  }

  lemma JltEntry()
    ensures Overloads(Name.JLT) == JltMacros() && NativeParams(Name.JLT) == None
  {
    hide Lowers, Layer;
  }

  lemma JleEntry()
    ensures Overloads(Name.JLE) == JleMacros() && NativeParams(Name.JLE) == None
  {
    hide Lowers, Layer;
  }

  lemma JgeEntry()
    ensures Overloads(Name.JGE) == JgeMacros() && NativeParams(Name.JGE) == None
  {
    hide Lowers, Layer;
  }

  lemma JgtEntry()
    ensures Overloads(Name.JGT) == JgtMacros() && NativeParams(Name.JGT) == None
  {
    hide Lowers, Layer;
  }

  lemma JeqEntry()
    ensures Overloads(Name.JEQ) == JeqMacros() && NativeParams(Name.JEQ) == None
  {
    hide Lowers, Layer;
  }

  lemma JneEntry()
    ensures Overloads(Name.JNE) == JneMacros() && NativeParams(Name.JNE) == None
  {
    hide Lowers, Layer;
  }

  lemma JzEntry()
    ensures Overloads(Name.JZ) == JzMacros() && NativeParams(Name.JZ) == None
  {
    hide Lowers, Layer;
  }

  lemma JmsEntry()
    ensures Overloads(Name.JMS) == JmsMacros() && NativeParams(Name.JMS) == None
  {
    hide Lowers, Layer;
  }

  lemma JcEntry()
    ensures Overloads(Name.JC) == JcMacros() && NativeParams(Name.JC) == None
  {
    hide Lowers, Layer;
  }

  lemma JncEntry()
    ensures Overloads(Name.JNC) == JncMacros() && NativeParams(Name.JNC) == None
  {
    hide Lowers, Layer;
  }

  lemma JbEntry()
    ensures Overloads(Name.JB) == JbMacros() && NativeParams(Name.JB) == None
  {
    hide Lowers, Layer;
  }

  lemma JnbEntry()
    ensures Overloads(Name.JNB) == JnbMacros() && NativeParams(Name.JNB) == None
  {
    hide Lowers, Layer;
  }

  lemma JmnEntry()
    ensures Overloads(Name.JMN) == JmnMacros() && NativeParams(Name.JMN) == None
  {
    hide Lowers, Layer;
  }

  lemma JmpEntry()
    ensures Overloads(Name.JMP) == JmpMacros() && NativeParams(Name.JMP) == None
  {
    hide Lowers, Layer;
  }

  lemma CallEntry()
    ensures Overloads(Name.CALL) == CallMacros() && NativeParams(Name.CALL) == None
  {
    hide Lowers, Layer;
  }

  lemma RetEntry()
    ensures Overloads(Name.RET) == RetMacros() && NativeParams(Name.RET) == None
  {
    hide Lowers, Layer;
  }

  lemma Eq16Entry()
    ensures Overloads(Name.EQ16) == Eq16Macros() && NativeParams(Name.EQ16) == None
  {
    hide Lowers, Layer;
  }

  lemma Sw16Entry()
    ensures Overloads(Name.SW16) == Sw16Macros() && NativeParams(Name.SW16) == None
  {
    hide Lowers, Layer;
  }

  lemma Lw16Entry()
    ensures Overloads(Name.LW16) == Lw16Macros() && NativeParams(Name.LW16) == None
  {
    hide Lowers, Layer;
  }

  lemma Mw16Entry()
    ensures Overloads(Name.MW16) == Mw16Macros() && NativeParams(Name.MW16) == None
  {
    hide Lowers, Layer;
  }

  lemma Add16Entry()
    ensures Overloads(Name.ADD16) == Add16Macros() && NativeParams(Name.ADD16) == None
  {
    hide Lowers, Layer;
  }

  lemma Sub16Entry()
    ensures Overloads(Name.SUB16) == Sub16Macros() && NativeParams(Name.SUB16) == None
  {
    hide Lowers, Layer;
  }

  lemma ClbEntry()
    ensures Overloads(Name.CLB) == ClbMacros() && NativeParams(Name.CLB) == None
  {
    hide Lowers, Layer;
  }

  lemma DecEntry()
    ensures Overloads(Name.DEC) == DecMacros() && NativeParams(Name.DEC) == None
  {
    hide Lowers, Layer;
  }

  lemma Dec16Entry()
    ensures Overloads(Name.DEC16) == Dec16Macros() && NativeParams(Name.DEC16) == None
  {
    hide Lowers, Layer;
  }

  lemma SubEntry()
    ensures Overloads(Name.SUB) == SubMacros() && NativeParams(Name.SUB) == None
  {
    hide Lowers, Layer;
  }

  lemma PushaEntry()
    ensures Overloads(Name.PUSHA) == PushaMacros() && NativeParams(Name.PUSHA) == None
  {
    hide Lowers, Layer;
  }

  lemma PopaEntry()
    ensures Overloads(Name.POPA) == PopaMacros() && NativeParams(Name.POPA) == None
  {
    hide Lowers, Layer;
  }

  lemma LwEntry()
    ensures Overloads(Name.LW) == LwMacros() && NativeParams(Name.LW) == Some(Takes2(REG, IMM16_HL))
  {
    hide Lowers, Layer;
  }

  lemma SwEntry()
    ensures Overloads(Name.SW) == SwMacros() && NativeParams(Name.SW) == Some(Takes2(IMM16_HL, REG))
  {
    hide Lowers, Layer;
  }

  lemma PushEntry()
    ensures Overloads(Name.PUSH) == PushMacros() && NativeParams(Name.PUSH) == Some(Takes1(IMM8_REG))
  {
    hide Lowers, Layer;
  }

  lemma PopEntry()
    ensures Overloads(Name.POP) == PopMacros() && NativeParams(Name.POP) == Some(Takes1(REG))
  {
    hide Lowers, Layer;
  }

  lemma JnzEntry()
    ensures Overloads(Name.JNZ) == JnzMacros() && NativeParams(Name.JNZ) == Some(Takes1(IMM8_REG))
  {
    hide Lowers, Layer;
  }

  // ----- macros -----

  lemma PushesMore(r: I.Reg, rest: seq<I.Reg>)
    ensures Pushes([r] + rest) == Cat(One(I.PUSH(I.Rg(r))), Pushes(rest))
  {
    assert ([r] + rest)[1..] == rest;
  }

  lemma PopsMore(r: I.Reg, rest: seq<I.Reg>)
    ensures Pops([r] + rest) == Cat(One(I.POP(r)), Pops(rest))
  {
    assert ([r] + rest)[1..] == rest;
  }

  lemma NotRewrites(r: I.Reg)
    ensures RewriteOf(Do(Name.NOT, A1(Register(r))))
      == Some(Uses(Do(Name.NOR, A2(Register(r), Register(r))), End))
  {
    hide Accepts, FirstMatch, ArgAt, Overloads, NativeParams, Filled, Before, SpliceRow;
    NotEntry();
    Accepting();
    Filling();
    Splicing();
  }

  lemma NotSpells(r: I.Reg, x: Operand)
    ensures Spells(1, Do(Name.NOT, A1(Register(r))), One(I.ALU(I.NOR, r, I.Rg(r))), x)
  {
    hide RewriteOf, ExpandTo, ExpandEach, Lay, AluOf, Len, Pure;
    var op := Do(Name.NOT, A1(Register(r)));
    NotRewrites(r);
    AluNames();
    Each();
    Laying();
    AluSpells(Name.NOR, r, Register(r), x);
    Settle(0, op, RewriteOf(op).value, One(I.ALU(I.NOR, r, I.Rg(r))), x);
  }

  lemma JnzToRewrites(v: Arg, t: Arg)
    requires Small(v) && IsTarget(t)
    ensures RewriteOf(Do(Name.JNZ, A2(v, t)))
      == Some(Uses(Do(Name.LDA, A1(t)), Uses(Do(Name.JNZ, A1(v)), End)))
  {
    hide Accepts, FirstMatch, ArgAt, Overloads, NativeParams, Filled, Before, SpliceRow;
    JnzEntry();
    Accepting();
    Filling();
    Splicing();
  }

  lemma JnzToSpells(v: Arg, t: Arg)
    requires Small(v) && IsTarget(t)
    ensures Spells(1, Do(Name.JNZ, A2(v, t)), Cat(One(I.LDA(FarWord(t))), One(I.JNZ(ByteArg(v)))), FarOperand(t))
  {
    hide RewriteOf, ExpandTo, ExpandEach, Lay, AluOf, Len, Pure;
    var x := FarOperand(t);
    var op := Do(Name.JNZ, A2(v, t));
    JnzToRewrites(v, t);
    AluNames();
    Each();
    Laying();
    LdaSpells(t);
    JnzSpells(v, x);
    Settle(0, op, RewriteOf(op).value, Cat(One(I.LDA(FarWord(t))), One(I.JNZ(ByteArg(v)))), x);
  }

  lemma JeqRewrites(r: I.Reg, v: Arg, t: Arg)
    requires Small(v) && IsTarget(t)
    ensures RewriteOf(Do(Name.JEQ, A3(Register(r), v, t)))
      == Some(Uses(Do(Name.CMP, A2(Register(r), v)), Uses(Do(Name.AND, A2(Register(I.F), Number(2))), Uses(Do(Name.JNZ, A2(Register(I.F), t)), End))))
  {
    hide Accepts, FirstMatch, ArgAt, Overloads, NativeParams, Filled, Before, SpliceRow;
    JeqEntry();
    Accepting();
    Filling();
    Splicing();
  }

  lemma JeqSpells(r: I.Reg, v: Arg, t: Arg)
    requires Small(v) && IsTarget(t)
    ensures Spells(2, Do(Name.JEQ, A3(Register(r), v, t)), Branch(Jeq(r, ByteArg(v)), FarWord(t)), FarOperand(t))
  {
    hide RewriteOf, ExpandTo, ExpandEach, Lay, AluOf, Len, Pure;
    var x := FarOperand(t);
    var op := Do(Name.JEQ, A3(Register(r), v, t));
    JeqRewrites(r, v, t);
    AluNames();
    Each();
    Laying();
    AluSpells(Name.CMP, r, v, x);
    AluSpells(Name.AND, I.F, Number(2), x);
    JnzToSpells(Register(I.F), t);
    Settle(1, op, RewriteOf(op).value, Branch(Jeq(r, ByteArg(v)), FarWord(t)), x);
  }

  lemma JeqFlagRewrites(t: Arg)
    requires IsTarget(t)
    ensures RewriteOf(Do(Name.JEQ, A1(t)))
      == Some(Uses(Do(Name.AND, A2(Register(I.F), Number(2))), Uses(Do(Name.JNZ, A2(Register(I.F), t)), End)))
  {
    hide Accepts, FirstMatch, ArgAt, Overloads, NativeParams, Filled, Before, SpliceRow;
    JeqEntry();
    Accepting();
    Filling();
    Splicing();
  }

  lemma JeqFlagSpells(t: Arg)
    requires IsTarget(t)
    ensures Spells(2, Do(Name.JEQ, A1(t)), Branch(JeqFlag(), FarWord(t)), FarOperand(t))
  {
    hide RewriteOf, ExpandTo, ExpandEach, Lay, AluOf, Len, Pure;
    var x := FarOperand(t);
    var op := Do(Name.JEQ, A1(t));
    JeqFlagRewrites(t);
    AluNames();
    Each();
    Laying();
    AluSpells(Name.AND, I.F, Number(2), x);
    JnzToSpells(Register(I.F), t);
    Settle(1, op, RewriteOf(op).value, Branch(JeqFlag(), FarWord(t)), x);
  }

  lemma JneFlagRewrites(t: Arg)
    requires IsTarget(t)
    ensures RewriteOf(Do(Name.JNE, A1(t)))
      == Some(Uses(Do(Name.NOT, A1(Register(I.F))), Uses(Do(Name.AND, A2(Register(I.F), Number(2))), Uses(Do(Name.JNZ, A2(Register(I.F), t)), End))))
  {
    hide Accepts, FirstMatch, ArgAt, Overloads, NativeParams, Filled, Before, SpliceRow;
    JneEntry();
    Accepting();
    Filling();
    Splicing();
  }

  lemma JneFlagSpells(t: Arg)
    requires IsTarget(t)
    ensures Spells(2, Do(Name.JNE, A1(t)), Branch(JneFlag(), FarWord(t)), FarOperand(t))
  {
    hide RewriteOf, ExpandTo, ExpandEach, Lay, AluOf, Len, Pure;
    var x := FarOperand(t);
    var op := Do(Name.JNE, A1(t));
    JneFlagRewrites(t);
    AluNames();
    Each();
    Laying();
    NotSpells(I.F, x);
    AluSpells(Name.AND, I.F, Number(2), x);
    JnzToSpells(Register(I.F), t);
    Settle(1, op, RewriteOf(op).value, Branch(JneFlag(), FarWord(t)), x);
  }

  lemma JzRewrites(r: I.Reg, t: Arg)
    requires IsTarget(t)
    ensures RewriteOf(Do(Name.JZ, A2(Register(r), t)))
      == Some(Uses(Do(Name.JEQ, A3(Register(r), Number(0), t)), End))
  {
    hide Accepts, FirstMatch, ArgAt, Overloads, NativeParams, Filled, Before, SpliceRow;
    JzEntry();
    Accepting();
    Filling();
    Splicing();
  }

  lemma JzSpells(r: I.Reg, t: Arg)
    requires IsTarget(t)
    ensures Spells(3, Do(Name.JZ, A2(Register(r), t)), Branch(Jz(r), FarWord(t)), FarOperand(t))
  {
    hide RewriteOf, ExpandTo, ExpandEach, Lay, AluOf, Len, Pure;
    var x := FarOperand(t);
    var op := Do(Name.JZ, A2(Register(r), t));
    JzRewrites(r, t);
    AluNames();
    Each();
    Laying();
    JeqSpells(r, Number(0), t);
    Settle(2, op, RewriteOf(op).value, Branch(Jz(r), FarWord(t)), x);
  }

  lemma JmnRewrites(r: I.Reg, v: Arg, t: Arg)
    requires Small(v) && IsTarget(t)
    ensures RewriteOf(Do(Name.JMN, A3(Register(r), v, t)))
      == Some(Uses(Do(Name.MW, A2(Register(I.F), Register(r))), Uses(Do(Name.NOT, A1(Register(I.F))), Uses(Do(Name.AND, A2(Register(I.F), v)), Uses(Do(Name.JNZ, A2(Register(I.F), t)), End)))))
  {
    hide Accepts, FirstMatch, ArgAt, Overloads, NativeParams, Filled, Before, SpliceRow;
    JmnEntry();
    Accepting();
    Filling();
    Splicing();
  }

  lemma JmnSpells(r: I.Reg, v: Arg, t: Arg)
    requires Small(v) && IsTarget(t)
    ensures Spells(2, Do(Name.JMN, A3(Register(r), v, t)), Branch(Jmn(r, ByteArg(v)), FarWord(t)), FarOperand(t))
  {
    hide RewriteOf, ExpandTo, ExpandEach, Lay, AluOf, Len, Pure;
    var x := FarOperand(t);
    var op := Do(Name.JMN, A3(Register(r), v, t));
    JmnRewrites(r, v, t);
    AluNames();
    Each();
    Laying();
    MwSpells(I.F, Register(r), x);
    NotSpells(I.F, x);
    AluSpells(Name.AND, I.F, v, x);
    JnzToSpells(Register(I.F), t);
    Settle(1, op, RewriteOf(op).value, Branch(Jmn(r, ByteArg(v)), FarWord(t)), x);
  }

  lemma JmsRewrites(r: I.Reg, v: Arg, t: Arg)
    requires Small(v) && IsTarget(t)
    ensures RewriteOf(Do(Name.JMS, A3(Register(r), v, t)))
      == Some(Uses(Do(Name.MW, A2(Register(I.F), Register(r))), Uses(Do(Name.AND, A2(Register(I.F), v)), Uses(Do(Name.JNZ, A2(Register(I.F), t)), End))))
  {
    hide Accepts, FirstMatch, ArgAt, Overloads, NativeParams, Filled, Before, SpliceRow;
    JmsEntry();
    Accepting();
    Filling();
    Splicing();
  }

  lemma JmsSpells(r: I.Reg, v: Arg, t: Arg)
    requires Small(v) && IsTarget(t)
    ensures Spells(2, Do(Name.JMS, A3(Register(r), v, t)), Branch(Jms(r, ByteArg(v)), FarWord(t)), FarOperand(t))
  {
    hide RewriteOf, ExpandTo, ExpandEach, Lay, AluOf, Len, Pure;
    var x := FarOperand(t);
    var op := Do(Name.JMS, A3(Register(r), v, t));
    JmsRewrites(r, v, t);
    AluNames();
    Each();
    Laying();
    MwSpells(I.F, Register(r), x);
    AluSpells(Name.AND, I.F, v, x);
    JnzToSpells(Register(I.F), t);
    Settle(1, op, RewriteOf(op).value, Branch(Jms(r, ByteArg(v)), FarWord(t)), x);
  }

  lemma JcRewrites(t: Arg)
    requires IsTarget(t)
    ensures RewriteOf(Do(Name.JC, A1(t)))
      == Some(Uses(Do(Name.AND, A2(Register(I.F), Number(4))), Uses(Do(Name.JNZ, A2(Register(I.F), t)), End)))
  {
    hide Accepts, FirstMatch, ArgAt, Overloads, NativeParams, Filled, Before, SpliceRow;
    JcEntry();
    Accepting();
    Filling();
    Splicing();
  }

  lemma JcSpells(t: Arg)
    requires IsTarget(t)
    ensures Spells(2, Do(Name.JC, A1(t)), Branch(JcFlag(), FarWord(t)), FarOperand(t))
  {
    hide RewriteOf, ExpandTo, ExpandEach, Lay, AluOf, Len, Pure;
    var x := FarOperand(t);
    var op := Do(Name.JC, A1(t));
    JcRewrites(t);
    AluNames();
    Each();
    Laying();
    AluSpells(Name.AND, I.F, Number(4), x);
    JnzToSpells(Register(I.F), t);
    Settle(1, op, RewriteOf(op).value, Branch(JcFlag(), FarWord(t)), x);
  }

  lemma JncRewrites(t: Arg)
    requires IsTarget(t)
    ensures RewriteOf(Do(Name.JNC, A1(t)))
      == Some(Uses(Do(Name.NOT, A1(Register(I.F))), Uses(Do(Name.AND, A2(Register(I.F), Number(4))), Uses(Do(Name.JNZ, A2(Register(I.F), t)), End))))
  {
    hide Accepts, FirstMatch, ArgAt, Overloads, NativeParams, Filled, Before, SpliceRow;
    JncEntry();
    Accepting();
    Filling();
    Splicing();
  }

  lemma JncSpells(t: Arg)
    requires IsTarget(t)
    ensures Spells(2, Do(Name.JNC, A1(t)), Branch(JncFlag(), FarWord(t)), FarOperand(t))
  {
    hide RewriteOf, ExpandTo, ExpandEach, Lay, AluOf, Len, Pure;
    var x := FarOperand(t);
    var op := Do(Name.JNC, A1(t));
    JncRewrites(t);
    AluNames();
    Each();
    Laying();
    NotSpells(I.F, x);
    AluSpells(Name.AND, I.F, Number(4), x);
    JnzToSpells(Register(I.F), t);
    Settle(1, op, RewriteOf(op).value, Branch(JncFlag(), FarWord(t)), x);
  }

  lemma JbRewrites(t: Arg)
    requires IsTarget(t)
    ensures RewriteOf(Do(Name.JB, A1(t)))
      == Some(Uses(Do(Name.AND, A2(Register(I.F), Number(8))), Uses(Do(Name.JNZ, A2(Register(I.F), t)), End)))
  {
    hide Accepts, FirstMatch, ArgAt, Overloads, NativeParams, Filled, Before, SpliceRow;
    JbEntry();
    Accepting();
    Filling();
    Splicing();
  }

  lemma JbSpells(t: Arg)
    requires IsTarget(t)
    ensures Spells(2, Do(Name.JB, A1(t)), Branch(JbFlag(), FarWord(t)), FarOperand(t))
  {
    hide RewriteOf, ExpandTo, ExpandEach, Lay, AluOf, Len, Pure;
    var x := FarOperand(t);
    var op := Do(Name.JB, A1(t));
    JbRewrites(t);
    AluNames();
    Each();
    Laying();
    AluSpells(Name.AND, I.F, Number(8), x);
    JnzToSpells(Register(I.F), t);
    Settle(1, op, RewriteOf(op).value, Branch(JbFlag(), FarWord(t)), x);
  }

  lemma JnbRewrites(t: Arg)
    requires IsTarget(t)
    ensures RewriteOf(Do(Name.JNB, A1(t)))
      == Some(Uses(Do(Name.NOT, A1(Register(I.F))), Uses(Do(Name.AND, A2(Register(I.F), Number(8))), Uses(Do(Name.JNZ, A2(Register(I.F), t)), End))))
  {
    hide Accepts, FirstMatch, ArgAt, Overloads, NativeParams, Filled, Before, SpliceRow;
    JnbEntry();
    Accepting();
    Filling();
    Splicing();
  }

  lemma JnbSpells(t: Arg)
    requires IsTarget(t)
    ensures Spells(2, Do(Name.JNB, A1(t)), Branch(JnbFlag(), FarWord(t)), FarOperand(t))
  {
    hide RewriteOf, ExpandTo, ExpandEach, Lay, AluOf, Len, Pure;
    var x := FarOperand(t);
    var op := Do(Name.JNB, A1(t));
    JnbRewrites(t);
    AluNames();
    Each();
    Laying();
    NotSpells(I.F, x);
    AluSpells(Name.AND, I.F, Number(8), x);
    JnzToSpells(Register(I.F), t);
    Settle(1, op, RewriteOf(op).value, Branch(JnbFlag(), FarWord(t)), x);
  }

  lemma JmpRewrites()
    ensures RewriteOf(Do(Name.JMP, NoArgs))
      == Some(Uses(Do(Name.JNZ, A1(Number(1))), End))
  {
    hide Accepts, FirstMatch, ArgAt, Overloads, NativeParams, Filled, Before, SpliceRow;
    JmpEntry();
    Accepting();
    Filling();
    Splicing();
  }

  lemma JmpSpells(x: Operand)
    ensures Spells(1, Do(Name.JMP, NoArgs), One(I.JNZ(I.Imm(1))), x)
  {
    hide RewriteOf, ExpandTo, ExpandEach, Lay, AluOf, Len, Pure;
    var op := Do(Name.JMP, NoArgs);
    JmpRewrites();
    AluNames();
    Each();
    Laying();
    JnzSpells(Number(1), x);
    Settle(0, op, RewriteOf(op).value, One(I.JNZ(I.Imm(1))), x);
  }

  lemma JmpToRewrites(t: Arg)
    requires IsTarget(t)
    ensures RewriteOf(Do(Name.JMP, A1(t)))
      == Some(Uses(Do(Name.LDA, A1(t)), Uses(Do(Name.JMP, NoArgs), End)))
  {
    hide Accepts, FirstMatch, ArgAt, Overloads, NativeParams, Filled, Before, SpliceRow;
    JmpEntry();
    Accepting();
    Filling();
    Splicing();
  }

  lemma JmpToSpells(t: Arg)
    requires IsTarget(t)
    ensures Spells(2, Do(Name.JMP, A1(t)), Goto(FarWord(t)), FarOperand(t))
  {
    hide RewriteOf, ExpandTo, ExpandEach, Lay, AluOf, Len, Pure;
    var x := FarOperand(t);
    var op := Do(Name.JMP, A1(t));
    JmpToRewrites(t);
    AluNames();
    Each();
    Laying();
    LdaSpells(t);
    JmpSpells(x);
    Settle(1, op, RewriteOf(op).value, Goto(FarWord(t)), x);
  }

  lemma RetRewrites()
    ensures RewriteOf(Do(Name.RET, NoArgs))
      == Some(Uses(Do(Name.POP, A1(Register(I.L))), Uses(Do(Name.POP, A1(Register(I.H))), Uses(Do(Name.JMP, NoArgs), End))))
  {
    hide Accepts, FirstMatch, ArgAt, Overloads, NativeParams, Filled, Before, SpliceRow;
    RetEntry();
    Accepting();
    Filling();
    Splicing();
  }

  lemma RetSpells(x: Operand)
    ensures Spells(2, Do(Name.RET, NoArgs), Ret(), x)
  {
    hide RewriteOf, ExpandTo, ExpandEach, Lay, AluOf, Len, Pure;
    var op := Do(Name.RET, NoArgs);
    RetRewrites();
    AluNames();
    Each();
    Laying();
    StackSpells(I.L, x);
    StackSpells(I.H, x);
    JmpSpells(x);
    Settle(1, op, RewriteOf(op).value, Ret(), x);
  }

  lemma ClbRewrites()
    ensures RewriteOf(Do(Name.CLB, NoArgs))
      == Some(Uses(Do(Name.AND, A2(Register(I.F), Number(-9))), End))
  {
    hide Accepts, FirstMatch, ArgAt, Overloads, NativeParams, Filled, Before, SpliceRow;
    ClbEntry();
    Accepting();
    Filling();
    Splicing();
  }

  lemma ClbSpells(x: Operand)
    ensures Spells(1, Do(Name.CLB, NoArgs), Clb(), x)
  {
    hide RewriteOf, ExpandTo, ExpandEach, Lay, AluOf, Len, Pure;
    var op := Do(Name.CLB, NoArgs);
    ClbRewrites();
    AluNames();
    Each();
    Laying();
    AluSpells(Name.AND, I.F, Number(-9), x);
    Settle(0, op, RewriteOf(op).value, Clb(), x);
  }

  lemma DecRewrites(r: I.Reg)
    ensures RewriteOf(Do(Name.DEC, A1(Register(r))))
      == Some(Uses(Do(Name.CLB, NoArgs), Uses(Do(Name.SBB, A2(Register(r), Number(1))), End)))
  {
    hide Accepts, FirstMatch, ArgAt, Overloads, NativeParams, Filled, Before, SpliceRow;
    DecEntry();
    Accepting();
    Filling();
    Splicing();
  }

  lemma DecSpells(r: I.Reg, x: Operand)
    ensures Spells(2, Do(Name.DEC, A1(Register(r))), Dec(r), x)
  {
    hide RewriteOf, ExpandTo, ExpandEach, Lay, AluOf, Len, Pure;
    var op := Do(Name.DEC, A1(Register(r)));
    DecRewrites(r);
    AluNames();
    Each();
    Laying();
    ClbSpells(x);
    AluSpells(Name.SBB, r, Number(1), x);
    Settle(1, op, RewriteOf(op).value, Dec(r), x);
  }

  lemma SubRewrites(r: I.Reg, v: Arg)
    requires Small(v)
    ensures RewriteOf(Do(Name.SUB, A2(Register(r), v)))
      == Some(Uses(Do(Name.CLB, NoArgs), Uses(Do(Name.SBB, A2(Register(r), v)), End)))
  {
    hide Accepts, FirstMatch, ArgAt, Overloads, NativeParams, Filled, Before, SpliceRow;
    SubEntry();
    Accepting();
    Filling();
    Splicing();
  }

  lemma SubSpells(r: I.Reg, v: Arg, x: Operand)
    requires Small(v)
    ensures Spells(2, Do(Name.SUB, A2(Register(r), v)), Cat(Clb(), One(I.ALU(I.SBB, r, ByteArg(v)))), x)
  {
    hide RewriteOf, ExpandTo, ExpandEach, Lay, AluOf, Len, Pure;
    var op := Do(Name.SUB, A2(Register(r), v));
    SubRewrites(r, v);
    AluNames();
    Each();
    Laying();
    ClbSpells(x);
    AluSpells(Name.SBB, r, v, x);
    Settle(1, op, RewriteOf(op).value, Cat(Clb(), One(I.ALU(I.SBB, r, ByteArg(v)))), x);
  }

  lemma Dec16Rewrites(hi: I.Reg, lo: I.Reg)
    ensures RewriteOf(Do(Name.DEC16, A2(Register(hi), Register(lo))))
      == Some(Uses(Do(Name.CLB, NoArgs), Uses(Do(Name.SBB, A2(Register(lo), Number(1))), Uses(Do(Name.SBB, A2(Register(hi), Number(0))), End))))
  {
    hide Accepts, FirstMatch, ArgAt, Overloads, NativeParams, Filled, Before, SpliceRow;
    Dec16Entry();
    Accepting();
    Filling();
    Splicing();
  }

  lemma Dec16Spells(hi: I.Reg, lo: I.Reg, x: Operand)
    ensures Spells(2, Do(Name.DEC16, A2(Register(hi), Register(lo))), Dec16(hi, lo), x)
  {
    hide RewriteOf, ExpandTo, ExpandEach, Lay, AluOf, Len, Pure;
    var op := Do(Name.DEC16, A2(Register(hi), Register(lo)));
    Dec16Rewrites(hi, lo);
    AluNames();
    Each();
    Laying();
    ClbSpells(x);
    AluSpells(Name.SBB, lo, Number(1), x);
    AluSpells(Name.SBB, hi, Number(0), x);
    Settle(1, op, RewriteOf(op).value, Dec16(hi, lo), x);
  }

  lemma Add16RegRewrites(hi: I.Reg, lo: I.Reg, p: I.Reg, q: I.Reg)
    ensures RewriteOf(Do(Name.ADD16, A4(Register(hi), Register(lo), Register(p), Register(q))))
      == Some(Uses(Do(Name.ADD, A2(Register(lo), Register(q))), Uses(Do(Name.ADC, A2(Register(hi), Register(p))), End)))
  {
    hide Accepts, FirstMatch, ArgAt, Overloads, NativeParams, Filled, Before, SpliceRow;
    Add16Entry();
    Accepting();
    Filling();
    Splicing();
  }

  lemma Add16RegSpells(hi: I.Reg, lo: I.Reg, p: I.Reg, q: I.Reg, x: Operand)
    ensures Spells(1, Do(Name.ADD16, A4(Register(hi), Register(lo), Register(p), Register(q))), Add16(hi, lo, I.Rg(p), I.Rg(q)), x)
  {
    hide RewriteOf, ExpandTo, ExpandEach, Lay, AluOf, Len, Pure;
    var op := Do(Name.ADD16, A4(Register(hi), Register(lo), Register(p), Register(q)));
    Add16RegRewrites(hi, lo, p, q);
    AluNames();
    Each();
    Laying();
    AluSpells(Name.ADD, lo, Register(q), x);
    AluSpells(Name.ADC, hi, Register(p), x);
    Settle(0, op, RewriteOf(op).value, Add16(hi, lo, I.Rg(p), I.Rg(q)), x);
  }

  lemma Add16Rewrites(hi: I.Reg, lo: I.Reg, v: word)
    ensures RewriteOf(Do(Name.ADD16, A3(Register(hi), Register(lo), Number(v))))
      == Some(Uses(Do(Name.ADD, A2(Register(lo), Number(v % 256))), Uses(Do(Name.ADC, A2(Register(hi), Number(v / 256 % 256))), End)))
  {
    hide Accepts, FirstMatch, ArgAt, Overloads, NativeParams, Filled, Before, SpliceRow;
    Add16Entry();
    Accepting();
    Filling();
    Splicing();
  }

  lemma Add16Spells(hi: I.Reg, lo: I.Reg, v: word, x: Operand)
    ensures Spells(1, Do(Name.ADD16, A3(Register(hi), Register(lo), Number(v))), Add16(hi, lo, I.Imm(Hi(v)), I.Imm(Lo(v))), x)
  {
    hide RewriteOf, ExpandTo, ExpandEach, Lay, AluOf, Len, Pure;
    var op := Do(Name.ADD16, A3(Register(hi), Register(lo), Number(v)));
    Add16Rewrites(hi, lo, v);
    AluNames();
    Each();
    Laying();
    AluSpells(Name.ADD, lo, Number(v % 256), x);
    AluSpells(Name.ADC, hi, Number(v / 256 % 256), x);
    Settle(0, op, RewriteOf(op).value, Add16(hi, lo, I.Imm(Hi(v)), I.Imm(Lo(v))), x);
  }

  lemma Sub16RegRewrites(hi: I.Reg, lo: I.Reg, p: I.Reg, q: I.Reg)
    ensures RewriteOf(Do(Name.SUB16, A4(Register(hi), Register(lo), Register(p), Register(q))))
      == Some(Uses(Do(Name.SBB, A2(Register(lo), Register(q))), Uses(Do(Name.SBB, A2(Register(hi), Register(p))), End)))
  {
    hide Accepts, FirstMatch, ArgAt, Overloads, NativeParams, Filled, Before, SpliceRow;
    Sub16Entry();
    Accepting();
    Filling();
    Splicing();
  }

  lemma Sub16RegSpells(hi: I.Reg, lo: I.Reg, p: I.Reg, q: I.Reg, x: Operand)
    ensures Spells(1, Do(Name.SUB16, A4(Register(hi), Register(lo), Register(p), Register(q))), Sub16(hi, lo, I.Rg(p), I.Rg(q)), x)
  {
    hide RewriteOf, ExpandTo, ExpandEach, Lay, AluOf, Len, Pure;
    var op := Do(Name.SUB16, A4(Register(hi), Register(lo), Register(p), Register(q)));
    Sub16RegRewrites(hi, lo, p, q);
    AluNames();
    Each();
    Laying();
    AluSpells(Name.SBB, lo, Register(q), x);
    AluSpells(Name.SBB, hi, Register(p), x);
    Settle(0, op, RewriteOf(op).value, Sub16(hi, lo, I.Rg(p), I.Rg(q)), x);
  }

  lemma Sub16Rewrites(hi: I.Reg, lo: I.Reg, v: word)
    ensures RewriteOf(Do(Name.SUB16, A3(Register(hi), Register(lo), Number(v))))
      == Some(Uses(Do(Name.SBB, A2(Register(lo), Number(v % 256))), Uses(Do(Name.SBB, A2(Register(hi), Number(v / 256 % 256))), End)))
  {
    hide Accepts, FirstMatch, ArgAt, Overloads, NativeParams, Filled, Before, SpliceRow;
    Sub16Entry();
    Accepting();
    Filling();
    Splicing();
  }

  lemma Sub16Spells(hi: I.Reg, lo: I.Reg, v: word, x: Operand)
    ensures Spells(1, Do(Name.SUB16, A3(Register(hi), Register(lo), Number(v))), Sub16(hi, lo, I.Imm(Hi(v)), I.Imm(Lo(v))), x)
  {
    hide RewriteOf, ExpandTo, ExpandEach, Lay, AluOf, Len, Pure;
    var op := Do(Name.SUB16, A3(Register(hi), Register(lo), Number(v)));
    Sub16Rewrites(hi, lo, v);
    AluNames();
    Each();
    Laying();
    AluSpells(Name.SBB, lo, Number(v % 256), x);
    AluSpells(Name.SBB, hi, Number(v / 256 % 256), x);
    Settle(0, op, RewriteOf(op).value, Sub16(hi, lo, I.Imm(Hi(v)), I.Imm(Lo(v))), x);
  }

  lemma Mw16Rewrites(hi: I.Reg, lo: I.Reg, v: word)
    ensures RewriteOf(Do(Name.MW16, A3(Register(hi), Register(lo), Number(v))))
      == Some(Uses(Do(Name.MW, A2(Register(hi), Number(v / 256 % 256))), Uses(Do(Name.MW, A2(Register(lo), Number(v % 256))), End)))
  {
    hide Accepts, FirstMatch, ArgAt, Overloads, NativeParams, Filled, Before, SpliceRow;
    Mw16Entry();
    Accepting();
    Filling();
    Splicing();
  }

  lemma Mw16Spells(hi: I.Reg, lo: I.Reg, v: word, x: Operand)
    ensures Spells(1, Do(Name.MW16, A3(Register(hi), Register(lo), Number(v))), Cat(One(I.MW(hi, I.Imm(Hi(v)))), One(I.MW(lo, I.Imm(Lo(v))))), x)
  {
    hide RewriteOf, ExpandTo, ExpandEach, Lay, AluOf, Len, Pure;
    var op := Do(Name.MW16, A3(Register(hi), Register(lo), Number(v)));
    Mw16Rewrites(hi, lo, v);
    AluNames();
    Each();
    Laying();
    MwSpells(hi, Number(v / 256 % 256), x);
    MwSpells(lo, Number(v % 256), x);
    Settle(0, op, RewriteOf(op).value, Cat(One(I.MW(hi, I.Imm(Hi(v)))), One(I.MW(lo, I.Imm(Lo(v))))), x);
  }

  lemma Eq16Rewrites(hi: I.Reg, lo: I.Reg, v: word)
    ensures RewriteOf(Do(Name.EQ16, A3(Register(hi), Register(lo), Number(v))))
      == Some(Uses(Do(Name.CMP, A2(Register(hi), Number(v / 256 % 256))), Uses(Do(Name.MW, A2(Register(I.H), Register(I.F))), Uses(Do(Name.CMP, A2(Register(lo), Number(v % 256))), Uses(Do(Name.AND, A2(Register(I.F), Register(I.H))), Uses(Do(Name.AND, A2(Register(I.F), Number(2))), End))))))
  {
    hide Accepts, FirstMatch, ArgAt, Overloads, NativeParams, Filled, Before, SpliceRow;
    Eq16Entry();
    Accepting();
    Filling();
    Splicing();
  }

  lemma Eq16Spells(hi: I.Reg, lo: I.Reg, v: word, x: Operand)
    ensures Spells(1, Do(Name.EQ16, A3(Register(hi), Register(lo), Number(v))), Eq16(hi, lo, I.Imm(Hi(v)), I.Imm(Lo(v))), x)
  {
    hide RewriteOf, ExpandTo, ExpandEach, Lay, AluOf, Len, Pure;
    var op := Do(Name.EQ16, A3(Register(hi), Register(lo), Number(v)));
    Eq16Rewrites(hi, lo, v);
    AluNames();
    Each();
    Laying();
    AluSpells(Name.CMP, hi, Number(v / 256 % 256), x);
    MwSpells(I.H, Register(I.F), x);
    AluSpells(Name.CMP, lo, Number(v % 256), x);
    AluSpells(Name.AND, I.F, Register(I.H), x);
    AluSpells(Name.AND, I.F, Number(2), x);
    Settle(0, op, RewriteOf(op).value, Eq16(hi, lo, I.Imm(Hi(v)), I.Imm(Lo(v))), x);
  }

  lemma Eq16RegMatches(hi: I.Reg, lo: I.Reg, p: I.Reg, q: I.Reg)
    ensures var op := Do(Name.EQ16, A4(Register(hi), Register(lo), Register(p), Register(q)));
      !IsNative(op) && FirstMatch(Overloads(op.name), op.args) == Eq16Macros().rest
  {
    hide Accepts, FirstMatch, Overloads, NativeParams;
    Eq16Entry();
    Accepting();
  }

  lemma Eq16RegRewrites(hi: I.Reg, lo: I.Reg, p: I.Reg, q: I.Reg)
    ensures RewriteOf(Do(Name.EQ16, A4(Register(hi), Register(lo), Register(p), Register(q))))
      == Some(Uses(Do(Name.CMP, A2(Register(hi), Register(p))), Uses(Do(Name.MW, A2(Register(I.H), Register(I.F))), Uses(Do(Name.CMP, A2(Register(lo), Register(q))), Uses(Do(Name.AND, A2(Register(I.F), Register(I.H))), Uses(Do(Name.AND, A2(Register(I.F), Number(2))), End))))))
  {
    hide IsNative, Accepts, FirstMatch, ArgAt, Overloads, NativeParams, Filled, Before, SpliceRow, NumberAt, Evaluated, ArgCount, FilledAll;
    Eq16RegMatches(hi, lo, p, q);
    Filling();
    var args := A4(Register(hi), Register(lo), Register(p), Register(q));
    var last := Uses(Do(Name.AND, A2(Register(I.F), Number(2))), End);
    var both := Uses(Do(Name.AND, A2(Register(I.F), Register(I.H))), last);
    var low := Uses(Do(Name.CMP, A2(Register(lo), Register(q))), both);
    SpliceTwo(Name.AND, R(I.F), N(2), args, Register(I.F), Number(2), End);
    SpliceTwo(Name.AND, R(I.F), R(I.H), args, Register(I.F), Register(I.H), last);
    SpliceTwo(Name.CMP, P(1), P(3), args, Register(lo), Register(q), both);
    SpliceTwo(Name.MW, R(I.H), R(I.F), args, Register(I.H), Register(I.F), low);
    SpliceTwo(Name.CMP, P(0), P(2), args, Register(hi), Register(p), Uses(Do(Name.MW, A2(Register(I.H), Register(I.F))), low));
  }

  lemma Eq16RegSpells(hi: I.Reg, lo: I.Reg, p: I.Reg, q: I.Reg, x: Operand)
    ensures Spells(1, Do(Name.EQ16, A4(Register(hi), Register(lo), Register(p), Register(q))), Eq16(hi, lo, I.Rg(p), I.Rg(q)), x)
  {
    hide RewriteOf, ExpandTo, ExpandEach, Lay, AluOf, Len, Pure;
    var op := Do(Name.EQ16, A4(Register(hi), Register(lo), Register(p), Register(q)));
    Eq16RegRewrites(hi, lo, p, q);
    AluNames();
    Each();
    Laying();
    AluSpells(Name.CMP, hi, Register(p), x);
    MwSpells(I.H, Register(I.F), x);
    AluSpells(Name.CMP, lo, Register(q), x);
    AluSpells(Name.AND, I.F, Register(I.H), x);
    AluSpells(Name.AND, I.F, Number(2), x);
    Settle(0, op, RewriteOf(op).value, Eq16(hi, lo, I.Rg(p), I.Rg(q)), x);
  }

  lemma Sw16Rewrites(a: word, hi: I.Reg, lo: I.Reg)
    requires a < 65535
    ensures RewriteOf(Do(Name.SW16, A3(Number(a), Register(hi), Register(lo))))
      == Some(Uses(Do(Name.SW, A2(Number(a), Register(lo))), Uses(Do(Name.SW, A2(Number(a + 1), Register(hi))), End)))
  {
    hide Accepts, FirstMatch, ArgAt, Overloads, NativeParams, Filled, Before, SpliceRow;
    Sw16Entry();
    Accepting();
    Filling();
    Splicing();
  }

  lemma Sw16Spells(a: word, hi: I.Reg, lo: I.Reg, x: Operand)
    requires a < 65535
    ensures Spells(1, Do(Name.SW16, A3(Number(a), Register(hi), Register(lo))), Sw16(a, hi, lo), x)
  {
    hide RewriteOf, ExpandTo, ExpandEach, Lay, AluOf, Len, Pure;
    var op := Do(Name.SW16, A3(Number(a), Register(hi), Register(lo)));
    Sw16Rewrites(a, hi, lo);
    AluNames();
    Each();
    Laying();
    MemorySpells(lo, Number(a), x);
    MemorySpells(hi, Number(a + 1), x);
    Settle(0, op, RewriteOf(op).value, Sw16(a, hi, lo), x);
  }

  lemma Lw16Rewrites(hi: I.Reg, lo: I.Reg, a: word)
    requires a < 65535
    ensures RewriteOf(Do(Name.LW16, A3(Register(hi), Register(lo), Number(a))))
      == Some(Uses(Do(Name.LW, A2(Register(lo), Number(a))), Uses(Do(Name.LW, A2(Register(hi), Number(a + 1))), End)))
  {
    hide Accepts, FirstMatch, ArgAt, Overloads, NativeParams, Filled, Before, SpliceRow;
    Lw16Entry();
    Accepting();
    Filling();
    Splicing();
  }

  lemma Lw16Spells(hi: I.Reg, lo: I.Reg, a: word, x: Operand)
    requires a < 65535
    ensures Spells(1, Do(Name.LW16, A3(Register(hi), Register(lo), Number(a))), Lw16(hi, lo, a), x)
  {
    hide RewriteOf, ExpandTo, ExpandEach, Lay, AluOf, Len, Pure;
    var op := Do(Name.LW16, A3(Register(hi), Register(lo), Number(a)));
    Lw16Rewrites(hi, lo, a);
    AluNames();
    Each();
    Laying();
    MemorySpells(lo, Number(a), x);
    MemorySpells(hi, Number(a + 1), x);
    Settle(0, op, RewriteOf(op).value, Lw16(hi, lo, a), x);
  }

  lemma LwAtMatches(r: I.Reg, hi: I.Reg, lo: I.Reg)
    ensures var op := Do(Name.LW, A3(Register(r), Register(hi), Register(lo)));
      !IsNative(op) && FirstMatch(Overloads(op.name), op.args) == LwMacros()
  {
    hide Accepts, FirstMatch, Overloads, NativeParams;
    LwEntry();
    Accepting();
  }

  lemma LwAtRewrites(r: I.Reg, hi: I.Reg, lo: I.Reg)
    ensures RewriteOf(Do(Name.LW, A3(Register(r), Register(hi), Register(lo))))
      == Some(Uses(Do(Name.MW, A2(Register(I.H), Register(hi))), Uses(Do(Name.MW, A2(Register(I.L), Register(lo))), Uses(Do(Name.LW, A1(Register(r))), End))))
  {
    hide IsNative, Accepts, FirstMatch, ArgAt, Overloads, NativeParams, Filled, Before, SpliceRow, NumberAt, Evaluated, ArgCount;
    LwAtMatches(r, hi, lo);
    Filling();
    Splicing();
  }

  lemma LwAtSpells(r: I.Reg, hi: I.Reg, lo: I.Reg, x: Operand)
    ensures Spells(1, Do(Name.LW, A3(Register(r), Register(hi), Register(lo))), LwAt(r, hi, lo), x)
  {
    hide RewriteOf, ExpandTo, ExpandEach, Lay, AluOf, Len, Pure;
    var op := Do(Name.LW, A3(Register(r), Register(hi), Register(lo)));
    LwAtRewrites(r, hi, lo);
    AluNames();
    Each();
    Laying();
    MwSpells(I.H, Register(hi), x);
    MwSpells(I.L, Register(lo), x);
    LwHlSpells(r, x);
    Settle(0, op, RewriteOf(op).value, LwAt(r, hi, lo), x);
  }

  lemma SwAtMatches(hi: I.Reg, lo: I.Reg, r: I.Reg)
    ensures var op := Do(Name.SW, A3(Register(hi), Register(lo), Register(r)));
      !IsNative(op) && FirstMatch(Overloads(op.name), op.args) == SwMacros()
  {
    hide Accepts, FirstMatch, Overloads, NativeParams;
    SwEntry();
    Accepting();
  }

  lemma SwAtRewrites(hi: I.Reg, lo: I.Reg, r: I.Reg)
    ensures RewriteOf(Do(Name.SW, A3(Register(hi), Register(lo), Register(r))))
      == Some(Uses(Do(Name.MW, A2(Register(I.H), Register(hi))), Uses(Do(Name.MW, A2(Register(I.L), Register(lo))), Uses(Do(Name.SW, A1(Register(r))), End))))
  {
    hide IsNative, Accepts, FirstMatch, ArgAt, Overloads, NativeParams, Filled, Before, SpliceRow, NumberAt, Evaluated, ArgCount;
    SwAtMatches(hi, lo, r);
    Filling();
    Splicing();
  }

  lemma SwAtSpells(hi: I.Reg, lo: I.Reg, r: I.Reg, x: Operand)
    ensures Spells(1, Do(Name.SW, A3(Register(hi), Register(lo), Register(r))), SwAt(hi, lo, r), x)
  {
    hide RewriteOf, ExpandTo, ExpandEach, Lay, AluOf, Len, Pure;
    var op := Do(Name.SW, A3(Register(hi), Register(lo), Register(r)));
    SwAtRewrites(hi, lo, r);
    AluNames();
    Each();
    Laying();
    MwSpells(I.H, Register(hi), x);
    MwSpells(I.L, Register(lo), x);
    SwHlSpells(r, x);
    forall d: nat, after | d > 0
      ensures ExpandEach(d, RewriteOf(op).value, after) == Some(Lay(SwAt(hi, lo, r), x, after))
    {
      hide Spells;
      var last := Lay(One(I.SW(I.AtHL, r)), x, after);
      assert ExpandTo(d, Do(Name.SW, A1(Register(r))), after) == Some(last);
    }
    Settle(0, op, RewriteOf(op).value, SwAt(hi, lo, r), x);
  }

  lemma Push2Rewrites(r: I.Reg, q: I.Reg)
    ensures RewriteOf(Do(Name.PUSH, A2(Register(r), Register(q))))
      == Some(Uses(Do(Name.PUSH, A1(Register(r))), Uses(Do(Name.PUSH, A1(Register(q))), End)))
  {
    hide Accepts, FirstMatch, ArgAt, Overloads, NativeParams, Filled, Before, SpliceRow;
    PushEntry();
    Accepting();
    Filling();
    Splicing();
  }

  lemma Push2Spells(r: I.Reg, q: I.Reg, x: Operand)
    ensures Spells(1, Do(Name.PUSH, A2(Register(r), Register(q))), Pushes([r, q]), x)
  {
    hide RewriteOf, ExpandTo, ExpandEach, Lay, AluOf, Len, Pure;
    var op := Do(Name.PUSH, A2(Register(r), Register(q)));
    Push2Rewrites(r, q);
    AluNames();
    Each();
    Laying();
    StackSpells(r, x);
    StackSpells(q, x);
    PushesMore(r, [q]);
    PushesMore(q, []);
    Settle(0, op, RewriteOf(op).value, Pushes([r, q]), x);
  }

  lemma Push3Matches(r: I.Reg, q: I.Reg, p: I.Reg)
    ensures var op := Do(Name.PUSH, A3(Register(r), Register(q), Register(p)));
      !IsNative(op) && FirstMatch(Overloads(op.name), op.args) == PushMacros().rest
  {
    hide Accepts, FirstMatch, Overloads, NativeParams;
    PushEntry();
    Accepting();
  }

  lemma Push3Rewrites(r: I.Reg, q: I.Reg, p: I.Reg)
    ensures RewriteOf(Do(Name.PUSH, A3(Register(r), Register(q), Register(p))))
      == Some(Uses(Do(Name.PUSH, A1(Register(r))), Uses(Do(Name.PUSH, A2(Register(q), Register(p))), End)))
  {
    hide IsNative, Accepts, FirstMatch, ArgAt, Overloads, NativeParams, Filled, Before, SpliceRow, NumberAt, Evaluated, ArgCount;
    Push3Matches(r, q, p);
    Filling();
    Splicing();
  }

  lemma Push3Spells(r: I.Reg, q: I.Reg, p: I.Reg, x: Operand)
    ensures Spells(2, Do(Name.PUSH, A3(Register(r), Register(q), Register(p))), Pushes([r, q, p]), x)
  {
    hide RewriteOf, ExpandTo, ExpandEach, Lay, AluOf, Len, Pure;
    var op := Do(Name.PUSH, A3(Register(r), Register(q), Register(p)));
    Push3Rewrites(r, q, p);
    AluNames();
    Each();
    Laying();
    StackSpells(r, x);
    Push2Spells(q, p, x);
    PushesMore(r, [q, p]);
    Settle(1, op, RewriteOf(op).value, Pushes([r, q, p]), x);
  }

  lemma Push4Matches(r: I.Reg, q: I.Reg, p: I.Reg, n: I.Reg)
    ensures var op := Do(Name.PUSH, A4(Register(r), Register(q), Register(p), Register(n)));
      !IsNative(op) && FirstMatch(Overloads(op.name), op.args) == PushMacros().rest.rest
  {
    hide Accepts, FirstMatch, Overloads, NativeParams;
    PushEntry();
    Accepting();
  }

  lemma Push4Rewrites(r: I.Reg, q: I.Reg, p: I.Reg, n: I.Reg)
    ensures RewriteOf(Do(Name.PUSH, A4(Register(r), Register(q), Register(p), Register(n))))
      == Some(Uses(Do(Name.PUSH, A1(Register(r))), Uses(Do(Name.PUSH, A3(Register(q), Register(p), Register(n))), End)))
  {
    hide IsNative, Accepts, FirstMatch, ArgAt, Overloads, NativeParams, Filled, Before, SpliceRow, NumberAt, Evaluated, ArgCount;
    Push4Matches(r, q, p, n);
    Filling();
    Splicing();
  }

  lemma Push4Spells(r: I.Reg, q: I.Reg, p: I.Reg, n: I.Reg, x: Operand)
    ensures Spells(3, Do(Name.PUSH, A4(Register(r), Register(q), Register(p), Register(n))), Pushes([r, q, p, n]), x)
  {
    hide RewriteOf, ExpandTo, ExpandEach, Lay, AluOf, Len, Pure;
    var op := Do(Name.PUSH, A4(Register(r), Register(q), Register(p), Register(n)));
    Push4Rewrites(r, q, p, n);
    AluNames();
    Each();
    Laying();
    StackSpells(r, x);
    Push3Spells(q, p, n, x);
    PushesMore(r, [q, p, n]);
    Settle(2, op, RewriteOf(op).value, Pushes([r, q, p, n]), x);
  }

  lemma Push5Matches(r: I.Reg, q: I.Reg, p: I.Reg, n: I.Reg, m: I.Reg)
    ensures var op := Do(Name.PUSH, A5(Register(r), Register(q), Register(p), Register(n), Register(m)));
      !IsNative(op) && FirstMatch(Overloads(op.name), op.args) == PushMacros().rest.rest.rest
  {
    hide Accepts, FirstMatch, Overloads, NativeParams;
    PushEntry();
    Accepting();
  }

  lemma Push5Rewrites(r: I.Reg, q: I.Reg, p: I.Reg, n: I.Reg, m: I.Reg)
    ensures RewriteOf(Do(Name.PUSH, A5(Register(r), Register(q), Register(p), Register(n), Register(m))))
      == Some(Uses(Do(Name.PUSH, A1(Register(r))), Uses(Do(Name.PUSH, A4(Register(q), Register(p), Register(n), Register(m))), End)))
  {
    hide IsNative, Accepts, FirstMatch, ArgAt, Overloads, NativeParams, Filled, Before, SpliceRow, NumberAt, Evaluated, ArgCount;
    Push5Matches(r, q, p, n, m);
    Filling();
    Splicing();
  }

  lemma Push5Spells(r: I.Reg, q: I.Reg, p: I.Reg, n: I.Reg, m: I.Reg, x: Operand)
    ensures Spells(4, Do(Name.PUSH, A5(Register(r), Register(q), Register(p), Register(n), Register(m))), Pushes([r, q, p, n, m]), x)
  {
    hide RewriteOf, ExpandTo, ExpandEach, Lay, AluOf, Len, Pure;
    var op := Do(Name.PUSH, A5(Register(r), Register(q), Register(p), Register(n), Register(m)));
    Push5Rewrites(r, q, p, n, m);
    AluNames();
    Each();
    Laying();
    StackSpells(r, x);
    Push4Spells(q, p, n, m, x);
    PushesMore(r, [q, p, n, m]);
    Settle(3, op, RewriteOf(op).value, Pushes([r, q, p, n, m]), x);
  }

  lemma Pop2Rewrites(r: I.Reg, q: I.Reg)
    ensures RewriteOf(Do(Name.POP, A2(Register(r), Register(q))))
      == Some(Uses(Do(Name.POP, A1(Register(r))), Uses(Do(Name.POP, A1(Register(q))), End)))
  {
    hide Accepts, FirstMatch, ArgAt, Overloads, NativeParams, Filled, Before, SpliceRow;
    PopEntry();
    Accepting();
    Filling();
    Splicing();
  }

  lemma Pop2Spells(r: I.Reg, q: I.Reg, x: Operand)
    ensures Spells(1, Do(Name.POP, A2(Register(r), Register(q))), Pops([r, q]), x)
  {
    hide RewriteOf, ExpandTo, ExpandEach, Lay, AluOf, Len, Pure;
    var op := Do(Name.POP, A2(Register(r), Register(q)));
    Pop2Rewrites(r, q);
    AluNames();
    Each();
    Laying();
    StackSpells(r, x);
    StackSpells(q, x);
    PopsMore(r, [q]);
    PopsMore(q, []);
    Settle(0, op, RewriteOf(op).value, Pops([r, q]), x);
  }

  lemma Pop3Matches(r: I.Reg, q: I.Reg, p: I.Reg)
    ensures var op := Do(Name.POP, A3(Register(r), Register(q), Register(p)));
      !IsNative(op) && FirstMatch(Overloads(op.name), op.args) == PopMacros().rest
  {
    hide Accepts, FirstMatch, Overloads, NativeParams;
    PopEntry();
    Accepting();
  }

  lemma Pop3Rewrites(r: I.Reg, q: I.Reg, p: I.Reg)
    ensures RewriteOf(Do(Name.POP, A3(Register(r), Register(q), Register(p))))
      == Some(Uses(Do(Name.POP, A1(Register(r))), Uses(Do(Name.POP, A2(Register(q), Register(p))), End)))
  {
    hide IsNative, Accepts, FirstMatch, ArgAt, Overloads, NativeParams, Filled, Before, SpliceRow, NumberAt, Evaluated, ArgCount;
    Pop3Matches(r, q, p);
    Filling();
    Splicing();
  }

  lemma Pop3Spells(r: I.Reg, q: I.Reg, p: I.Reg, x: Operand)
    ensures Spells(2, Do(Name.POP, A3(Register(r), Register(q), Register(p))), Pops([r, q, p]), x)
  {
    hide RewriteOf, ExpandTo, ExpandEach, Lay, AluOf, Len, Pure;
    var op := Do(Name.POP, A3(Register(r), Register(q), Register(p)));
    Pop3Rewrites(r, q, p);
    AluNames();
    Each();
    Laying();
    StackSpells(r, x);
    Pop2Spells(q, p, x);
    PopsMore(r, [q, p]);
    Settle(1, op, RewriteOf(op).value, Pops([r, q, p]), x);
  }

  lemma Pop4Matches(r: I.Reg, q: I.Reg, p: I.Reg, n: I.Reg)
    ensures var op := Do(Name.POP, A4(Register(r), Register(q), Register(p), Register(n)));
      !IsNative(op) && FirstMatch(Overloads(op.name), op.args) == PopMacros().rest.rest
  {
    hide Accepts, FirstMatch, Overloads, NativeParams;
    PopEntry();
    Accepting();
  }

  lemma Pop4Rewrites(r: I.Reg, q: I.Reg, p: I.Reg, n: I.Reg)
    ensures RewriteOf(Do(Name.POP, A4(Register(r), Register(q), Register(p), Register(n))))
      == Some(Uses(Do(Name.POP, A1(Register(r))), Uses(Do(Name.POP, A3(Register(q), Register(p), Register(n))), End)))
  {
    hide IsNative, Accepts, FirstMatch, ArgAt, Overloads, NativeParams, Filled, Before, SpliceRow, NumberAt, Evaluated, ArgCount;
    Pop4Matches(r, q, p, n);
    Filling();
    Splicing();
  }

  lemma Pop4Spells(r: I.Reg, q: I.Reg, p: I.Reg, n: I.Reg, x: Operand)
    ensures Spells(3, Do(Name.POP, A4(Register(r), Register(q), Register(p), Register(n))), Pops([r, q, p, n]), x)
  {
    hide RewriteOf, ExpandTo, ExpandEach, Lay, AluOf, Len, Pure;
    var op := Do(Name.POP, A4(Register(r), Register(q), Register(p), Register(n)));
    Pop4Rewrites(r, q, p, n);
    AluNames();
    Each();
    Laying();
    StackSpells(r, x);
    Pop3Spells(q, p, n, x);
    PopsMore(r, [q, p, n]);
    Settle(2, op, RewriteOf(op).value, Pops([r, q, p, n]), x);
  }

  lemma Pop5Matches(r: I.Reg, q: I.Reg, p: I.Reg, n: I.Reg, m: I.Reg)
    ensures var op := Do(Name.POP, A5(Register(r), Register(q), Register(p), Register(n), Register(m)));
      !IsNative(op) && FirstMatch(Overloads(op.name), op.args) == PopMacros().rest.rest.rest
  {
    hide Accepts, FirstMatch, Overloads, NativeParams;
    PopEntry();
    Accepting();
  }

  lemma Pop5Rewrites(r: I.Reg, q: I.Reg, p: I.Reg, n: I.Reg, m: I.Reg)
    ensures RewriteOf(Do(Name.POP, A5(Register(r), Register(q), Register(p), Register(n), Register(m))))
      == Some(Uses(Do(Name.POP, A1(Register(r))), Uses(Do(Name.POP, A4(Register(q), Register(p), Register(n), Register(m))), End)))
  {
    hide IsNative, Accepts, FirstMatch, ArgAt, Overloads, NativeParams, Filled, Before, SpliceRow, NumberAt, Evaluated, ArgCount;
    Pop5Matches(r, q, p, n, m);
    Filling();
    Splicing();
  }

  lemma Pop5Spells(r: I.Reg, q: I.Reg, p: I.Reg, n: I.Reg, m: I.Reg, x: Operand)
    ensures Spells(4, Do(Name.POP, A5(Register(r), Register(q), Register(p), Register(n), Register(m))), Pops([r, q, p, n, m]), x)
  {
    hide RewriteOf, ExpandTo, ExpandEach, Lay, AluOf, Len, Pure;
    var op := Do(Name.POP, A5(Register(r), Register(q), Register(p), Register(n), Register(m)));
    Pop5Rewrites(r, q, p, n, m);
    AluNames();
    Each();
    Laying();
    StackSpells(r, x);
    Pop4Spells(q, p, n, m, x);
    PopsMore(r, [q, p, n, m]);
    Settle(3, op, RewriteOf(op).value, Pops([r, q, p, n, m]), x);
  }

  lemma PushaRewrites()
    ensures RewriteOf(Do(Name.PUSHA, NoArgs))
      == Some(Uses(Do(Name.PUSH, A5(Register(I.A), Register(I.B), Register(I.C), Register(I.D), Register(I.Z))), End))
  {
    hide Accepts, FirstMatch, ArgAt, Overloads, NativeParams, Filled, Before, SpliceRow;
    PushaEntry();
    Accepting();
    Filling();
    Splicing();
  }

  lemma PushaSpells(x: Operand)
    ensures Spells(5, Do(Name.PUSHA, NoArgs), PushAll(), x)
  {
    hide RewriteOf, ExpandTo, ExpandEach, Lay, AluOf, Len, Pure;
    var op := Do(Name.PUSHA, NoArgs);
    PushaRewrites();
    AluNames();
    Each();
    Laying();
    Push5Spells(I.A, I.B, I.C, I.D, I.Z, x);
    Settle(4, op, RewriteOf(op).value, PushAll(), x);
  }

  lemma PopaRewrites()
    ensures RewriteOf(Do(Name.POPA, NoArgs))
      == Some(Uses(Do(Name.POP, A5(Register(I.Z), Register(I.D), Register(I.C), Register(I.B), Register(I.A))), End))
  {
    hide Accepts, FirstMatch, ArgAt, Overloads, NativeParams, Filled, Before, SpliceRow;
    PopaEntry();
    Accepting();
    Filling();
    Splicing();
  }

  lemma PopaSpells(x: Operand)
    ensures Spells(5, Do(Name.POPA, NoArgs), Pops([I.Z, I.D, I.C, I.B, I.A]), x)
  {
    hide RewriteOf, ExpandTo, ExpandEach, Lay, AluOf, Len, Pure;
    var op := Do(Name.POPA, NoArgs);
    PopaRewrites();
    AluNames();
    Each();
    Laying();
    Pop5Spells(I.Z, I.D, I.C, I.B, I.A, x);
    Settle(4, op, RewriteOf(op).value, Pops([I.Z, I.D, I.C, I.B, I.A]), x);
  }

  lemma Inc16Rewrites(hi: I.Reg, lo: I.Reg)
    ensures RewriteOf(Do(Name.INC16, A2(Register(hi), Register(lo))))
      == Some(Uses(Do(Name.ADD, A2(Register(lo), Number(1))), Uses(Do(Name.ADC, A2(Register(hi), Number(0))), End)))
  {
    hide Accepts, FirstMatch, ArgAt, Overloads, NativeParams, Filled, Before, SpliceRow;
    Inc16Entry();
    Accepting();
    Filling();
    Splicing();
  }

  lemma Inc16Spells(hi: I.Reg, lo: I.Reg, x: Operand)
    ensures Spells(1, Do(Name.INC16, A2(Register(hi), Register(lo))), Inc16(hi, lo), x)
  {
    hide RewriteOf, ExpandTo, ExpandEach, Lay, AluOf, Len, Pure;
    var op := Do(Name.INC16, A2(Register(hi), Register(lo)));
    Inc16Rewrites(hi, lo);
    AluNames();
    Each();
    Laying();
    AluSpells(Name.ADD, lo, Number(1), x);
    AluSpells(Name.ADC, hi, Number(0), x);
    Settle(0, op, RewriteOf(op).value, Inc16(hi, lo), x);
  }

  lemma NandRewrites(r: I.Reg, v: Arg)
    requires Small(v)
    ensures RewriteOf(Do(Name.NAND, A2(Register(r), v)))
      == Some(Uses(Do(Name.AND, A2(Register(r), v)), Uses(Do(Name.NOT, A1(Register(r))), End)))
  {
    hide Accepts, FirstMatch, ArgAt, Overloads, NativeParams, Filled, Before, SpliceRow;
    NandEntry();
    Accepting();
    Filling();
    Splicing();
  }

  lemma NandSpells(r: I.Reg, v: Arg, x: Operand)
    requires Small(v)
    ensures Spells(2, Do(Name.NAND, A2(Register(r), v)), Cat(One(I.ALU(I.AND, r, ByteArg(v))), One(I.ALU(I.NOR, r, I.Rg(r)))), x)
  {
    hide RewriteOf, ExpandTo, ExpandEach, Lay, AluOf, Len, Pure;
    var op := Do(Name.NAND, A2(Register(r), v));
    NandRewrites(r, v);
    AluNames();
    Each();
    Laying();
    AluSpells(Name.AND, r, v, x);
    NotSpells(r, x);
    Settle(1, op, RewriteOf(op).value, Cat(One(I.ALU(I.AND, r, ByteArg(v))), One(I.ALU(I.NOR, r, I.Rg(r)))), x);
  }

  lemma XorRewrites(r: I.Reg, v: Arg)
    requires Small(v)
    ensures RewriteOf(Do(Name.XOR, A2(Register(r), v)))
      == Some(Uses(Do(Name.MW, A2(Register(I.F), v)), Uses(Do(Name.OR, A2(Register(I.F), Register(r))), Uses(Do(Name.NAND, A2(Register(r), v)), Uses(Do(Name.AND, A2(Register(r), Register(I.F))), End)))))
  {
    hide Accepts, FirstMatch, ArgAt, Overloads, NativeParams, Filled, Before, SpliceRow;
    XorEntry();
    Accepting();
    Filling();
    Splicing();
  }

  lemma XorSpells(r: I.Reg, v: Arg, x: Operand)
    requires Small(v)
    ensures Spells(3, Do(Name.XOR, A2(Register(r), v)), XorBlock(r, ByteArg(v)), x)
  {
    hide RewriteOf, ExpandTo, ExpandEach, Lay, AluOf, Len, Pure;
    var op := Do(Name.XOR, A2(Register(r), v));
    XorRewrites(r, v);
    AluNames();
    Each();
    Laying();
    MwSpells(I.F, v, x);
    AluSpells(Name.OR, I.F, Register(r), x);
    NandSpells(r, v, x);
    AluSpells(Name.AND, r, Register(I.F), x);
    Settle(2, op, RewriteOf(op).value, XorBlock(r, ByteArg(v)), x);
  }

  lemma XnorRewrites(r: I.Reg, v: Arg)
    requires Small(v)
    ensures RewriteOf(Do(Name.XNOR, A2(Register(r), v)))
      == Some(Uses(Do(Name.MW, A2(Register(I.F), Register(r))), Uses(Do(Name.NOR, A2(Register(r), v)), Uses(Do(Name.AND, A2(Register(I.F), v)), Uses(Do(Name.OR, A2(Register(r), Register(I.F))), End)))))
  {
    hide Accepts, FirstMatch, ArgAt, Overloads, NativeParams, Filled, Before, SpliceRow;
    XnorEntry();
    Accepting();
    Filling();
    Splicing();
  }

  lemma XnorSpells(r: I.Reg, v: Arg, x: Operand)
    requires Small(v)
    ensures Spells(1, Do(Name.XNOR, A2(Register(r), v)), XnorBlock(r, ByteArg(v)), x)
  {
    hide RewriteOf, ExpandTo, ExpandEach, Lay, AluOf, Len, Pure;
    var op := Do(Name.XNOR, A2(Register(r), v));
    XnorRewrites(r, v);
    AluNames();
    Each();
    Laying();
    MwSpells(I.F, Register(r), x);
    AluSpells(Name.NOR, r, v, x);
    AluSpells(Name.AND, I.F, v, x);
    AluSpells(Name.OR, r, Register(I.F), x);
    Settle(0, op, RewriteOf(op).value, XnorBlock(r, ByteArg(v)), x);
  }

  lemma JltRewrites(r: I.Reg, v: Arg, t: Arg)
    requires Small(v) && IsTarget(t)
    ensures RewriteOf(Do(Name.JLT, A3(Register(r), v, t)))
      == Some(Uses(Do(Name.CMP, A2(Register(r), v)), Uses(Do(Name.AND, A2(Register(I.F), Number(1))), Uses(Do(Name.JNZ, A2(Register(I.F), t)), End))))
  {
    hide Accepts, FirstMatch, ArgAt, Overloads, NativeParams, Filled, Before, SpliceRow;
    JltEntry();
    Accepting();
    Filling();
    Splicing();
  }

  lemma JltSpells(r: I.Reg, v: Arg, t: Arg)
    requires Small(v) && IsTarget(t)
    ensures Spells(2, Do(Name.JLT, A3(Register(r), v, t)), Branch(Jlt(r, ByteArg(v)), FarWord(t)), FarOperand(t))
  {
    hide RewriteOf, ExpandTo, ExpandEach, Lay, AluOf, Len, Pure;
    var x := FarOperand(t);
    var op := Do(Name.JLT, A3(Register(r), v, t));
    JltRewrites(r, v, t);
    AluNames();
    Each();
    Laying();
    AluSpells(Name.CMP, r, v, x);
    AluSpells(Name.AND, I.F, Number(1), x);
    JnzToSpells(Register(I.F), t);
    Settle(1, op, RewriteOf(op).value, Branch(Jlt(r, ByteArg(v)), FarWord(t)), x);
  }

  lemma JltFlagRewrites(t: Arg)
    requires IsTarget(t)
    ensures RewriteOf(Do(Name.JLT, A1(t)))
      == Some(Uses(Do(Name.AND, A2(Register(I.F), Number(1))), Uses(Do(Name.JNZ, A2(Register(I.F), t)), End)))
  {
    hide Accepts, FirstMatch, ArgAt, Overloads, NativeParams, Filled, Before, SpliceRow;
    JltEntry();
    Accepting();
    Filling();
    Splicing();
  }

  lemma JltFlagSpells(t: Arg)
    requires IsTarget(t)
    ensures Spells(2, Do(Name.JLT, A1(t)), Branch(JltFlag(), FarWord(t)), FarOperand(t))
  {
    hide RewriteOf, ExpandTo, ExpandEach, Lay, AluOf, Len, Pure;
    var x := FarOperand(t);
    var op := Do(Name.JLT, A1(t));
    JltFlagRewrites(t);
    AluNames();
    Each();
    Laying();
    AluSpells(Name.AND, I.F, Number(1), x);
    JnzToSpells(Register(I.F), t);
    Settle(1, op, RewriteOf(op).value, Branch(JltFlag(), FarWord(t)), x);
  }

  lemma JleRewrites(r: I.Reg, v: Arg, t: Arg)
    requires Small(v) && IsTarget(t)
    ensures RewriteOf(Do(Name.JLE, A3(Register(r), v, t)))
      == Some(Uses(Do(Name.CMP, A2(Register(r), v)), Uses(Do(Name.AND, A2(Register(I.F), Number(3))), Uses(Do(Name.JNZ, A2(Register(I.F), t)), End))))
  {
    hide Accepts, FirstMatch, ArgAt, Overloads, NativeParams, Filled, Before, SpliceRow;
    JleEntry();
    Accepting();
    Filling();
    Splicing();
  }

  lemma JleSpells(r: I.Reg, v: Arg, t: Arg)
    requires Small(v) && IsTarget(t)
    ensures Spells(2, Do(Name.JLE, A3(Register(r), v, t)), Branch(Jle(r, ByteArg(v)), FarWord(t)), FarOperand(t))
  {
    hide RewriteOf, ExpandTo, ExpandEach, Lay, AluOf, Len, Pure;
    var x := FarOperand(t);
    var op := Do(Name.JLE, A3(Register(r), v, t));
    JleRewrites(r, v, t);
    AluNames();
    Each();
    Laying();
    AluSpells(Name.CMP, r, v, x);
    AluSpells(Name.AND, I.F, Number(3), x);
    JnzToSpells(Register(I.F), t);
    Settle(1, op, RewriteOf(op).value, Branch(Jle(r, ByteArg(v)), FarWord(t)), x);
  }

  lemma JleFlagRewrites(t: Arg)
    requires IsTarget(t)
    ensures RewriteOf(Do(Name.JLE, A1(t)))
      == Some(Uses(Do(Name.AND, A2(Register(I.F), Number(3))), Uses(Do(Name.JNZ, A2(Register(I.F), t)), End)))
  {
    hide Accepts, FirstMatch, ArgAt, Overloads, NativeParams, Filled, Before, SpliceRow;
    JleEntry();
    Accepting();
    Filling();
    Splicing();
  }

  lemma JleFlagSpells(t: Arg)
    requires IsTarget(t)
    ensures Spells(2, Do(Name.JLE, A1(t)), Branch(JleFlag(), FarWord(t)), FarOperand(t))
  {
    hide RewriteOf, ExpandTo, ExpandEach, Lay, AluOf, Len, Pure;
    var x := FarOperand(t);
    var op := Do(Name.JLE, A1(t));
    JleFlagRewrites(t);
    AluNames();
    Each();
    Laying();
    AluSpells(Name.AND, I.F, Number(3), x);
    JnzToSpells(Register(I.F), t);
    Settle(1, op, RewriteOf(op).value, Branch(JleFlag(), FarWord(t)), x);
  }

  lemma JneRewrites(r: I.Reg, v: Arg, t: Arg)
    requires Small(v) && IsTarget(t)
    ensures RewriteOf(Do(Name.JNE, A3(Register(r), v, t)))
      == Some(Uses(Do(Name.CMP, A2(Register(r), v)), Uses(Do(Name.NOT, A1(Register(I.F))), Uses(Do(Name.AND, A2(Register(I.F), Number(2))), Uses(Do(Name.JNZ, A2(Register(I.F), t)), End)))))
  {
    hide Accepts, FirstMatch, ArgAt, Overloads, NativeParams, Filled, Before, SpliceRow;
    JneEntry();
    Accepting();
    Filling();
    Splicing();
  }

  lemma JneSpells(r: I.Reg, v: Arg, t: Arg)
    requires Small(v) && IsTarget(t)
    ensures Spells(2, Do(Name.JNE, A3(Register(r), v, t)), Branch(Jne(r, ByteArg(v)), FarWord(t)), FarOperand(t))
  {
    hide RewriteOf, ExpandTo, ExpandEach, Lay, AluOf, Len, Pure;
    var x := FarOperand(t);
    var op := Do(Name.JNE, A3(Register(r), v, t));
    JneRewrites(r, v, t);
    AluNames();
    Each();
    Laying();
    AluSpells(Name.CMP, r, v, x);
    NotSpells(I.F, x);
    AluSpells(Name.AND, I.F, Number(2), x);
    JnzToSpells(Register(I.F), t);
    Settle(1, op, RewriteOf(op).value, Branch(Jne(r, ByteArg(v)), FarWord(t)), x);
  }

  lemma JgeRewrites(r: I.Reg, v: Arg, t: Arg)
    requires Small(v) && IsTarget(t)
    ensures RewriteOf(Do(Name.JGE, A3(Register(r), v, t)))
      == Some(Uses(Do(Name.CMP, A2(Register(r), v)), Uses(Do(Name.NAND, A2(Register(I.F), Number(1))), Uses(Do(Name.AND, A2(Register(I.F), Number(3))), Uses(Do(Name.JNZ, A2(Register(I.F), t)), End)))))
  {
    hide Accepts, FirstMatch, ArgAt, Overloads, NativeParams, Filled, Before, SpliceRow;
    JgeEntry();
    Accepting();
    Filling();
    Splicing();
  }

  lemma JgeSpells(r: I.Reg, v: Arg, t: Arg)
    requires Small(v) && IsTarget(t)
    ensures Spells(3, Do(Name.JGE, A3(Register(r), v, t)), Branch(Jge(r, ByteArg(v)), FarWord(t)), FarOperand(t))
  {
    hide RewriteOf, ExpandTo, ExpandEach, Lay, AluOf, Len, Pure;
    var x := FarOperand(t);
    var op := Do(Name.JGE, A3(Register(r), v, t));
    JgeRewrites(r, v, t);
    AluNames();
    Each();
    Laying();
    AluSpells(Name.CMP, r, v, x);
    NandSpells(I.F, Number(1), x);
    AluSpells(Name.AND, I.F, Number(3), x);
    JnzToSpells(Register(I.F), t);
    Settle(2, op, RewriteOf(op).value, Branch(Jge(r, ByteArg(v)), FarWord(t)), x);
  }

  lemma JgeFlagRewrites(t: Arg)
    requires IsTarget(t)
    ensures RewriteOf(Do(Name.JGE, A1(t)))
      == Some(Uses(Do(Name.NAND, A2(Register(I.F), Number(1))), Uses(Do(Name.AND, A2(Register(I.F), Number(3))), Uses(Do(Name.JNZ, A2(Register(I.F), t)), End))))
  {
    hide Accepts, FirstMatch, ArgAt, Overloads, NativeParams, Filled, Before, SpliceRow;
    JgeEntry();
    Accepting();
    Filling();
    Splicing();
  }

  lemma JgeFlagSpells(t: Arg)
    requires IsTarget(t)
    ensures Spells(3, Do(Name.JGE, A1(t)), Branch(JgeFlag(), FarWord(t)), FarOperand(t))
  {
    hide RewriteOf, ExpandTo, ExpandEach, Lay, AluOf, Len, Pure;
    var x := FarOperand(t);
    var op := Do(Name.JGE, A1(t));
    JgeFlagRewrites(t);
    AluNames();
    Each();
    Laying();
    NandSpells(I.F, Number(1), x);
    AluSpells(Name.AND, I.F, Number(3), x);
    JnzToSpells(Register(I.F), t);
    Settle(2, op, RewriteOf(op).value, Branch(JgeFlag(), FarWord(t)), x);
  }

  lemma JgtRewrites(r: I.Reg, v: Arg, t: Arg)
    requires Small(v) && IsTarget(t)
    ensures RewriteOf(Do(Name.JGT, A3(Register(r), v, t)))
      == Some(Uses(Do(Name.CMP, A2(Register(r), v)), Uses(Do(Name.AND, A2(Register(I.F), Number(3))), Uses(Do(Name.JZ, A2(Register(I.F), t)), End))))
  {
    hide Accepts, FirstMatch, ArgAt, Overloads, NativeParams, Filled, Before, SpliceRow;
    JgtEntry();
    Accepting();
    Filling();
    Splicing();
  }

  lemma JgtSpells(r: I.Reg, v: Arg, t: Arg)
    requires Small(v) && IsTarget(t)
    ensures Spells(4, Do(Name.JGT, A3(Register(r), v, t)), Branch(Jgt(r, ByteArg(v)), FarWord(t)), FarOperand(t))
  {
    hide RewriteOf, ExpandTo, ExpandEach, Lay, AluOf, Len, Pure;
    var x := FarOperand(t);
    var op := Do(Name.JGT, A3(Register(r), v, t));
    JgtRewrites(r, v, t);
    AluNames();
    Each();
    Laying();
    AluSpells(Name.CMP, r, v, x);
    AluSpells(Name.AND, I.F, Number(3), x);
    JzSpells(I.F, t);
    Settle(3, op, RewriteOf(op).value, Branch(Jgt(r, ByteArg(v)), FarWord(t)), x);
  }

  lemma JgtFlagRewrites(t: Arg)
    requires IsTarget(t)
    ensures RewriteOf(Do(Name.JGT, A1(t)))
      == Some(Uses(Do(Name.AND, A2(Register(I.F), Number(3))), Uses(Do(Name.JZ, A2(Register(I.F), t)), End)))
  {
    hide Accepts, FirstMatch, ArgAt, Overloads, NativeParams, Filled, Before, SpliceRow;
    JgtEntry();
    Accepting();
    Filling();
    Splicing();
  }

  lemma JgtFlagSpells(t: Arg)
    requires IsTarget(t)
    ensures Spells(4, Do(Name.JGT, A1(t)), Branch(JgtFlag(), FarWord(t)), FarOperand(t))
  {
    hide RewriteOf, ExpandTo, ExpandEach, Lay, AluOf, Len, Pure;
    var x := FarOperand(t);
    var op := Do(Name.JGT, A1(t));
    JgtFlagRewrites(t);
    AluNames();
    Each();
    Laying();
    AluSpells(Name.AND, I.F, Number(3), x);
    JzSpells(I.F, t);
    Settle(3, op, RewriteOf(op).value, Branch(JgtFlag(), FarWord(t)), x);
  }

  /** The four instructions of a call, with the return address still to be worked out. */
  function CallLines(t: Arg, after: Lines): Lines
    requires IsTarget(t)
  {
    Put(Op(I.PUSH(I.Imm(0)), Here(9, true)), Put(Op(I.PUSH(I.Imm(0)), Here(7, false)),
      Put(Op(I.LDA(FarWord(t)), FarOperand(t)), Put(Op(I.JNZ(I.Imm(1)), Written), after))))
  }

  lemma HereExpands(d: nat, ahead: nat, high: bool, after: Lines)
    requires d > 0
    ensures ExpandTo(d, Do(Name.PUSH, A1(HereByte(ahead, high))), after)
      == Some(Put(Op(I.PUSH(I.Imm(0)), Here(ahead, high)), after))
  {
    hide Overloads, FirstMatch, ExpandBody;
  }

  lemma CallRewrites(t: Arg)
    requires IsTarget(t)
    ensures RewriteOf(Do(Name.CALL, A1(t)))
      == Some(Uses(Do(Name.PUSH, A1(HereByte(9, true))), Uses(Do(Name.PUSH, A1(HereByte(7, false))),
        Uses(Do(Name.LDA, A1(t)), Uses(Do(Name.JNZ, A1(Number(1))), End)))))
  {
    hide Accepts, FirstMatch, ArgAt, Overloads, NativeParams, Filled, Before, SpliceRow;
    CallEntry();
    Accepting();
    Filling();
    Splicing();
  }

  lemma CallExpands(d: nat, t: Arg, after: Lines)
    requires d > 1 && IsTarget(t)
    ensures ExpandTo(d, Do(Name.CALL, A1(t)), after) == Some(CallLines(t, after))
  {
    hide RewriteOf, ExpandTo, ExpandEach, Lay;
    var op := Do(Name.CALL, A1(t));
    CallRewrites(t);
    Each();
    Laying();
    LdaSpells(t);
    JnzSpells(Number(1), FarOperand(t));
    var jump := CallLines(t, after).rest.rest;
    HereExpands(d - 1, 7, false, jump);
    HereExpands(d - 1, 9, true, CallLines(t, after).rest);
    Becomes(d, op, after);
  }

  lemma CallSpells(t: Arg)
    requires IsTarget(t)
    ensures forall d: nat, after {:trigger ExpandTo(d, Do(Name.CALL, A1(t)), after)} | d > 1 ::
      ExpandTo(d, Do(Name.CALL, A1(t)), after) == Some(CallLines(t, after))
  {
    hide ExpandTo;
    forall d: nat, after | d > 1
      ensures ExpandTo(d, Do(Name.CALL, A1(t)), after) == Some(CallLines(t, after))
    {
      CallExpands(d, t, after);
    }
  }

  /** The 16-bit arithmetic macros, on four registers and on a constant, as blocks of native instructions. */
  lemma WordMacros(hi: I.Reg, lo: I.Reg, p: I.Reg, q: I.Reg, v: word, x: Operand)
    ensures Spells(1, Do(Name.ADD16, A4(Register(hi), Register(lo), Register(p), Register(q))), Add16(hi, lo, I.Rg(p), I.Rg(q)), x)
    ensures Spells(1, Do(Name.ADD16, A3(Register(hi), Register(lo), Number(v))), Add16(hi, lo, I.Imm(Hi(v)), I.Imm(Lo(v))), x)
    ensures Spells(1, Do(Name.SUB16, A4(Register(hi), Register(lo), Register(p), Register(q))), Sub16(hi, lo, I.Rg(p), I.Rg(q)), x)
    ensures Spells(1, Do(Name.SUB16, A3(Register(hi), Register(lo), Number(v))), Sub16(hi, lo, I.Imm(Hi(v)), I.Imm(Lo(v))), x)
    ensures Spells(1, Do(Name.EQ16, A4(Register(hi), Register(lo), Register(p), Register(q))), Eq16(hi, lo, I.Rg(p), I.Rg(q)), x)
    ensures Spells(1, Do(Name.EQ16, A3(Register(hi), Register(lo), Number(v))), Eq16(hi, lo, I.Imm(Hi(v)), I.Imm(Lo(v))), x)
    ensures Spells(1, Do(Name.INC16, A2(Register(hi), Register(lo))), Inc16(hi, lo), x)
    ensures Spells(2, Do(Name.DEC16, A2(Register(hi), Register(lo))), Dec16(hi, lo), x)
    ensures Spells(1, Do(Name.MW16, A3(Register(hi), Register(lo), Number(v))), Cat(One(I.MW(hi, I.Imm(Hi(v)))), One(I.MW(lo, I.Imm(Lo(v))))), x)
  {
    hide Spells, Len, Pure;
    Add16RegSpells(hi, lo, p, q, x);
    Add16Spells(hi, lo, v, x);
    Sub16RegSpells(hi, lo, p, q, x);
    Sub16Spells(hi, lo, v, x);
    Eq16RegSpells(hi, lo, p, q, x);
    Eq16Spells(hi, lo, v, x);
    Inc16Spells(hi, lo, x);
    Dec16Spells(hi, lo, x);
    Mw16Spells(hi, lo, v, x);
  }

  /** The macros on one byte. */
  lemma ByteMacros(r: I.Reg, v: Arg, x: Operand)
    requires Small(v)
    ensures Spells(2, Do(Name.SUB, A2(Register(r), v)), Cat(Clb(), One(I.ALU(I.SBB, r, ByteArg(v)))), x)
    ensures Spells(2, Do(Name.DEC, A1(Register(r))), Dec(r), x)
    ensures Spells(2, Do(Name.NAND, A2(Register(r), v)), Cat(One(I.ALU(I.AND, r, ByteArg(v))), One(I.ALU(I.NOR, r, I.Rg(r)))), x)
    ensures Spells(3, Do(Name.XOR, A2(Register(r), v)), XorBlock(r, ByteArg(v)), x)
    ensures Spells(1, Do(Name.XNOR, A2(Register(r), v)), XnorBlock(r, ByteArg(v)), x)
  {
    hide Spells, Len, Pure;
    SubSpells(r, v, x);
    DecSpells(r, x);
    NandSpells(r, v, x);
    XorSpells(r, v, x);
    XnorSpells(r, v, x);
  }

  /** The macros that load and store words, and bytes at an address in two registers. */
  lemma MemoryMacros(hi: I.Reg, lo: I.Reg, r: I.Reg, a: word, x: Operand)
    requires a < 65535
    ensures Spells(1, Do(Name.SW16, A3(Number(a), Register(hi), Register(lo))), Sw16(a, hi, lo), x)
    ensures Spells(1, Do(Name.LW16, A3(Register(hi), Register(lo), Number(a))), Lw16(hi, lo, a), x)
    ensures Spells(1, Do(Name.LW, A3(Register(r), Register(hi), Register(lo))), LwAt(r, hi, lo), x)
    ensures Spells(1, Do(Name.SW, A3(Register(hi), Register(lo), Register(r))), SwAt(hi, lo, r), x)
  {
    hide Spells, Len, Pure;
    Sw16Spells(a, hi, lo, x);
    Lw16Spells(hi, lo, a, x);
    LwAtSpells(r, hi, lo, x);
    SwAtSpells(hi, lo, r, x);
  }

  /** The macros that push and pop several registers, and RET. */
  lemma StackMacros(r: I.Reg, q: I.Reg, p: I.Reg, n: I.Reg, m: I.Reg, x: Operand)
    ensures Spells(4, Do(Name.PUSH, A5(Register(r), Register(q), Register(p), Register(n), Register(m))), Pushes([r, q, p, n, m]), x)
    ensures Spells(4, Do(Name.POP, A5(Register(r), Register(q), Register(p), Register(n), Register(m))), Pops([r, q, p, n, m]), x)
    ensures Spells(5, Do(Name.PUSHA, NoArgs), PushAll(), x)
    ensures Spells(5, Do(Name.POPA, NoArgs), Pops([I.Z, I.D, I.C, I.B, I.A]), x)
    ensures Spells(2, Do(Name.RET, NoArgs), Ret(), x)
  {
    hide Spells, Len, Pure;
    Push5Spells(r, q, p, n, m, x);
    Pop5Spells(r, q, p, n, m, x);
    PushaSpells(x);
    PopaSpells(x);
    RetSpells(x);
  }

  /** The jumps to a label or a number, on a zero byte, a clear mask, a non-zero value, and always. */
  lemma LabelMacros(r: I.Reg, v: Arg, t: Arg)
    requires Small(v) && IsTarget(t)
    ensures Spells(3, Do(Name.JZ, A2(Register(r), t)), Branch(Jz(r), FarWord(t)), FarOperand(t))
    ensures Spells(2, Do(Name.JMN, A3(Register(r), v, t)), Branch(Jmn(r, ByteArg(v)), FarWord(t)), FarOperand(t))
    ensures Spells(1, Do(Name.JNZ, A2(v, t)), Cat(One(I.LDA(FarWord(t))), One(I.JNZ(ByteArg(v)))), FarOperand(t))
    ensures Spells(2, Do(Name.JMP, A1(t)), Goto(FarWord(t)), FarOperand(t))
  {
    hide Spells, Len, Pure;
    JzSpells(r, t);
    JmnSpells(r, v, t);
    JnzToSpells(v, t);
    JmpToSpells(t);
  }
}
