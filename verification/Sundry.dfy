/**
 What the macros expand to that no routine of the OS library is made of: halting, flags, ports,
 constants to memory, words through HL, and jumps and calls through a pair of registers.
 */
module Sundry {
  import opened Words
  import opened Source
  import opened MacroTable
  import opened Expand
  import opened Core
  import opened Macros
  import opened Blocks
  import opened Calls
  import opened Spelling
  import I = Isa

  // ----- the table, entry by entry -----

  lemma HaltEntry()
    ensures Overloads(Name.HALT) == HaltMacros() && NativeParams(Name.HALT) == None
  {
    hide Lowers, Layer;
  }

  lemma ClfEntry()
    ensures Overloads(Name.CLF) == ClfMacros() && NativeParams(Name.CLF) == None
  {
    hide Lowers, Layer;
  }

  lemma IncEntry()
    ensures Overloads(Name.INC) == IncMacros() && NativeParams(Name.INC) == None
  {
    hide Lowers, Layer;
  }

  lemma FdecEntry()
    ensures Overloads(Name.FDEC) == FdecMacros() && NativeParams(Name.FDEC) == None
  {
    hide Lowers, Layer;
  }

  lemma StlEntry()
    ensures Overloads(Name.STL) == StlMacros() && NativeParams(Name.STL) == None
  {
    hide Lowers, Layer;
  }

  lemma CllEntry()
    ensures Overloads(Name.CLL) == CllMacros() && NativeParams(Name.CLL) == None
  {
    hide Lowers, Layer;
  }

  lemma SteEntry()
    ensures Overloads(Name.STE) == SteMacros() && NativeParams(Name.STE) == None
  {
    hide Lowers, Layer;
  }

  lemma CleEntry()
    ensures Overloads(Name.CLE) == CleMacros() && NativeParams(Name.CLE) == None
  {
    hide Lowers, Layer;
  }

  lemma StcEntry()
    ensures Overloads(Name.STC) == StcMacros() && NativeParams(Name.STC) == None
  {
    hide Lowers, Layer;
  }

  lemma ClcEntry()
    ensures Overloads(Name.CLC) == ClcMacros() && NativeParams(Name.CLC) == None
  {
    hide Lowers, Layer;
  }

  lemma StbEntry()
    ensures Overloads(Name.STB) == StbMacros() && NativeParams(Name.STB) == None
  {
    hide Lowers, Layer;
  }

  lemma OutbEntry()
    ensures Overloads(Name.OUTB) == OutbMacros() && NativeParams(Name.OUTB) == Some(Takes2(IMM8_REG, REG))
  {
    hide Lowers, Layer;
  }

  lemma LdaEntry()
    ensures Overloads(Name.LDA) == LdaMacros() && NativeParams(Name.LDA) == Some(Takes1(IMM16))
  {
    hide Lowers, Layer;
  }

  // ----- ports -----

  lemma InbSpells(r: I.Reg, v: Arg, x: Operand)
    requires Small(v)
    ensures Spells(0, Do(Name.INB, A2(Register(r), v)), One(I.INB(r, ByteArg(v))), x)
  {
    hide Overloads, FirstMatch, ExpandBody;
  }

  lemma OutbSpells(v: Arg, r: I.Reg, x: Operand)
    requires Small(v)
    ensures Spells(0, Do(Name.OUTB, A2(v, Register(r))), One(I.OUTB(ByteArg(v), r)), x)
  {
    hide Overloads, FirstMatch, ExpandBody;
  }

  // ----- blocks -----

  /** inb f, 0; or f, 8; outb 0, f */
  function Halting(): Block {
    Cat(One(I.INB(I.F, I.Imm(0))), Cat(One(I.ALU(I.OR, I.F, I.Imm(8))), One(I.OUTB(I.Imm(0), I.F))))
  }

  /** mw f, v; outb port, f */
  function Sending(port: byte, v: byte): Block {
    Cat(One(I.MW(I.F, I.Imm(v))), One(I.OUTB(I.Imm(port), I.F)))
  }

  /** mw f, v; sw [a], f */
  function Putting(a: word, v: byte): Block {
    Cat(One(I.MW(I.F, I.Imm(v))), One(I.SW(I.Abs(a), I.F)))
  }

  /** lw lo; inc16 h, l; lw hi */
  function LoadWord(hi: I.Reg, lo: I.Reg): Block {
    Cat(One(I.LW(lo, I.AtHL)), Cat(Inc16(I.H, I.L), One(I.LW(hi, I.AtHL))))
  }

  /** sw lo; inc16 h, l; sw hi */
  function StoreWord(hi: I.Reg, lo: I.Reg): Block {
    Cat(One(I.SW(I.AtHL, lo)), Cat(Inc16(I.H, I.L), One(I.SW(I.AtHL, hi))))
  }

  /** lda [t]; mw hi, h; mw lo, l */
  function LoadAddress(w: word, hi: I.Reg, lo: I.Reg): Block {
    Cat(One(I.LDA(w)), Cat(One(I.MW(hi, I.Rg(I.H))), One(I.MW(lo, I.Rg(I.L)))))
  }

  /** mw h, hi; mw l, lo; jnz 1 */
  function GotoPair(hi: I.Reg, lo: I.Reg): Block {
    Cat(Point(hi, lo), One(I.JNZ(I.Imm(1))))
  }

  // ----- macros -----

  lemma HaltRewrites()
    ensures RewriteOf(Do(Name.HALT, NoArgs))
      == Some(Uses(Do(Name.INB, A2(Register(I.F), Number(0))), Uses(Do(Name.OR, A2(Register(I.F), Number(8))), Uses(Do(Name.OUTB, A2(Number(0), Register(I.F))), End))))
  {
    hide Accepts, FirstMatch, ArgAt, Overloads, NativeParams, Filled, Before, SpliceRow;
    HaltEntry();
    Accepting();
    Filling();
    Splicing();
  }

  lemma HaltSpells(x: Operand)
    ensures Spells(1, Do(Name.HALT, NoArgs), Halting(), x)
  {
    hide RewriteOf, ExpandTo, ExpandEach, Lay, AluOf, Len, Pure;
    var op := Do(Name.HALT, NoArgs);
    HaltRewrites();
    AluNames();
    Each();
    Laying();
    InbSpells(I.F, Number(0), x);
    AluSpells(Name.OR, I.F, Number(8), x);
    OutbSpells(Number(0), I.F, x);
    Settle(0, op, RewriteOf(op).value, Halting(), x);
  }

  lemma ClfRewrites()
    ensures RewriteOf(Do(Name.CLF, NoArgs))
      == Some(Uses(Do(Name.MW, A2(Register(I.F), Number(0))), End))
  {
    hide Accepts, FirstMatch, ArgAt, Overloads, NativeParams, Filled, Before, SpliceRow;
    ClfEntry();
    Accepting();
    Filling();
    Splicing();
  }

  lemma ClfSpells(x: Operand)
    ensures Spells(1, Do(Name.CLF, NoArgs), One(I.MW(I.F, I.Imm(0))), x)
  {
    hide RewriteOf, ExpandTo, ExpandEach, Lay, AluOf, Len, Pure;
    var op := Do(Name.CLF, NoArgs);
    ClfRewrites();
    AluNames();
    Each();
    Laying();
    MwSpells(I.F, Number(0), x);
    Settle(0, op, RewriteOf(op).value, One(I.MW(I.F, I.Imm(0))), x);
  }

  lemma OutbTwoMatches(port: byte, v: byte)
    ensures var op := Do(Name.OUTB, A2(Number(port), Number(v)));
      !IsNative(op) && FirstMatch(Overloads(op.name), op.args) == OutbMacros()
  {
    hide Accepts, FirstMatch, Overloads, NativeParams;
    OutbEntry();
    Accepting();
  }

  lemma OutbTwoRewrites(port: byte, v: byte)
    ensures RewriteOf(Do(Name.OUTB, A2(Number(port), Number(v))))
      == Some(Uses(Do(Name.MW, A2(Register(I.F), Number(v))), Uses(Do(Name.OUTB, A2(Number(port), Register(I.F))), End)))
  {
    hide IsNative, Accepts, FirstMatch, ArgAt, Overloads, NativeParams, Filled, Before, SpliceRow, NumberAt, Evaluated, ArgCount;
    OutbTwoMatches(port, v);
    Filling();
    Splicing();
  }

  lemma OutbTwoSpells(port: byte, v: byte, x: Operand)
    ensures Spells(1, Do(Name.OUTB, A2(Number(port), Number(v))), Sending(port, v), x)
  {
    hide RewriteOf, ExpandTo, ExpandEach, Lay, AluOf, Len, Pure;
    var op := Do(Name.OUTB, A2(Number(port), Number(v)));
    OutbTwoRewrites(port, v);
    AluNames();
    Each();
    Laying();
    MwSpells(I.F, Number(v), x);
    OutbSpells(Number(port), I.F, x);
    Settle(0, op, RewriteOf(op).value, Sending(port, v), x);
  }

  lemma IncRewrites(r: I.Reg)
    ensures RewriteOf(Do(Name.INC, A1(Register(r))))
      == Some(Uses(Do(Name.ADD, A2(Register(r), Number(1))), End))
  {
    hide Accepts, FirstMatch, ArgAt, Overloads, NativeParams, Filled, Before, SpliceRow;
    IncEntry();
    Accepting();
    Filling();
    Splicing();
  }

  lemma IncSpells(r: I.Reg, x: Operand)
    ensures Spells(1, Do(Name.INC, A1(Register(r))), One(I.ALU(I.ADD, r, I.Imm(1))), x)
  {
    hide RewriteOf, ExpandTo, ExpandEach, Lay, AluOf, Len, Pure;
    var op := Do(Name.INC, A1(Register(r)));
    IncRewrites(r);
    AluNames();
    Each();
    Laying();
    AluSpells(Name.ADD, r, Number(1), x);
    Settle(0, op, RewriteOf(op).value, One(I.ALU(I.ADD, r, I.Imm(1))), x);
  }

  lemma FdecRewrites(r: I.Reg)
    ensures RewriteOf(Do(Name.FDEC, A1(Register(r))))
      == Some(Uses(Do(Name.SBB, A2(Register(r), Number(1))), End))
  {
    hide Accepts, FirstMatch, ArgAt, Overloads, NativeParams, Filled, Before, SpliceRow;
    FdecEntry();
    Accepting();
    Filling();
    Splicing();
  }

  lemma FdecSpells(r: I.Reg, x: Operand)
    ensures Spells(1, Do(Name.FDEC, A1(Register(r))), One(I.ALU(I.SBB, r, I.Imm(1))), x)
  {
    hide RewriteOf, ExpandTo, ExpandEach, Lay, AluOf, Len, Pure;
    var op := Do(Name.FDEC, A1(Register(r)));
    FdecRewrites(r);
    AluNames();
    Each();
    Laying();
    AluSpells(Name.SBB, r, Number(1), x);
    Settle(0, op, RewriteOf(op).value, One(I.ALU(I.SBB, r, I.Imm(1))), x);
  }

  lemma LdaPairMatches(hi: I.Reg, lo: I.Reg)
    ensures var op := Do(Name.LDA, A2(Register(hi), Register(lo)));
      !IsNative(op) && FirstMatch(Overloads(op.name), op.args) == LdaMacros().rest
  {
    hide Accepts, FirstMatch, Overloads, NativeParams;
    LdaEntry();
    Accepting();
  }

  lemma LdaPairRewrites(hi: I.Reg, lo: I.Reg)
    ensures RewriteOf(Do(Name.LDA, A2(Register(hi), Register(lo))))
      == Some(Uses(Do(Name.MW, A2(Register(I.H), Register(hi))), Uses(Do(Name.MW, A2(Register(I.L), Register(lo))), End)))
  {
    hide IsNative, Accepts, FirstMatch, ArgAt, Overloads, NativeParams, Filled, Before, SpliceRow, NumberAt, Evaluated, ArgCount;
    LdaPairMatches(hi, lo);
    Filling();
    Splicing();
  }

  lemma LdaPairSpells(hi: I.Reg, lo: I.Reg, x: Operand)
    ensures Spells(1, Do(Name.LDA, A2(Register(hi), Register(lo))), Point(hi, lo), x)
  {
    hide RewriteOf, ExpandTo, ExpandEach, Lay, AluOf, Len, Pure;
    var op := Do(Name.LDA, A2(Register(hi), Register(lo)));
    LdaPairRewrites(hi, lo);
    AluNames();
    Each();
    Laying();
    MwSpells(I.H, Register(hi), x);
    MwSpells(I.L, Register(lo), x);
    Settle(0, op, RewriteOf(op).value, Point(hi, lo), x);
  }

  lemma LdaToMatches(hi: I.Reg, lo: I.Reg, t: Arg)
    requires IsTarget(t)
    ensures var op := Do(Name.LDA, A3(Register(hi), Register(lo), t));
      !IsNative(op) && FirstMatch(Overloads(op.name), op.args) == LdaMacros()
  {
    hide Accepts, FirstMatch, Overloads, NativeParams;
    LdaEntry();
    Accepting();
  }

  lemma LdaToRewrites(hi: I.Reg, lo: I.Reg, t: Arg)
    requires IsTarget(t)
    ensures RewriteOf(Do(Name.LDA, A3(Register(hi), Register(lo), t)))
      == Some(Uses(Do(Name.LDA, A1(t)), Uses(Do(Name.MW, A2(Register(hi), Register(I.H))), Uses(Do(Name.MW, A2(Register(lo), Register(I.L))), End))))
  {
    hide IsNative, Accepts, FirstMatch, ArgAt, Overloads, NativeParams, Filled, Before, SpliceRow, NumberAt, Evaluated, ArgCount;
    LdaToMatches(hi, lo, t);
    Filling();
    Splicing();
  }

  lemma LdaToSpells(hi: I.Reg, lo: I.Reg, t: Arg)
    requires IsTarget(t)
    ensures Spells(1, Do(Name.LDA, A3(Register(hi), Register(lo), t)), LoadAddress(FarWord(t), hi, lo), FarOperand(t))
  {
    hide RewriteOf, ExpandTo, ExpandEach, Lay, AluOf, Len, Pure;
    var x := FarOperand(t);
    var op := Do(Name.LDA, A3(Register(hi), Register(lo), t));
    LdaToRewrites(hi, lo, t);
    AluNames();
    Each();
    Laying();
    LdaSpells(t);
    MwSpells(hi, Register(I.H), x);
    MwSpells(lo, Register(I.L), x);
    Settle(0, op, RewriteOf(op).value, LoadAddress(FarWord(t), hi, lo), x);
  }

  lemma Lw16HlMatches(hi: I.Reg, lo: I.Reg)
    ensures var op := Do(Name.LW16, A2(Register(hi), Register(lo)));
      !IsNative(op) && FirstMatch(Overloads(op.name), op.args) == Lw16Macros().rest
  {
    hide Accepts, FirstMatch, Overloads, NativeParams;
    Lw16Entry();
    Accepting();
  }

  lemma Lw16HlRewrites(hi: I.Reg, lo: I.Reg)
    ensures RewriteOf(Do(Name.LW16, A2(Register(hi), Register(lo))))
      == Some(Uses(Do(Name.LW, A1(Register(lo))), Uses(Do(Name.INC16, A2(Register(I.H), Register(I.L))), Uses(Do(Name.LW, A1(Register(hi))), End))))
  {
    hide IsNative, Accepts, FirstMatch, ArgAt, Overloads, NativeParams, Filled, Before, SpliceRow, NumberAt, Evaluated, ArgCount;
    Lw16HlMatches(hi, lo);
    Filling();
    Splicing();
  }

  lemma Lw16HlSpells(hi: I.Reg, lo: I.Reg, x: Operand)
    ensures Spells(2, Do(Name.LW16, A2(Register(hi), Register(lo))), LoadWord(hi, lo), x)
  {
    hide RewriteOf, ExpandTo, ExpandEach, Lay, AluOf, Len, Pure;
    var op := Do(Name.LW16, A2(Register(hi), Register(lo)));
    Lw16HlRewrites(hi, lo);
    AluNames();
    Each();
    Laying();
    LwHlSpells(lo, x);
    Inc16Spells(I.H, I.L, x);
    LwHlSpells(hi, x);
    Settle(1, op, RewriteOf(op).value, LoadWord(hi, lo), x);
  }

  lemma Sw16HlMatches(hi: I.Reg, lo: I.Reg)
    ensures var op := Do(Name.SW16, A2(Register(hi), Register(lo)));
      !IsNative(op) && FirstMatch(Overloads(op.name), op.args) == Sw16Macros().rest.rest
  {
    hide Accepts, FirstMatch, Overloads, NativeParams;
    Sw16Entry();
    Accepting();
  }

  lemma Sw16HlRewrites(hi: I.Reg, lo: I.Reg)
    ensures RewriteOf(Do(Name.SW16, A2(Register(hi), Register(lo))))
      == Some(Uses(Do(Name.SW, A1(Register(lo))), Uses(Do(Name.INC16, A2(Register(I.H), Register(I.L))), Uses(Do(Name.SW, A1(Register(hi))), End))))
  {
    hide IsNative, Accepts, FirstMatch, ArgAt, Overloads, NativeParams, Filled, Before, SpliceRow, NumberAt, Evaluated, ArgCount;
    Sw16HlMatches(hi, lo);
    Filling();
    Splicing();
  }

  lemma Sw16HlSpells(hi: I.Reg, lo: I.Reg, x: Operand)
    ensures Spells(2, Do(Name.SW16, A2(Register(hi), Register(lo))), StoreWord(hi, lo), x)
  {
    hide RewriteOf, ExpandTo, ExpandEach, Lay, AluOf, Len, Pure;
    var op := Do(Name.SW16, A2(Register(hi), Register(lo)));
    Sw16HlRewrites(hi, lo);
    AluNames();
    Each();
    Laying();
    SwHlSpells(lo, x);
    Inc16Spells(I.H, I.L, x);
    SwHlSpells(hi, x);
    Settle(1, op, RewriteOf(op).value, StoreWord(hi, lo), x);
  }

  lemma SwNumberMatches(a: word, v: byte)
    ensures var op := Do(Name.SW, A2(Number(a), Number(v)));
      !IsNative(op) && FirstMatch(Overloads(op.name), op.args) == SwMacros().rest
  {
    hide Accepts, FirstMatch, Overloads, NativeParams;
    SwEntry();
    Accepting();
  }

  lemma SwNumberRewrites(a: word, v: byte)
    ensures RewriteOf(Do(Name.SW, A2(Number(a), Number(v))))
      == Some(Uses(Do(Name.MW, A2(Register(I.F), Number(v))), Uses(Do(Name.SW, A2(Number(a), Register(I.F))), End)))
  {
    hide IsNative, Accepts, FirstMatch, ArgAt, Overloads, NativeParams, Filled, Before, SpliceRow, NumberAt, Evaluated, ArgCount;
    SwNumberMatches(a, v);
    Filling();
    Splicing();
  }

  lemma SwNumberSpells(a: word, v: byte, x: Operand)
    ensures Spells(1, Do(Name.SW, A2(Number(a), Number(v))), Putting(a, v), x)
  {
    hide RewriteOf, ExpandTo, ExpandEach, Lay, AluOf, Len, Pure;
    var op := Do(Name.SW, A2(Number(a), Number(v)));
    SwNumberRewrites(a, v);
    AluNames();
    Each();
    Laying();
    MwSpells(I.F, Number(v), x);
    MemorySpells(I.F, Number(a), x);
    Settle(0, op, RewriteOf(op).value, Putting(a, v), x);
  }

  lemma Sw16NumberMatches(a: word, v: word)
    requires a < 65535
    ensures var op := Do(Name.SW16, A2(Number(a), Number(v)));
      !IsNative(op) && FirstMatch(Overloads(op.name), op.args) == Sw16Macros().rest
  {
    hide Accepts, FirstMatch, Overloads, NativeParams;
    Sw16Entry();
    Accepting();
  }

  lemma Sw16NumberRewrites(a: word, v: word)
    requires a < 65535
    ensures RewriteOf(Do(Name.SW16, A2(Number(a), Number(v))))
      == Some(Uses(Do(Name.SW, A2(Number(a), Number(v % 256))), Uses(Do(Name.SW, A2(Number(a + 1), Number(v / 256 % 256))), End)))
  {
    hide IsNative, Accepts, FirstMatch, ArgAt, Overloads, NativeParams, Filled, Before, SpliceRow;
    Sw16NumberMatches(a, v);
    Filling();
    Splicing();
  }

  lemma Sw16NumberSpells(a: word, v: word, x: Operand)
    requires a < 65535
    ensures Spells(2, Do(Name.SW16, A2(Number(a), Number(v))), Cat(Putting(a, Lo(v)), Putting(a + 1, Hi(v))), x)
  {
    hide RewriteOf, ExpandTo, ExpandEach, Lay, AluOf, Len, Pure;
    var op := Do(Name.SW16, A2(Number(a), Number(v)));
    Sw16NumberRewrites(a, v);
    AluNames();
    Each();
    Laying();
    SwNumberSpells(a, Lo(v), x);
    SwNumberSpells(a + 1, Hi(v), x);
    Settle(1, op, RewriteOf(op).value, Cat(Putting(a, Lo(v)), Putting(a + 1, Hi(v))), x);
  }

  lemma SwPairNumberMatches(hi: I.Reg, lo: I.Reg, v: byte)
    ensures var op := Do(Name.SW, A3(Register(hi), Register(lo), Number(v)));
      !IsNative(op) && FirstMatch(Overloads(op.name), op.args) == SwMacros().rest.rest
  {
    hide Accepts, FirstMatch, Overloads, NativeParams;
    SwEntry();
    Accepting();
  }

  lemma SwPairNumberRewrites(hi: I.Reg, lo: I.Reg, v: byte)
    ensures RewriteOf(Do(Name.SW, A3(Register(hi), Register(lo), Number(v))))
      == Some(Uses(Do(Name.MW, A2(Register(I.F), Number(v))), Uses(Do(Name.SW, A3(Register(hi), Register(lo), Register(I.F))), End)))
  {
    hide IsNative, Accepts, FirstMatch, ArgAt, Overloads, NativeParams, Filled, Before, SpliceRow, NumberAt, Evaluated, ArgCount;
    SwPairNumberMatches(hi, lo, v);
    Filling();
    Splicing();
  }

  lemma SwPairNumberSpells(hi: I.Reg, lo: I.Reg, v: byte, x: Operand)
    ensures Spells(2, Do(Name.SW, A3(Register(hi), Register(lo), Number(v))), Cat(One(I.MW(I.F, I.Imm(v))), SwAt(hi, lo, I.F)), x)
  {
    hide RewriteOf, ExpandTo, ExpandEach, Lay, AluOf, Len, Pure;
    var op := Do(Name.SW, A3(Register(hi), Register(lo), Number(v)));
    SwPairNumberRewrites(hi, lo, v);
    AluNames();
    Each();
    Laying();
    MwSpells(I.F, Number(v), x);
    SwAtSpells(hi, lo, I.F, x);
    Settle(1, op, RewriteOf(op).value, Cat(One(I.MW(I.F, I.Imm(v))), SwAt(hi, lo, I.F)), x);
  }

  lemma JmpPairMatches(hi: I.Reg, lo: I.Reg)
    ensures var op := Do(Name.JMP, A2(Register(hi), Register(lo)));
      !IsNative(op) && FirstMatch(Overloads(op.name), op.args) == JmpMacros().rest
  {
    hide Accepts, FirstMatch, Overloads, NativeParams;
    JmpEntry();
    Accepting();
  }

  lemma JmpPairRewrites(hi: I.Reg, lo: I.Reg)
    ensures RewriteOf(Do(Name.JMP, A2(Register(hi), Register(lo))))
      == Some(Uses(Do(Name.MW, A2(Register(I.H), Register(hi))), Uses(Do(Name.MW, A2(Register(I.L), Register(lo))), Uses(Do(Name.JMP, NoArgs), End))))
  {
    hide IsNative, Accepts, FirstMatch, ArgAt, Overloads, NativeParams, Filled, Before, SpliceRow, NumberAt, Evaluated, ArgCount;
    JmpPairMatches(hi, lo);
    Filling();
    Splicing();
  }

  lemma JmpPairSpells(hi: I.Reg, lo: I.Reg, x: Operand)
    ensures Spells(2, Do(Name.JMP, A2(Register(hi), Register(lo))), GotoPair(hi, lo), x)
  {
    hide RewriteOf, ExpandTo, ExpandEach, Lay, AluOf, Len, Pure;
    var op := Do(Name.JMP, A2(Register(hi), Register(lo)));
    JmpPairRewrites(hi, lo);
    AluNames();
    Each();
    Laying();
    MwSpells(I.H, Register(hi), x);
    MwSpells(I.L, Register(lo), x);
    JmpSpells(x);
    Settle(1, op, RewriteOf(op).value, GotoPair(hi, lo), x);
  }

  lemma Mw16RegMatches(hi: I.Reg, lo: I.Reg, p: I.Reg, q: I.Reg)
    ensures var op := Do(Name.MW16, A4(Register(hi), Register(lo), Register(p), Register(q)));
      !IsNative(op) && FirstMatch(Overloads(op.name), op.args) == Mw16Macros().rest
  {
    hide Accepts, FirstMatch, Overloads, NativeParams;
    Mw16Entry();
    Accepting();
  }

  lemma Mw16RegRewrites(hi: I.Reg, lo: I.Reg, p: I.Reg, q: I.Reg)
    ensures RewriteOf(Do(Name.MW16, A4(Register(hi), Register(lo), Register(p), Register(q))))
      == Some(Uses(Do(Name.MW, A2(Register(hi), Register(p))), Uses(Do(Name.MW, A2(Register(lo), Register(q))), End)))
  {
    hide IsNative, Accepts, FirstMatch, ArgAt, Overloads, NativeParams, Filled, Before, SpliceRow, NumberAt, Evaluated, ArgCount;
    Mw16RegMatches(hi, lo, p, q);
    Filling();
    Splicing();
  }

  lemma Mw16RegSpells(hi: I.Reg, lo: I.Reg, p: I.Reg, q: I.Reg, x: Operand)
    ensures Spells(1, Do(Name.MW16, A4(Register(hi), Register(lo), Register(p), Register(q))), Cat(One(I.MW(hi, I.Rg(p))), One(I.MW(lo, I.Rg(q)))), x)
  {
    hide RewriteOf, ExpandTo, ExpandEach, Lay, AluOf, Len, Pure;
    var op := Do(Name.MW16, A4(Register(hi), Register(lo), Register(p), Register(q)));
    Mw16RegRewrites(hi, lo, p, q);
    AluNames();
    Each();
    Laying();
    MwSpells(hi, Register(p), x);
    MwSpells(lo, Register(q), x);
    Settle(0, op, RewriteOf(op).value, Cat(One(I.MW(hi, I.Rg(p))), One(I.MW(lo, I.Rg(q)))), x);
  }

  lemma Add16ByteMatches(hi: I.Reg, lo: I.Reg, q: I.Reg)
    ensures var op := Do(Name.ADD16, A3(Register(hi), Register(lo), Register(q)));
      !IsNative(op) && FirstMatch(Overloads(op.name), op.args) == Add16Macros()
  {
    hide Accepts, FirstMatch, Overloads, NativeParams;
    Add16Entry();
    Accepting();
  }

  lemma Add16ByteRewrites(hi: I.Reg, lo: I.Reg, q: I.Reg)
    ensures RewriteOf(Do(Name.ADD16, A3(Register(hi), Register(lo), Register(q))))
      == Some(Uses(Do(Name.ADD, A2(Register(lo), Register(q))), Uses(Do(Name.ADC, A2(Register(hi), Number(0))), End)))
  {
    hide IsNative, Accepts, FirstMatch, ArgAt, Overloads, NativeParams, Filled, Before, SpliceRow, NumberAt, Evaluated, ArgCount;
    Add16ByteMatches(hi, lo, q);
    Filling();
    Splicing();
  }

  lemma Add16ByteSpells(hi: I.Reg, lo: I.Reg, q: I.Reg, x: Operand)
    ensures Spells(1, Do(Name.ADD16, A3(Register(hi), Register(lo), Register(q))), Add16(hi, lo, I.Imm(0), I.Rg(q)), x)
  {
    hide RewriteOf, ExpandTo, ExpandEach, Lay, AluOf, Len, Pure;
    var op := Do(Name.ADD16, A3(Register(hi), Register(lo), Register(q)));
    Add16ByteRewrites(hi, lo, q);
    AluNames();
    Each();
    Laying();
    AluSpells(Name.ADD, lo, Register(q), x);
    AluSpells(Name.ADC, hi, Number(0), x);
    Settle(0, op, RewriteOf(op).value, Add16(hi, lo, I.Imm(0), I.Rg(q)), x);
  }

  lemma Sub16ByteMatches(hi: I.Reg, lo: I.Reg, q: I.Reg)
    ensures var op := Do(Name.SUB16, A3(Register(hi), Register(lo), Register(q)));
      !IsNative(op) && FirstMatch(Overloads(op.name), op.args) == Sub16Macros()
  {
    hide Accepts, FirstMatch, Overloads, NativeParams;
    Sub16Entry();
    Accepting();
  }

  lemma Sub16ByteRewrites(hi: I.Reg, lo: I.Reg, q: I.Reg)
    ensures RewriteOf(Do(Name.SUB16, A3(Register(hi), Register(lo), Register(q))))
      == Some(Uses(Do(Name.SBB, A2(Register(lo), Register(q))), Uses(Do(Name.SBB, A2(Register(hi), Number(0))), End)))
  {
    hide IsNative, Accepts, FirstMatch, ArgAt, Overloads, NativeParams, Filled, Before, SpliceRow, NumberAt, Evaluated, ArgCount;
    Sub16ByteMatches(hi, lo, q);
    Filling();
    Splicing();
  }

  lemma Sub16ByteSpells(hi: I.Reg, lo: I.Reg, q: I.Reg, x: Operand)
    ensures Spells(1, Do(Name.SUB16, A3(Register(hi), Register(lo), Register(q))), Sub16(hi, lo, I.Imm(0), I.Rg(q)), x)
  {
    hide RewriteOf, ExpandTo, ExpandEach, Lay, AluOf, Len, Pure;
    var op := Do(Name.SUB16, A3(Register(hi), Register(lo), Register(q)));
    Sub16ByteRewrites(hi, lo, q);
    AluNames();
    Each();
    Laying();
    AluSpells(Name.SBB, lo, Register(q), x);
    AluSpells(Name.SBB, hi, Number(0), x);
    Settle(0, op, RewriteOf(op).value, Sub16(hi, lo, I.Imm(0), I.Rg(q)), x);
  }

  lemma StlRewrites()
    ensures RewriteOf(Do(Name.STL, NoArgs))
      == Some(Uses(Do(Name.OR, A2(Register(I.F), Number(1))), End))
  {
    hide Accepts, FirstMatch, ArgAt, Overloads, NativeParams, Filled, Before, SpliceRow;
    StlEntry();
    Accepting();
    Filling();
    Splicing();
  }

  lemma StlSpells(x: Operand)
    ensures Spells(1, Do(Name.STL, NoArgs), One(I.ALU(I.OR, I.F, I.Imm(1))), x)
  {
    hide RewriteOf, ExpandTo, ExpandEach, Lay, AluOf, Len, Pure;
    var op := Do(Name.STL, NoArgs);
    StlRewrites();
    AluNames();
    Each();
    Laying();
    AluSpells(Name.OR, I.F, Number(1), x);
    Settle(0, op, RewriteOf(op).value, One(I.ALU(I.OR, I.F, I.Imm(1))), x);
  }

  lemma CllRewrites()
    ensures RewriteOf(Do(Name.CLL, NoArgs))
      == Some(Uses(Do(Name.AND, A2(Register(I.F), Number(-2))), End))
  {
    hide Accepts, FirstMatch, ArgAt, Overloads, NativeParams, Filled, Before, SpliceRow;
    CllEntry();
    Accepting();
    Filling();
    Splicing();
  }

  lemma CllSpells(x: Operand)
    ensures Spells(1, Do(Name.CLL, NoArgs), One(I.ALU(I.AND, I.F, I.Imm(254))), x)
  {
    hide RewriteOf, ExpandTo, ExpandEach, Lay, AluOf, Len, Pure;
    var op := Do(Name.CLL, NoArgs);
    CllRewrites();
    AluNames();
    Each();
    Laying();
    AluSpells(Name.AND, I.F, Number(-2), x);
    Settle(0, op, RewriteOf(op).value, One(I.ALU(I.AND, I.F, I.Imm(254))), x);
  }

  lemma SteRewrites()
    ensures RewriteOf(Do(Name.STE, NoArgs))
      == Some(Uses(Do(Name.OR, A2(Register(I.F), Number(2))), End))
  {
    hide Accepts, FirstMatch, ArgAt, Overloads, NativeParams, Filled, Before, SpliceRow;
    SteEntry();
    Accepting();
    Filling();
    Splicing();
  }

  lemma SteSpells(x: Operand)
    ensures Spells(1, Do(Name.STE, NoArgs), One(I.ALU(I.OR, I.F, I.Imm(2))), x)
  {
    hide RewriteOf, ExpandTo, ExpandEach, Lay, AluOf, Len, Pure;
    var op := Do(Name.STE, NoArgs);
    SteRewrites();
    AluNames();
    Each();
    Laying();
    AluSpells(Name.OR, I.F, Number(2), x);
    Settle(0, op, RewriteOf(op).value, One(I.ALU(I.OR, I.F, I.Imm(2))), x);
  }

  lemma CleRewrites()
    ensures RewriteOf(Do(Name.CLE, NoArgs))
      == Some(Uses(Do(Name.AND, A2(Register(I.F), Number(-3))), End))
  {
    hide Accepts, FirstMatch, ArgAt, Overloads, NativeParams, Filled, Before, SpliceRow;
    CleEntry();
    Accepting();
    Filling();
    Splicing();
  }

  lemma CleSpells(x: Operand)
    ensures Spells(1, Do(Name.CLE, NoArgs), One(I.ALU(I.AND, I.F, I.Imm(253))), x)
  {
    hide RewriteOf, ExpandTo, ExpandEach, Lay, AluOf, Len, Pure;
    var op := Do(Name.CLE, NoArgs);
    CleRewrites();
    AluNames();
    Each();
    Laying();
    AluSpells(Name.AND, I.F, Number(-3), x);
    Settle(0, op, RewriteOf(op).value, One(I.ALU(I.AND, I.F, I.Imm(253))), x);
  }

  lemma StcRewrites()
    ensures RewriteOf(Do(Name.STC, NoArgs))
      == Some(Uses(Do(Name.OR, A2(Register(I.F), Number(4))), End))
  {
    hide Accepts, FirstMatch, ArgAt, Overloads, NativeParams, Filled, Before, SpliceRow;
    StcEntry();
    Accepting();
    Filling();
    Splicing();
  }

  lemma StcSpells(x: Operand)
    ensures Spells(1, Do(Name.STC, NoArgs), One(I.ALU(I.OR, I.F, I.Imm(4))), x)
  {
    hide RewriteOf, ExpandTo, ExpandEach, Lay, AluOf, Len, Pure;
    var op := Do(Name.STC, NoArgs);
    StcRewrites();
    AluNames();
    Each();
    Laying();
    AluSpells(Name.OR, I.F, Number(4), x);
    Settle(0, op, RewriteOf(op).value, One(I.ALU(I.OR, I.F, I.Imm(4))), x);
  }

  lemma ClcRewrites()
    ensures RewriteOf(Do(Name.CLC, NoArgs))
      == Some(Uses(Do(Name.AND, A2(Register(I.F), Number(-5))), End))
  {
    hide Accepts, FirstMatch, ArgAt, Overloads, NativeParams, Filled, Before, SpliceRow;
    ClcEntry();
    Accepting();
    Filling();
    Splicing();
  }

  lemma ClcSpells(x: Operand)
    ensures Spells(1, Do(Name.CLC, NoArgs), One(I.ALU(I.AND, I.F, I.Imm(251))), x)
  {
    hide RewriteOf, ExpandTo, ExpandEach, Lay, AluOf, Len, Pure;
    var op := Do(Name.CLC, NoArgs);
    ClcRewrites();
    AluNames();
    Each();
    Laying();
    AluSpells(Name.AND, I.F, Number(-5), x);
    Settle(0, op, RewriteOf(op).value, One(I.ALU(I.AND, I.F, I.Imm(251))), x);
  }

  lemma StbRewrites()
    ensures RewriteOf(Do(Name.STB, NoArgs))
      == Some(Uses(Do(Name.OR, A2(Register(I.F), Number(8))), End))
  {
    hide Accepts, FirstMatch, ArgAt, Overloads, NativeParams, Filled, Before, SpliceRow;
    StbEntry();
    Accepting();
    Filling();
    Splicing();
  }

  lemma StbSpells(x: Operand)
    ensures Spells(1, Do(Name.STB, NoArgs), One(I.ALU(I.OR, I.F, I.Imm(8))), x)
  {
    hide RewriteOf, ExpandTo, ExpandEach, Lay, AluOf, Len, Pure;
    var op := Do(Name.STB, NoArgs);
    StbRewrites();
    AluNames();
    Each();
    Laying();
    AluSpells(Name.OR, I.F, Number(8), x);
    Settle(0, op, RewriteOf(op).value, One(I.ALU(I.OR, I.F, I.Imm(8))), x);
  }

  // ----- a number to the address of a name -----

  lemma SwNameMatches(name: string, dotted: bool, v: byte)
    ensures var op := Do(Name.SW, A2(Symbol(name, dotted), Number(v)));
      !IsNative(op) && FirstMatch(Overloads(op.name), op.args) == SwMacros().rest
  {
    hide Accepts, FirstMatch, Overloads, NativeParams;
    SwEntry();
    Accepting();
  }

  lemma SwNameRewrites(name: string, dotted: bool, v: byte)
    ensures RewriteOf(Do(Name.SW, A2(Symbol(name, dotted), Number(v))))
      == Some(Uses(Do(Name.MW, A2(Register(I.F), Number(v))), Uses(Do(Name.SW, A2(Symbol(name, dotted), Register(I.F))), End)))
  {
    hide IsNative, Accepts, FirstMatch, ArgAt, Overloads, NativeParams, Filled, Before, SpliceRow, NumberAt, Evaluated, ArgCount;
    SwNameMatches(name, dotted, v);
    Filling();
    Splicing();
  }

  /** A native operation becomes its line. */
  lemma NativeExpands(d: nat, op: Operation, l: Line, after: Lines)
    requires d > 0 && IsNative(op) && NativeLine(op) == Some(l)
    ensures ExpandTo(d, op, after) == Some(Put(l, after))
  {
    hide IsNative, NativeLine, Overloads, FirstMatch, ExpandBody;
  }

  lemma SwNamed(name: string, dotted: bool, r: I.Reg)
    ensures var op := Do(Name.SW, A2(Symbol(name, dotted), Register(r)));
      IsNative(op) && NativeLine(op) == Some(Op(I.SW(I.Abs(0), r), Ref(name, dotted)))
  {
  }

  lemma SwNameExpands(d: nat, name: string, dotted: bool, v: byte, after: Lines)
    requires d > 1
    ensures ExpandTo(d, Do(Name.SW, A2(Symbol(name, dotted), Number(v))), after)
      == Some(Put(Op(I.MW(I.F, I.Imm(v)), Written), Put(Op(I.SW(I.Abs(0), I.F), Ref(name, dotted)), after)))
  {
    hide RewriteOf, ExpandTo, ExpandEach, Lay, IsNative, NativeLine;
    var op := Do(Name.SW, A2(Symbol(name, dotted), Number(v)));
    SwNameRewrites(name, dotted, v);
    Each();
    Laying();
    MwSpells(I.F, Number(v), Written);
    SwNamed(name, dotted, I.F);
    NativeExpands(d - 1, Do(Name.SW, A2(Symbol(name, dotted), Register(I.F))), Op(I.SW(I.Abs(0), I.F), Ref(name, dotted)), after);
    Becomes(d, op, after);
  }

  // ----- CALL through a pair -----

  /** The five instructions of a call, with the return address still to be worked out. */
  function CallPairLines(hi: I.Reg, lo: I.Reg, after: Lines): Lines {
    Put(Op(I.PUSH(I.Imm(0)), Here(10, true)), Put(Op(I.PUSH(I.Imm(0)), Here(8, false)),
      Lay(GotoPair(hi, lo), Written, after)))
  }

  lemma CallPairMatches(hi: I.Reg, lo: I.Reg)
    ensures var op := Do(Name.CALL, A2(Register(hi), Register(lo)));
      !IsNative(op) && FirstMatch(Overloads(op.name), op.args) == CallMacros().rest
  {
    hide Accepts, FirstMatch, Overloads, NativeParams;
    CallEntry();
    Accepting();
  }

  lemma CallPairRewrites(hi: I.Reg, lo: I.Reg)
    ensures RewriteOf(Do(Name.CALL, A2(Register(hi), Register(lo))))
      == Some(Uses(Do(Name.PUSH, A1(HereByte(10, true))), Uses(Do(Name.PUSH, A1(HereByte(8, false))),
        Uses(Do(Name.MW, A2(Register(I.H), Register(hi))), Uses(Do(Name.MW, A2(Register(I.L), Register(lo))),
        Uses(Do(Name.JNZ, A1(Number(1))), End))))))
  {
    hide IsNative, Accepts, FirstMatch, ArgAt, Overloads, NativeParams, Filled, Before, SpliceRow, NumberAt, Evaluated, ArgCount;
    CallPairMatches(hi, lo);
    Filling();
    Splicing();
  }

  lemma CallPairExpands(d: nat, hi: I.Reg, lo: I.Reg, after: Lines)
    requires d > 1
    ensures ExpandTo(d, Do(Name.CALL, A2(Register(hi), Register(lo))), after) == Some(CallPairLines(hi, lo, after))
  {
    hide RewriteOf, ExpandTo, ExpandEach, Lay;
    var op := Do(Name.CALL, A2(Register(hi), Register(lo)));
    CallPairRewrites(hi, lo);
    Each();
    Laying();
    MwSpells(I.H, Register(hi), Written);
    MwSpells(I.L, Register(lo), Written);
    JnzSpells(Number(1), Written);
    HereExpands(d - 1, 8, false, Lay(GotoPair(hi, lo), Written, after));
    HereExpands(d - 1, 10, true, CallPairLines(hi, lo, after).rest);
    Becomes(d, op, after);
  }
}
