/**
 The built-in macros of asm/macros.asm as data: for every operation name its overloads, in the
 order of the file, each with the shapes of its parameters and the lines of its body.
 */
module MacroTable {
  import I = Isa
  import opened Words
  import opened Source

  /** Names of operations, native ones first. The assembler compares them without case. */
  datatype Name =
    | MW | LW | SW | PUSH | POP | LDA | JNZ | INB | OUTB | ADD | ADC | AND | OR | NOR | CMP | SBB |
    HALT | CLF | SUB | INC | FDEC | DEC | EQ16 | INC16 | DEC16 | SUB16 | ADD16 | SIGN | SIGN16 |
    MW16 | NOT | NAND | XNOR | XOR | LW16 | SW16 | CALL | RET | JMP | JMS | JMN | JLT | JLE | JEQ |
    JNE | JGE | JGT | JZ | JC | JNC | JB | JNB | STL | CLL | STE | CLE | STC | CLC | STB | CLB |
    PUSHA | POPA | Other(name: string)

  /** Numbers that eval_exp and type_args let through. */
  type Immediate = x: int | -32768 <= x <= 65535

  /**
   What a parameter accepts: each stands for a set of the flags A_REG, A_IMM8, A_IMM16, A_ADDR
   and A_HL. The last two occur in native operations only.
   */
  datatype Param = REG | IMM8_REG | ADDR | IMM | IMM_ADDR | IMM16 | IMM16_HL

  datatype Params = NoParams | Params(first: Param, rest: Params)

  /**
   An argument in a macro body. P(k) is the k-th argument of the call, InBrackets(k) the same as
   an address; R and N are a register and a number; HighOf and LowOf are `((%k > 8) & 0xFF)` and
   `((%k > 0) & 0xFF)`; PlusOf is `(%k + n)`; HereT is `(($ + ahead) > 8)` or
   `(($ + ahead) & 0xFF)`; Unknown is a name that is not a parameter.
   */
  datatype Piece =
    | P(k: nat) | InBrackets(k: nat) | R(r: I.Reg) | N(v: Immediate)
    | HighOf(k: nat) | LowOf(k: nat) | PlusOf(k: nat, n: word) | HereT(ahead: word, high: bool) | Unknown

  datatype Pieces =
    | NoPieces
    | With1(a: Piece)
    | With2(a: Piece, b: Piece)
    | With3(a: Piece, b: Piece, c: Piece)
    | With4(a: Piece, b: Piece, c: Piece, d: Piece)
    | With5(a: Piece, b: Piece, c: Piece, d: Piece, e: Piece)

  datatype Row = Row(name: Name, pieces: Pieces)

  datatype Body =
    | Rows1(a: Row)
    | Rows2(a: Row, b: Row)
    | Rows3(a: Row, b: Row, c: Row)
    | Rows4(a: Row, b: Row, c: Row, d: Row)
    | Rows5(a: Row, b: Row, c: Row, d: Row, e: Row)

  datatype Macros = NoMacros | Macro(params: Params, body: Body, rest: Macros)

  function Takes1(a: Param): Params { Params(a, NoParams) }

  function Takes2(a: Param, b: Param): Params { Params(a, Takes1(b)) }

  function Takes3(a: Param, b: Param, c: Param): Params { Params(a, Takes2(b, c)) }

  function Takes4(a: Param, b: Param, c: Param, d: Param): Params { Params(a, Takes3(b, c, d)) }

  function Takes5(a: Param, b: Param, c: Param, d: Param, e: Param): Params { Params(a, Takes4(b, c, d, e)) }


  // ----- rank -----

  function ParamAt(ps: Params, k: nat): Option<Param>
    decreases k
  {
    match ps
    case NoParams => None
    case Params(p, rest) => if k == 0 then Some(p) else ParamAt(rest, k - 1)
  }

  function ParamCount(ps: Params): nat {
    match ps
    case NoParams => 0
    case Params(_, rest) => 1 + ParamCount(rest)
  }

  function PieceCount(pieces: Pieces): nat {
    match pieces
    case NoPieces => 0
    case With1(_) => 1
    case With2(_, _) => 2
    case With3(_, _, _) => 3
    case With4(_, _, _, _) => 4
    case With5(_, _, _, _, _) => 5
  }

  /** Macros call macros of lower layers only, or themselves with less to do. */
  function Layer(name: Name): nat {
    match name
    case MW => 0 case INB => 0 case ADD => 0 case ADC => 0 case AND => 0 case OR => 0 case NOR => 0 case CMP => 0
    case SBB => 0 case Other(_) => 0
    case HALT => 2 case JNZ => 2 case NAND => 2 case SUB => 2 case DEC => 2 case DEC16 => 2 case LW16 => 2
    case SW16 => 2 case SIGN16 => 2 case PUSHA => 2 case POPA => 2
    case CALL => 3 case JMP => 3 case XOR => 3 case JMS => 3 case JMN => 3 case JLT => 3 case JLE => 3 case JEQ => 3
    case JNE => 3 case JGE => 3 case JC => 3 case JNC => 3 case JB => 3 case JNB => 3
    case RET => 4 case JZ => 4
    case JGT => 5
    case _ => 1
  }

  /** An argument list that fits ps may end in a register. */
  predicate MayEndInReg(ps: Params) {
    match ps
    case NoParams => false
    case Params(p, NoParams) => p.REG? || p.IMM8_REG?
    case Params(_, rest) => MayEndInReg(rest)
  }

  /** The arguments of a line end in a register, whatever arguments the macro is called with. */
  predicate MustEndInReg(pieces: Pieces, ps: Params) {
    match pieces
    case NoPieces => false
    case With1(last) => MustBeReg(last, ps)
    case With2(_, last) => MustBeReg(last, ps)
    case With3(_, _, last) => MustBeReg(last, ps)
    case With4(_, _, _, last) => MustBeReg(last, ps)
    case With5(_, _, _, _, last) => MustBeReg(last, ps)
  }

  predicate MustBeReg(piece: Piece, ps: Params) {
    piece.R? || (piece.P? && ParamAt(ps, piece.k) == Some(REG))
  }

  predicate Optional(p: Param) { p.IMM16_HL? }

  predicate NoOptional(ps: Params) { ps.NoParams? || (!Optional(ps.first) && NoOptional(ps.rest)) }

  /** A line has fewer arguments than the macro it is in, or as many and now a register at the end. */
  predicate Shrinks(pieces: Pieces, ps: Params) {
    NoOptional(ps) && ParamCount(ps) <= 5 && (
      || PieceCount(pieces) < ParamCount(ps)
      || (PieceCount(pieces) == ParamCount(ps) && MustEndInReg(pieces, ps) && !MayEndInReg(ps)))
  }

  /** A line ranks below the macro of that name that it is in. */
  predicate Below(row: Row, name: Name, ps: Params) {
    Layer(row.name) < Layer(name) || (row.name == name && Shrinks(row.pieces, ps))
  }

  predicate AllBelow(body: Body, name: Name, ps: Params) {
    match body
    case Rows1(a) => Below(a, name, ps)
    case Rows2(a, b) => Below(a, name, ps) && Below(b, name, ps)
    case Rows3(a, b, c) => Below(a, name, ps) && Below(b, name, ps) && Below(c, name, ps)
    case Rows4(a, b, c, d) => Below(a, name, ps) && Below(b, name, ps) && Below(c, name, ps) && Below(d, name, ps)
    case Rows5(a, b, c, d, e) =>
      Below(a, name, ps) && Below(b, name, ps) && Below(c, name, ps) && Below(d, name, ps) && Below(e, name, ps)
  }

  /** In every overload, all lines of the body rank below the macro. */
  predicate Lowers(name: Name, ms: Macros) {
    match ms
    case NoMacros => true
    case Macro(ps, body, rest) => AllBelow(body, name, ps) && Lowers(name, rest)
  }

  // ----- the macros -----

  function HaltMacros(): (ms: Macros)
    ensures Lowers(HALT, ms)
  {
    Macro(NoParams,
      Rows3(Row(INB, With2(R(I.F), N(0x00))), Row(OR, With2(R(I.F), N(0x08))),
        Row(OUTB, With2(N(0x00), R(I.F)))),
    NoMacros)
  }

  function ClfMacros(): (ms: Macros)
    ensures Lowers(CLF, ms)
  {
    Macro(NoParams, Rows1(Row(MW, With2(R(I.F), N(0x00)))),
    NoMacros)
  }

  function SubMacros(): (ms: Macros)
    ensures Lowers(SUB, ms)
  {
    Macro(Takes2(REG, IMM8_REG), Rows2(Row(CLB, NoPieces), Row(SBB, With2(P(0), P(1)))),
    NoMacros)
  }

  function OutbMacros(): (ms: Macros)
    ensures Lowers(OUTB, ms)
  {
    Macro(Takes2(IMM, IMM), Rows2(Row(MW, With2(R(I.F), P(1))), Row(OUTB, With2(P(0), R(I.F)))),
    NoMacros)
  }

  function IncMacros(): (ms: Macros)
    ensures Lowers(INC, ms)
  {
    Macro(Takes1(REG), Rows1(Row(ADD, With2(P(0), N(1)))),
    NoMacros)
  }

  function FdecMacros(): (ms: Macros)
    ensures Lowers(FDEC, ms)
  {
    Macro(Takes1(REG), Rows1(Row(SBB, With2(P(0), N(1)))),
    NoMacros)
  }

  function DecMacros(): (ms: Macros)
    ensures Lowers(DEC, ms)
  {
    Macro(Takes1(REG), Rows2(Row(CLB, NoPieces), Row(SBB, With2(P(0), N(1)))),
    NoMacros)
  }

  function Eq16Macros(): (ms: Macros)
    ensures Lowers(EQ16, ms)
  {
    Macro(Takes3(REG, REG, IMM),
      Rows5(Row(CMP, With2(P(0), HighOf(2))), Row(MW, With2(R(I.H), R(I.F))), Row(CMP, With2(P(1), LowOf(2))),
        Row(AND, With2(R(I.F), R(I.H))), Row(AND, With2(R(I.F), N(0x02)))),
    Macro(Takes4(REG, REG, REG, REG),
      Rows5(Row(CMP, With2(P(0), P(2))), Row(MW, With2(R(I.H), R(I.F))), Row(CMP, With2(P(1), P(3))),
        Row(AND, With2(R(I.F), R(I.H))), Row(AND, With2(R(I.F), N(0x02)))),
    NoMacros))
  }

  function Inc16Macros(): (ms: Macros)
    ensures Lowers(INC16, ms)
  {
    Macro(Takes2(REG, REG), Rows2(Row(ADD, With2(P(1), N(1))), Row(ADC, With2(P(0), N(0)))),
    NoMacros)
  }

  function Dec16Macros(): (ms: Macros)
    ensures Lowers(DEC16, ms)
  {
    Macro(Takes2(REG, REG), Rows3(Row(CLB, NoPieces), Row(SBB, With2(P(1), N(1))), Row(SBB, With2(P(0), N(0)))),
    NoMacros)
  }

  function Sub16Macros(): (ms: Macros)
    ensures Lowers(SUB16, ms)
  {
    Macro(Takes3(REG, REG, REG), Rows2(Row(SBB, With2(P(1), P(2))), Row(SBB, With2(P(0), N(0)))),
    Macro(Takes4(REG, REG, REG, REG), Rows2(Row(SBB, With2(P(1), P(3))), Row(SBB, With2(P(0), P(2)))),
    Macro(Takes3(REG, REG, IMM), Rows2(Row(SBB, With2(P(1), LowOf(2))), Row(SBB, With2(P(0), HighOf(2)))),
    NoMacros)))
  }

  function Add16Macros(): (ms: Macros)
    ensures Lowers(ADD16, ms)
  {
    Macro(Takes3(REG, REG, REG), Rows2(Row(ADD, With2(P(1), P(2))), Row(ADC, With2(P(0), N(0)))),
    Macro(Takes3(REG, REG, IMM), Rows2(Row(ADD, With2(P(1), LowOf(2))), Row(ADC, With2(P(0), HighOf(2)))),
    Macro(Takes4(REG, REG, REG, REG), Rows2(Row(ADD, With2(P(1), P(3))), Row(ADC, With2(P(0), P(2)))),
    NoMacros)))
  }

  function SignMacros(): (ms: Macros)
    ensures Lowers(SIGN, ms)
  {
    Macro(Takes1(IMM8_REG), Rows2(Row(MW, With2(R(I.F), Unknown)), Row(AND, With2(R(I.F), N(0x80)))),
    NoMacros)
  }

  function Sign16Macros(): (ms: Macros)
    ensures Lowers(SIGN16, ms)
  {
    Macro(Takes2(REG, REG), Rows1(Row(SIGN, With1(P(0)))),
    NoMacros)
  }

  function Mw16Macros(): (ms: Macros)
    ensures Lowers(MW16, ms)
  {
    Macro(Takes3(REG, REG, IMM), Rows2(Row(MW, With2(P(0), HighOf(2))), Row(MW, With2(P(1), LowOf(2)))),
    Macro(Takes4(REG, REG, REG, REG), Rows2(Row(MW, With2(P(0), P(2))), Row(MW, With2(P(1), P(3)))),
    NoMacros))
  }

  function NotMacros(): (ms: Macros)
    ensures Lowers(NOT, ms)
  {
    Macro(Takes1(REG), Rows1(Row(NOR, With2(P(0), P(0)))),
    NoMacros)
  }

  function NandMacros(): (ms: Macros)
    ensures Lowers(NAND, ms)
  {
    Macro(Takes2(REG, IMM8_REG), Rows2(Row(AND, With2(P(0), P(1))), Row(NOT, With1(P(0)))),
    NoMacros)
  }

  function XnorMacros(): (ms: Macros)
    ensures Lowers(XNOR, ms)
  {
    Macro(Takes2(REG, IMM8_REG),
      Rows4(Row(MW, With2(R(I.F), P(0))), Row(NOR, With2(P(0), P(1))), Row(AND, With2(R(I.F), P(1))),
        Row(OR, With2(P(0), R(I.F)))),
    NoMacros)
  }

  function XorMacros(): (ms: Macros)
    ensures Lowers(XOR, ms)
  {
    Macro(Takes2(REG, IMM8_REG),
      Rows4(Row(MW, With2(R(I.F), P(1))), Row(OR, With2(R(I.F), P(0))), Row(NAND, With2(P(0), P(1))),
        Row(AND, With2(P(0), R(I.F)))),
    NoMacros)
  }

  function LdaMacros(): (ms: Macros)
    ensures Lowers(LDA, ms)
  {
    Macro(Takes3(REG, REG, IMM_ADDR),
      Rows3(Row(LDA, With1(InBrackets(2))), Row(MW, With2(P(0), R(I.H))), Row(MW, With2(P(1), R(I.L)))),
    Macro(Takes2(REG, REG), Rows2(Row(MW, With2(R(I.H), P(0))), Row(MW, With2(R(I.L), P(1)))),
    NoMacros))
  }

  function Lw16Macros(): (ms: Macros)
    ensures Lowers(LW16, ms)
  {
    Macro(Takes3(REG, REG, ADDR), Rows2(Row(LW, With2(P(1), PlusOf(2, 0))), Row(LW, With2(P(0), PlusOf(2, 1)))),
    Macro(Takes2(REG, REG), Rows3(Row(LW, With1(P(1))), Row(INC16, With2(R(I.H), R(I.L))), Row(LW, With1(P(0)))),
    NoMacros))
  }

  function Sw16Macros(): (ms: Macros)
    ensures Lowers(SW16, ms)
  {
    Macro(Takes3(ADDR, REG, REG), Rows2(Row(SW, With2(PlusOf(0, 0), P(2))), Row(SW, With2(PlusOf(0, 1), P(1)))),
    Macro(Takes2(ADDR, IMM), Rows2(Row(SW, With2(PlusOf(0, 0), LowOf(1))), Row(SW, With2(PlusOf(0, 1), HighOf(1)))),
    Macro(Takes2(REG, REG), Rows3(Row(SW, With1(P(1))), Row(INC16, With2(R(I.H), R(I.L))), Row(SW, With1(P(0)))),
    NoMacros)))
  }

  function LwMacros(): (ms: Macros)
    ensures Lowers(LW, ms)
  {
    Macro(Takes3(REG, REG, REG),
      Rows3(Row(MW, With2(R(I.H), P(1))), Row(MW, With2(R(I.L), P(2))), Row(LW, With1(P(0)))),
    NoMacros)
  }

  function SwMacros(): (ms: Macros)
    ensures Lowers(SW, ms)
  {
    Macro(Takes3(REG, REG, REG),
      Rows3(Row(MW, With2(R(I.H), P(0))), Row(MW, With2(R(I.L), P(1))), Row(SW, With1(P(2)))),
    Macro(Takes2(ADDR, IMM), Rows2(Row(MW, With2(R(I.F), P(1))), Row(SW, With2(InBrackets(0), R(I.F)))),
    Macro(Takes3(REG, REG, IMM), Rows2(Row(MW, With2(R(I.F), P(2))), Row(SW, With3(P(0), P(1), R(I.F)))),
    NoMacros)))
  }

  function CallMacros(): (ms: Macros)
    ensures Lowers(CALL, ms)
  {
    Macro(Takes1(IMM_ADDR),
      Rows4(Row(PUSH, With1(HereT(9, true))), Row(PUSH, With1(HereT(7, false))), Row(LDA, With1(InBrackets(0))),
        Row(JNZ, With1(N(1)))),
    Macro(Takes2(REG, REG),
      Rows5(Row(PUSH, With1(HereT(10, true))), Row(PUSH, With1(HereT(8, false))), Row(MW, With2(R(I.H), P(0))),
        Row(MW, With2(R(I.L), P(1))), Row(JNZ, With1(N(1)))),
    NoMacros))
  }

  function RetMacros(): (ms: Macros)
    ensures Lowers(RET, ms)
  {
    Macro(NoParams, Rows3(Row(POP, With1(R(I.L))), Row(POP, With1(R(I.H))), Row(JMP, NoPieces)),
    NoMacros)
  }

  function JnzMacros(): (ms: Macros)
    ensures Lowers(JNZ, ms)
  {
    Macro(Takes3(IMM8_REG, REG, REG),
      Rows3(Row(MW, With2(R(I.H), Unknown)), Row(MW, With2(R(I.L), P(1))), Row(JNZ, With1(P(0)))),
    Macro(Takes2(IMM8_REG, IMM_ADDR), Rows2(Row(LDA, With1(InBrackets(1))), Row(JNZ, With1(P(0)))),
    NoMacros))
  }

  function JmpMacros(): (ms: Macros)
    ensures Lowers(JMP, ms)
  {
    Macro(NoParams, Rows1(Row(JNZ, With1(N(1)))),
    Macro(Takes2(REG, REG), Rows3(Row(MW, With2(R(I.H), P(0))), Row(MW, With2(R(I.L), P(1))), Row(JMP, NoPieces)),
    Macro(Takes1(IMM_ADDR), Rows2(Row(LDA, With1(InBrackets(0))), Row(JMP, NoPieces)),
    NoMacros)))
  }

  function JmsMacros(): (ms: Macros)
    ensures Lowers(JMS, ms)
  {
    Macro(Takes3(REG, IMM8_REG, ADDR),
      Rows3(Row(MW, With2(R(I.F), P(0))), Row(AND, With2(R(I.F), P(1))), Row(JNZ, With2(R(I.F), InBrackets(2)))),
    NoMacros)
  }

  function JmnMacros(): (ms: Macros)
    ensures Lowers(JMN, ms)
  {
    Macro(Takes3(REG, IMM8_REG, ADDR),
      Rows4(Row(MW, With2(R(I.F), P(0))), Row(NOT, With1(R(I.F))), Row(AND, With2(R(I.F), P(1))),
        Row(JNZ, With2(R(I.F), InBrackets(2)))),
    NoMacros)
  }

  function JltMacros(): (ms: Macros)
    ensures Lowers(JLT, ms)
  {
    Macro(Takes3(REG, IMM8_REG, ADDR),
      Rows3(Row(CMP, With2(P(0), P(1))), Row(AND, With2(R(I.F), N(0x1))),
        Row(JNZ, With2(R(I.F), InBrackets(2)))),
    Macro(Takes1(ADDR), Rows2(Row(AND, With2(R(I.F), N(0x1))), Row(JNZ, With2(R(I.F), InBrackets(0)))),
    NoMacros))
  }

  function JleMacros(): (ms: Macros)
    ensures Lowers(JLE, ms)
  {
    Macro(Takes3(REG, IMM8_REG, ADDR),
      Rows3(Row(CMP, With2(P(0), P(1))), Row(AND, With2(R(I.F), N(0x3))),
        Row(JNZ, With2(R(I.F), InBrackets(2)))),
    Macro(Takes1(ADDR), Rows2(Row(AND, With2(R(I.F), N(0x3))), Row(JNZ, With2(R(I.F), InBrackets(0)))),
    NoMacros))
  }

  function JeqMacros(): (ms: Macros)
    ensures Lowers(JEQ, ms)
  {
    Macro(Takes3(REG, IMM8_REG, ADDR),
      Rows3(Row(CMP, With2(P(0), P(1))), Row(AND, With2(R(I.F), N(0x2))),
        Row(JNZ, With2(R(I.F), InBrackets(2)))),
    Macro(Takes1(ADDR), Rows2(Row(AND, With2(R(I.F), N(0x2))), Row(JNZ, With2(R(I.F), InBrackets(0)))),
    NoMacros))
  }

  function JneMacros(): (ms: Macros)
    ensures Lowers(JNE, ms)
  {
    Macro(Takes3(REG, IMM8_REG, ADDR),
      Rows4(Row(CMP, With2(P(0), P(1))), Row(NOT, With1(R(I.F))), Row(AND, With2(R(I.F), N(0x2))),
        Row(JNZ, With2(R(I.F), InBrackets(2)))),
    Macro(Takes1(ADDR),
      Rows3(Row(NOT, With1(R(I.F))), Row(AND, With2(R(I.F), N(0x2))), Row(JNZ, With2(R(I.F), InBrackets(0)))),
    NoMacros))
  }

  function JgeMacros(): (ms: Macros)
    ensures Lowers(JGE, ms)
  {
    Macro(Takes3(REG, IMM8_REG, ADDR),
      Rows4(Row(CMP, With2(P(0), P(1))), Row(NAND, With2(R(I.F), N(0x1))), Row(AND, With2(R(I.F), N(0x3))),
        Row(JNZ, With2(R(I.F), InBrackets(2)))),
    Macro(Takes1(ADDR),
      Rows3(Row(NAND, With2(R(I.F), N(0x1))), Row(AND, With2(R(I.F), N(0x3))),
        Row(JNZ, With2(R(I.F), InBrackets(0)))),
    NoMacros))
  }

  function JgtMacros(): (ms: Macros)
    ensures Lowers(JGT, ms)
  {
    Macro(Takes3(REG, IMM8_REG, ADDR),
      Rows3(Row(CMP, With2(P(0), P(1))), Row(AND, With2(R(I.F), N(0x3))), Row(JZ, With2(R(I.F), InBrackets(2)))),
    Macro(Takes1(ADDR), Rows2(Row(AND, With2(R(I.F), N(0x3))), Row(JZ, With2(R(I.F), InBrackets(0)))),
    NoMacros))
  }

  function JzMacros(): (ms: Macros)
    ensures Lowers(JZ, ms)
  {
    Macro(Takes2(IMM8_REG, ADDR), Rows1(Row(JEQ, With3(P(0), N(0), InBrackets(1)))),
    NoMacros)
  }

  function JcMacros(): (ms: Macros)
    ensures Lowers(JC, ms)
  {
    Macro(Takes1(ADDR), Rows2(Row(AND, With2(R(I.F), N(0x4))), Row(JNZ, With2(R(I.F), InBrackets(0)))),
    NoMacros)
  }

  function JncMacros(): (ms: Macros)
    ensures Lowers(JNC, ms)
  {
    Macro(Takes1(ADDR),
      Rows3(Row(NOT, With1(R(I.F))), Row(AND, With2(R(I.F), N(0x4))), Row(JNZ, With2(R(I.F), InBrackets(0)))),
    NoMacros)
  }

  function JbMacros(): (ms: Macros)
    ensures Lowers(JB, ms)
  {
    Macro(Takes1(ADDR), Rows2(Row(AND, With2(R(I.F), N(0x8))), Row(JNZ, With2(R(I.F), InBrackets(0)))),
    NoMacros)
  }

  function JnbMacros(): (ms: Macros)
    ensures Lowers(JNB, ms)
  {
    Macro(Takes1(ADDR),
      Rows3(Row(NOT, With1(R(I.F))), Row(AND, With2(R(I.F), N(0x8))), Row(JNZ, With2(R(I.F), InBrackets(0)))),
    NoMacros)
  }

  function StlMacros(): (ms: Macros)
    ensures Lowers(STL, ms)
  {
    Macro(NoParams, Rows1(Row(OR, With2(R(I.F), N(0x1)))),
    NoMacros)
  }

  function CllMacros(): (ms: Macros)
    ensures Lowers(CLL, ms)
  {
    Macro(NoParams, Rows1(Row(AND, With2(R(I.F), N(-2)))),
    NoMacros)
  }

  function SteMacros(): (ms: Macros)
    ensures Lowers(STE, ms)
  {
    Macro(NoParams, Rows1(Row(OR, With2(R(I.F), N(0x2)))),
    NoMacros)
  }

  function CleMacros(): (ms: Macros)
    ensures Lowers(CLE, ms)
  {
    Macro(NoParams, Rows1(Row(AND, With2(R(I.F), N(-3)))),
    NoMacros)
  }

  function StcMacros(): (ms: Macros)
    ensures Lowers(STC, ms)
  {
    Macro(NoParams, Rows1(Row(OR, With2(R(I.F), N(0x4)))),
    NoMacros)
  }

  function ClcMacros(): (ms: Macros)
    ensures Lowers(CLC, ms)
  {
    Macro(NoParams, Rows1(Row(AND, With2(R(I.F), N(-5)))),
    NoMacros)
  }

  function StbMacros(): (ms: Macros)
    ensures Lowers(STB, ms)
  {
    Macro(NoParams, Rows1(Row(OR, With2(R(I.F), N(0x8)))),
    NoMacros)
  }

  function ClbMacros(): (ms: Macros)
    ensures Lowers(CLB, ms)
  {
    Macro(NoParams, Rows1(Row(AND, With2(R(I.F), N(-9)))),
    NoMacros)
  }

  function PushMacros(): (ms: Macros)
    ensures Lowers(PUSH, ms)
  {
    Macro(Takes2(REG, REG), Rows2(Row(PUSH, With1(P(0))), Row(PUSH, With1(P(1)))),
    Macro(Takes3(REG, REG, REG), Rows2(Row(PUSH, With1(P(0))), Row(PUSH, With2(P(1), P(2)))),
    Macro(Takes4(REG, REG, REG, REG), Rows2(Row(PUSH, With1(P(0))), Row(PUSH, With3(P(1), P(2), P(3)))),
    Macro(Takes5(REG, REG, REG, REG, REG), Rows2(Row(PUSH, With1(P(0))), Row(PUSH, With4(P(1), P(2), P(3), P(4)))),
    NoMacros))))
  }

  function PopMacros(): (ms: Macros)
    ensures Lowers(POP, ms)
  {
    Macro(Takes2(REG, REG), Rows2(Row(POP, With1(P(0))), Row(POP, With1(P(1)))),
    Macro(Takes3(REG, REG, REG), Rows2(Row(POP, With1(P(0))), Row(POP, With2(P(1), P(2)))),
    Macro(Takes4(REG, REG, REG, REG), Rows2(Row(POP, With1(P(0))), Row(POP, With3(P(1), P(2), P(3)))),
    Macro(Takes5(REG, REG, REG, REG, REG), Rows2(Row(POP, With1(P(0))), Row(POP, With4(P(1), P(2), P(3), P(4)))),
    NoMacros))))
  }

  function PushaMacros(): (ms: Macros)
    ensures Lowers(PUSHA, ms)
  {
    Macro(NoParams, Rows1(Row(PUSH, With5(R(I.A), R(I.B), R(I.C), R(I.D), R(I.Z)))),
    NoMacros)
  }

  function PopaMacros(): (ms: Macros)
    ensures Lowers(POPA, ms)
  {
    Macro(NoParams, Rows1(Row(POP, With5(R(I.Z), R(I.D), R(I.C), R(I.B), R(I.A)))),
    NoMacros)
  }

  /** The macros of one name, in the order of the file. */
  function Overloads(name: Name): (ms: Macros)
    ensures Lowers(name, ms)
  {
    match name
    case HALT => HaltMacros()
    case CLF => ClfMacros()
    case SUB => SubMacros()
    case OUTB => OutbMacros()
    case INC => IncMacros()
    case FDEC => FdecMacros()
    case DEC => DecMacros()
    case EQ16 => Eq16Macros()
    case INC16 => Inc16Macros()
    case DEC16 => Dec16Macros()
    case SUB16 => Sub16Macros()
    case ADD16 => Add16Macros()
    case SIGN => SignMacros()
    case SIGN16 => Sign16Macros()
    case MW16 => Mw16Macros()
    case NOT => NotMacros()
    case NAND => NandMacros()
    case XNOR => XnorMacros()
    case XOR => XorMacros()
    case LDA => LdaMacros()
    case LW16 => Lw16Macros()
    case SW16 => Sw16Macros()
    case LW => LwMacros()
    case SW => SwMacros()
    case CALL => CallMacros()
    case RET => RetMacros()
    case JNZ => JnzMacros()
    case JMP => JmpMacros()
    case JMS => JmsMacros()
    case JMN => JmnMacros()
    case JLT => JltMacros()
    case JLE => JleMacros()
    case JEQ => JeqMacros()
    case JNE => JneMacros()
    case JGE => JgeMacros()
    case JGT => JgtMacros()
    case JZ => JzMacros()
    case JC => JcMacros()
    case JNC => JncMacros()
    case JB => JbMacros()
    case JNB => JnbMacros()
    case STL => StlMacros()
    case CLL => CllMacros()
    case STE => SteMacros()
    case CLE => CleMacros()
    case STC => StcMacros()
    case CLC => ClcMacros()
    case STB => StbMacros()
    case CLB => ClbMacros()
    case PUSH => PushMacros()
    case POP => PopMacros()
    case PUSHA => PushaMacros()
    case POPA => PopaMacros()
    case _ => NoMacros
  }

  /** The parameters of a native operation, if there is one of that name. */
  function NativeParams(name: Name): Option<Params> {
    match name
    case LW => Some(Takes2(REG, IMM16_HL))
    case SW => Some(Takes2(IMM16_HL, REG))
    case PUSH => Some(Takes1(IMM8_REG))
    case POP => Some(Takes1(REG))
    case LDA => Some(Takes1(IMM16))
    case JNZ => Some(Takes1(IMM8_REG))
    case OUTB => Some(Takes2(IMM8_REG, REG))
    case MW => Some(Takes2(REG, IMM8_REG))
    case INB => Some(Takes2(REG, IMM8_REG))
    case ADD => Some(Takes2(REG, IMM8_REG))
    case ADC => Some(Takes2(REG, IMM8_REG))
    case AND => Some(Takes2(REG, IMM8_REG))
    case OR => Some(Takes2(REG, IMM8_REG))
    case NOR => Some(Takes2(REG, IMM8_REG))
    case CMP => Some(Takes2(REG, IMM8_REG))
    case SBB => Some(Takes2(REG, IMM8_REG))
    case _ => None
  }
}
