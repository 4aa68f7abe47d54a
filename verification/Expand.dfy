/**
 Macro expansion: overloads chosen by the shapes of the arguments, and the parse loop that
 parses the lines of a macro again until only native instructions are left.
 */
module Expand {
  import I = Isa
  import opened Words
  import opened Source
  import opened MacroTable

  /** An argument after expressions have been evaluated. A symbol stands in brackets. */
  datatype Arg =
    | Register(r: I.Reg)
    | Number(v: Immediate)
    | Symbol(name: string, dotted: bool)
    | HereByte(ahead: nat, high: bool)

  datatype Args = NoArgs | Args(first: Arg, rest: Args)

  datatype Operation = Do(name: Name, args: Args)

  function ArgAt(args: Args, k: nat): Option<Arg>
    decreases k
  {
    match args
    case NoArgs => None
    case Args(a, rest) => if k == 0 then Some(a) else ArgAt(rest, k - 1)
  }

  function ArgCount(args: Args): nat {
    match args
    case NoArgs => 0
    case Args(_, rest) => 1 + ArgCount(rest)
  }

  // ----- does an operation take these arguments -----

  predicate TakesReg(p: Param) { p.REG? || p.IMM8_REG? }

  predicate TakesImm8(p: Param) { p.IMM8_REG? || p.IMM? || p.IMM_ADDR? }

  predicate TakesImm16(p: Param) { p.ADDR? || p.IMM? || p.IMM_ADDR? || p.IMM16? || p.IMM16_HL? }

  predicate TakesAddr(p: Param) { p.ADDR? || p.IMM_ADDR? || p.IMM16_HL? }

  predicate IsImm16(a: Arg) { a.Symbol? || (a.Number? && a.v > 255) }

  predicate Fails(p: Param, a: Arg) {
    var takesImm := TakesImm8(p) || TakesImm16(p);
    || (TakesAddr(p) && a.Register?)
    || (TakesReg(p) && !takesImm && !a.Register?)
    || (takesImm && !TakesReg(p) && a.Register?)
    || (TakesImm8(p) && !TakesImm16(p) && IsImm16(a))
  }

  /** check_args: an optional parameter that does not fit is passed over. */
  predicate Accepts(ps: Params, args: Args)
    decreases ps
  {
    match args
    case NoArgs => ps.NoParams? || Optional(ps.first)
    case Args(a, more) =>
      ps.Params? && if Fails(ps.first, a) then Optional(ps.first) && Accepts(ps.rest, args) else Accepts(ps.rest, more)
  }

  /** The list from the first macro on that takes the arguments. */
  function FirstMatch(ms: Macros, args: Args): Macros {
    match ms
    case NoMacros => ms
    case Macro(params, _, rest) => if Accepts(params, args) then ms else FirstMatch(rest, args)
  }

  /** The loop of check_args, walking along the arguments and the parameters. */
  method CheckArgs(ps: Params, args: Args) returns (ok: bool)
    ensures ok == Accepts(ps, args)
  {
    hide Fails;
    var p, a := ps, args;
    while a.Args?
      invariant Accepts(ps, args) == Accepts(p, a)
      decreases p
    {
      if p.NoParams? {
        return false;
      }
      if Fails(p.first, a.first) {
        if !Optional(p.first) {
          return false;
        }
        p := p.rest;
      } else {
        p, a := p.rest, a.rest;
      }
    }
    return p.NoParams? || Optional(p.first);
  }

  /** The search for the first macro of a name that takes the arguments. */
  method FindMacro(all: Macros, args: Args) returns (m: Macros)
    ensures m == FirstMatch(all, args)
  {
    hide Accepts;
    m := all;
    while m.Macro?
      invariant FirstMatch(all, args) == FirstMatch(m, args)
      decreases m
    {
      var ok := CheckArgs(m.params, args);
      if ok {
        return m;
      }
      m := m.rest;
    }
  }

  predicate IsNative(op: Operation) {
    var ps := NativeParams(op.name);
    ps.Some? && Accepts(ps.value, op.args)
  }

  method CheckNative(op: Operation) returns (native: bool)
    ensures native == IsNative(op)
  {
    hide NativeParams, Accepts;
    var ps := NativeParams(op.name);
    native := false;
    if ps.Some? {
      native := CheckArgs(ps.value, op.args);
    }
  }

  // ----- native operations -----

  function ByteArg(a: Arg): I.Arg8
    requires a.Register? || a.Number?
  {
    if a.Register? then I.Rg(a.r) else I.Imm(U8(a.v))
  }

  function AddressArg(a: Arg): (I.Arg16, Operand) {
    match a
    case Symbol(name, dotted) => (I.Abs(0), Ref(name, dotted))
    case Number(v) => (I.Abs(U16(v)), Written)
    case _ => (I.AtHL, Written)
  }

  function AluOf(name: Name): Option<I.AluOp> {
    match name
    case ADD => Some(I.ADD) case ADC => Some(I.ADC) case AND => Some(I.AND) case OR => Some(I.OR)
    case NOR => Some(I.NOR) case CMP => Some(I.CMP) case SBB => Some(I.SBB)
    case _ => None
  }

  /**
   The instruction that emit writes for a native operation and arguments it takes. An
   expression with `$` in it is read in PUSH alone, and SW needs an argument.
   */
  function NativeLine(op: Operation): (r: Option<Line>)
    ensures r.Some? ==> WellFormed(r.value) && r.value.Op?
  {
    match op.args
    case Args(Register(r), NoArgs) =>
      match op.name {
        case LW => Some(Op(I.LW(r, I.AtHL), Written))
        case SW => Some(Op(I.SW(I.AtHL, r), Written))
        case PUSH => Some(Op(I.PUSH(I.Rg(r)), Written))
        case POP => Some(Op(I.POP(r), Written))
        case JNZ => Some(Op(I.JNZ(I.Rg(r)), Written))
        case _ => None
      }
    case Args(HereByte(ahead, high), NoArgs) =>
      if op.name.PUSH? then Some(Op(I.PUSH(I.Imm(0)), Here(ahead, high))) else None
    case Args(Symbol(name, dotted), NoArgs) =>
      if op.name.LDA? then Some(Op(I.LDA(0), Ref(name, dotted))) else None
    case Args(Number(v), NoArgs) =>
      if op.name.LDA? then Some(Op(I.LDA(U16(v)), Written))
      else if op.name.PUSH? then Some(Op(I.PUSH(I.Imm(U8(v))), Written))
      else if op.name.JNZ? then Some(Op(I.JNZ(I.Imm(U8(v))), Written))
      else None
    case Args(a, Args(b, NoArgs)) => Native2(op.name, a, b)
    case _ => None
  }

  function Native2(name: Name, a: Arg, b: Arg): (r: Option<Line>)
    ensures r.Some? ==> WellFormed(r.value) && r.value.Op?
  {
    if name.LW? && a.Register? then
      var (at, x) := AddressArg(b);
      Some(Op(I.LW(a.r, at), x))
    else if name.SW? && b.Register? then
      var (at, x) := AddressArg(a);
      Some(Op(I.SW(at, b.r), x))
    else if name.OUTB? && b.Register? && (a.Register? || a.Number?) then
      Some(Op(I.OUTB(ByteArg(a), b.r), Written))
    else if a.Register? && (b.Register? || b.Number?) then
      if name.MW? then Some(Op(I.MW(a.r, ByteArg(b)), Written))
      else if name.INB? then Some(Op(I.INB(a.r, ByteArg(b)), Written))
      else if AluOf(name).Some? then Some(Op(I.ALU(AluOf(name).value, a.r, ByteArg(b)), Written))
      else None
    else None
  }

  // ----- macro bodies -----

  /** The name of a register in a program, which is read without case. */
  function RegName(r: I.Reg): (s: string)
    ensures RegNamed(s) == Some(r)
  {
    match r
    case A => "a" case B => "b" case C => "c" case D => "d" case L => "l" case H => "h" case Z => "z" case F => "f"
  }

  function RegNamed(s: string): Option<I.Reg> {
    match s
    case "a" => Some(I.A) case "b" => Some(I.B) case "c" => Some(I.C) case "d" => Some(I.D)
    case "l" => Some(I.L) case "h" => Some(I.H) case "z" => Some(I.Z) case "f" => Some(I.F)
    case _ => None
  }

  function NumberAt(args: Args, k: nat): Option<int> {
    match ArgAt(args, k)
    case Some(Number(v)) => Some(v)
    case _ => None
  }

  /** The value of an expression, if it is in the range that eval_exp lets through. */
  function Evaluated(v: int): Option<Arg> {
    if -32768 <= v <= 65535 then Some(Number(v)) else None
  }

  /** Outside brackets a name must be a register's. */
  function Bare(a: Arg): Option<Arg> {
    match a
    case Symbol(name, _) => if RegNamed(name).Some? then Some(Register(RegNamed(name).value)) else None
    case _ => Some(a)
  }

  /** In brackets every name is a label's. */
  function Bracketed(a: Arg): Arg {
    match a
    case Register(r) => Symbol(RegName(r), false)
    case _ => a
  }

  /** An argument of a macro's line, when the macro is called with args. */
  function Filled(piece: Piece, args: Args): Option<Arg> {
    match piece
    case P(k) => if ArgAt(args, k).Some? then Bare(ArgAt(args, k).value) else None
    case InBrackets(k) => if ArgAt(args, k).Some? then Some(Bracketed(ArgAt(args, k).value)) else None
    case R(r) => Some(Register(r))
    case N(v) => Some(Number(v))
    case HighOf(k) => if NumberAt(args, k).Some? then Evaluated(NumberAt(args, k).value / 256 % 256) else None
    case LowOf(k) => if NumberAt(args, k).Some? then Evaluated(NumberAt(args, k).value % 256) else None
    case PlusOf(k, n) => if NumberAt(args, k).Some? then Evaluated(NumberAt(args, k).value + n) else None
    case HereT(ahead, high) => Some(HereByte(ahead, high))
    case Unknown => None
  }

  /** One more argument in front. */
  function Before(a: Option<Arg>, more: Option<Args>): Option<Args> {
    if a.Some? && more.Some? then Some(Args(a.value, more.value)) else None
  }

  function FilledAll(pieces: Pieces, args: Args): Option<Args> {
    match pieces
    case NoPieces => Some(NoArgs)
    case With1(a) => Before(Filled(a, args), Some(NoArgs))
    case With2(a, b) => Before(Filled(a, args), Before(Filled(b, args), Some(NoArgs)))
    case With3(a, b, c) => Before(Filled(a, args), Before(Filled(b, args), Before(Filled(c, args), Some(NoArgs))))
    case With4(a, b, c, d) =>
      Before(Filled(a, args), Before(Filled(b, args), Before(Filled(c, args), Before(Filled(d, args), Some(NoArgs)))))
    case With5(a, b, c, d, e) =>
      Before(Filled(a, args), Before(Filled(b, args), Before(Filled(c, args),
        Before(Filled(d, args), Before(Filled(e, args), Some(NoArgs))))))
  }

  // ----- expansion -----

  datatype Lines = NoLines | Put(first: Line, rest: Lines)

  /**
   The native lines that an operation becomes, put in front of the lines `after`, when macros
   nest at most d deep.
   */
  function ExpandTo(d: nat, op: Operation, after: Lines): Option<Lines>
    decreases d, 0
  {
    if d == 0 then None
    else if IsNative(op) then
      if NativeLine(op).Some? then Some(Put(NativeLine(op).value, after)) else None
    else
      match FirstMatch(Overloads(op.name), op.args)
      case NoMacros => None
      case Macro(_, body, _) => ExpandBody(d - 1, body, op.args, after)
  }

  /** A line of a macro called with args, in front of the lines `after`, if there are any. */
  function ExpandRow(d: nat, row: Row, args: Args, after: Option<Lines>): Option<Lines>
    decreases d, 1
  {
    var filled := FilledAll(row.pieces, args);
    if filled.Some? && after.Some? then ExpandTo(d, Do(row.name, filled.value), after.value) else None
  }

  function ExpandBody(d: nat, body: Body, args: Args, after: Lines): Option<Lines>
    decreases d, 2
  {
    match body
    case Rows1(a) => ExpandRow(d, a, args, Some(after))
    case Rows2(a, b) => ExpandRow(d, a, args, ExpandRow(d, b, args, Some(after)))
    case Rows3(a, b, c) => ExpandRow(d, a, args, ExpandRow(d, b, args, ExpandRow(d, c, args, Some(after))))
    case Rows4(a, b, c, e) =>
      ExpandRow(d, a, args, ExpandRow(d, b, args, ExpandRow(d, c, args, ExpandRow(d, e, args, Some(after)))))
    case Rows5(a, b, c, e, f) =>
      ExpandRow(d, a, args, ExpandRow(d, b, args, ExpandRow(d, c, args,
        ExpandRow(d, e, args, ExpandRow(d, f, args, Some(after))))))
  }

  /** The nesting of the built-in macros is below this. */
  const DEPTH: nat := 100

  // ----- expansion ends -----

  /** The last argument is a register. */
  predicate EndsInReg(args: Args) {
    match args
    case NoArgs => false
    case Args(a, NoArgs) => a.Register?
    case Args(_, rest) => EndsInReg(rest)
  }

  /** What falls from a macro to each line of its body. */
  function Rank(op: Operation): nat {
    12 * Layer(op.name)
    + if ArgCount(op.args) <= 5 then 2 * ArgCount(op.args) + (if EndsInReg(op.args) then 0 else 1) else 0
  }

  lemma RankBound(op: Operation)
    ensures Rank(op) < 72
  {
  }

  lemma {:induction false} SameCount(ps: Params, args: Args)
    requires Accepts(ps, args) && NoOptional(ps)
    ensures ArgCount(args) == ParamCount(ps)
    decreases args
  {
    if args.Args? {
      SameCount(ps.rest, args.rest);
    }
  }

  lemma {:induction false} RegAtEnd(ps: Params, args: Args)
    requires Accepts(ps, args) && NoOptional(ps) && EndsInReg(args)
    ensures MayEndInReg(ps)
    decreases args
  {
    if args.rest.Args? {
      RegAtEnd(ps.rest, args.rest);
    }
  }

  lemma {:induction false} RegAt(ps: Params, args: Args, k: nat)
    requires Accepts(ps, args) && NoOptional(ps) && ParamAt(ps, k) == Some(REG)
    ensures ArgAt(args, k).Some? && ArgAt(args, k).value.Register?
    decreases k
  {
    if k > 0 && args.Args? {
      RegAt(ps.rest, args.rest, k - 1);
    }
  }

  lemma OneMore()
    ensures forall a, more :: ArgCount(Args(a, more)) == 1 + ArgCount(more)
    ensures forall a :: EndsInReg(Args(a, NoArgs)) == a.Register?
    ensures forall a, b, more :: EndsInReg(Args(a, Args(b, more))) == EndsInReg(Args(b, more))
  {
  }

  lemma LastIsReg(ps: Params, args: Args, pieces: Pieces, filled: Args)
    requires Accepts(ps, args) && NoOptional(ps) && FilledAll(pieces, args) == Some(filled)
    ensures ArgCount(filled) == PieceCount(pieces)
    ensures MustEndInReg(pieces, ps) ==> EndsInReg(filled)
  {
    OneMore();
    var last := match pieces
      case NoPieces => Unknown
      case With1(a) => a
      case With2(_, b) => b
      case With3(_, _, c) => c
      case With4(_, _, _, d) => d
      case With5(_, _, _, _, e) => e;
    if last.P? && ParamAt(ps, last.k) == Some(REG) {
      RegAt(ps, args, last.k);
    }
  }

  /** Whatever the arguments, a line of a macro's body ranks below the call of the macro. */
  lemma RowFalls(name: Name, ps: Params, args: Args, row: Row, filled: Args)
    requires Accepts(ps, args) && Below(row, name, ps) && FilledAll(row.pieces, args) == Some(filled)
    ensures Rank(Do(row.name, filled)) < Rank(Do(name, args))
  {
    hide FilledAll, Accepts, EndsInReg, MayEndInReg, MustEndInReg, ArgCount, Layer;
    if Layer(row.name) >= Layer(name) {
      SameCount(ps, args);
      LastIsReg(ps, args, row.pieces, filled);
      if EndsInReg(args) {
        RegAtEnd(ps, args);
      }
    }
  }

  lemma {:induction false} MatchFacts(name: Name, ms: Macros, args: Args)
    requires Lowers(name, ms) && FirstMatch(ms, args).Macro?
    ensures var m := FirstMatch(ms, args); Accepts(m.params, args) && AllBelow(m.body, name, m.params)
  {
    hide AllBelow, Accepts;
    if !Accepts(ms.params, args) {
      MatchFacts(name, ms.rest, args);
    }
  }

  /** A depth above the rank of an operation is enough for it, so expansion ends by itself. */
  lemma {:induction false} Enough(d: nat, e: nat, op: Operation, after: Lines)
    requires Rank(op) < d && Rank(op) < e
    ensures ExpandTo(d, op, after) == ExpandTo(e, op, after)
    decreases d, 0
  {
    hide Accepts, Below, Rank, IsNative, NativeLine, Overloads, FirstMatch, ExpandRow;
    var m := FirstMatch(Overloads(op.name), op.args);
    if !IsNative(op) && m.Macro? {
      MatchFacts(op.name, Overloads(op.name), op.args);
      var d1, e1 := d - 1, e - 1;
      forall row: Row, more {:trigger ExpandRow(d1, row, op.args, more)} | Below(row, op.name, m.params)
        ensures ExpandRow(d1, row, op.args, more) == ExpandRow(e1, row, op.args, more)
      {
        RowEnough(d1, e1, op, m.params, row, more);
      }
      assert ExpandBody(d1, m.body, op.args, after) == ExpandBody(e1, m.body, op.args, after);
    }
  }

  lemma {:induction false} RowEnough(d: nat, e: nat, op: Operation, ps: Params, row: Row, after: Option<Lines>)
    requires Accepts(ps, op.args) && Below(row, op.name, ps) && Rank(op) <= d && Rank(op) <= e
    ensures ExpandRow(d, row, op.args, after) == ExpandRow(e, row, op.args, after)
    decreases d, 1
  {
    hide Accepts, Below, Rank, FilledAll, ExpandTo;
    var filled := FilledAll(row.pieces, op.args);
    if filled.Some? && after.Some? {
      RowFalls(op.name, ps, op.args, row, filled.value);
      Enough(d, e, Do(row.name, filled.value), after.value);
    }
  }

  // ----- the parse loop -----

  /** What is left to parse: labels and data that stand as they are, and operations. */
  datatype Text = End | Stands(line: Line, rest: Text) | Uses(op: Operation, rest: Text)

  /** The lines that stand as they are can be emitted. */
  predicate FineText(text: Text) {
    match text
    case End => true
    case Stands(line, rest) => WellFormed(line) && FineText(rest)
    case Uses(_, rest) => FineText(rest)
  }

  /** The text ends with the given part. */
  predicate Includes(text: Text, part: Text) {
    text == part || (!text.End? && Includes(text.rest, part))
  }

  /** One text, and another one behind it. */
  function Joined(text: Text, tail: Text): Text {
    match text
    case End => tail
    case Stands(line, rest) => Stands(line, Joined(rest, tail))
    case Uses(op, rest) => Uses(op, Joined(rest, tail))
  }

  function ExpandText(text: Text, after: Lines): Option<Lines> {
    match text
    case End => Some(after)
    case Stands(line, rest) =>
      var more := ExpandText(rest, after);
      if more.Some? then Some(Put(line, more.value)) else None
    case Uses(op, rest) =>
      var more := ExpandText(rest, after);
      if more.Some? then ExpandTo(DEPTH, op, more.value) else None
  }

  function ToSeq(ls: Lines): seq<Line> {
    match ls
    case NoLines => []
    case Put(l, rest) => [l] + ToSeq(rest)
  }

  /** One line of a macro body spliced in front of the text that follows it. */
  function SpliceRow(row: Row, args: Args, rest: Option<Text>): Option<Text> {
    var filled := FilledAll(row.pieces, args);
    if filled.Some? && rest.Some? then Some(Uses(Do(row.name, filled.value), rest.value)) else None
  }

  function Splice(body: Body, args: Args, rest: Text): Option<Text> {
    match body
    case Rows1(a) => SpliceRow(a, args, Some(rest))
    case Rows2(a, b) => SpliceRow(a, args, SpliceRow(b, args, Some(rest)))
    case Rows3(a, b, c) => SpliceRow(a, args, SpliceRow(b, args, SpliceRow(c, args, Some(rest))))
    case Rows4(a, b, c, d) =>
      SpliceRow(a, args, SpliceRow(b, args, SpliceRow(c, args, SpliceRow(d, args, Some(rest)))))
    case Rows5(a, b, c, d, e) =>
      SpliceRow(a, args, SpliceRow(b, args, SpliceRow(c, args, SpliceRow(d, args, SpliceRow(e, args, Some(rest))))))
  }

  function Power6(n: nat): (p: nat)
    ensures p >= 1
  {
    if n == 0 then 1 else 6 * Power6(n - 1)
  }

  /** A measure of the text left to parse: a call outweighs the lines of its macro. */
  function Weight(text: Text): nat {
    match text
    case End => 0
    case Stands(_, rest) => 1 + Weight(rest)
    case Uses(op, rest) => Power6(Rank(op)) + Weight(rest)
  }

  /** The lines written so far and those still to come from the text. */
  function Outcome(out: seq<Line>, text: Text): Option<seq<Line>> {
    var more := ExpandText(text, NoLines);
    if more.Some? then Some(out + ToSeq(more.value)) else None
  }

  /** The lines that a text expands to with its names left as names. */
  function LinesOf(text: Text): Option<seq<Line>> {
    Outcome([], text)
  }

  lemma {:induction false} PowerGrows(m: nat, n: nat)
    requires m < n
    ensures 6 * Power6(m) <= Power6(n)
    decreases n
  {
    if m < n - 1 {
      PowerGrows(m, n - 1);
    }
  }

  /** Splicing one line costs at most a sixth of the call. */
  lemma SpliceRowWeight(op: Operation, ps: Params, row: Row, rest: Option<Text>)
    requires Accepts(ps, op.args) && Below(row, op.name, ps) && SpliceRow(row, op.args, rest).Some?
    ensures rest.Some?
    ensures 6 * Weight(SpliceRow(row, op.args, rest).value) <= Power6(Rank(op)) + 6 * Weight(rest.value)
  {
    hide Accepts, Below, Rank, FilledAll;
    var filled := FilledAll(row.pieces, op.args).value;
    RowFalls(op.name, ps, op.args, row, filled);
    PowerGrows(Rank(Do(row.name, filled)), Rank(op));
  }

  lemma SpliceWeight(op: Operation, ps: Params, body: Body, rest: Text)
    requires Accepts(ps, op.args) && AllBelow(body, op.name, ps) && Splice(body, op.args, rest).Some?
    ensures Weight(Splice(body, op.args, rest).value) < Weight(Uses(op, rest))
  {
    hide Accepts, Below, Rank, SpliceRow, Power6;
    forall row: Row, more | Below(row, op.name, ps) && SpliceRow(row, op.args, more).Some?
      ensures more.Some? && 6 * Weight(SpliceRow(row, op.args, more).value) <= Power6(Rank(op)) + 6 * Weight(more.value)
    {
      SpliceRowWeight(op, ps, row, more);
    }
  }

  /** Parsing the spliced lines is expanding the body. */
  lemma SpliceMeans(op: Operation, ps: Params, body: Body, rest: Text, after: Lines)
    requires Accepts(ps, op.args) && AllBelow(body, op.name, ps) && ExpandText(rest, NoLines) == Some(after)
    ensures
      var spliced := Splice(body, op.args, rest);
      ExpandBody(DEPTH - 1, body, op.args, after)
        == if spliced.Some? then ExpandText(spliced.value, NoLines) else None
  {
    hide Accepts, Below, Rank, SpliceRow, ExpandRow, ExpandText;
    forall row: Row, more: Option<Text> | Below(row, op.name, ps)
      ensures ExpandRow(DEPTH - 1, row, op.args, Expanded(more)) == Expanded(SpliceRow(row, op.args, more))
    {
      SpliceRowMeans(op, ps, row, more);
    }
    assert Expanded(Some(rest)) == Some(after);
  }

  function Expanded(text: Option<Text>): Option<Lines> {
    if text.Some? then ExpandText(text.value, NoLines) else None
  }

  lemma SpliceRowMeans(op: Operation, ps: Params, row: Row, more: Option<Text>)
    requires Accepts(ps, op.args) && Below(row, op.name, ps)
    ensures ExpandRow(DEPTH - 1, row, op.args, Expanded(more)) == Expanded(SpliceRow(row, op.args, more))
  {
    hide Accepts, Below, Rank, FilledAll, ExpandTo;
    var filled := FilledAll(row.pieces, op.args);
    if filled.Some? && more.Some? && Expanded(more).Some? {
      RowFalls(op.name, ps, op.args, row, filled.value);
      RankBound(op);
      Enough(DEPTH - 1, DEPTH, Do(row.name, filled.value), Expanded(more).value);
    }
  }

  lemma LineOut(out: seq<Line>, line: Line, after: Lines)
    ensures out + ToSeq(Put(line, after)) == out + [line] + ToSeq(after)
  {
  }

  lemma StandsOut(out: seq<Line>, line: Line, rest: Text)
    ensures Outcome(out, Stands(line, rest)) == Outcome(out + [line], rest)
  {
    hide ToSeq, ExpandTo;
    if ExpandText(rest, NoLines).Some? {
      LineOut(out, line, ExpandText(rest, NoLines).value);
    }
  }

  lemma NativeOut(out: seq<Line>, op: Operation, rest: Text)
    requires IsNative(op)
    ensures NativeLine(op).None? ==> Outcome(out, Uses(op, rest)) == None
    ensures NativeLine(op).Some? ==> Outcome(out, Uses(op, rest)) == Outcome(out + [NativeLine(op).value], rest)
  {
    hide ToSeq, IsNative, NativeLine, Overloads, FirstMatch, ExpandBody;
    if ExpandText(rest, NoLines).Some? && NativeLine(op).Some? {
      LineOut(out, NativeLine(op).value, ExpandText(rest, NoLines).value);
    }
  }

  /** A call comes to what its spliced lines come to. */
  lemma MacroText(op: Operation, rest: Text)
    requires !IsNative(op)
    ensures
      var m := FirstMatch(Overloads(op.name), op.args);
      if m.NoMacros? || Splice(m.body, op.args, rest).None? then ExpandText(Uses(op, rest), NoLines) == None
      else
        && ExpandText(Uses(op, rest), NoLines) == ExpandText(Splice(m.body, op.args, rest).value, NoLines)
        && Weight(Splice(m.body, op.args, rest).value) < Weight(Uses(op, rest))
  {
    hide IsNative, NativeLine, Overloads, FirstMatch, Splice, ExpandBody, AllBelow, Accepts, Rank, Power6;
    var m := FirstMatch(Overloads(op.name), op.args);
    if m.Macro? {
      MatchFacts(op.name, Overloads(op.name), op.args);
      if Splice(m.body, op.args, rest).Some? {
        SpliceWeight(op, m.params, m.body, rest);
      }
      if ExpandText(rest, NoLines).Some? {
        SpliceMeans(op, m.params, m.body, rest, ExpandText(rest, NoLines).value);
      } else if Splice(m.body, op.args, rest).Some? {
        SpliceNone(m.body, op.args, rest);
      }
    }
  }

  lemma MacroOut(out: seq<Line>, op: Operation, rest: Text)
    requires !IsNative(op)
    ensures
      var m := FirstMatch(Overloads(op.name), op.args);
      if m.NoMacros? || Splice(m.body, op.args, rest).None? then Outcome(out, Uses(op, rest)) == None
      else
        && Outcome(out, Uses(op, rest)) == Outcome(out, Splice(m.body, op.args, rest).value)
        && Weight(Splice(m.body, op.args, rest).value) < Weight(Uses(op, rest))
  {
    hide ToSeq, IsNative, Overloads, FirstMatch, Splice, ExpandText, Weight;
    MacroText(op, rest);
  }

  /**
   The parse loop: a native operation is written out, a macro call is replaced by the lines of
   the first overload that fits, and parsing goes on at the first of them. It ends on every text.
   */
  method Parse(text: Text) returns (r: Option<seq<Line>>)
    ensures r == LinesOf(text)
  {
    hide Accepts, Rank, IsNative, NativeLine, Overloads, FirstMatch, ExpandText, Splice, AllBelow, ToSeq, Power6;
    var todo, out := text, [];
    while !todo.End?
      invariant Outcome(out, todo) == Outcome([], text)
      decreases Weight(todo)
    {
      match todo
      case Stands(line, rest) =>
        StandsOut(out, line, rest);
        todo, out := rest, out + [line];
      case Uses(op, rest) =>
        var native := CheckNative(op);
        if native {
          NativeOut(out, op, rest);
          var line := NativeLine(op);
          if line.None? {
            return None;
          }
          todo, out := rest, out + [line.value];
        } else {
          MacroOut(out, op, rest);
          var m := FindMacro(Overloads(op.name), op.args);
          if m.NoMacros? {
            return None;
          }
          var spliced := Splice(m.body, op.args, rest);
          if spliced.None? {
            return None;
          }
          todo := spliced.value;
        }
    }
    EndOut(out);
    return Some(out);
  }

  lemma EndOut(out: seq<Line>)
    ensures Outcome(out, End) == Some(out)
  {
    hide ExpandTo;
    assert out + [] == out;
  }

  /** When the text behind a call fails to parse, so does the text with the call spliced. */
  lemma SpliceNone(body: Body, args: Args, rest: Text)
    requires ExpandText(rest, NoLines).None? && Splice(body, args, rest).Some?
    ensures ExpandText(Splice(body, args, rest).value, NoLines).None?
  {
    hide FilledAll, ExpandTo;
    forall row: Row, more: Option<Text> | SpliceRow(row, args, more).Some?
      ensures more.Some? && (ExpandText(more.value, NoLines).None? ==> ExpandText(SpliceRow(row, args, more).value, NoLines).None?)
    {
    }
  }
}
