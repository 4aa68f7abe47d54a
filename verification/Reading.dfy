/**
 What the assembler makes of the text that asm2str writes: a line read as words, its first word as
 the name of an operation, the others as registers and hexadecimal numbers.
 */
module Reading {
  import I = Isa
  import opened Words
  import opened Source
  import opened Decoding
  import T = MacroTable
  import X = Expand

  // ----- a line as words -----

  predicate Separates(c: char) { c == ' ' || c == ',' }

  /** The words of a line; cur is the word that has begun. */
  function WordsOf(s: string, cur: string): seq<string>
    decreases |s|
  {
    if s == "" then Ended(cur)
    else if Separates(s[0]) then Ended(cur) + WordsOf(s[1..], "")
    else WordsOf(s[1..], cur + [s[0]])
  }

  function Ended(cur: string): seq<string> { if cur == "" then [] else [cur] }

  predicate IsWord(w: string) { w != "" && forall k | 0 <= k < |w| :: !Separates(w[k]) }

  lemma {:induction false} WordGoesOn(w: string, rest: string, cur: string)
    requires forall k | 0 <= k < |w| :: !Separates(w[k])
    ensures WordsOf(w + rest, cur) == WordsOf(rest, cur + w)
    decreases |w|
  {
    if w == "" {
      assert w + rest == rest && cur + w == cur;
    } else {
      var more := w[1..];
      assert (w + rest)[1..] == more + rest && (w + rest)[0] == w[0];
      assert cur + [w[0]] + more == cur + w;
      WordGoesOn(more, rest, cur + [w[0]]);
    }
  }

  lemma OneWord(w: string)
    requires IsWord(w)
    ensures WordsOf(w, "") == [w]
  {
    WordGoesOn(w, "", "");
    assert w + "" == w && "" + w == w;
  }

  lemma BlankEnds(s: string, cur: string)
    requires s != "" && Separates(s[0]) && cur != ""
    ensures WordsOf(s, cur) == [cur] + WordsOf(s[1..], "")
  {
  }

  lemma NameFirst(w: string, rest: string)
    requires IsWord(w)
    ensures WordsOf(w + " " + rest, "") == [w] + WordsOf(rest, "")
  {
    hide WordsOf;
    var s := " " + rest;
    assert w + " " + rest == w + s && "" + w == w && s[1..] == rest;
    WordGoesOn(w, s, "");
    BlankEnds(s, w);
  }

  lemma CommaBetween(v: string, w: string)
    requires IsWord(v) && IsWord(w)
    ensures WordsOf(v + (", " + w), "") == [v, w]
  {
    hide WordsOf;
    var s := ", " + w;
    WordGoesOn(v, s, "");
    assert "" + v == v && s[1..] == " " + w && (" " + w)[1..] == w;
    BlankEnds(s, v);
    BlankSkipped(" " + w);
    OneWord(w);
  }

  lemma BlankSkipped(s: string)
    requires s != "" && Separates(s[0])
    ensures WordsOf(s, "") == WordsOf(s[1..], "")
  {
  }

  // ----- a word -----

  function NameOf(w: string): Option<T.Name> {
    match w
    case "MW" => Some(T.MW)
    case "LW" => Some(T.LW)
    case "SW" => Some(T.SW)
    case "PUSH" => Some(T.PUSH)
    case "POP" => Some(T.POP)
    case "LDA" => Some(T.LDA)
    case "JNZ" => Some(T.JNZ)
    case "INB" => Some(T.INB)
    case "OUTB" => Some(T.OUTB)
    case "ADD" => Some(T.ADD)
    case "ADC" => Some(T.ADC)
    case "AND" => Some(T.AND)
    case "OR" => Some(T.OR)
    case "NOR" => Some(T.NOR)
    case "CMP" => Some(T.CMP)
    case "SBB" => Some(T.SBB)
    case _ => None
  }

  function RegisterOf(w: string): Option<I.Reg> {
    match w
    case "A" => Some(I.A)
    case "B" => Some(I.B)
    case "C" => Some(I.C)
    case "D" => Some(I.D)
    case "L" => Some(I.L)
    case "H" => Some(I.H)
    case "Z" => Some(I.Z)
    case "F" => Some(I.F)
    case _ => None
  }

  function HexOf(c: char): Option<nat> {
    if '0' <= c <= '9' then Some(c as int - '0' as int)
    else if 'a' <= c <= 'f' then Some(c as int - 'a' as int + 10)
    else None
  }

  /** The value of a row of hexadecimal digits, the first of them weighing most. */
  function HexValue(s: string): Option<nat>
    decreases |s|
  {
    if s == "" then Some(0)
    else
      var front, last := HexValue(s[..|s| - 1]), HexOf(s[|s| - 1]);
      if front.Some? && last.Some? then Some(16 * front.value + last.value) else None
  }

  function NumberOf(w: string): Option<T.Immediate> {
    if |w| <= 2 || w[0] != '0' || w[1] != 'x' then None
    else
      match HexValue(w[2..])
      case Some(v) => if v <= 65535 then Some(v) else None
      case None => None
  }

  function ArgOf(w: string): Option<X.Arg> {
    if RegisterOf(w).Some? then Some(X.Register(RegisterOf(w).value))
    else if NumberOf(w).Some? then Some(X.Number(NumberOf(w).value))
    else None
  }

  function ArgsOf(words: seq<string>): Option<X.Args> {
    if words == [] then Some(X.NoArgs)
    else
      var a, more := ArgOf(words[0]), ArgsOf(words[1..]);
      if a.Some? && more.Some? then Some(X.Args(a.value, more.value)) else None
  }

  /** A line read as an operation. */
  function LineRead(s: string): Option<X.Operation> {
    var words := WordsOf(s, "");
    if words == [] then None
    else
      var name, args := NameOf(words[0]), ArgsOf(words[1..]);
      if name.Some? && args.Some? then Some(X.Do(name.value, args.value)) else None
  }

  // ----- the words that asm2str writes -----

  function NameFor(i: I.Native): T.Name {
    match i
    case MW(_, _) => T.MW case LW(_, _) => T.LW case SW(_, _) => T.SW case PUSH(_) => T.PUSH case POP(_) => T.POP
    case LDA(_) => T.LDA case JNZ(_) => T.JNZ case INB(_, _) => T.INB case OUTB(_, _) => T.OUTB
    case ALU(op, _, _) =>
      match op
      case ADD => T.ADD case ADC => T.ADC case AND => T.AND case OR => T.OR case NOR => T.NOR case CMP => T.CMP case SBB => T.SBB
  }

  lemma MnemonicReads(i: I.Native)
    ensures IsWord(Mnemonic(I.Opcode(i))) && NameOf(Mnemonic(I.Opcode(i))) == Some(NameFor(i))
  {
  }

  lemma RegisterReads(r: I.Reg)
    ensures IsWord(RegName(r.Code())) && ArgOf(RegName(r.Code())) == Some(X.Register(r))
  {
  }

  lemma DigitReads(n: nat)
    requires n < 16
    ensures HexOf(Digit(n)) == Some(n) && !Separates(Digit(n))
  {
  }

  lemma TwoDigits(m: nat, n: nat, s: string)
    requires m < 16 && n < 16 && HexValue(s).Some?
    ensures HexValue(s + [Digit(m), Digit(n)]) == Some(256 * HexValue(s).value + 16 * m + n)
  {
    hide Digit, HexOf;
    DigitReads(m);
    DigitReads(n);
    var t := s + [Digit(m)];
    assert t[..|t| - 1] == s;
    assert HexValue(t) == Some(16 * HexValue(s).value + m);
    var u := s + [Digit(m), Digit(n)];
    assert u[..|u| - 1] == t;
  }

  lemma NotARegister(w: string)
    requires |w| > 1
    ensures RegisterOf(w) == None
  {
  }

  lemma ByteReads(v: byte)
    ensures IsWord(Hex8(v)) && ArgOf(Hex8(v)) == Some(X.Number(v))
  {
    hide Digit, HexValue, RegisterOf;
    DigitReads(v / 16);
    DigitReads(v % 16);
    NotARegister(Hex8(v));
    NoDigits();
    TwoDigits(v / 16, v % 16, "");
    assert Hex8(v)[2..] == "" + [Digit(v / 16), Digit(v % 16)];
  }

  lemma NoDigits()
    ensures HexValue("") == Some(0)
  {
  }

  lemma WordReads(w: word)
    ensures IsWord(Hex16(w)) && ArgOf(Hex16(w)) == Some(X.Number(w))
  {
    hide Digit, HexValue, RegisterOf;
    var hi, lo := Hi(w), Lo(w);
    DigitReads(hi / 16);
    DigitReads(hi % 16);
    DigitReads(lo / 16);
    DigitReads(lo % 16);
    NotARegister(Hex16(w));
    NoDigits();
    var s := "" + [Digit(hi / 16), Digit(hi % 16)];
    TwoDigits(hi / 16, hi % 16, "");
    TwoDigits(lo / 16, lo % 16, s);
    assert Hex16(w)[2..] == s + [Digit(lo / 16), Digit(lo % 16)];
  }

  lemma OperandReads(x: I.Arg8)
    ensures IsWord(Show8(x)) && ArgOf(Show8(x)) == Some(ArgFor(x))
  {
    hide Hex8, RegName, ArgOf;
    match x
    case Imm(v) => ByteReads(v);
    case Rg(r) => RegisterReads(r);
  }

  function ArgFor(x: I.Arg8): X.Arg {
    match x
    case Imm(v) => X.Number(v)
    case Rg(r) => X.Register(r)
  }

  /** The words behind the name. */
  function Shown(i: I.Native): seq<string> {
    match i
    case MW(r, x) => [RegName(r.Code()), Show8(x)]
    case INB(r, x) => [RegName(r.Code()), Show8(x)]
    case ALU(_, r, x) => [RegName(r.Code()), Show8(x)]
    case LW(r, AtHL) => [RegName(r.Code())]
    case LW(r, Abs(w)) => [RegName(r.Code()), Hex16(w)]
    case SW(AtHL, r) => [RegName(r.Code())]
    case SW(Abs(w), r) => [Hex16(w), RegName(r.Code())]
    case PUSH(x) => [Show8(x)]
    case JNZ(x) => [Show8(x)]
    case POP(r) => [RegName(r.Code())]
    case LDA(w) => [Hex16(w)]
    case OUTB(x, r) => [Show8(x), RegName(r.Code())]
  }

  lemma ShownReads(i: I.Native)
    ensures WordsOf(Operands(i), "") == Shown(i)
  {
    hide WordsOf, RegName, Show8, Hex16, ArgOf, IsWord;
    match i
    case MW(r, x) => RegisterReads(r); OperandReads(x); CommaBetween(RegName(r.Code()), Show8(x));
    case INB(r, x) => RegisterReads(r); OperandReads(x); CommaBetween(RegName(r.Code()), Show8(x));
    case ALU(_, r, x) => RegisterReads(r); OperandReads(x); CommaBetween(RegName(r.Code()), Show8(x));
    case LW(r, AtHL) => RegisterReads(r); OneWord(RegName(r.Code()));
    case LW(r, Abs(w)) => RegisterReads(r); WordReads(w); CommaBetween(RegName(r.Code()), Hex16(w));
    case SW(AtHL, r) => RegisterReads(r); OneWord(RegName(r.Code()));
    case SW(Abs(w), r) => RegisterReads(r); WordReads(w); CommaBetween(Hex16(w), RegName(r.Code()));
    case PUSH(x) => OperandReads(x); OneWord(Show8(x));
    case JNZ(x) => OperandReads(x); OneWord(Show8(x));
    case POP(r) => RegisterReads(r); OneWord(RegName(r.Code()));
    case LDA(w) => WordReads(w); OneWord(Hex16(w));
    case OUTB(x, r) => RegisterReads(r); OperandReads(x); CommaBetween(Show8(x), RegName(r.Code()));
  }

  lemma TakesOne(w: string, a: X.Arg)
    requires ArgOf(w) == Some(a)
    ensures ArgsOf([w]) == Some(X.Args(a, X.NoArgs))
  {
    assert [w][1..] == [] && ArgsOf([]) == Some(X.NoArgs);
  }

  lemma TakesTwo(v: string, w: string, a: X.Arg, b: X.Arg)
    requires ArgOf(v) == Some(a) && ArgOf(w) == Some(b)
    ensures ArgsOf([v, w]) == Some(X.Args(a, X.Args(b, X.NoArgs)))
  {
    TakesOne(w, b);
    assert [v, w][1..] == [w];
  }

  function ArgsFor(i: I.Native): X.Args {
    match i
    case MW(r, x) => X.Args(X.Register(r), X.Args(ArgFor(x), X.NoArgs))
    case INB(r, x) => X.Args(X.Register(r), X.Args(ArgFor(x), X.NoArgs))
    case ALU(_, r, x) => X.Args(X.Register(r), X.Args(ArgFor(x), X.NoArgs))
    case LW(r, AtHL) => X.Args(X.Register(r), X.NoArgs)
    case LW(r, Abs(w)) => X.Args(X.Register(r), X.Args(X.Number(w), X.NoArgs))
    case SW(AtHL, r) => X.Args(X.Register(r), X.NoArgs)
    case SW(Abs(w), r) => X.Args(X.Number(w), X.Args(X.Register(r), X.NoArgs))
    case PUSH(x) => X.Args(ArgFor(x), X.NoArgs)
    case JNZ(x) => X.Args(ArgFor(x), X.NoArgs)
    case POP(r) => X.Args(X.Register(r), X.NoArgs)
    case LDA(w) => X.Args(X.Number(w), X.NoArgs)
    case OUTB(x, r) => X.Args(ArgFor(x), X.Args(X.Register(r), X.NoArgs))
  }

  lemma ArgsRead(i: I.Native)
    ensures ArgsOf(Shown(i)) == Some(ArgsFor(i))
  {
    hide ArgsOf, ArgOf, RegName, Show8, Hex16, IsWord, ArgFor;
    match i
    case MW(r, x) => RegisterReads(r); OperandReads(x); TakesTwo(RegName(r.Code()), Show8(x), X.Register(r), ArgFor(x));
    case INB(r, x) => RegisterReads(r); OperandReads(x); TakesTwo(RegName(r.Code()), Show8(x), X.Register(r), ArgFor(x));
    case ALU(_, r, x) => RegisterReads(r); OperandReads(x); TakesTwo(RegName(r.Code()), Show8(x), X.Register(r), ArgFor(x));
    case LW(r, AtHL) => RegisterReads(r); TakesOne(RegName(r.Code()), X.Register(r));
    case LW(r, Abs(w)) => RegisterReads(r); WordReads(w); TakesTwo(RegName(r.Code()), Hex16(w), X.Register(r), X.Number(w));
    case SW(AtHL, r) => RegisterReads(r); TakesOne(RegName(r.Code()), X.Register(r));
    case SW(Abs(w), r) => RegisterReads(r); WordReads(w); TakesTwo(Hex16(w), RegName(r.Code()), X.Number(w), X.Register(r));
    case PUSH(x) => OperandReads(x); TakesOne(Show8(x), ArgFor(x));
    case JNZ(x) => OperandReads(x); TakesOne(Show8(x), ArgFor(x));
    case POP(r) => RegisterReads(r); TakesOne(RegName(r.Code()), X.Register(r));
    case LDA(w) => WordReads(w); TakesOne(Hex16(w), X.Number(w));
    case OUTB(x, r) => RegisterReads(r); OperandReads(x); TakesTwo(Show8(x), RegName(r.Code()), ArgFor(x), X.Register(r));
  }

  /** The text of every instruction reads as the operation of its name, on its operands. */
  lemma TextReads(i: I.Native)
    ensures LineRead(Text(i)) == Some(X.Do(NameFor(i), ArgsFor(i)))
  {
    hide WordsOf, ArgsOf, NameOf, Shown, ArgsFor, NameFor, Mnemonic, Operands, Text, IsWord;
    var m := Mnemonic(I.Opcode(i));
    TextSplits(i);
    MnemonicReads(i);
    NameFirst(m, Operands(i));
    ShownReads(i);
    ArgsRead(i);
    assert ([m] + Shown(i))[0] == m && ([m] + Shown(i))[1..] == Shown(i);
  }

  /** The operation of an instruction is a native one, and it is that instruction. */
  lemma Emitted(i: I.Native)
    ensures X.IsNative(X.Do(NameFor(i), ArgsFor(i))) && X.NativeLine(X.Do(NameFor(i), ArgsFor(i))) == Some(Op(i, Written))
  {
  }

  /** What asm2str writes for an instruction, the assembler reads as that instruction. */
  lemma ReadsBack(i: I.Native)
    ensures LineRead(Text(i)).Some?
    ensures X.IsNative(LineRead(Text(i)).value) && X.NativeLine(LineRead(Text(i)).value) == Some(Op(i, Written))
  {
    hide LineRead, Text, X.IsNative, X.NativeLine, NameFor, ArgsFor;
    TextReads(i);
    Emitted(i);
  }


  // ----- to the letter -----

  /** One blank behind the name, a comma and a blank between operands. */
  function Spaced(words: seq<string>): string {
    if |words| == 2 then words[0] + " " + words[1]
    else if |words| == 3 then words[0] + " " + words[1] + ", " + words[2]
    else ""
  }

  lemma TextSpaced(i: I.Native)
    ensures Text(i) == Spaced(WordsOf(Text(i), ""))
  {
    hide WordsOf, Operands, Mnemonic, Text, IsWord, RegName, Show8, Hex16;
    var m := Mnemonic(I.Opcode(i));
    TextSplits(i);
    MnemonicReads(i);
    NameFirst(m, Operands(i));
    ShownReads(i);
    OperandsSpaced(m, i);
  }

  lemma OperandsSpaced(m: string, i: I.Native)
    ensures m + " " + Operands(i) == Spaced([m] + Shown(i))
  {
    hide Mnemonic, RegName, Show8, Hex16;
  }

  /** A first byte of 0x40 to 0x47: POP without its register bit. */
  lemma IllegalReads(data: seq<byte>)
    requires data != [] && 0x40 <= data[0] < 0x48
    ensures Legible(data) && Decoding.Reading(data) == "ILLEGAL INSTRUCTION"
  {
    assert data[0] / 2 / 2 / 2 == 8 && Bit(data[0], 3) == Bit(8, 0);
    ReadsPop(data);
  }
}
