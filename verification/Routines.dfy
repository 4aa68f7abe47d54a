/**
 The short routines of the OS library in the source of any program: their text is expanded,
 assembled and run by the emulator.
 */
module Routines {
  import opened Words
  import opened Isa
  import opened Source
  import opened Names
  import opened Machine
  import opened Simulation
  import opened Running
  import opened Core
  import opened Macros
  import opened Blocks
  import opened Multiply
  import opened Measuring
  import opened Products
  import opened Shifting
  import opened Copying
  import opened Copying16
  import opened Linking
  import opened Directives
  import opened Programs
  import opened Library
  import opened Comparison
  import T = MacroTable
  import X = Expand
  import S = Spelling

  lemma JustOne(r: Reg)
    ensures Pushes([r]) == Cat(One(PUSH(Rg(r))), Nop) && Pops([r]) == Cat(One(POP(r)), Nop)
  {
    assert [r][1..] == [];
  }

  // ----- strlen -----

  /** os/lib/util.asm, lines 7 to 18. */
  function StrlenText(rest: X.Text): X.Text {
    X.Stands(GlobalLabel("strlen"),
    X.Uses(X.Do(T.PUSH, S.A3(R(A), R(B), R(C))),
    X.Uses(X.Do(T.MW, S.A2(R(Z), N(0))),
    X.Stands(LocalLabel("loop"),
    X.Uses(X.Do(T.LW, S.A3(R(C), R(A), R(B))),
    X.Uses(X.Do(T.JEQ, S.A3(R(C), N(0), To("done"))),
    X.Uses(X.Do(T.ADD16, S.A3(R(A), R(B), N(1))),
    X.Uses(X.Do(T.ADD, S.A2(R(Z), N(1))),
    X.Uses(X.Do(T.JMP, S.A1(To("loop"))),
    X.Stands(LocalLabel("done"),
    X.Uses(X.Do(T.POP, S.A3(R(C), R(B), R(A))),
    X.Uses(X.Do(T.RET, X.NoArgs), rest))))))))))))
  }

  function StrlenLayout(): Layout {
    Plain(StrlenHead(),
    Label("loop",
    Plain(LwAt(C, A, B),
    Jump(Branch(Jz(C), 0), "done", 29,
    Plain(Tally(),
    Jump(Goto(0), "loop", 5,
    Label("done",
    Plain(Leave([C, B, A]), Stop))))))))
  }

  lemma StrlenExpands(rest: X.Text, after: X.Lines, end: X.Lines)
    requires X.ExpandText(rest, end) == Some(after)
    ensures X.ExpandText(StrlenText(rest), end) == Some(X.Put(GlobalLabel("strlen"), LayAll(StrlenLayout(), after)))
  {
    hide X.ExpandText, X.ExpandTo, S.Lay, LayAll, Pushes, Pops, LwAt, Branch, Add16, Goto, Ret, Len, Pure;
    Expanding();
    S.Laying();
    Laid();
    S.Push3Spells(A, B, C, Written);
    S.MwSpells(Z, N(0), Written);
    S.LwAtSpells(C, A, B, Written);
    S.JeqSpells(C, N(0), To("done"));
    S.Add16Spells(A, B, 1, Written);
    S.AluNames();
    S.AluSpells(T.ADD, Z, N(1), Written);
    S.JmpToSpells(To("loop"));
    S.Pop3Spells(C, B, A, Written);
    S.RetSpells(Written);
  }

  lemma StrlenJoined(rest: X.Text)
    ensures X.Joined(StrlenText(X.End), rest) == StrlenText(rest)
  {
    hide X.Joined;
    Joining();
  }

  lemma StrlenConsistent(lines: seq<Line>, base: word)
    requires Good(lines, base) && NoGlobal(lines, "loop") && NoGlobal(lines, "done")
    ensures Consistent(StrlenLayout(), StrlenLayout()) && Callable(StrlenLayout(), lines, base)
  {
    hide Consistent, Callable, NoGlobal, LabelAt, Len, UniqueNames, Fits, WellFormed, Bound;
    assert LabelAt(StrlenLayout(), "loop", 5) && LabelAt(StrlenLayout(), "done", 29) by { Labelled(); }
    Consisting();
    NoCalls(lines, base);
  }

  lemma StrlenHolds(code: Code, entry: word)
    requires HoldsAll(code, entry, StrlenLayout(), entry)
    ensures entry + 29 < 65536 && StrlenAt(code, entry, entry + 5, entry + 29)
  {
    hide HoldsAll, At, Aim, Len, StrlenHead, LwAt, Tally, Leave;
    Linked(code);
    Aiming();
    Gluing(code);
  }

  lemma StrlenStands(lines: seq<Line>, base: word, text: X.Text, rest: X.Text) returns (entry: word)
    requires Assembled(lines, base) && MadeFrom(lines, base, text, StrlenText(rest))
    requires NoGlobal(lines, "loop") && NoGlobal(lines, "done")
    ensures EntryOf(lines, base, "strlen") == Some(entry) && entry + 29 < 65536
    ensures StrlenAt(CodeOf(lines, base), entry, entry + 5, entry + 29)
  {
    hide X.ExpandText, X.Joined, MadeFrom, StrlenText, StrlenLayout, LayAll, StrlenAt, CodeOf, HoldsAll, NoGlobal, UniqueNames, Fits, WellFormed, Bound, Consistent, Callable;
    EndExpands();
    StrlenJoined(rest);
    StrlenExpands(X.End, X.NoLines, X.NoLines);
    StrlenConsistent(lines, base);
    entry := RoutineStands(lines, base, text, StrlenText(X.End), rest, "strlen", StrlenLayout());
    StrlenHolds(CodeOf(lines, base), entry);
  }

  // ----- mul -----

  /** os/lib/math.asm, lines 7 to 19. */
  function MulText(rest: X.Text): X.Text {
    X.Stands(GlobalLabel("mul"),
    X.Uses(X.Do(T.PUSH, S.A2(R(B), R(C))),
    X.Uses(X.Do(T.MW, S.A2(R(C), R(B))),
    X.Uses(X.Do(T.MW, S.A2(R(B), R(A))),
    X.Uses(X.Do(T.MW, S.A2(R(A), N(0))),
    X.Uses(X.Do(T.JZ, S.A2(R(C), To("done"))),
    X.Stands(LocalLabel("loop"),
    X.Uses(X.Do(T.ADD, S.A2(R(A), R(B))),
    X.Uses(X.Do(T.DEC, S.A1(R(C))),
    X.Uses(X.Do(T.JNZ, S.A2(R(C), To("loop"))),
    X.Stands(LocalLabel("done"),
    X.Uses(X.Do(T.POP, S.A2(R(C), R(B))),
    X.Uses(X.Do(T.RET, X.NoArgs), rest)))))))))))))
  }

  function MulLayout(): Layout {
    Plain(Pushes([B, C]),
    Plain(MulSetup(),
    Jump(Branch(Jz(C), 0), "done", 26,
    Plain(Nop,
    Label("loop",
    Plain(MulWork(),
    Plain(Dec(C),
    Jump(JumpNonZero(C, 0), "loop", 16,
    Label("done",
    Plain(Leave([C, B]), Stop))))))))))
  }

  lemma MulExpands(rest: X.Text, after: X.Lines, end: X.Lines)
    requires X.ExpandText(rest, end) == Some(after)
    ensures X.ExpandText(MulText(rest), end) == Some(X.Put(GlobalLabel("mul"), LayAll(MulLayout(), after)))
  {
    hide X.ExpandText, X.ExpandTo, S.Lay, LayAll, Pushes, Pops, Branch, Dec, Ret, Len, Pure;
    Expanding();
    S.Laying();
    Laid();
    S.Push2Spells(B, C, Written);
    S.Pop2Spells(C, B, Written);
    S.MwSpells(C, R(B), Written);
    S.MwSpells(B, R(A), Written);
    S.MwSpells(A, N(0), Written);
    S.JzSpells(C, To("done"));
    S.AluNames();
    S.AluSpells(T.ADD, A, R(B), Written);
    S.DecSpells(C, Written);
    S.JnzToSpells(R(C), To("loop"));
    S.RetSpells(Written);
  }

  lemma MulJoined(rest: X.Text)
    ensures X.Joined(MulText(X.End), rest) == MulText(rest)
  {
    hide X.Joined;
    Joining();
  }

  lemma MulConsistent(lines: seq<Line>, base: word)
    requires Good(lines, base) && NoGlobal(lines, "loop") && NoGlobal(lines, "done")
    ensures Consistent(MulLayout(), MulLayout()) && Callable(MulLayout(), lines, base)
  {
    hide Consistent, Callable, NoGlobal, LabelAt, Len, UniqueNames, Fits, WellFormed, Bound;
    assert LabelAt(MulLayout(), "loop", 16) && LabelAt(MulLayout(), "done", 26) by { Labelled(); }
    Consisting();
    NoCalls(lines, base);
  }

  lemma MulHolds(code: Code, entry: word)
    requires HoldsAll(code, entry, MulLayout(), entry)
    ensures entry + 26 < 65536 && MulAt(code, entry, entry + 16, entry + 26)
  {
    hide HoldsAll, At, Aim, Len, Pushes, Dec, Leave;
    Linked(code);
    Aiming();
    Gluing(code);
    ReadyNop();
  }

  lemma MulStands(lines: seq<Line>, base: word, text: X.Text, rest: X.Text) returns (entry: word)
    requires Assembled(lines, base) && MadeFrom(lines, base, text, MulText(rest))
    requires NoGlobal(lines, "loop") && NoGlobal(lines, "done")
    ensures EntryOf(lines, base, "mul") == Some(entry) && entry + 26 < 65536
    ensures MulAt(CodeOf(lines, base), entry, entry + 16, entry + 26)
  {
    hide X.ExpandText, X.Joined, MadeFrom, MulText, MulLayout, LayAll, MulAt, CodeOf, HoldsAll, NoGlobal, UniqueNames, Fits, WellFormed, Bound, Consistent, Callable;
    EndExpands();
    MulJoined(rest);
    MulExpands(X.End, X.NoLines, X.NoLines);
    MulConsistent(lines, base);
    entry := RoutineStands(lines, base, text, MulText(X.End), rest, "mul", MulLayout());
    MulHolds(CodeOf(lines, base), entry);
  }

  /** mul on the machine: the product mod 256 of any two bytes. */
  lemma MulOnMachine(s: State, lines: seq<Line>, base: word, text: X.Text, rest: X.Text) returns (n: nat)
    requires Assembled(lines, base) && MadeFrom(lines, base, text, MulText(rest))
    requires NoGlobal(lines, "loop") && NoGlobal(lines, "done")
    requires EntryOf(lines, base, "mul") == Some(s.pc) && 2 <= s.sp < 65534
    requires Ready(s, lines, base, Cells(s.sp - 1, 4), {})
    ensures
      var s' := Run(s, n);
      && s'.pc == Caller(s) && s'.sp == s.sp + 2
      && s'.g.a == ProductByte(s.g.a, s.g.b) && SameData(s.g.(a := s'.g.a), s'.g)
      && Untouched(s, s', Span(s.sp - 1, 2)) && Loaded(s', lines, base)
  {
    hide MadeFrom, Ready, CodeOf, MulAt, Reaches, Pair, Loaded, NoGlobal, UniqueNames, Fits, WellFormed, Bound, Untouched, Halted, Run, EntryOf, Peek;
    var entry := MulStands(lines, base, text, rest);
    var cells := Cells(s.sp - 1, 4);
    var h := CoreOf(s, cells, {});
    Members();
    var h' := MulRuns(CodeOf(lines, base), h, entry + 16, entry + 26);
    n := RunsOnMachine(s, lines, base, cells, {}, h', Span(s.sp - 1, 2));
  }

  // ----- mul16_8 -----

  /** os/lib/math.asm, lines 24 to 37. */
  function Mul168Text(rest: X.Text): X.Text {
    X.Stands(GlobalLabel("mul16_8"),
    X.Uses(X.Do(T.PUSH, S.A3(R(C), R(D), R(Z))),
    X.Uses(X.Do(T.MW, S.A2(R(D), R(A))),
    X.Uses(X.Do(T.MW, S.A2(R(Z), R(B))),
    X.Uses(X.Do(T.MW, S.A2(R(A), N(0))),
    X.Uses(X.Do(T.MW, S.A2(R(B), N(0))),
    X.Uses(X.Do(T.JZ, S.A2(R(C), To("done"))),
    X.Stands(LocalLabel("loop"),
    X.Uses(X.Do(T.ADD16, S.A4(R(A), R(B), R(D), R(Z))),
    X.Uses(X.Do(T.DEC, S.A1(R(C))),
    X.Uses(X.Do(T.JNZ, S.A2(R(C), To("loop"))),
    X.Stands(LocalLabel("done"),
    X.Uses(X.Do(T.POP, S.A3(R(Z), R(D), R(C))),
    X.Uses(X.Do(T.RET, X.NoArgs), rest))))))))))))))
  }

  function Mul168Layout(): Layout {
    Plain(Pushes([C, D, Z]),
    Plain(Mul168Setup(),
    Jump(Branch(Jz(C), 0), "done", 31,
    Plain(Nop,
    Label("loop",
    Plain(Add16(A, B, Rg(D), Rg(Z)),
    Plain(Dec(C),
    Jump(JumpNonZero(C, 0), "loop", 19,
    Label("done",
    Plain(Leave([Z, D, C]), Stop))))))))))
  }

  lemma Mul168Expands(rest: X.Text, after: X.Lines, end: X.Lines)
    requires X.ExpandText(rest, end) == Some(after)
    ensures X.ExpandText(Mul168Text(rest), end) == Some(X.Put(GlobalLabel("mul16_8"), LayAll(Mul168Layout(), after)))
  {
    hide X.ExpandText, X.ExpandTo, S.Lay, LayAll, Pushes, Pops, Branch, Dec, Ret, Add16, Len, Pure;
    Expanding();
    S.Laying();
    Laid();
    S.Push3Spells(C, D, Z, Written);
    S.Pop3Spells(Z, D, C, Written);
    S.MwSpells(D, R(A), Written);
    S.MwSpells(Z, R(B), Written);
    S.MwSpells(A, N(0), Written);
    S.MwSpells(B, N(0), Written);
    S.JzSpells(C, To("done"));
    S.Add16RegSpells(A, B, D, Z, Written);
    S.DecSpells(C, Written);
    S.JnzToSpells(R(C), To("loop"));
    S.RetSpells(Written);
  }

  lemma Mul168Joined(rest: X.Text)
    ensures X.Joined(Mul168Text(X.End), rest) == Mul168Text(rest)
  {
    hide X.Joined;
    Joining();
  }

  lemma Mul168Consistent(lines: seq<Line>, base: word)
    requires Good(lines, base) && NoGlobal(lines, "loop") && NoGlobal(lines, "done")
    ensures Consistent(Mul168Layout(), Mul168Layout()) && Callable(Mul168Layout(), lines, base)
  {
    hide Consistent, Callable, NoGlobal, LabelAt, Len, UniqueNames, Fits, WellFormed, Bound;
    assert LabelAt(Mul168Layout(), "loop", 19) && LabelAt(Mul168Layout(), "done", 31) by { Labelled(); }
    Consisting();
    NoCalls(lines, base);
  }

  lemma Mul168Holds(code: Code, entry: word)
    requires HoldsAll(code, entry, Mul168Layout(), entry)
    ensures entry + 31 < 65536 && Mul168At(code, entry, entry + 19, entry + 31)
  {
    hide HoldsAll, At, Aim, Len, Pushes, Dec, Leave, Add16;
    Linked(code);
    Aiming();
    Gluing(code);
    ReadyNop();
  }

  lemma Mul168Stands(lines: seq<Line>, base: word, text: X.Text, rest: X.Text) returns (entry: word)
    requires Assembled(lines, base) && MadeFrom(lines, base, text, Mul168Text(rest))
    requires NoGlobal(lines, "loop") && NoGlobal(lines, "done")
    ensures EntryOf(lines, base, "mul16_8") == Some(entry) && entry + 31 < 65536
    ensures Mul168At(CodeOf(lines, base), entry, entry + 19, entry + 31)
  {
    hide X.ExpandText, X.Joined, MadeFrom, Mul168Text, Mul168Layout, LayAll, Mul168At, CodeOf, HoldsAll, NoGlobal, UniqueNames, Fits, WellFormed, Bound, Consistent, Callable;
    EndExpands();
    Mul168Joined(rest);
    Mul168Expands(X.End, X.NoLines, X.NoLines);
    Mul168Consistent(lines, base);
    entry := RoutineStands(lines, base, text, Mul168Text(X.End), rest, "mul16_8", Mul168Layout());
    Mul168Holds(CodeOf(lines, base), entry);
  }

  /** mul16_8 on the machine: the product mod 65536 of any word and byte. */
  lemma Mul168OnMachine(s: State, lines: seq<Line>, base: word, text: X.Text, rest: X.Text) returns (n: nat)
    requires Assembled(lines, base) && MadeFrom(lines, base, text, Mul168Text(rest))
    requires NoGlobal(lines, "loop") && NoGlobal(lines, "done")
    requires EntryOf(lines, base, "mul16_8") == Some(s.pc) && 3 <= s.sp < 65534
    requires Ready(s, lines, base, Cells(s.sp - 2, 5), {})
    ensures
      var s' := Run(s, n);
      && s'.pc == Caller(s) && s'.sp == s.sp + 2
      && Pair(s'.g.a, s'.g.b) == Product(Pair(s.g.a, s.g.b), s.g.c)
      && s'.g.c == s.g.c && s'.g.d == s.g.d && s'.g.z == s.g.z
      && Untouched(s, s', Span(s.sp - 2, 3)) && Loaded(s', lines, base)
  {
    hide MadeFrom, Ready, CodeOf, Mul168At, Reaches, Pair, Loaded, NoGlobal, UniqueNames, Fits, WellFormed, Bound, Untouched, Halted, Run, EntryOf, Peek;
    var entry := Mul168Stands(lines, base, text, rest);
    var cells := Cells(s.sp - 2, 5);
    var h := CoreOf(s, cells, {});
    Members();
    var h' := Mul168Runs(CodeOf(lines, base), h, entry + 19, entry + 31);
    n := RunsOnMachine(s, lines, base, cells, {}, h', Span(s.sp - 2, 3));
  }

  // ----- shl -----

  /** os/lib/shift.asm, lines 7 to 18. */
  function ShlText(rest: X.Text): X.Text {
    X.Stands(GlobalLabel("shl"),
    X.Uses(X.Do(T.PUSH, S.A1(R(B))),
    X.Uses(X.Do(T.JZ, S.A2(R(B), To("done"))),
    X.Uses(X.Do(T.CLB, X.NoArgs),
    X.Stands(LocalLabel("shift"),
    X.Uses(X.Do(T.ADD, S.A2(R(A), R(A))),
    X.Uses(X.Do(T.DEC, S.A1(R(B))),
    X.Uses(X.Do(T.JNZ, S.A2(R(B), To("shift"))),
    X.Stands(LocalLabel("done"),
    X.Uses(X.Do(T.POP, S.A1(R(B))),
    X.Uses(X.Do(T.RET, X.NoArgs), rest)))))))))))
  }

  function ShlLayout(): Layout {
    Plain(Pushes([B]),
    Plain(Nop,
    Jump(Branch(Jz(B), 0), "done", 21,
    Plain(Clb(),
    Label("shift",
    Plain(One(ALU(ADD, A, Rg(A))),
    Plain(Dec(B),
    Jump(JumpNonZero(B, 0), "shift", 11,
    Label("done",
    Plain(Leave([B]), Stop))))))))))
  }

  lemma ShlExpands(rest: X.Text, after: X.Lines, end: X.Lines)
    requires X.ExpandText(rest, end) == Some(after)
    ensures X.ExpandText(ShlText(rest), end) == Some(X.Put(GlobalLabel("shl"), LayAll(ShlLayout(), after)))
  {
    hide X.ExpandText, X.ExpandTo, S.Lay, LayAll, Pushes, Pops, Branch, Dec, Ret, Clb, Len, Pure;
    Expanding();
    S.Laying();
    Laid();
    S.StackSpells(B, Written);
    JustOne(B);
    S.JzSpells(B, To("done"));
    S.ClbSpells(Written);
    S.AluNames();
    S.AluSpells(T.ADD, A, R(A), Written);
    S.DecSpells(B, Written);
    S.JnzToSpells(R(B), To("shift"));
    S.RetSpells(Written);
  }

  lemma ShlJoined(rest: X.Text)
    ensures X.Joined(ShlText(X.End), rest) == ShlText(rest)
  {
    hide X.Joined;
    Joining();
  }

  lemma ShlConsistent(lines: seq<Line>, base: word)
    requires Good(lines, base) && NoGlobal(lines, "shift") && NoGlobal(lines, "done")
    ensures Consistent(ShlLayout(), ShlLayout()) && Callable(ShlLayout(), lines, base)
  {
    hide Consistent, Callable, NoGlobal, LabelAt, Len, UniqueNames, Fits, WellFormed, Bound;
    assert LabelAt(ShlLayout(), "shift", 11) && LabelAt(ShlLayout(), "done", 21) by { Labelled(); }
    Consisting();
    NoCalls(lines, base);
  }

  lemma ShlHolds(code: Code, entry: word)
    requires HoldsAll(code, entry, ShlLayout(), entry)
    ensures entry + 21 < 65536 && ShlAt(code, entry, entry + 11, entry + 21)
  {
    hide HoldsAll, At, Aim, Len, Pushes, Dec, Leave, Clb;
    Linked(code);
    Aiming();
    Gluing(code);
    ReadyNop();
  }

  lemma ShlStands(lines: seq<Line>, base: word, text: X.Text, rest: X.Text) returns (entry: word)
    requires Assembled(lines, base) && MadeFrom(lines, base, text, ShlText(rest))
    requires NoGlobal(lines, "shift") && NoGlobal(lines, "done")
    ensures EntryOf(lines, base, "shl") == Some(entry) && entry + 21 < 65536
    ensures ShlAt(CodeOf(lines, base), entry, entry + 11, entry + 21)
  {
    hide X.ExpandText, X.Joined, MadeFrom, ShlText, ShlLayout, LayAll, ShlAt, CodeOf, HoldsAll, NoGlobal, UniqueNames, Fits, WellFormed, Bound, Consistent, Callable;
    EndExpands();
    ShlJoined(rest);
    ShlExpands(X.End, X.NoLines, X.NoLines);
    ShlConsistent(lines, base);
    entry := RoutineStands(lines, base, text, ShlText(X.End), rest, "shl", ShlLayout());
    ShlHolds(CodeOf(lines, base), entry);
  }

  /** shl on the machine: times 2^b mod 256, for every count. */
  lemma ShlOnMachine(s: State, lines: seq<Line>, base: word, text: X.Text, rest: X.Text) returns (n: nat)
    requires Assembled(lines, base) && MadeFrom(lines, base, text, ShlText(rest))
    requires NoGlobal(lines, "shift") && NoGlobal(lines, "done")
    requires EntryOf(lines, base, "shl") == Some(s.pc) && 1 <= s.sp < 65534
    requires Ready(s, lines, base, Cells(s.sp, 3), {})
    ensures
      var s' := Run(s, n);
      && s'.pc == Caller(s) && s'.sp == s.sp + 2
      && s'.g.a == (s.g.a * Power2(s.g.b)) % 256 && SameData(s.g.(a := s'.g.a), s'.g)
      && Untouched(s, s', Span(s.sp, 1)) && Loaded(s', lines, base)
  {
    hide MadeFrom, Ready, CodeOf, ShlAt, Reaches, Pair, Loaded, NoGlobal, UniqueNames, Fits, WellFormed, Bound, Untouched, Halted, Run, EntryOf, Peek;
    var entry := ShlStands(lines, base, text, rest);
    var cells := Cells(s.sp, 3);
    var h := CoreOf(s, cells, {});
    Members();
    var h' := ShlRuns(CodeOf(lines, base), h, entry + 11, entry + 21);
    n := RunsOnMachine(s, lines, base, cells, {}, h', Span(s.sp, 1));
  }

  // ----- shl16 -----

  /** os/lib/shift.asm, lines 23 to 34. */
  function Shl16Text(rest: X.Text): X.Text {
    X.Stands(GlobalLabel("shl16"),
    X.Uses(X.Do(T.PUSH, S.A1(R(C))),
    X.Uses(X.Do(T.JZ, S.A2(R(C), To("done"))),
    X.Uses(X.Do(T.CLB, X.NoArgs),
    X.Stands(LocalLabel("shift"),
    X.Uses(X.Do(T.ADD16, S.A4(R(A), R(B), R(A), R(B))),
    X.Uses(X.Do(T.DEC, S.A1(R(C))),
    X.Uses(X.Do(T.JNZ, S.A2(R(C), To("shift"))),
    X.Stands(LocalLabel("done"),
    X.Uses(X.Do(T.POP, S.A1(R(C))),
    X.Uses(X.Do(T.RET, X.NoArgs), rest)))))))))))
  }

  function Shl16Layout(): Layout {
    Plain(Pushes([C]),
    Plain(Nop,
    Jump(Branch(Jz(C), 0), "done", 23,
    Plain(Clb(),
    Label("shift",
    Plain(Add16(A, B, Rg(A), Rg(B)),
    Plain(Dec(C),
    Jump(JumpNonZero(C, 0), "shift", 11,
    Label("done",
    Plain(Leave([C]), Stop))))))))))
  }

  lemma Shl16Expands(rest: X.Text, after: X.Lines, end: X.Lines)
    requires X.ExpandText(rest, end) == Some(after)
    ensures X.ExpandText(Shl16Text(rest), end) == Some(X.Put(GlobalLabel("shl16"), LayAll(Shl16Layout(), after)))
  {
    hide X.ExpandText, X.ExpandTo, S.Lay, LayAll, Pushes, Pops, Branch, Dec, Ret, Clb, Add16, Len, Pure;
    Expanding();
    S.Laying();
    Laid();
    S.StackSpells(C, Written);
    JustOne(C);
    S.JzSpells(C, To("done"));
    S.ClbSpells(Written);
    S.Add16RegSpells(A, B, A, B, Written);
    S.DecSpells(C, Written);
    S.JnzToSpells(R(C), To("shift"));
    S.RetSpells(Written);
  }

  lemma Shl16Joined(rest: X.Text)
    ensures X.Joined(Shl16Text(X.End), rest) == Shl16Text(rest)
  {
    hide X.Joined;
    Joining();
  }

  lemma Shl16Consistent(lines: seq<Line>, base: word)
    requires Good(lines, base) && NoGlobal(lines, "shift") && NoGlobal(lines, "done")
    ensures Consistent(Shl16Layout(), Shl16Layout()) && Callable(Shl16Layout(), lines, base)
  {
    hide Consistent, Callable, NoGlobal, LabelAt, Len, UniqueNames, Fits, WellFormed, Bound;
    assert LabelAt(Shl16Layout(), "shift", 11) && LabelAt(Shl16Layout(), "done", 23) by { Labelled(); }
    Consisting();
    NoCalls(lines, base);
  }

  lemma Shl16Holds(code: Code, entry: word)
    requires HoldsAll(code, entry, Shl16Layout(), entry)
    ensures entry + 23 < 65536 && Shl16At(code, entry, entry + 11, entry + 23)
  {
    hide HoldsAll, At, Aim, Len, Pushes, Dec, Leave, Clb, Add16;
    Linked(code);
    Aiming();
    Gluing(code);
    ReadyNop();
  }

  lemma Shl16Stands(lines: seq<Line>, base: word, text: X.Text, rest: X.Text) returns (entry: word)
    requires Assembled(lines, base) && MadeFrom(lines, base, text, Shl16Text(rest))
    requires NoGlobal(lines, "shift") && NoGlobal(lines, "done")
    ensures EntryOf(lines, base, "shl16") == Some(entry) && entry + 23 < 65536
    ensures Shl16At(CodeOf(lines, base), entry, entry + 11, entry + 23)
  {
    hide X.ExpandText, X.Joined, MadeFrom, Shl16Text, Shl16Layout, LayAll, Shl16At, CodeOf, HoldsAll, NoGlobal, UniqueNames, Fits, WellFormed, Bound, Consistent, Callable;
    EndExpands();
    Shl16Joined(rest);
    Shl16Expands(X.End, X.NoLines, X.NoLines);
    Shl16Consistent(lines, base);
    entry := RoutineStands(lines, base, text, Shl16Text(X.End), rest, "shl16", Shl16Layout());
    Shl16Holds(CodeOf(lines, base), entry);
  }

  /** shl16 on the machine: times 2^c mod 65536, for every count. */
  lemma Shl16OnMachine(s: State, lines: seq<Line>, base: word, text: X.Text, rest: X.Text) returns (n: nat)
    requires Assembled(lines, base) && MadeFrom(lines, base, text, Shl16Text(rest))
    requires NoGlobal(lines, "shift") && NoGlobal(lines, "done")
    requires EntryOf(lines, base, "shl16") == Some(s.pc) && 1 <= s.sp < 65534
    requires Ready(s, lines, base, Cells(s.sp, 3), {})
    ensures
      var s' := Run(s, n);
      && s'.pc == Caller(s) && s'.sp == s.sp + 2
      && Pair(s'.g.a, s'.g.b) == (Pair(s.g.a, s.g.b) * Power2(s.g.c)) % 65536
      && s'.g.c == s.g.c && s'.g.d == s.g.d && s'.g.z == s.g.z
      && Untouched(s, s', Span(s.sp, 1)) && Loaded(s', lines, base)
  {
    hide MadeFrom, Ready, CodeOf, Shl16At, Reaches, Pair, Loaded, NoGlobal, UniqueNames, Fits, WellFormed, Bound, Untouched, Halted, Run, EntryOf, Peek;
    var entry := Shl16Stands(lines, base, text, rest);
    var cells := Cells(s.sp, 3);
    var h := CoreOf(s, cells, {});
    Members();
    var h' := Shl16Runs(CodeOf(lines, base), h, entry + 11, entry + 23);
    n := RunsOnMachine(s, lines, base, cells, {}, h', Span(s.sp, 1));
  }

  // ----- shr -----

  /** shr on the machine: one place at most; what its comment promises exactly for counts 0 and 1 and operands below 2. */
  lemma ShrOnMachine(s: State, lines: seq<Line>, base: word, text: X.Text, rest: X.Text) returns (n: nat)
    requires Assembled(lines, base) && MadeFrom(lines, base, text, ShrText(rest))
    requires ShrFree(lines)
    requires EntryOf(lines, base, "shr") == Some(s.pc) && 2 <= s.sp < 65534
    requires Ready(s, lines, base, Cells(s.sp - 1, 4), {})
    ensures
      var s' := Run(s, n);
      && s'.pc == Caller(s) && s'.sp == s.sp + 2
      && s'.g.a == (if s.g.b == 0 then s.g.a else s.g.a / 2) && SameData(s.g.(a := s'.g.a), s'.g)
      && (s'.g.a == Shifted(s.g.a, s.g.b) <==> s.g.b <= 1 || s.g.a < 2)
      && Untouched(s, s', Span(s.sp - 1, 2)) && Loaded(s', lines, base)
  {
    hide MadeFrom, Ready, CodeOf, ShrAt, Reaches, Pair, Loaded, NoGlobal, UniqueNames, Fits, WellFormed, Bound, Untouched, Halted, Run, EntryOf, Peek, Shifted, ShrText;
    var entry := ShrStands(lines, base, text, rest);
    var cells := Cells(s.sp - 1, 4);
    var h := CoreOf(s, cells, {});
    Members();
    ShrRight(s.g.a, s.g.b);
    var h' := ShrRuns(CodeOf(lines, base), h, entry + 14, entry + 134);
    n := RunsOnMachine(s, lines, base, cells, {}, h', Span(s.sp - 1, 2));
  }

  // ----- memcpy and strlen, which use memory of the caller -----

  /**
   memcpy on the machine: z bytes are copied upwards from cd to ab, however the two overlap.
   */
  lemma MemcpyOnMachine(s: State, lines: seq<Line>, base: word, text: X.Text, rest: X.Text) returns (n: nat)
    requires Assembled(lines, base) && MadeFrom(lines, base, text, MemcpyText(rest))
    requires NoGlobal(lines, "loop") && NoGlobal(lines, "done")
    requires EntryOf(lines, base, "memcpy") == Some(s.pc) && 5 <= s.sp < 65534
    requires
      var dst, src, len := Pair(s.g.a, s.g.b), Pair(s.g.c, s.g.d), s.g.z;
      && dst + len <= 65536 && src + len <= 65536 && Disjoint(dst, len, s.sp - 4, 7) && Disjoint(src, len, s.sp - 4, 5)
      && Ready(s, lines, base, Cells(dst, len) + Cells(src, len) + Cells(s.sp - 4, 7), Cells(src, len) - Cells(dst, len) - Cells(s.sp - 4, 5))
    ensures
      var s' := Run(s, n);
      var dst, src, len := Pair(s.g.a, s.g.b), Pair(s.g.c, s.g.d), s.g.z;
      && s'.pc == Caller(s) && s'.sp == s.sp + 2 && SameData(s.g, s'.g)
      && Moved(s, s', dst, src, len)
      && Untouched(s, s', Span(dst, len) + Span(s.sp - 4, 5)) && Loaded(s', lines, base)
  {
    hide MadeFrom, Ready, CodeOf, MemcpyAt, Reaches, Pair, Loaded, NoGlobal, UniqueNames, Fits, WellFormed, Bound, Untouched, Halted, Run, EntryOf, Peek;
    hide Copy, Span, Cells, Moved;
    var dst: int, src: int, len: nat := Pair(s.g.a, s.g.b), Pair(s.g.c, s.g.d), s.g.z;
    var cells := Cells(dst, len) + Cells(src, len) + Cells(s.sp - 4, 7);
    var readOnly := Cells(src, len) - Cells(dst, len) - Cells(s.sp - 4, 5);
    var entry := MemcpyStands(lines, base, text, rest);
    var h := CoreOf(s, cells, readOnly);
    Members();
    DisjointSpans(dst, len, s.sp - 4, 7);
    DisjointSpans(src, len, s.sp - 4, 5);
    assert Span(dst, len) !! readOnly;
    var h' := MemcpyRuns(CodeOf(lines, base), h, entry + 13, entry + 39);
    CopyFrame(h.ram, dst, src, len);
    var written := Span(dst, len) + Span(s.sp - 4, 5);
    OnlyMore(Span(dst, len), written, h.ram, Copy(h.ram, dst, src, len));
    OnlyMore(Span(s.sp - 4, 5), written, Copy(h.ram, dst, src, len), h'.ram);
    OnlyTrans(written, h.ram, Copy(h.ram, dst, src, len), h'.ram);
    n := RunsOnMachine(s, lines, base, cells, readOnly, h', written);
    BytesArrive(s, Run(s, n), h.ram, h'.ram, dst, src, len);
  }

  lemma BytesArrive(s: State, s': State, ram: map<word, byte>, ram': map<word, byte>, dst: int, src: int, len: nat)
    requires Given(ram, dst, len) && Given(ram, src, len)
    requires forall x | x in ram :: Peek(s, x) == ram[x]
    requires forall x | x in ram :: x in ram' && Peek(s', x) == ram'[x]
    requires forall x: word | dst <= x < dst + len :: ram'[x] == Copy(ram, dst, src, len)[x]
    ensures Moved(s, s', dst, src, len)
  {
    hide Peek, Copy;
    forall x: word | dst <= x < dst + len
      ensures Arrived(s, s', dst, src, x)
    {
      CopyMoves(ram, dst, src, len, x - dst);
    }
  }

  /** strlen on the machine: the length mod 256 of any string that is clear of three cells of the stack. */
  lemma StrlenOnMachine(s: State, lines: seq<Line>, base: word, text: X.Text, rest: X.Text, len: nat) returns (n: nat)
    requires Assembled(lines, base) && MadeFrom(lines, base, text, StrlenText(rest))
    requires NoGlobal(lines, "loop") && NoGlobal(lines, "done")
    requires EntryOf(lines, base, "strlen") == Some(s.pc) && 3 <= s.sp < 65534
    requires
      var a := Pair(s.g.a, s.g.b);
      && HoldsString(s, a, len) && Disjoint(a, len + 1, s.sp - 2, 3)
      && Ready(s, lines, base, Cells(a, len + 1) + Cells(s.sp - 2, 5), Cells(a, len + 1))
    ensures
      var s' := Run(s, n);
      && s'.pc == Caller(s) && s'.sp == s.sp + 2
      && s'.g.z == len % 256 && SameData(s.g.(z := s'.g.z), s'.g)
      && Untouched(s, s', Span(s.sp - 2, 3)) && Loaded(s', lines, base)
  {
    hide MadeFrom, Ready, CodeOf, StrlenAt, Reaches, Pair, Loaded, NoGlobal, UniqueNames, Fits, WellFormed, Bound, Untouched, Halted, Run, EntryOf, Peek;
    hide Span, Cells;
    var a: int := Pair(s.g.a, s.g.b);
    var cells, readOnly := Cells(a, len + 1) + Cells(s.sp - 2, 5), Cells(a, len + 1);
    var entry := StrlenStands(lines, base, text, rest);
    var h := CoreOf(s, cells, readOnly);
    Members();
    DisjointSpans(a, len + 1, s.sp - 2, 3);
    var h' := StrlenRuns(CodeOf(lines, base), h, entry + 5, entry + 29, len);
    n := RunsOnMachine(s, lines, base, cells, readOnly, h', Span(s.sp - 2, 3));
  }

  /** strlen of a string that a `@ds` line put into the program. */
  lemma LiteralMeasured(s: State, lines: seq<Line>, base: word, text: X.Text, rest: X.Text, k: nat, chars: seq<byte>) returns (n: nat)
    requires Assembled(lines, base) && MadeFrom(lines, base, text, StrlenText(rest))
    requires NoGlobal(lines, "loop") && NoGlobal(lines, "done")
    requires EntryOf(lines, base, "strlen") == Some(s.pc) && 3 <= s.sp < 65534
    requires k < |lines| && lines[k] == Data(Unescape(chars) + [0]) && 0 !in Unescape(chars)
    requires Pair(s.g.a, s.g.b) == Address(lines, base, k) && Disjoint(Address(lines, base, k), |Unescape(chars)| + 1, s.sp - 2, 3)
    requires
      var literal := Cells(Address(lines, base, k), |Unescape(chars)| + 1);
      Ready(s, lines, base, literal + Cells(s.sp - 2, 5), literal)
    ensures
      var s' := Run(s, n);
      && s'.pc == Caller(s) && s'.sp == s.sp + 2
      && s'.g.z == |Unescape(chars)| % 256 && SameData(s.g.(z := s'.g.z), s'.g)
      && Untouched(s, s', Span(s.sp - 2, 3)) && Loaded(s', lines, base)
  {
    hide MadeFrom, Ready, CodeOf, Pair, Loaded, NoGlobal, UniqueNames, Fits, WellFormed, Bound, Untouched, Halted, Run, EntryOf, Peek, Span, Cells, Unescape, HoldsString, Address, StrlenText;
    assert Loaded(s, lines, base) by { ReadyLoaded(s, lines, base, Cells(Address(lines, base, k), |Unescape(chars)| + 1) + Cells(s.sp - 2, 5), Cells(Address(lines, base, k), |Unescape(chars)| + 1)); }
    StringInMemory(s, lines, base, k, chars);
    n := StrlenOnMachine(s, lines, base, text, rest, |Unescape(chars)|);
  }
}
