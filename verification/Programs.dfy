/**
 Routines of the OS library in the source of any program: their text is expanded, assembled
 and run by the emulator.
 */
module Programs {
  import opened Words
  import opened Isa
  import opened Source
  import opened Names
  import opened Machine
  import opened Simulation
  import opened Running
  import opened Core
  import opened Macros
  import opened Blocks
  import opened Multiply
  import opened Linking
  import T = MacroTable
  import X = Expand
  import S = Spelling

  function R(r: Reg): X.Arg { X.Register(r) }

  function N(v: T.Immediate): X.Arg { X.Number(v) }

  function To(name: string): X.Arg { X.Symbol(name, true) }

  // ----- mul16 -----

  /** os/lib/math.asm, lines 43 to 57. */
  function Mul16Text(d0: word, rest: X.Text): X.Text
  {
    X.Stands(GlobalLabel("mul16"),
    X.Uses(X.Do(T.PUSH, S.A3(R(C), R(D), R(Z))),
    X.Uses(X.Do(T.EQ16, S.A3(R(C), R(D), N(0))),
    X.Uses(X.Do(T.JEQ, S.A1(To("done"))),
    X.Uses(X.Do(T.SW16, S.A3(N(d0), R(A), R(B))),
    X.Uses(X.Do(T.MW16, S.A3(R(A), R(B), N(0))),
    X.Stands(LocalLabel("loop"),
    X.Uses(X.Do(T.LW16, S.A3(R(Z), R(F), N(d0))),
    X.Uses(X.Do(T.ADD16, S.A4(R(A), R(B), R(Z), R(F))),
    X.Uses(X.Do(T.DEC16, S.A2(R(C), R(D))),
    X.Uses(X.Do(T.EQ16, S.A3(R(C), R(D), N(0))),
    X.Uses(X.Do(T.JNE, S.A1(To("loop"))),
    X.Stands(LocalLabel("done"),
    X.Uses(X.Do(T.POP, S.A3(R(Z), R(D), R(C))),
    X.Uses(X.Do(T.RET, X.NoArgs), rest)))))))))))))))
  }

  function Mul16Layout(d0: word): Layout {
    Plain(Cat(Pushes([C, D, Z]), Eq16(C, D, Imm(0), Imm(0))),
    Jump(Branch(JeqFlag(), 0), "done", 63,
    Plain(Mul16Setup(d0),
    Label("loop",
    Plain(Cat(Lw16(Z, F, d0), Mul16Work()),
    Jump(Branch(JneFlag(), 0), "loop", 29,
    Label("done",
    Plain(Leave([Z, D, C]), Stop))))))))
  }

  function Mul16Lines(d0: word, after: X.Lines): X.Lines {
    X.Put(GlobalLabel("mul16"), LayAll(Mul16Layout(d0), after))
  }

  lemma Mul16Expands(d0: word, rest: X.Text, after: X.Lines, end: X.Lines)
    requires d0 < 65535 && X.ExpandText(rest, end) == Some(after)
    ensures X.ExpandText(Mul16Text(d0, rest), end) == Some(Mul16Lines(d0, after))
  {
    hide X.ExpandText, X.ExpandTo, S.Lay, LayAll, Pushes, Pops, Eq16, Add16, Dec16, Lw16, Sw16, Branch, Ret, Len, Pure;
    Expanding();
    S.Laying();
    Laid();
    S.Push3Spells(C, D, Z, Written);
    S.Eq16Spells(C, D, 0, Written);
    S.JeqFlagSpells(To("done"));
    S.Sw16Spells(d0, A, B, Written);
    S.Mw16Spells(A, B, 0, Written);
    S.Lw16Spells(Z, F, d0, Written);
    S.Add16RegSpells(A, B, Z, F, Written);
    S.Dec16Spells(C, D, Written);
    S.JneFlagSpells(To("loop"));
    S.Pop3Spells(Z, D, C, Written);
    S.RetSpells(Written);
  }

  lemma Mul16Consistent(d0: word)
    ensures Consistent(Mul16Layout(d0), Mul16Layout(d0))
  {
    hide Consistent, LabelAt, Len;
    assert LabelAt(Mul16Layout(d0), "loop", 29) && LabelAt(Mul16Layout(d0), "done", 63) by { Labelled(); }
    Consisting();
  }

  /** Code laid out as mul16 is mul16. */
  lemma Mul16Holds(code: Code, entry: word, d0: word)
    requires HoldsAll(code, entry, Mul16Layout(d0), entry)
    ensures entry + 63 < 65536 && Mul16At(code, entry, entry + 29, entry + 63, d0)
  {
    hide HoldsAll, At, Aim, Len, Pushes, Eq16, Lw16, Mul16Work, Mul16Setup, Leave;
    Linked(code);
    Aiming();
    Gluing(code);
  }

  lemma Mul16Joined(d0: word, rest: X.Text)
    ensures X.Joined(Mul16Text(d0, X.End), rest) == Mul16Text(d0, rest)
  {
    hide X.Joined;
    Joining();
  }

  lemma Mul16CallsNone(d0: word, lines: seq<Line>, base: word)
    requires Good(lines, base)
    requires NoGlobal(lines, "loop") && NoGlobal(lines, "done")
    ensures Callable(Mul16Layout(d0), lines, base)
  {
    hide NoGlobal, UniqueNames, Fits, WellFormed, Bound, Callable, Pushes, Eq16, Lw16, Mul16Work, Mul16Setup, Leave;
    NoCalls(lines, base);
  }

  /** mul16 in an assembled program: the label is there, and behind it the code. */
  lemma Mul16Stands(lines: seq<Line>, base: word, text: X.Text, d0: word, rest: X.Text) returns (entry: word)
    requires Assembled(lines, base) && MadeFrom(lines, base, text, Mul16Text(d0, rest)) && d0 < 65535
    requires NoGlobal(lines, "loop") && NoGlobal(lines, "done")
    ensures EntryOf(lines, base, "mul16") == Some(entry) && entry + 63 < 65536
    ensures Mul16At(CodeOf(lines, base), entry, entry + 29, entry + 63, d0)
  {
    hide X.ExpandText, X.Joined, MadeFrom, Mul16Text, Mul16Layout, LayAll, Mul16At, CodeOf, HoldsAll, NoGlobal, UniqueNames, Fits, WellFormed, Bound, Consistent, Callable;
    EndExpands();
    Mul16Joined(d0, rest);
    Mul16Expands(d0, X.End, X.NoLines, X.NoLines);
    Mul16Consistent(d0);
    Mul16CallsNone(d0, lines, base);
    entry := RoutineStands(lines, base, text, Mul16Text(d0, X.End), rest, "mul16", Mul16Layout(d0));
    Mul16Holds(CodeOf(lines, base), entry, d0);
  }

  /** The addresses of the n cells from lo up. */
  function Cells(lo: int, n: nat): set<word> {
    set x: word | lo <= x < lo + n && InSpan(lo, x, n)
  }

  /** Membership in a stretch, as an interval. */
  lemma Members()
    ensures forall lo, n, x: int {:trigger x in Span(lo, n)} :: x in Span(lo, n) <==> lo <= x < lo + n
    ensures forall lo, n, x: word {:trigger x in Cells(lo, n)} :: x in Cells(lo, n) <==> lo <= x < lo + n
  {
    forall lo, n, x: int
      ensures x in Span(lo, n) <==> lo <= x < lo + n
    {
      assert InSpan(lo, x, n) <==> lo <= x < lo + n;
    }
    forall lo, n, x: word
      ensures x in Cells(lo, n) <==> lo <= x < lo + n
    {
      assert InSpan(lo, x, n) <==> lo <= x < lo + n;
    }
  }

  /** The word that a routine called at s returns to. */
  function Caller(s: State): word
    requires s.sp + 2 < 65536
  {
    Pair(Peek(s, s.sp + 2), Peek(s, s.sp + 1))
  }

  /**
   mul16 in the source of any program, assembled and run by the emulator: for all operands the
   result is the product mod 65536, but for a multiplier of zero. The caller goes on with c, d, z
   and the stack pointer as they were, and no byte has changed but D0 and three of the stack.
   */
  lemma Mul16OnMachine(s: State, lines: seq<Line>, base: word, text: X.Text, d0: word, rest: X.Text) returns (n: nat)
    requires Assembled(lines, base) && MadeFrom(lines, base, text, Mul16Text(d0, rest)) && d0 < 65535
    requires NoGlobal(lines, "loop") && NoGlobal(lines, "done")
    requires EntryOf(lines, base, "mul16") == Some(s.pc) && 3 <= s.sp < 65534
    requires d0 + 1 <= s.sp - 3 || s.sp + 2 < d0
    requires Ready(s, lines, base, Cells(d0, 2) + Cells(s.sp - 2, 5), {})
    ensures
      var s' := Run(s, n);
      var ab, cd := Pair(s.g.a, s.g.b), Pair(s.g.c, s.g.d);
      && s'.pc == Caller(s) && s'.sp == s.sp + 2
      && Pair(s'.g.a, s'.g.b) == (if cd == 0 then ab else Product(ab, cd))
      && (Pair(s'.g.a, s'.g.b) == Product(ab, cd) <==> cd != 0 || ab == 0)
      && s'.g.c == s.g.c && s'.g.d == s.g.d && s'.g.z == s.g.z
      && Untouched(s, s', Span(d0, 2) + Span(s.sp - 2, 3)) && Loaded(s', lines, base)
  {
    hide Peek, MadeFrom, Ready, CodeOf, Mul16At, Reaches, Pair, Loaded, NoGlobal, UniqueNames, Fits, WellFormed, Bound, Untouched, Halted, Run, EntryOf;
    var entry := Mul16Stands(lines, base, text, d0, rest);
    var cells := Cells(d0, 2) + Cells(s.sp - 2, 5);
    var h := CoreOf(s, cells, {});
    assert forall x: word | d0 <= x < d0 + 2 || s.sp - 2 <= x < s.sp + 3 :: x in cells && x in h.ram && h.ram[x] == Peek(s, x);
    var h' := Mul16Runs(CodeOf(lines, base), h, entry + 29, entry + 63, d0);
    n := RunsOnMachine(s, lines, base, cells, {}, h', Span(d0, 2) + Span(s.sp - 2, 3));
  }

  lemma EntryMeans(lines: seq<Line>, base: word, name: string)
    requires Good(lines, base) && EntryOf(lines, base, name).Some?
    ensures RoutineAt(lines, base, name, EntryOf(lines, base, name).value)
  {
    hide UniqueNames, Fits, WellFormed, Bound;
    var m := FindGlobal(lines, name, 0).value;
    assert lines[m] == GlobalLabel(name);
  }
}
