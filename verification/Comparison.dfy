/** shr and cmp16 of the OS library in the source of any program. */
module Comparison {
  import opened Words
  import opened Isa
  import opened Source
  import opened Names
  import opened Machine
  import opened Simulation
  import opened Running
  import opened Core
  import opened Macros
  import opened Blocks
  import opened Shifting
  import opened Comparing
  import opened Linking
  import opened Programs
  import T = MacroTable
  import X = Expand
  import S = Spelling

  // ----- shr -----

  /** The label behind the stage that moves bit k. */
  function StageName(k: nat): string {
    match k
    case 7 => "try_64"
    case 6 => "try_32"
    case 5 => "try_16"
    case 4 => "try_08"
    case 3 => "try_04"
    case 2 => "try_02"
    case _ => "next"
  }

  /** jmn c, 2^k, [next]; add a, 2^(k-1); sub c, 2^k; and so on down to bit 1. */
  function StagesText(k: nat, rest: X.Text): X.Text
    requires k < 8
  {
    if k == 0 then rest else
    X.Uses(X.Do(T.JMN, S.A3(R(C), N(Mask(k)), To(StageName(k)))),
    X.Uses(X.Do(T.ADD, S.A2(R(A), N(Mask(k - 1)))),
    X.Uses(X.Do(T.SUB, S.A2(R(C), N(Mask(k)))),
    X.Stands(LocalLabel(StageName(k)), StagesText(k - 1, rest)))))
  }

  /** os/lib/shift.asm, lines 39 to 77. */
  function ShrText(rest: X.Text): X.Text {
    X.Stands(GlobalLabel("shr"),
    X.Uses(X.Do(T.PUSH, S.A2(R(B), R(C))),
    X.Uses(X.Do(T.JZ, S.A2(R(B), To("done"))),
    X.Uses(X.Do(T.MW, S.A2(R(C), R(A))),
    X.Uses(X.Do(T.MW, S.A2(R(A), N(0))),
    X.Stands(LocalLabel("shift"),
    StagesText(7, ShrLast(rest))))))))
  }

  function ShrLast(rest: X.Text): X.Text {
    X.Uses(X.Do(T.DEC, S.A1(R(B))),
    X.Uses(X.Do(T.JNZ, S.A2(R(B), To("shift"))),
    X.Stands(LocalLabel("done"),
    X.Uses(X.Do(T.POP, S.A2(R(C), R(B))),
    X.Uses(X.Do(T.RET, X.NoArgs), rest)))))
  }

  function StagesLayout(k: nat): Layout
    requires k < 8
  {
    if k == 0 then ShrEnd() else
    Jump(Branch(Jmn(C, Imm(Mask(k))), 0), StageName(k), 142 - 16 * k,
    Plain(Transfer(k),
    Label(StageName(k), StagesLayout(k - 1))))
  }

  function ShrEnd(): Layout {
    Plain(Dec(B),
    Jump(JumpNonZero(B, 0), "shift", 14,
    Label("done",
    Plain(Leave([C, B]), Stop))))
  }

  function ShrLayout(): Layout {
    Plain(Pushes([B, C]),
    Jump(Branch(Jz(B), 0), "done", 134,
    Plain(Take(),
    Label("shift", StagesLayout(7)))))
  }

  /** No global label has the name of a label in shr. */
  ghost predicate ShrFree(lines: seq<Line>) {
    && NoGlobal(lines, "shift") && NoGlobal(lines, "done")
    && forall k | 0 < k < 8 :: NoGlobal(lines, StageName(k))
  }

  lemma NextStage(k: nat)
    requires 0 < k < 8
    ensures StagesLayout(k) == Jump(Branch(Jmn(C, Imm(Mask(k))), 0), StageName(k), 142 - 16 * k, Plain(Transfer(k),
      Label(StageName(k), StagesLayout(k - 1))))
    ensures Len(Branch(Jmn(C, Imm(Mask(k))), 0)) + Len(Transfer(k)) == 16
  {
    hide Transfer, Mask, StageName;
  }

  lemma NoStage()
    ensures StagesLayout(0) == ShrEnd()
  {
  }

  lemma NextText(k: nat, rest: X.Text)
    requires 0 < k < 8
    ensures StagesText(k, rest) ==
      X.Uses(X.Do(T.JMN, S.A3(R(C), N(Mask(k)), To(StageName(k)))),
      X.Uses(X.Do(T.ADD, S.A2(R(A), N(Mask(k - 1)))),
      X.Uses(X.Do(T.SUB, S.A2(R(C), N(Mask(k)))),
      X.Stands(LocalLabel(StageName(k)), StagesText(k - 1, rest)))))
  {
  }

  lemma StageExpands(k: nat, more: X.Text, lines: X.Lines, end: X.Lines)
    requires 0 < k < 8 && X.ExpandText(more, end) == Some(lines)
    ensures
      X.ExpandText(
        X.Uses(X.Do(T.JMN, S.A3(R(C), N(Mask(k)), To(StageName(k)))),
        X.Uses(X.Do(T.ADD, S.A2(R(A), N(Mask(k - 1)))),
        X.Uses(X.Do(T.SUB, S.A2(R(C), N(Mask(k)))),
        X.Stands(LocalLabel(StageName(k)), more)))), end)
      == Some(S.Lay(Branch(Jmn(C, Imm(Mask(k))), 0), Ref(StageName(k), true),
           S.Lay(Transfer(k), Written, X.Put(LocalLabel(StageName(k)), lines))))
  {
    hide X.ExpandText, X.ExpandTo, S.Lay, Mask, Clb, Branch, StageName, Len, Pure;
    Expanding();
    S.Laying();
    S.AluNames();
    S.JmnSpells(C, N(Mask(k)), To(StageName(k)));
    S.AluSpells(T.ADD, A, N(Mask(k - 1)), Written);
    S.SubSpells(C, N(Mask(k)), Written);
  }

  lemma {:induction false} StagesExpand(k: nat, rest: X.Text, after: X.Lines, end: X.Lines)
    requires k < 8 && X.ExpandText(rest, end) == Some(LayAll(ShrEnd(), after))
    ensures X.ExpandText(StagesText(k, rest), end) == Some(LayAll(StagesLayout(k), after))
    decreases k
  {
    hide X.ExpandText, S.Lay, LayAll, Mask, Branch, Transfer, ShrEnd, StagesLayout, StageName;
    NoStage();
    if k > 0 {
      NextStage(k);
      NextText(k, rest);
      hide StagesText;
      StagesExpand(k - 1, rest, after, end);
      Laid();
      StageExpands(k, StagesText(k - 1, rest), LayAll(StagesLayout(k - 1), after), end);
    }
  }

  lemma ShrLastExpands(rest: X.Text, after: X.Lines, end: X.Lines)
    requires X.ExpandText(rest, end) == Some(after)
    ensures X.ExpandText(ShrLast(rest), end) == Some(LayAll(ShrEnd(), after))
  {
    hide X.ExpandText, X.ExpandTo, S.Lay, LayAll, Dec, Pops, Ret, Len, Pure;
    Expanding();
    S.Laying();
    Laid();
    S.DecSpells(B, Written);
    S.JnzToSpells(R(B), To("shift"));
    S.Pop2Spells(C, B, Written);
    S.RetSpells(Written);
  }

  lemma ShrExpands(rest: X.Text, after: X.Lines, end: X.Lines)
    requires X.ExpandText(rest, end) == Some(after)
    ensures X.ExpandText(ShrText(rest), end) == Some(X.Put(GlobalLabel("shr"), LayAll(ShrLayout(), after)))
  {
    hide X.ExpandText, X.ExpandTo, S.Lay, LayAll, Pushes, Branch, StagesText, StagesLayout, ShrLast, ShrEnd, Len, Pure;
    ShrLastExpands(rest, after, end);
    StagesExpand(7, ShrLast(rest), after, end);
    Expanding();
    S.Laying();
    Laid();
    S.Push2Spells(B, C, Written);
    S.JzSpells(B, To("done"));
    S.MwSpells(C, R(A), Written);
    S.MwSpells(A, N(0), Written);
  }

  lemma {:induction false} StagesJoined(k: nat, rest: X.Text, tail: X.Text)
    requires k < 8
    ensures X.Joined(StagesText(k, rest), tail) == StagesText(k, X.Joined(rest, tail))
    decreases k
  {
    hide X.Joined;
    Joining();
    if k > 0 {
      StagesJoined(k - 1, rest, tail);
    }
  }

  lemma ShrJoined(rest: X.Text)
    ensures X.Joined(ShrText(X.End), rest) == ShrText(rest)
  {
    hide X.Joined, StagesText;
    Joining();
    StagesJoined(7, ShrLast(X.End), rest);
  }

  /** Where the labels of the stages stand. */
  lemma {:induction false} StageLabels(k: nat, j: nat)
    requires 0 < j <= k < 8
    ensures LabelAt(StagesLayout(k), StageName(j), 16 * (k - j + 1))
    decreases k
  {
    hide LabelAt, Len, StageName, StagesLayout, Transfer, Jmn, Branch;
    Labelled();
    NextStage(k);
    if j < k {
      StageLabels(k - 1, j);
    }
  }

  lemma {:induction false} DoneLabel(k: nat)
    requires k < 8
    ensures LabelAt(StagesLayout(k), "done", 16 * k + 8)
    decreases k
  {
    hide LabelAt, Len, StageName, StagesLayout, Transfer, Jmn, Branch;
    Labelled();
    NoStage();
    if k > 0 {
      NextStage(k);
      DoneLabel(k - 1);
    }
  }

  lemma {:induction false} StagesConsistent(k: nat, lines: seq<Line>, base: word)
    requires k < 8 && Good(lines, base)
    requires ShrFree(lines)
    ensures Consistent(StagesLayout(k), ShrLayout()) && Callable(StagesLayout(k), lines, base)
    decreases k
  {
    hide LabelAt, Len, StageName, Consistent, Callable, NoGlobal, UniqueNames, Fits, WellFormed, Bound, StagesLayout, Transfer, Jmn, Branch;
    Labelled();
    Consisting();
    NoCalls(lines, base);
    NoStage();
    if k > 0 {
      NextStage(k);
      StagesConsistent(k - 1, lines, base);
      StageLabels(7, k);
    }
  }

  lemma ShrConsistent(lines: seq<Line>, base: word)
    requires Good(lines, base)
    requires ShrFree(lines)
    ensures Consistent(ShrLayout(), ShrLayout()) && Callable(ShrLayout(), lines, base)
  {
    hide LabelAt, Len, Consistent, Callable, NoGlobal, UniqueNames, Fits, WellFormed, Bound, StagesLayout;
    StagesConsistent(7, lines, base);
    DoneLabel(7);
    Labelled();
    Consisting();
    NoCalls(lines, base);
  }

  lemma {:induction false} StagesHold(code: Code, pc: int, k: nat, entry: word)
    requires k < 8 && HoldsAll(code, pc, StagesLayout(k), entry) && pc == entry + 126 - 16 * k && pc + 16 * k < 65536
    ensures At(code, pc, Stages(k, pc)) && HoldsAll(code, pc + 16 * k, ShrEnd(), entry)
    decreases k
  {
    hide HoldsAll, At, Aim, Len, Transfer, ShrEnd, StagesLayout, StageName, Jmn, Branch, Mask;
    Linked(code);
    NoStage();
    if k == 0 {
      NopHolds(code, pc, entry);
    } else {
      NextStage(k);
      StagesHold(code, pc + 16, k - 1, entry);
      AimStage(k, pc + 16);
      Gluing(code);
    }
  }

  lemma AimStage(k: nat, t: word)
    requires 0 < k < 8
    ensures Aim(Branch(Jmn(C, Imm(Mask(k))), 0), Ref(StageName(k), true), t) == Branch(Jmn(C, Imm(Mask(k))), t)
  {
    hide Aim, Mask, StageName;
    Aiming();
  }

  lemma NopHolds(code: Code, pc: int, entry: word)
    requires HoldsAll(code, pc, ShrEnd(), entry)
    ensures At(code, pc, Nop)
  {
    hide Dec;
  }

  lemma ShrHolds(code: Code, entry: word)
    requires HoldsAll(code, entry, ShrLayout(), entry)
    ensures entry + 134 < 65536 && ShrAt(code, entry, entry + 14, entry + 134)
  {
    hide HoldsAll, At, Aim, Len, StagesLayout, Stages, Pushes, Take, Dec, Leave;
    Linked(code);
    Aiming();
    StagesHold(code, entry + 14, 7, entry);
    Gluing(code);
  }

  lemma ShrStands(lines: seq<Line>, base: word, text: X.Text, rest: X.Text) returns (entry: word)
    requires Assembled(lines, base) && MadeFrom(lines, base, text, ShrText(rest))
    requires ShrFree(lines)
    ensures EntryOf(lines, base, "shr") == Some(entry) && entry + 134 < 65536
    ensures ShrAt(CodeOf(lines, base), entry, entry + 14, entry + 134)
  {
    hide X.ExpandText, X.Joined, MadeFrom, ShrText, ShrLayout, LayAll, ShrAt, CodeOf, HoldsAll, NoGlobal, UniqueNames, Fits, WellFormed, Bound, Consistent, Callable;
    EndExpands();
    ShrJoined(rest);
    ShrExpands(X.End, X.NoLines, X.NoLines);
    ShrConsistent(lines, base);
    entry := RoutineStands(lines, base, text, ShrText(X.End), rest, "shr", ShrLayout());
    ShrHolds(CodeOf(lines, base), entry);
  }

  // ----- cmp16 -----

  /** os/lib/math.asm, lines 63 to 88. */
  function Cmp16Text(rest: X.Text): X.Text {
    X.Stands(GlobalLabel("cmp16"),
    X.Uses(X.Do(T.PUSH, S.A2(R(A), R(B))),
    X.Uses(X.Do(T.CMP, S.A2(R(A), R(C))),
    X.Uses(X.Do(T.MW, S.A2(R(H), R(F))),
    X.Uses(X.Do(T.CMP, S.A2(R(B), R(D))),
    X.Uses(X.Do(T.MW, S.A2(R(L), R(F))),
    X.Uses(X.Do(T.MW, S.A2(R(A), R(H))),
    X.Uses(X.Do(T.MW, S.A2(R(B), R(A))),
    X.Uses(X.Do(T.PUSH, S.A2(R(H), R(L))),
    X.Uses(X.Do(T.CALL, S.A1(X.Symbol("shr", false))),
    Cmp16Last(rest)))))))))))
  }

  function Cmp16Last(rest: X.Text): X.Text {
    X.Uses(X.Do(T.POP, S.A2(R(L), R(H))),
    X.Uses(X.Do(T.AND, S.A2(R(A), R(L))),
    X.Uses(X.Do(T.OR, S.A2(R(A), R(H))),
    X.Uses(X.Do(T.AND, S.A2(R(A), N(0x01))),
    X.Uses(X.Do(T.MW, S.A2(R(B), R(H))),
    X.Uses(X.Do(T.AND, S.A2(R(B), R(L))),
    X.Uses(X.Do(T.AND, S.A2(R(B), N(0x02))),
    X.Uses(X.Do(T.OR, S.A2(R(A), R(B))),
    X.Uses(X.Do(T.MW, S.A2(R(F), R(A))),
    X.Uses(X.Do(T.POP, S.A2(R(B), R(A))),
    X.Uses(X.Do(T.RET, X.NoArgs), rest)))))))))))
  }

  function Cmp16End(): Block {
    Cat(Pops([L, H]), Cat(Combine(), Leave([B, A])))
  }

  function Cmp16Layout(shr: word): Layout {
    Plain(Save(), Calls("shr", shr, Plain(Cmp16End(), Stop)))
  }

  lemma Cmp16LastExpands(rest: X.Text, after: X.Lines, end: X.Lines)
    requires X.ExpandText(rest, end) == Some(after)
    ensures X.ExpandText(Cmp16Last(rest), end) == Some(S.Lay(Cmp16End(), Written, after))
  {
    hide X.ExpandText, X.ExpandTo, S.Lay, Pops, Ret, Len, Pure;
    Expanding();
    S.Laying();
    S.AluNames();
    S.Pop2Spells(L, H, Written);
    S.AluSpells(T.AND, A, R(L), Written);
    S.AluSpells(T.OR, A, R(H), Written);
    S.AluSpells(T.AND, A, N(1), Written);
    S.MwSpells(B, R(H), Written);
    S.AluSpells(T.AND, B, R(L), Written);
    S.AluSpells(T.AND, B, N(2), Written);
    S.AluSpells(T.OR, A, R(B), Written);
    S.MwSpells(F, R(A), Written);
    S.Pop2Spells(B, A, Written);
    S.RetSpells(Written);
  }

  lemma Cmp16Expands(shr: word, rest: X.Text, after: X.Lines, end: X.Lines)
    requires X.ExpandText(rest, end) == Some(after)
    ensures X.ExpandText(Cmp16Text(rest), end) == Some(X.Put(GlobalLabel("cmp16"), LayAll(Cmp16Layout(shr), after)))
  {
    hide X.ExpandText, X.ExpandTo, S.Lay, LayAll, Pushes, S.CallLines, Cmp16Last, Cmp16End, Len, Pure;
    Cmp16LastExpands(rest, after, end);
    Expanding();
    S.Laying();
    Laid();
    S.AluNames();
    S.Push2Spells(A, B, Written);
    S.AluSpells(T.CMP, A, R(C), Written);
    S.MwSpells(H, R(F), Written);
    S.AluSpells(T.CMP, B, R(D), Written);
    S.MwSpells(L, R(F), Written);
    S.MwSpells(A, R(H), Written);
    S.MwSpells(B, R(A), Written);
    S.Push2Spells(H, L, Written);
    S.CallSpells(X.Symbol("shr", false));
  }

  lemma Cmp16Joined(rest: X.Text)
    ensures X.Joined(Cmp16Text(X.End), rest) == Cmp16Text(rest)
  {
    hide X.Joined;
    Joining();
  }

  lemma Cmp16Consistent(shr: word, lines: seq<Line>, base: word)
    requires Good(lines, base) && RoutineAt(lines, base, "shr", shr)
    ensures Consistent(Cmp16Layout(shr), Cmp16Layout(shr)) && Callable(Cmp16Layout(shr), lines, base)
  {
    hide UniqueNames, Fits, WellFormed, Bound, RoutineAt, Save, Cmp16End, Consistent, Callable;
    Consisting();
    NoCalls(lines, base);
  }

  lemma Cmp16Holds(code: Code, entry: word, shr: word)
    requires HoldsAll(code, entry, Cmp16Layout(shr), entry) && shr + 134 < 65536 && ShrAt(code, shr, shr + 14, shr + 134)
    ensures entry + 25 < 65536 && Cmp16At(code, entry, shr, shr + 14, shr + 134)
  {
    hide HoldsAll, At, Aim, Len, Save, Combine, Leave, Call, ShrAt, Pops;
    Linked(code);
    Gluing(code);
  }

  lemma Cmp16Stands(lines: seq<Line>, base: word, text: X.Text, rest: X.Text, rest1: X.Text) returns (entry: word, shr: word)
    requires Assembled(lines, base) && MadeFrom(lines, base, text, Cmp16Text(rest)) && MadeFrom(lines, base, text, ShrText(rest1))
    requires ShrFree(lines)
    ensures EntryOf(lines, base, "cmp16") == Some(entry) && shr + 134 < 65536
    ensures Cmp16At(CodeOf(lines, base), entry, shr, shr + 14, shr + 134)
  {
    hide X.ExpandText, X.Joined, MadeFrom, Cmp16Text, Cmp16Layout, ShrText, LayAll, Cmp16At, ShrAt, CodeOf, HoldsAll;
    hide NoGlobal, UniqueNames, Fits, WellFormed, Bound, Consistent, Callable;
    shr := ShrStands(lines, base, text, rest1);
    EntryMeans(lines, base, "shr");
    EndExpands();
    Cmp16Joined(rest);
    Cmp16Expands(shr, X.End, X.NoLines, X.NoLines);
    Cmp16Consistent(shr, lines, base);
    entry := RoutineStands(lines, base, text, Cmp16Text(X.End), rest, "cmp16", Cmp16Layout(shr));
    Cmp16Holds(CodeOf(lines, base), entry, shr);
  }

  /**
   cmp16 and shr in the source of any program, assembled and run by the emulator: LESS and EQUAL
   in F tell how the words in ab and cd compare, for all of them. That shr takes the flags as its
   count, and moves by one place only, does no harm.
   */
  lemma Cmp16OnMachine(s: State, lines: seq<Line>, base: word, text: X.Text, rest: X.Text, rest1: X.Text) returns (n: nat)
    requires Assembled(lines, base) && MadeFrom(lines, base, text, Cmp16Text(rest)) && MadeFrom(lines, base, text, ShrText(rest1))
    requires ShrFree(lines)
    requires EntryOf(lines, base, "cmp16") == Some(s.pc) && 8 <= s.sp < 65534
    requires Ready(s, lines, base, Cells(s.sp - 7, 10), {})
    ensures
      var s' := Run(s, n);
      var ab, cd := Pair(s.g.a, s.g.b), Pair(s.g.c, s.g.d);
      && s'.pc == Caller(s) && s'.sp == s.sp + 2 && SameData(s.g, s'.g)
      && (Bit(s'.g.f, 0) <==> ab < cd) && (Bit(s'.g.f, 1) <==> ab == cd)
      && Untouched(s, s', Span(s.sp - 7, 8)) && Loaded(s', lines, base)
  {
    hide Peek, MadeFrom, Ready, CodeOf, Cmp16At, Reaches, Pair, Loaded, NoGlobal, UniqueNames, Fits, WellFormed, Bound, Untouched, Halted, Run, EntryOf;
    hide Span, Cells, Flags16;
    var cells := Cells(s.sp - 7, 10);
    var entry, shr := Cmp16Stands(lines, base, text, rest, rest1);
    var h := CoreOf(s, cells, {});
    Members();
    var h' := Cmp16Runs(CodeOf(lines, base), h, shr, shr + 14, shr + 134);
    n := RunsOnMachine(s, lines, base, cells, {}, h', Span(s.sp - 7, 8));
    Flags16Bits(Pair(s.g.a, s.g.b), Pair(s.g.c, s.g.d));
  }

  lemma Flags16Bits(x: word, y: word)
    ensures Bit(Flags16(x, y), 0) <==> x < y
    ensures Bit(Flags16(x, y), 1) <==> x == y
  {
  }
}
