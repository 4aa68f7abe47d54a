/** More routines of the OS library in the source of any program. */
module Library {
  import opened Words
  import opened Isa
  import opened Source
  import opened Names
  import opened Machine
  import opened Simulation
  import opened Running
  import opened Core
  import opened Macros
  import opened Blocks
  import opened Copying
  import opened Copying16
  import opened Filling
  import opened Linking
  import opened Programs
  import T = MacroTable
  import X = Expand
  import S = Spelling

  // ----- memcpy -----

  /** os/lib/util.asm, lines 24 to 36. */
  function MemcpyText(rest: X.Text): X.Text {
    X.Stands(GlobalLabel("memcpy"),
    X.Uses(X.Do(T.PUSHA, X.NoArgs),
    X.Uses(X.Do(T.JZ, S.A2(R(Z), To("done"))), MemcpyLoop(rest))))
  }

  function MemcpyLoop(rest: X.Text): X.Text {
    X.Stands(LocalLabel("loop"),
    X.Uses(X.Do(T.LW, S.A3(R(F), R(C), R(D))),
    X.Uses(X.Do(T.SW, S.A3(R(A), R(B), R(F))),
    X.Uses(X.Do(T.ADD16, S.A3(R(A), R(B), N(1))),
    X.Uses(X.Do(T.ADD16, S.A3(R(C), R(D), N(1))),
    X.Uses(X.Do(T.DEC, S.A1(R(Z))),
    X.Uses(X.Do(T.JNZ, S.A2(R(Z), To("loop"))),
    X.Stands(LocalLabel("done"),
    X.Uses(X.Do(T.POPA, X.NoArgs),
    X.Uses(X.Do(T.RET, X.NoArgs), rest))))))))))
  }

  function MemcpyLayout(): Layout {
    Plain(PushAll(),
    Jump(Branch(Jz(Z), 0), "done", 39, MemcpyRun()))
  }

  function MemcpyRun(): Layout {
    Label("loop",
    Plain(Cat(LwAt(F, C, D), Cat(SwAt(A, B, F), MemcpyAdvance())),
    Jump(JumpNonZero(Z, 0), "loop", 13,
    Label("done",
    Plain(LeaveAll(), Stop)))))
  }

  lemma MemcpyLoopExpands(rest: X.Text, after: X.Lines, end: X.Lines)
    requires X.ExpandText(rest, end) == Some(after)
    ensures X.ExpandText(MemcpyLoop(rest), end) == Some(LayAll(MemcpyRun(), after))
  {
    hide X.ExpandText, X.ExpandTo, S.Lay, LayAll, Pops, LwAt, SwAt, Add16, Dec, Ret, Len, Pure;
    Expanding();
    S.Laying();
    Laid();
    S.LwAtSpells(F, C, D, Written);
    S.SwAtSpells(A, B, F, Written);
    S.Add16Spells(A, B, 1, Written);
    S.Add16Spells(C, D, 1, Written);
    S.DecSpells(Z, Written);
    S.JnzToSpells(R(Z), To("loop"));
    S.PopaSpells(Written);
    S.RetSpells(Written);
  }

  lemma MemcpyExpands(rest: X.Text, after: X.Lines, end: X.Lines)
    requires X.ExpandText(rest, end) == Some(after)
    ensures X.ExpandText(MemcpyText(rest), end) == Some(X.Put(GlobalLabel("memcpy"), LayAll(MemcpyLayout(), after)))
  {
    hide X.ExpandText, X.ExpandTo, S.Lay, LayAll, PushAll, Branch, MemcpyLoop, MemcpyRun, Len, Pure;
    MemcpyLoopExpands(rest, after, end);
    Expanding();
    S.Laying();
    Laid();
    S.PushaSpells(Written);
    S.JzSpells(Z, To("done"));
  }

  lemma MemcpyJoined(rest: X.Text)
    ensures X.Joined(MemcpyText(X.End), rest) == MemcpyText(rest)
  {
    hide X.Joined;
    Joining();
  }

  lemma MemcpyConsistent(lines: seq<Line>, base: word)
    requires Good(lines, base)
    requires NoGlobal(lines, "loop") && NoGlobal(lines, "done")
    ensures Consistent(MemcpyLayout(), MemcpyLayout()) && Callable(MemcpyLayout(), lines, base)
  {
    hide Consistent, Callable, NoGlobal, LabelAt, Len, UniqueNames, Fits, WellFormed, Bound;
    assert LabelAt(MemcpyLayout(), "loop", 13) && LabelAt(MemcpyLayout(), "done", 39) by { Labelled(); }
    Consisting();
    NoCalls(lines, base);
  }

  lemma MemcpyHolds(code: Code, entry: word)
    requires HoldsAll(code, entry, MemcpyLayout(), entry)
    ensures entry + 39 < 65536 && MemcpyAt(code, entry, entry + 13, entry + 39)
  {
    hide HoldsAll, At, Aim, Len, PushAll, LwAt, SwAt, MemcpyAdvance, LeaveAll;
    Linked(code);
    Aiming();
    Gluing(code);
  }

  lemma MemcpyStands(lines: seq<Line>, base: word, text: X.Text, rest: X.Text) returns (entry: word)
    requires Assembled(lines, base) && MadeFrom(lines, base, text, MemcpyText(rest))
    requires NoGlobal(lines, "loop") && NoGlobal(lines, "done")
    ensures EntryOf(lines, base, "memcpy") == Some(entry) && entry + 39 < 65536
    ensures MemcpyAt(CodeOf(lines, base), entry, entry + 13, entry + 39)
  {
    hide X.ExpandText, X.Joined, MadeFrom, MemcpyText, MemcpyLayout, LayAll, MemcpyAt, CodeOf, HoldsAll, NoGlobal, UniqueNames, Fits, WellFormed, Bound, Consistent, Callable;
    EndExpands();
    MemcpyJoined(rest);
    MemcpyExpands(X.End, X.NoLines, X.NoLines);
    MemcpyConsistent(lines, base);
    entry := RoutineStands(lines, base, text, MemcpyText(X.End), rest, "memcpy", MemcpyLayout());
    MemcpyHolds(CodeOf(lines, base), entry);
  }

  // ----- memcpy16 -----

  /** os/lib/util.asm, lines 42 to 64. */
  function Memcpy16Text(d0: word, rest: X.Text): X.Text
    requires d0 < 65535
  {
    X.Stands(GlobalLabel("memcpy16"),
    X.Uses(X.Do(T.PUSHA, X.NoArgs),
    X.Stands(LocalLabel("loop"),
    X.Uses(X.Do(T.PUSH, S.A1(R(A))),
    X.Uses(X.Do(T.LW, S.A2(R(A), N(d0 + 1))),
    X.Uses(X.Do(T.JZ, S.A2(R(A), To("less_than_256"))),
    X.Uses(X.Do(T.PUSH, S.A1(R(B))),
    X.Uses(X.Do(T.LW, S.A2(R(B), N(d0))),
    X.Uses(X.Do(T.MW, S.A2(R(Z), N(0xFF))),
    X.Uses(X.Do(T.CLB, X.NoArgs),
    X.Uses(X.Do(T.SUB16, S.A3(R(A), R(B), N(0xFF))),
    X.Uses(X.Do(T.SW16, S.A3(N(d0), R(A), R(B))),
    X.Uses(X.Do(T.POP, S.A2(R(B), R(A))),
    X.Uses(X.Do(T.CALL, S.A1(X.Symbol("memcpy", false))),
    Memcpy16Next(d0, rest)))))))))))))))
  }

  function Memcpy16Next(d0: word, rest: X.Text): X.Text {
    X.Uses(X.Do(T.ADD16, S.A3(R(A), R(B), N(0xFF))),
    X.Uses(X.Do(T.ADD16, S.A3(R(C), R(D), N(0xFF))),
    X.Uses(X.Do(T.JMP, S.A1(To("loop"))),
    Memcpy16Last(d0, rest))))
  }

  function Memcpy16Last(d0: word, rest: X.Text): X.Text {
    X.Stands(LocalLabel("less_than_256"),
    X.Uses(X.Do(T.POP, S.A1(R(A))),
    X.Uses(X.Do(T.LW, S.A2(R(Z), N(d0))),
    X.Uses(X.Do(T.CALL, S.A1(X.Symbol("memcpy", false))),
    X.Uses(X.Do(T.POPA, X.NoArgs),
    X.Uses(X.Do(T.RET, X.NoArgs), rest))))))
  }

  function Memcpy16Layout(d0: word, memcpy: word): Layout {
    Plain(PushAll(),
    Label("loop",
    Jump(LengthTest(0, d0), "less_than_256", 59,
    Plain(Shrink(d0),
    Calls("memcpy", memcpy, Memcpy16Again(d0, memcpy))))))
  }

  function Memcpy16Again(d0: word, memcpy: word): Layout {
    Plain(Forward(), Jump(Goto(0), "loop", 5, Memcpy16End(d0, memcpy)))
  }

  function Memcpy16End(d0: word, memcpy: word): Layout {
    Label("less_than_256",
    Plain(Cat(One(POP(A)), One(LW(Z, Abs(d0)))),
    Calls("memcpy", memcpy,
    Plain(LeaveAll(), Stop))))
  }

  lemma Memcpy16EndExpands(d0: word, memcpy: word, rest: X.Text, after: X.Lines, end: X.Lines)
    requires X.ExpandText(rest, end) == Some(after)
    ensures X.ExpandText(Memcpy16Last(d0, rest), end) == Some(LayAll(Memcpy16End(d0, memcpy), after))
  {
    hide X.ExpandText, X.ExpandTo, S.Lay, LayAll, Pops, Ret, S.CallLines, Len, Pure;
    Expanding();
    S.Laying();
    Laid();
    S.StackSpells(A, Written);
    S.MemorySpells(Z, N(d0), Written);
    S.CallSpells(X.Symbol("memcpy", false));
    S.PopaSpells(Written);
    S.RetSpells(Written);
  }

  lemma Memcpy16NextExpands(d0: word, memcpy: word, rest: X.Text, after: X.Lines, end: X.Lines)
    requires X.ExpandText(rest, end) == Some(after)
    ensures X.ExpandText(Memcpy16Next(d0, rest), end) == Some(LayAll(Memcpy16Again(d0, memcpy), after))
  {
    hide X.ExpandText, X.ExpandTo, S.Lay, LayAll, Add16, Goto, Memcpy16Last, Memcpy16End, Len, Pure;
    Memcpy16EndExpands(d0, memcpy, rest, after, end);
    Expanding();
    S.Laying();
    Laid();
    S.Add16Spells(A, B, 0xFF, Written);
    S.Add16Spells(C, D, 0xFF, Written);
    S.JmpToSpells(To("loop"));
  }

  lemma Memcpy16Expands(d0: word, memcpy: word, rest: X.Text, after: X.Lines, end: X.Lines)
    requires d0 < 65535 && X.ExpandText(rest, end) == Some(after)
    ensures X.ExpandText(Memcpy16Text(d0, rest), end)
      == Some(X.Put(GlobalLabel("memcpy16"), LayAll(Memcpy16Layout(d0, memcpy), after)))
  {
    hide X.ExpandText, X.ExpandTo, S.Lay, LayAll, PushAll, Pops, Sub16, Clb, Sw16, Branch, S.CallLines, Len, Pure;
    hide Memcpy16Next, Memcpy16Again;
    Memcpy16NextExpands(d0, memcpy, rest, after, end);
    Expanding();
    S.Laying();
    Laid();
    S.PushaSpells(Written);
    S.StackSpells(A, Ref("less_than_256", true));
    S.MemorySpells(A, N(d0 + 1), Ref("less_than_256", true));
    S.JzSpells(A, To("less_than_256"));
    S.StackSpells(B, Written);
    S.MemorySpells(B, N(d0), Written);
    S.MwSpells(Z, N(0xFF), Written);
    S.ClbSpells(Written);
    S.Sub16Spells(A, B, 0xFF, Written);
    S.Sw16Spells(d0, A, B, Written);
    S.Pop2Spells(B, A, Written);
    S.CallSpells(X.Symbol("memcpy", false));
  }

  lemma Memcpy16Joined(d0: word, rest: X.Text)
    requires d0 < 65535
    ensures X.Joined(Memcpy16Text(d0, X.End), rest) == Memcpy16Text(d0, rest)
  {
    hide X.Joined;
    Joining();
  }

  lemma Memcpy16Labels(d0: word, memcpy: word)
    ensures LabelAt(Memcpy16Layout(d0, memcpy), "loop", 5) && LabelAt(Memcpy16Layout(d0, memcpy), "less_than_256", 59)
  {
    hide LabelAt, Len;
    Labelled();
  }

  lemma Memcpy16Consistent(d0: word, memcpy: word, lines: seq<Line>, base: word)
    requires Good(lines, base) && RoutineAt(lines, base, "memcpy", memcpy)
    requires NoGlobal(lines, "loop") && NoGlobal(lines, "less_than_256")
    ensures Consistent(Memcpy16Layout(d0, memcpy), Memcpy16Layout(d0, memcpy)) && Callable(Memcpy16Layout(d0, memcpy), lines, base)
  {
    hide Consistent, Callable, NoGlobal, LabelAt, Len, UniqueNames, Fits, WellFormed, Bound, RoutineAt;
    Memcpy16Labels(d0, memcpy);
    Consisting();
    NoCalls(lines, base);
  }

  lemma Memcpy16Holds(code: Code, entry: word, d0: word, m: Callee)
    requires HoldsAll(code, entry, Memcpy16Layout(d0, m.entry), entry) && MemcpyAt(code, m.entry, m.loop, m.done) && d0 < 65535
    ensures entry + 59 < 65536 && Memcpy16At(code, entry, entry + 5, entry + 59, m, d0)
  {
    hide HoldsAll, At, Aim, Len, PushAll, Shrink, Forward, LeaveAll, MemcpyAt, Call;
    Linked(code);
    Aiming();
    Gluing(code);
  }

  lemma Memcpy16Stands(lines: seq<Line>, base: word, text: X.Text, d0: word, rest: X.Text, rest1: X.Text)
    returns (entry: word, m: Callee)
    requires Assembled(lines, base) && d0 < 65535
    requires NoGlobal(lines, "loop") && NoGlobal(lines, "done") && NoGlobal(lines, "less_than_256")
    requires MadeFrom(lines, base, text, Memcpy16Text(d0, rest)) && MadeFrom(lines, base, text, MemcpyText(rest1))
    ensures EntryOf(lines, base, "memcpy16") == Some(entry) && entry + 59 < 65536
    ensures Memcpy16At(CodeOf(lines, base), entry, entry + 5, entry + 59, m, d0)
  {
    hide X.ExpandText, X.Joined, MadeFrom, Memcpy16Text, Memcpy16Layout, MemcpyText, LayAll, Memcpy16At, MemcpyAt, CodeOf, HoldsAll;
    hide NoGlobal, UniqueNames, Fits, WellFormed, Bound, Consistent, Callable;
    var memcpy := MemcpyStands(lines, base, text, rest1);
    m := Callee(memcpy, memcpy + 13, memcpy + 39);
    assert RoutineAt(lines, base, "memcpy", memcpy) by { EntryMeans(lines, base, "memcpy"); }
    EndExpands();
    Memcpy16Joined(d0, rest);
    Memcpy16Expands(d0, memcpy, X.End, X.NoLines, X.NoLines);
    Memcpy16Consistent(d0, memcpy, lines, base);
    entry := RoutineStands(lines, base, text, Memcpy16Text(d0, X.End), rest, "memcpy16", Memcpy16Layout(d0, memcpy));
    Memcpy16Holds(CodeOf(lines, base), entry, d0, m);
  }

  /** Two stretches of memory have no cell in common. */
  predicate Disjoint(lo: int, n: nat, lo': int, n': nat) {
    n == 0 || n' == 0 || lo + n <= lo' || lo' + n' <= lo
  }

  lemma DisjointSpans(lo: int, n: nat, lo': int, n': nat)
    requires Disjoint(lo, n, lo', n')
    ensures Span(lo, n) !! Span(lo', n')
  {
  }

  /** The cells of a copy: destination, source, the length and the stack. */
  function CopyCells(dst: int, src: int, len: nat, d0: int, sp: int): set<word> {
    Cells(dst, len) + Cells(src, len) + Cells(d0, 2) + Cells(sp - 11, 14)
  }

  /** Destination, source, length and stack are apart, but source and destination may overlap. */
  predicate Separate(dst: int, src: int, len: nat, d0: int, sp: int) {
    && 0 <= dst && dst + len <= 65536 && 0 <= src && src + len <= 65536 && 12 <= sp < 65534 && 0 <= d0 < 65535
    && Disjoint(d0, 2, sp - 11, 14)
    && Disjoint(dst, len, sp - 11, 14) && Disjoint(dst, len, d0, 2)
    && Disjoint(src, len, sp - 11, 12) && Disjoint(src, len, d0, 2)
  }

  /**
   The destination holds what the source held, byte for byte; when it overlaps the source from
   above, the first dst - src bytes of the source over and over.
   */
  ghost predicate Moved(s: State, s': State, dst: int, src: int, len: nat) {
    forall x: word | dst <= x < dst + len :: Arrived(s, s', dst, src, x)
  }

  /** A byte of the destination is what the source held there. */
  predicate Arrived(s: State, s': State, dst: int, src: int, x: word)
    requires dst <= x
  {
    0 <= SourceOf(dst, src, x - dst) < 65536 && Peek(s', x) == Peek(s, SourceOf(dst, src, x - dst))
  }

  /**
   memcpy16 and memcpy in the source of any program, assembled and run by the emulator: as many
   bytes as the word at D0 says are copied upwards from cd to ab, whatever the length and however
   the two overlap. The caller goes on with registers and stack pointer as they were, D0 holds what
   is left of the length after passes of 255 bytes, and no other byte has changed outside the
   destination and twelve bytes of the stack.
   */
  lemma Memcpy16OnMachine(s: State, lines: seq<Line>, base: word, text: X.Text, d0: word, rest: X.Text, rest1: X.Text)
    returns (n: nat)
    requires Assembled(lines, base) && d0 < 65535
    requires NoGlobal(lines, "loop") && NoGlobal(lines, "done") && NoGlobal(lines, "less_than_256")
    requires MadeFrom(lines, base, text, Memcpy16Text(d0, rest)) && MadeFrom(lines, base, text, MemcpyText(rest1))
    requires EntryOf(lines, base, "memcpy16") == Some(s.pc)
    requires
      var dst, src, len := Pair(s.g.a, s.g.b), Pair(s.g.c, s.g.d), Pair(Peek(s, d0 + 1), Peek(s, d0));
      && Separate(dst, src, len, d0, s.sp)
      && Ready(s, lines, base, CopyCells(dst, src, len, d0, s.sp), Cells(src, len) - Cells(dst, len))
    ensures
      var s' := Run(s, n);
      var dst, src, len := Pair(s.g.a, s.g.b), Pair(s.g.c, s.g.d), Pair(Peek(s, d0 + 1), Peek(s, d0));
      && s'.pc == Caller(s) && s'.sp == s.sp + 2 && SameData(s.g, s'.g)
      && Moved(s, s', dst, src, len) && Pair(Peek(s', d0 + 1), Peek(s', d0)) == Rest(len)
      && Untouched(s, s', Span(dst, len) + Span(d0, 2) + Span(s.sp - 11, 12)) && Loaded(s', lines, base)
  {
    hide Peek, MadeFrom, Ready, CodeOf, Memcpy16At, Reaches, Pair, Loaded, NoGlobal, UniqueNames, Fits, WellFormed, Bound, Untouched, Halted, Run, EntryOf;
    hide Copy, OnlyIn, Given, Movable, Called, Separate, CopyCells, Scratch, Span, Cells, Length, Moved;
    var dst: int, src: int, len: nat := Pair(s.g.a, s.g.b), Pair(s.g.c, s.g.d), Pair(Peek(s, d0 + 1), Peek(s, d0));
    var cells, readOnly := CopyCells(dst, src, len, d0, s.sp), Cells(src, len) - Cells(dst, len);
    var entry, m := Memcpy16Stands(lines, base, text, d0, rest, rest1);
    var h := CoreOf(s, cells, readOnly);
    CopyCore(s, h, dst, src, len, d0);
    var h' := Memcpy16Runs(CodeOf(lines, base), h, entry + 5, entry + 59, m, d0);
    var written := Span(dst, len) + Span(d0, 2) + Span(s.sp - 11, 12);
    CopyFrame(h.ram, dst, src, len);
    OnlyMore(Span(dst, len), written, h.ram, Copy(h.ram, dst, src, len));
    OnlyMore(Span(s.sp - 11, 12) + Span(d0, 2), written, Copy(h.ram, dst, src, len), h'.ram);
    OnlyTrans(written, h.ram, Copy(h.ram, dst, src, len), h'.ram);
    n := RunsOnMachine(s, lines, base, cells, readOnly, h', written);
    MovedBytes(s, Run(s, n), h, h', dst, src, len, d0);
    LengthLeft(s, Run(s, n), h', dst, src, len, d0);
  }

  /** What memcpy16 asks of its core holds of the core made from such a state. */
  lemma CopyCore(s: State, h: Core, dst: int, src: int, len: nat, d0: word)
    requires Separate(dst, src, len, d0, s.sp)
    requires h == CoreOf(s, CopyCells(dst, src, len, d0, s.sp), Cells(src, len) - Cells(dst, len))
    ensures Called(h, 12) && Scratch(h, d0) && Span(d0, 2) !! Span(h.sp - 11, 14) && Movable(h, dst, src, len, 12)
    ensures Given(h.ram, dst, len) && Given(h.ram, src, len)
    ensures Span(dst, len) !! Span(d0, 2) && Span(src, len) !! Span(d0, 2)
    ensures Length(h.ram, d0) == Pair(Peek(s, d0 + 1), Peek(s, d0))
    ensures ReturnAddress(h) == Caller(s)
  {
    hide Peek, Pair, Span, Cells;
    Members();
    DisjointSpans(d0, 2, s.sp - 11, 14);
    DisjointSpans(dst, len, s.sp - 11, 14);
    DisjointSpans(dst, len, d0, 2);
    DisjointSpans(src, len, s.sp - 11, 12);
    DisjointSpans(src, len, d0, 2);
    assert Span(dst, len) !! h.readOnly;
  }

  /** The word at D0 is in cells that were lent. */
  lemma LengthLeft(s: State, s': State, h': Core, dst: int, src: int, len: nat, d0: word)
    requires Separate(dst, src, len, d0, s.sp)
    requires forall x | x in CopyCells(dst, src, len, d0, s.sp) :: x in h'.ram && Peek(s', x) == h'.ram[x]
    ensures d0 in h'.ram && d0 + 1 in h'.ram && Length(h'.ram, d0) == Pair(Peek(s', d0 + 1), Peek(s', d0))
  {
    hide Peek, Pair, Span, Cells;
    Members();
  }

  /** A byte of the destination is not among those that memcpy16 uses for itself. */
  lemma Delivered(dst: int, src: int, len: nat, d0: word, sp: word, x: int)
    requires Separate(dst, src, len, d0, sp) && dst <= x < dst + len
    ensures x in CopyCells(dst, src, len, d0, sp) && x !in Span(sp - 11, 12) + Span(d0, 2)
  {
    hide Span, Cells;
    Members();
  }

  lemma SourceLent(dst: int, src: int, len: nat, d0: word, sp: word, k: nat)
    requires Separate(dst, src, len, d0, sp) && k < len
    ensures SourceOf(dst, src, k) in CopyCells(dst, src, len, d0, sp)
  {
    hide Span, Cells, SourceOf;
    Members();
  }

  lemma MovedByte(s: State, s': State, h: Core, h': Core, dst: int, src: int, len: nat, d0: word, x: word)
    requires Separate(dst, src, len, d0, s.sp) && dst <= x < dst + len
    requires h == CoreOf(s, CopyCells(dst, src, len, d0, s.sp), Cells(src, len) - Cells(dst, len))
    requires Given(h.ram, dst, len) && Given(h.ram, src, len)
    requires OnlyIn(Span(s.sp - 11, 12) + Span(d0, 2), Copy(h.ram, dst, src, len), h'.ram)
    requires forall y | y in CopyCells(dst, src, len, d0, s.sp) :: y in h'.ram && Peek(s', y) == h'.ram[y]
    ensures Arrived(s, s', dst, src, x)
  {
    hide Peek, Copy, Span, Cells, CopyCells, Separate, Given, SourceOf;
    CopyMoves(h.ram, dst, src, len, x - dst);
    Delivered(dst, src, len, d0, s.sp, x);
    SourceLent(dst, src, len, d0, s.sp, x - dst);
  }

  lemma MovedBytes(s: State, s': State, h: Core, h': Core, dst: int, src: int, len: nat, d0: word)
    requires Separate(dst, src, len, d0, s.sp)
    requires h == CoreOf(s, CopyCells(dst, src, len, d0, s.sp), Cells(src, len) - Cells(dst, len))
    requires Given(h.ram, dst, len) && Given(h.ram, src, len)
    requires OnlyIn(Span(s.sp - 11, 12) + Span(d0, 2), Copy(h.ram, dst, src, len), h'.ram)
    requires forall x | x in CopyCells(dst, src, len, d0, s.sp) :: x in h'.ram && Peek(s', x) == h'.ram[x]
    ensures Moved(s, s', dst, src, len)
  {
    hide Peek, Copy, Span, Cells, CopyCells, Separate, Given, OnlyIn, CoreOf, Arrived;
    forall x: word | dst <= x < dst + len
      ensures Arrived(s, s', dst, src, x)
    {
      MovedByte(s, s', h, h', dst, src, len, d0, x);
    }
  }

  // ----- memset -----

  /** os/lib/util.asm, lines 70 to 81. */
  function MemsetText(rest: X.Text): X.Text {
    X.Stands(GlobalLabel("memset"),
    X.Uses(X.Do(T.PUSHA, X.NoArgs),
    X.Uses(X.Do(T.ADD16, S.A4(R(C), R(D), R(A), R(B))), MemsetLoop(rest))))
  }

  function MemsetLoop(rest: X.Text): X.Text {
    X.Stands(LocalLabel("loop"),
    X.Uses(X.Do(T.EQ16, S.A4(R(A), R(B), R(C), R(D))),
    X.Uses(X.Do(T.JNZ, S.A2(R(F), To("done"))), MemsetStore(rest))))
  }

  function MemsetStore(rest: X.Text): X.Text {
    X.Uses(X.Do(T.SW, S.A3(R(A), R(B), R(Z))),
    X.Uses(X.Do(T.ADD16, S.A3(R(A), R(B), N(1))),
    X.Uses(X.Do(T.JMP, S.A1(To("loop"))),
    X.Stands(LocalLabel("done"),
    X.Uses(X.Do(T.POPA, X.NoArgs),
    X.Uses(X.Do(T.RET, X.NoArgs), rest))))))
  }

  function MemsetLayout(): Layout {
    Plain(MemsetHead(), MemsetRun())
  }

  function MemsetRun(): Layout {
    Label("loop",
    Plain(Eq16(A, B, Rg(C), Rg(D)),
    Jump(JumpNonZero(F, 0), "done", 37, MemsetMore())))
  }

  function MemsetMore(): Layout {
    Plain(Cat(SwAt(A, B, Z), Add16(A, B, Imm(0), Imm(1))),
    Jump(Goto(0), "loop", 9,
    Label("done",
    Plain(LeaveAll(), Stop))))
  }

  lemma MemsetStoreExpands(rest: X.Text, after: X.Lines, end: X.Lines)
    requires X.ExpandText(rest, end) == Some(after)
    ensures X.ExpandText(MemsetStore(rest), end) == Some(LayAll(MemsetMore(), after))
  {
    hide X.ExpandText, X.ExpandTo, S.Lay, LayAll, Pops, SwAt, Add16, Goto, Ret, Len, Pure;
    Expanding();
    S.Laying();
    Laid();
    S.SwAtSpells(A, B, Z, Written);
    S.Add16Spells(A, B, 1, Written);
    S.JmpToSpells(To("loop"));
    S.PopaSpells(Written);
    S.RetSpells(Written);
  }

  lemma MemsetLoopExpands(rest: X.Text, after: X.Lines, end: X.Lines)
    requires X.ExpandText(rest, end) == Some(after)
    ensures X.ExpandText(MemsetLoop(rest), end) == Some(LayAll(MemsetRun(), after))
  {
    hide X.ExpandText, X.ExpandTo, S.Lay, LayAll, Eq16, MemsetStore, MemsetMore, Len, Pure;
    MemsetStoreExpands(rest, after, end);
    Expanding();
    S.Laying();
    Laid();
    S.Eq16RegSpells(A, B, C, D, Written);
    S.JnzToSpells(R(F), To("done"));
  }

  lemma MemsetExpands(rest: X.Text, after: X.Lines, end: X.Lines)
    requires X.ExpandText(rest, end) == Some(after)
    ensures X.ExpandText(MemsetText(rest), end) == Some(X.Put(GlobalLabel("memset"), LayAll(MemsetLayout(), after)))
  {
    hide X.ExpandText, X.ExpandTo, S.Lay, LayAll, PushAll, Add16, MemsetLoop, MemsetRun, Len, Pure;
    MemsetLoopExpands(rest, after, end);
    Expanding();
    S.Laying();
    Laid();
    S.PushaSpells(Written);
    S.Add16RegSpells(C, D, A, B, Written);
  }

  lemma MemsetJoined(rest: X.Text)
    ensures X.Joined(MemsetText(X.End), rest) == MemsetText(rest)
  {
    hide X.Joined;
    Joining();
  }

  lemma MemsetConsistent(lines: seq<Line>, base: word)
    requires Good(lines, base)
    requires NoGlobal(lines, "loop") && NoGlobal(lines, "done")
    ensures Consistent(MemsetLayout(), MemsetLayout()) && Callable(MemsetLayout(), lines, base)
  {
    hide Consistent, Callable, NoGlobal, LabelAt, Len, UniqueNames, Fits, WellFormed, Bound;
    assert LabelAt(MemsetLayout(), "loop", 9) && LabelAt(MemsetLayout(), "done", 37) by { Labelled(); }
    Consisting();
    NoCalls(lines, base);
  }

  lemma MemsetHolds(code: Code, entry: word)
    requires HoldsAll(code, entry, MemsetLayout(), entry)
    ensures entry + 37 < 65536 && MemsetAt(code, entry, entry + 9, entry + 37)
  {
    hide HoldsAll, At, Aim, Len, MemsetHead, SwAt, Add16, Eq16, LeaveAll;
    Linked(code);
    Aiming();
    Gluing(code);
  }

  lemma MemsetStands(lines: seq<Line>, base: word, text: X.Text, rest: X.Text) returns (entry: word)
    requires Assembled(lines, base) && MadeFrom(lines, base, text, MemsetText(rest))
    requires NoGlobal(lines, "loop") && NoGlobal(lines, "done")
    ensures EntryOf(lines, base, "memset") == Some(entry) && entry + 37 < 65536
    ensures MemsetAt(CodeOf(lines, base), entry, entry + 9, entry + 37)
  {
    hide X.ExpandText, X.Joined, MadeFrom, MemsetText, MemsetLayout, LayAll, MemsetAt, CodeOf, HoldsAll, NoGlobal, UniqueNames, Fits, WellFormed, Bound, Consistent, Callable;
    EndExpands();
    MemsetJoined(rest);
    MemsetExpands(X.End, X.NoLines, X.NoLines);
    MemsetConsistent(lines, base);
    entry := RoutineStands(lines, base, text, MemsetText(X.End), rest, "memset", MemsetLayout());
    MemsetHolds(CodeOf(lines, base), entry);
  }

  /**
   memset in the source of any program, assembled and run by the emulator: the cd bytes from ab up
   hold z, for every length, and no other byte has changed but five of the stack.
   */
  lemma MemsetOnMachine(s: State, lines: seq<Line>, base: word, text: X.Text, rest: X.Text) returns (n: nat)
    requires Assembled(lines, base) && MadeFrom(lines, base, text, MemsetText(rest))
    requires NoGlobal(lines, "loop") && NoGlobal(lines, "done")
    requires EntryOf(lines, base, "memset") == Some(s.pc) && 5 <= s.sp < 65534
    requires
      var dst, len := Pair(s.g.a, s.g.b), Pair(s.g.c, s.g.d);
      dst + len <= 65536 && Disjoint(dst, len, s.sp - 4, 7) && Ready(s, lines, base, Cells(dst, len) + Cells(s.sp - 4, 7), {})
    ensures
      var s' := Run(s, n);
      var dst, len := Pair(s.g.a, s.g.b), Pair(s.g.c, s.g.d);
      && s'.pc == Caller(s) && s'.sp == s.sp + 2 && SameData(s.g, s'.g)
      && (forall x: word {:trigger Peek(s', x)} | dst <= x < dst + len :: Peek(s', x) == s.g.z)
      && Untouched(s, s', Span(dst, len) + Span(s.sp - 4, 5)) && Loaded(s', lines, base)
  {
    hide Peek, MadeFrom, Ready, CodeOf, MemsetAt, Reaches, Pair, Loaded, NoGlobal, UniqueNames, Fits, WellFormed, Bound, Untouched, Halted, Run, EntryOf;
    hide Fill, Span, Cells;
    var dst: int, len: nat := Pair(s.g.a, s.g.b), Pair(s.g.c, s.g.d);
    var cells := Cells(dst, len) + Cells(s.sp - 4, 7);
    var entry := MemsetStands(lines, base, text, rest);
    var h := CoreOf(s, cells, {});
    Members();
    DisjointSpans(dst, len, s.sp - 4, 7);
    var h' := MemsetRuns(CodeOf(lines, base), h, entry + 9, entry + 37);
    FillSets(h.ram, dst, len, s.g.z);
    var written := Span(dst, len) + Span(s.sp - 4, 5);
    OnlyMore(Span(dst, len), written, h.ram, Fill(h.ram, dst, len, s.g.z));
    OnlyMore(Span(s.sp - 4, 5), written, Fill(h.ram, dst, len, s.g.z), h'.ram);
    OnlyTrans(written, h.ram, Fill(h.ram, dst, len, s.g.z), h'.ram);
    n := RunsOnMachine(s, lines, base, cells, {}, h', written);
    forall x: word | dst <= x < dst + len
      ensures Peek(Run(s, n), x) == s.g.z
    {
      assert x in Span(dst, len) && x !in Span(s.sp - 4, 5);
    }
  }
}
