/**
 From the lines of a program to its code: where a block of instructions stands among the lines
 of an assembled program, the code map holds that block, with labels turned into addresses.
 */
module Linking {
  import opened Words
  import opened Isa
  import opened Source
  import opened Names
  import opened Simulation
  import opened Core
  import opened Macros
  import opened Blocks
  import Choosing
  import Interleaving
  import X = Expand
  import S = Spelling

  /** The line stands in the program, with the address of a known name in it. */
  ghost predicate IsLine(lines: seq<Line>, base: word, k: nat, l: Line): (stands: bool)
    ensures stands ==> k < |lines| && lines[k].Op? == l.Op? && SizeOf(lines[k]) == SizeOf(l)
    ensures stands && (l.Labels() || !l.Op? || !l.x.Ref?) ==> lines[k] == l
  {
    k < |lines| && lines[k] == Choosing.KnownLine(l, lines[..k], base)
  }

  /** The list of lines stands in the program from line k on. */
  ghost predicate IsPart(lines: seq<Line>, base: word, k: nat, ls: X.Lines)
    decreases ls
  {
    match ls
    case NoLines => k <= |lines|
    case Put(l, rest) => IsLine(lines, base, k, l) && IsPart(lines, base, k + 1, rest)
  }

  /** The number of instructions in a block. */
  function Count(b: Block): nat {
    match b
    case Nop => 0
    case Single(_) => 1
    case Join(p, q) => Count(p) + Count(q)
  }

  /** The block with w in its LDA, when that names a label. */
  function Aim(b: Block, x: Operand, w: word): (b': Block)
    ensures Len(b') == Len(b) && Count(b') == Count(b)
  {
    match b
    case Nop => Nop
    case Single(i) => Single(if i.LDA? && x.Ref? then LDA(w) else i)
    case Join(p, q) => Join(Aim(p, x, w), Aim(q, x, w))
  }

  lemma Aiming()
    ensures forall x, w {:trigger Aim(Nop, x, w)} :: Aim(Nop, x, w) == Nop
    ensures forall i, x, w {:trigger Aim(One(i), x, w)} :: Aim(One(i), x, w) == One(if i.LDA? && x.Ref? then LDA(w) else i)
    ensures forall p, q, x, w {:trigger Aim(Cat(p, q), x, w)} :: Aim(Cat(p, q), x, w) == Cat(Aim(p, x, w), Aim(q, x, w))
  {
  }

  lemma {:induction false} AimPlain(b: Block, w: word)
    ensures Aim(b, Written, w) == b
  {
    match b
    case Join(p, q) => AimPlain(p, w); AimPlain(q, w);
    case _ =>
  }

  /** The lines of a block are operations, and what follows them stands behind. */
  lemma {:induction false} LayPart(lines: seq<Line>, base: word, k: nat, b: Block, x: Operand, after: X.Lines)
    requires IsPart(lines, base, k, S.Lay(b, x, after))
    ensures IsPart(lines, base, k + Count(b), after) && k + Count(b) <= |lines|
    ensures forall j | k <= j < k + Count(b) :: lines[j].Op?
    decreases b
  {
    hide IsLine;
    match b
    case Nop => PartFits(lines, base, k, after);
    case Single(i) => PartFits(lines, base, k + 1, after);
    case Join(p, q) =>
      LayPart(lines, base, k, p, x, S.Lay(q, x, after));
      LayPart(lines, base, k + Count(p), q, x, after);
  }

  lemma PartFits(lines: seq<Line>, base: word, k: nat, ls: X.Lines)
    requires IsPart(lines, base, k, ls)
    ensures k <= |lines|
  {
  }

  /** A program with room for its last byte below the memory-mapped registers. */
  ghost predicate HasRoom(lines: seq<Line>, base: word) {
    Good(lines, base) && base + Offset(lines, |lines|) <= 0xFFFA
  }

  /** Besides, its labels are unique. */
  ghost predicate Assembled(lines: seq<Line>, base: word) {
    HasRoom(lines, base) && UniqueNames(lines)
  }

  /** The label x means the address w on the n lines from k on. */
  ghost predicate Means(lines: seq<Line>, base: word, k: nat, n: nat, x: Operand, w: word)
    requires Good(lines, base) && k + n <= |lines|
  {
    x.Ref? ==> forall j | k <= j < k + n ::
      Binding(lines, j, x.name).Some? && Address(lines, base, Binding(lines, j, x.name).value) == w
  }

  lemma NextAddress(lines: seq<Line>, base: word, k: nat)
    requires HasRoom(lines, base) && k < |lines|
    ensures Address(lines, base, k + 1) == Address(lines, base, k) + SizeOf(lines[k]) <= 0xFFFA
  {
    OffsetGrows(lines, k + 1, |lines|);
  }

  lemma {:induction false} LayBytes(lines: seq<Line>, base: word, k: nat, b: Block, x: Operand, after: X.Lines)
    requires HasRoom(lines, base) && IsPart(lines, base, k, S.Lay(b, x, after)) && !x.Here?
    ensures k + Count(b) <= |lines| && Address(lines, base, k + Count(b)) == Address(lines, base, k) + Len(b)
    decreases b
  {
    hide IsLine, UniqueNames, Fits, WellFormed, Bound, Address;
    LayPart(lines, base, k, b, x, after);
    match b
    case Nop =>
    case Single(i) => NextAddress(lines, base, k);
    case Join(p, q) =>
      LayPart(lines, base, k, p, x, S.Lay(q, x, after));
      LayBytes(lines, base, k, p, x, S.Lay(q, x, after));
      LayBytes(lines, base, k + Count(p), q, x, after);
  }

  /** The code map holds the lines of a block where they stand. */
  lemma {:induction false} LayAt(lines: seq<Line>, base: word, k: nat, b: Block, x: Operand, w: word, after: X.Lines)
    requires HasRoom(lines, base) && IsPart(lines, base, k, S.Lay(b, x, after)) && !x.Here?
    requires k + Count(b) <= |lines| && Means(lines, base, k, Count(b), x, w)
    ensures At(CodeOf(lines, base), Address(lines, base, k), Aim(b, x, w))
    decreases b
  {
    hide IsLine, UniqueNames, Fits, WellFormed, Bound, CodeOf, At, Means, Address, Offset, Binding, Size;
    match b
    case Nop => NopAt(lines, base, k, CodeOf(lines, base));
    case Single(i) => LineAtAddress(lines, base, k, i, x, w);
    case Join(p, q) =>
      LayPart(lines, base, k, p, x, S.Lay(q, x, after));
      MeansPart(lines, base, k, Count(p), Count(q), x, w);
      LayBytes(lines, base, k, p, x, S.Lay(q, x, after));
      LayAt(lines, base, k, p, x, w, S.Lay(q, x, after));
      LayAt(lines, base, k + Count(p), q, x, w, after);
      Glue(CodeOf(lines, base), Address(lines, base, k), Aim(p, x, w), Aim(q, x, w));
  }

  lemma MeansPart(lines: seq<Line>, base: word, k: nat, m: nat, n: nat, x: Operand, w: word)
    requires Good(lines, base) && k + m + n <= |lines| && Means(lines, base, k, m + n, x, w)
    ensures Means(lines, base, k, m, x, w) && Means(lines, base, k + m, n, x, w)
  {
    hide Good, Binding;
  }

  lemma NopAt(lines: seq<Line>, base: word, k: nat, code: Code)
    requires HasRoom(lines, base) && k <= |lines|
    ensures At(code, Address(lines, base, k), Nop)
  {
    AddressFits(lines, base, k);
  }

  lemma AddressFits(lines: seq<Line>, base: word, k: nat)
    requires HasRoom(lines, base) && k <= |lines|
    ensures Address(lines, base, k) <= 0xFFFA
  {
    OffsetGrows(lines, k, |lines|);
  }

  /** Known already or not, a name on a line comes to its label. */
  lemma NameComes(lines: seq<Line>, base: word, k: nat, i: Native, name: string, dotted: bool)
    requires Good(lines, base) && IsLine(lines, base, k, Op(i, Ref(name, dotted))) && HasAddress(i)
    ensures Binding(lines, k, name).Some?
    ensures Resolved(lines, base, k) == WithAddress(i, Address(lines, base, Binding(lines, k, name).value))
  {
    hide Offset, LastGlobal, LastLocal, Scope;
    assert Bound(lines, k);
    Interleaving.SliceKeeps(lines, k, name, k);
    if Choosing.Early(lines[..k], base, name).Some? {
      Interleaving.SliceKeeps(lines, k, name, LastGlobal(lines, name, k).value);
    }
  }

  lemma LineAtAddress(lines: seq<Line>, base: word, k: nat, i: Native, x: Operand, w: word)
    requires HasRoom(lines, base) && !x.Here? && k < |lines| && Means(lines, base, k, 1, x, w)
    requires IsLine(lines, base, k, if i.LDA? && x.Ref? then Op(LDA(0), x) else Op(i, Written))
    ensures At(CodeOf(lines, base), Address(lines, base, k), Aim(One(i), x, w))
    ensures Address(lines, base, k + 1) == Address(lines, base, k) + Size(i)
  {
    hide UniqueNames, Binding, CodeOf, IsLine, Offset, Bound, Fits;
    NextAddress(lines, base, k);
    CodeAt(lines, base, k);
    if i.LDA? && x.Ref? {
      NameComes(lines, base, k, LDA(0), x.name, x.dotted);
    }
  }

  lemma Glue(code: Code, pc: int, p: Block, q: Block)
    requires At(code, pc, p) && At(code, pc + Len(p), q)
    ensures At(code, pc, Cat(p, q))
  {
  }

  // ----- labels -----

  /** Lines k to n, n excluded, are in the scope of the global label on line k. */
  ghost predicate InScope(lines: seq<Line>, k: nat, n: nat) {
    k < n <= |lines| && lines[k].GlobalLabel? && forall j | k < j < n :: !lines[j].GlobalLabel?
  }

  /** A dotted name in that scope means the label of that name there, unless there is a global one. */
  lemma LocalMeans(lines: seq<Line>, base: word, k: nat, n: nat, m: nat, at: nat, count: nat, name: string)
    requires Good(lines, base) && UniqueNames(lines) && InScope(lines, k, n) && k < m < n && lines[m] == LocalLabel(name)
    requires NoGlobal(lines, name)
    requires k < at && at + count <= n
    ensures Means(lines, base, at, count, Ref(name, true), Address(lines, base, m))
  {
    hide UniqueNames, Fits, WellFormed, Bound, Scope, FindLocal, Binding;
    ScopeIs(lines, k, m);
    forall j | at <= j < at + count
      ensures Binding(lines, j, name) == Some(m)
    {
      ScopeIs(lines, k, j);
      FindsLocal(lines, j, m);
      TakesGlobalFirst(lines, j, name);
    }
  }

  /** A name without a dot means the one global label of that name. */
  lemma GlobalMeans(lines: seq<Line>, base: word, m: nat, at: nat, count: nat, name: string)
    requires Good(lines, base) && UniqueNames(lines) && m < |lines| && lines[m] == GlobalLabel(name) && at + count <= |lines|
    ensures Means(lines, base, at, count, Ref(name, false), Address(lines, base, m))
  {
    hide Fits, WellFormed, Bound, Binding;
    assert FindGlobal(lines, name, 0) == Some(m);
    forall j | at <= j < at + count
      ensures Binding(lines, j, name) == Some(m)
    {
      TakesGlobalFirst(lines, j, name);
    }
  }

  // ----- calls -----

  /** The call instructions hold the address of the instruction behind them. */
  lemma CallAt(lines: seq<Line>, base: word, k: nat, t: X.Arg, w: word, after: X.Lines)
    requires HasRoom(lines, base) && S.IsTarget(t) && (t.Number? ==> w == S.FarWord(t)) && IsPart(lines, base, k, S.CallLines(t, after))
    requires k + 4 <= |lines| ==> Means(lines, base, k, 4, S.FarOperand(t), w)
    ensures k + 4 <= |lines| && IsPart(lines, base, k + 4, after)
    ensures Address(lines, base, k + 4) == Address(lines, base, k) + 9
    ensures At(CodeOf(lines, base), Address(lines, base, k), Call(w, Address(lines, base, k) + 9))
  {
    hide IsLine, CodeOf, Means, At, UniqueNames, Fits, WellFormed, Bound, Offset, Address, Binding, Hi, Lo;
    assert IsPart(lines, base, k + 1, S.CallLines(t, after).rest) && IsPart(lines, base, k + 2, S.CallLines(t, after).rest.rest);
    assert IsPart(lines, base, k + 3, S.CallLines(t, after).rest.rest.rest) && IsPart(lines, base, k + 4, after);
    PartFits(lines, base, k + 4, after);
    MeansPart(lines, base, k, 2, 2, S.FarOperand(t), w);
    MeansPart(lines, base, k + 2, 1, 1, S.FarOperand(t), w);
    PushAt(lines, base, k, 9, true);
    PushAt(lines, base, k + 1, 7, false);
    LineAtAddress(lines, base, k + 2, LDA(S.FarWord(t)), S.FarOperand(t), w);
    assert Means(lines, base, k + 3, 1, Written, 0) by { Nothing(lines, base, k + 3, 1); }
    LineAtAddress(lines, base, k + 3, JNZ(Imm(1)), Written, 0);
    var code, pc := CodeOf(lines, base), Address(lines, base, k);
    Aiming();
    Glue(code, pc + 4, One(LDA(w)), One(JNZ(Imm(1))));
    Glue(code, pc, One(PUSH(Imm(Hi(pc + 9)))), One(PUSH(Imm(Lo(pc + 9)))));
    Glue(code, pc, Cat(One(PUSH(Imm(Hi(pc + 9)))), One(PUSH(Imm(Lo(pc + 9))))), Goto(w));
  }

  lemma Nothing(lines: seq<Line>, base: word, k: nat, n: nat)
    requires Good(lines, base) && k + n <= |lines|
    ensures Means(lines, base, k, n, Written, 0)
  {
  }

  /** A byte of a return address. */
  lemma PushAt(lines: seq<Line>, base: word, k: nat, ahead: nat, high: bool)
    requires HasRoom(lines, base) && IsLine(lines, base, k, Op(PUSH(Imm(0)), Here(ahead, high)))
    ensures Address(lines, base, k + 1) == Address(lines, base, k) + 2 && Address(lines, base, k) + ahead < 65536
    ensures
      var w := Address(lines, base, k) + ahead;
      At(CodeOf(lines, base), Address(lines, base, k), One(PUSH(Imm(if high then Hi(w) else Lo(w)))))
  {
    hide UniqueNames, Binding, CodeOf;
    NextAddress(lines, base, k);
    CodeAt(lines, base, k);
  }

  /** A block without labels. */
  lemma PlainAt(lines: seq<Line>, base: word, k: nat, b: Block, after: X.Lines)
    requires HasRoom(lines, base) && IsPart(lines, base, k, S.Lay(b, Written, after))
    ensures At(CodeOf(lines, base), Address(lines, base, k), b)
  {
    hide At, CodeOf, UniqueNames, Fits, WellFormed, Bound;
    LayBytes(lines, base, k, b, Written, after);
    LayAt(lines, base, k, b, Written, 0, after);
    AimPlain(b, 0);
  }

  // ----- routines -----

  /**
   The body of a routine: local labels, blocks, blocks that end in a jump to the label `to` bytes
   behind the entry, and calls of other routines.
   */
  datatype Layout =
    | Stop
    | Label(name: string, rest: Layout)
    | Plain(b: Block, rest: Layout)
    | Jump(b: Block, target: string, to: nat, rest: Layout)
    | Calls(routine: string, at: word, rest: Layout)

  function LayAll(layout: Layout, after: X.Lines): X.Lines {
    match layout
    case Stop => after
    case Label(name, rest) => X.Put(LocalLabel(name), LayAll(rest, after))
    case Plain(b, rest) => S.Lay(b, Written, LayAll(rest, after))
    case Jump(b, target, _, rest) => S.Lay(b, Ref(target, true), LayAll(rest, after))
    case Calls(routine, _, rest) => S.CallLines(X.Symbol(routine, false), LayAll(rest, after))
  }

  /** The number of lines. */
  function Height(layout: Layout): nat {
    match layout
    case Stop => 0
    case Label(_, rest) => 1 + Height(rest)
    case Plain(b, rest) => Count(b) + Height(rest)
    case Jump(b, _, _, rest) => Count(b) + Height(rest)
    case Calls(_, _, rest) => 4 + Height(rest)
  }

  /** The label stands that many bytes behind the start. */
  predicate LabelAt(layout: Layout, name: string, offset: int) {
    match layout
    case Stop => false
    case Label(other, rest) => (other == name && offset == 0) || LabelAt(rest, name, offset)
    case Plain(b, rest) => LabelAt(rest, name, offset - Len(b))
    case Jump(b, _, _, rest) => LabelAt(rest, name, offset - Len(b))
    case Calls(_, _, rest) => LabelAt(rest, name, offset - 9)
  }

  /** Every jump of the part goes to where its label stands in the whole. */
  predicate Consistent(part: Layout, whole: Layout) {
    match part
    case Stop => true
    case Label(_, rest) => Consistent(rest, whole)
    case Plain(_, rest) => Consistent(rest, whole)
    case Jump(_, target, to, rest) => LabelAt(whole, target, to) && Consistent(rest, whole)
    case Calls(_, _, rest) => Consistent(rest, whole)
  }

  /** Every routine that is called is where the call says, and no label that is jumped to has the name of a global one. */
  ghost predicate Callable(layout: Layout, lines: seq<Line>, base: word)
    requires Good(lines, base)
  {
    match layout
    case Stop => true
    case Label(_, rest) => Callable(rest, lines, base)
    case Plain(_, rest) => Callable(rest, lines, base)
    case Jump(_, target, _, rest) => NoGlobal(lines, target) && Callable(rest, lines, base)
    case Calls(routine, at, rest) => RoutineAt(lines, base, routine, at) && Callable(rest, lines, base)
  }

  ghost predicate RoutineAt(lines: seq<Line>, base: word, routine: string, at: word)
    requires Good(lines, base)
  {
    exists m {:trigger lines[m]} :: 0 <= m < |lines| && lines[m] == GlobalLabel(routine) && Address(lines, base, m) == at
  }

  /** The code holds the routine from pc on, when the routine starts at entry. */
  ghost predicate HoldsAll(code: Code, pc: int, layout: Layout, entry: int)
    decreases layout
  {
    match layout
    case Stop => true
    case Label(_, rest) => HoldsAll(code, pc, rest, entry)
    case Plain(b, rest) => At(code, pc, b) && HoldsAll(code, pc + Len(b), rest, entry)
    case Jump(b, target, to, rest) =>
      && 0 <= entry + to < 65536 && At(code, pc, Aim(b, Ref(target, true), entry + to))
      && HoldsAll(code, pc + Len(b), rest, entry)
    case Calls(_, at, rest) =>
      0 <= pc && pc + 9 < 65536 && At(code, pc, Call(at, pc + 9)) && HoldsAll(code, pc + 9, rest, entry)
  }

  /** The lines of a routine, none of them a global label. */
  lemma {:induction false} RegionOf(lines: seq<Line>, base: word, k: nat, layout: Layout, after: X.Lines)
    requires IsPart(lines, base, k, LayAll(layout, after))
    ensures k + Height(layout) <= |lines|
    ensures forall j | k <= j < k + Height(layout) :: !lines[j].GlobalLabel?
    decreases layout
  {
    hide IsLine, S.Lay, Count;
    match layout
    case Stop => PartFits(lines, base, k, after);
    case Label(_, rest) => RegionOf(lines, base, k + 1, rest, after);
    case Plain(b, rest) =>
      LayPart(lines, base, k, b, Written, LayAll(rest, after));
      RegionOf(lines, base, k + Count(b), rest, after);
    case Jump(b, target, _, rest) =>
      LayPart(lines, base, k, b, Ref(target, true), LayAll(rest, after));
      RegionOf(lines, base, k + Count(b), rest, after);
    case Calls(routine, _, rest) =>
      CallPart(lines, base, k, X.Symbol(routine, false), LayAll(rest, after));
      RegionOf(lines, base, k + 4, rest, after);
  }

  lemma CallPart(lines: seq<Line>, base: word, k: nat, t: X.Arg, after: X.Lines)
    requires S.IsTarget(t) && IsPart(lines, base, k, S.CallLines(t, after))
    ensures k + 4 <= |lines| && IsPart(lines, base, k + 4, after) && forall j | k <= j < k + 4 :: lines[j].Op?
    ensures Size(PUSH(Imm(0))) + Size(PUSH(Imm(0))) + Size(LDA(0)) + Size(JNZ(Imm(1))) == 9
  {
    hide IsLine;
    assert IsPart(lines, base, k + 1, S.CallLines(t, after).rest) && IsPart(lines, base, k + 2, S.CallLines(t, after).rest.rest);
    assert IsPart(lines, base, k + 3, S.CallLines(t, after).rest.rest.rest) && IsPart(lines, base, k + 4, after);
    PartFits(lines, base, k + 4, after);
  }

  lemma CallBytes(lines: seq<Line>, base: word, k: nat, t: X.Arg, after: X.Lines)
    requires HasRoom(lines, base) && S.IsTarget(t) && IsPart(lines, base, k, S.CallLines(t, after))
    ensures k + 4 <= |lines| && Address(lines, base, k + 4) == Address(lines, base, k) + 9
  {
    hide IsLine, UniqueNames, Fits, WellFormed, Bound, Address;
    CallPart(lines, base, k, t, after);
    assert IsPart(lines, base, k + 1, S.CallLines(t, after).rest) && IsPart(lines, base, k + 2, S.CallLines(t, after).rest.rest);
    assert IsPart(lines, base, k + 3, S.CallLines(t, after).rest.rest.rest);
    NextAddress(lines, base, k);
    NextAddress(lines, base, k + 1);
    NextAddress(lines, base, k + 2);
    NextAddress(lines, base, k + 3);
  }

  lemma LabelLinks(lines: seq<Line>, base: word, j: nat, name: string, rest: X.Lines)
    requires HasRoom(lines, base) && IsPart(lines, base, j, X.Put(LocalLabel(name), rest))
    ensures j + 1 <= |lines| && IsPart(lines, base, j + 1, rest) && Address(lines, base, j + 1) == Address(lines, base, j)
    ensures lines[j] == LocalLabel(name)
  {
    hide IsLine;
    NextAddress(lines, base, j);
  }

  /** The line of a label, from its offset in bytes. */
  lemma {:induction false} LabelLine(lines: seq<Line>, base: word, k: nat, layout: Layout, after: X.Lines, name: string, offset: int) returns (m: nat)
    requires HasRoom(lines, base) && IsPart(lines, base, k, LayAll(layout, after)) && LabelAt(layout, name, offset)
    ensures k <= m < k + Height(layout) && m < |lines| && lines[m] == LocalLabel(name)
    ensures Address(lines, base, m) == Address(lines, base, k) + offset
    decreases layout
  {
    hide S.Lay, S.CallLines, Count, UniqueNames, Fits, WellFormed, Bound, Address, IsPart, Offset, Len;
    RegionOf(lines, base, k, layout, after);
    match layout
    case Label(other, rest) =>
      LabelLinks(lines, base, k, other, LayAll(rest, after));
      if other == name && offset == 0 {
        m := k;
      } else {
        m := LabelLine(lines, base, k + 1, rest, after, name, offset);
      }
    case Plain(b, rest) =>
      LayPart(lines, base, k, b, Written, LayAll(rest, after));
      LayBytes(lines, base, k, b, Written, LayAll(rest, after));
      m := LabelLine(lines, base, k + Count(b), rest, after, name, offset - Len(b));
    case Jump(b, target, _, rest) =>
      LayPart(lines, base, k, b, Ref(target, true), LayAll(rest, after));
      LayBytes(lines, base, k, b, Ref(target, true), LayAll(rest, after));
      m := LabelLine(lines, base, k + Count(b), rest, after, name, offset - Len(b));
    case Calls(routine, _, rest) =>
      CallPart(lines, base, k, X.Symbol(routine, false), LayAll(rest, after));
      CallBytes(lines, base, k, X.Symbol(routine, false), LayAll(rest, after));
      m := LabelLine(lines, base, k + 4, rest, after, name, offset - 9);
  }

  /** What a jump means in a routine that stands from line k on behind its global label. */
  lemma JumpMeans(lines: seq<Line>, base: word, k: nat, whole: Layout, end: X.Lines, at: nat, count: nat, target: string, to: nat)
    requires Assembled(lines, base) && k < |lines| && lines[k].GlobalLabel? && IsPart(lines, base, k + 1, LayAll(whole, end))
    requires NoGlobal(lines, target) && LabelAt(whole, target, to)
    requires k < at && at + count <= k + 1 + Height(whole)
    ensures at + count <= |lines| && 0 <= Address(lines, base, k) + to < 65536
    ensures Means(lines, base, at, count, Ref(target, true), Address(lines, base, k) + to)
  {
    hide Means, LayAll, LabelAt, UniqueNames, Fits, WellFormed, Bound, Address;
    RegionOf(lines, base, k + 1, whole, end);
    var m := LabelLine(lines, base, k + 1, whole, end, target, to);
    NextAddress(lines, base, k);
    LocalMeans(lines, base, k, k + 1 + Height(whole), m, at, count, target);
  }

  /** A jump of a routine that stands from line k on, with the address of its label filled in. */
  lemma JumpLinks(lines: seq<Line>, base: word, k: nat, whole: Layout, end: X.Lines, j: nat, b: Block, target: string, to: nat, rest: X.Lines)
    requires Assembled(lines, base) && k < |lines| && lines[k].GlobalLabel? && IsPart(lines, base, k + 1, LayAll(whole, end))
    requires NoGlobal(lines, target) && LabelAt(whole, target, to) && IsPart(lines, base, j, S.Lay(b, Ref(target, true), rest))
    requires k < j && j + Count(b) <= k + 1 + Height(whole)
    ensures j + Count(b) <= |lines| && IsPart(lines, base, j + Count(b), rest)
    ensures Address(lines, base, j + Count(b)) == Address(lines, base, j) + Len(b)
    ensures 0 <= Address(lines, base, k) + to < 65536
    ensures At(CodeOf(lines, base), Address(lines, base, j), Aim(b, Ref(target, true), Address(lines, base, k) + to))
  {
    hide Means, S.Lay, LayAll, LabelAt, UniqueNames, Fits, WellFormed, Bound, Address, At, CodeOf, Count, Height, Aim;
    LayPart(lines, base, j, b, Ref(target, true), rest);
    LayBytes(lines, base, j, b, Ref(target, true), rest);
    JumpMeans(lines, base, k, whole, end, j, Count(b), target, to);
    LayAt(lines, base, j, b, Ref(target, true), Address(lines, base, k) + to, rest);
  }

  lemma PlainLinks(lines: seq<Line>, base: word, j: nat, b: Block, rest: X.Lines)
    requires HasRoom(lines, base) && IsPart(lines, base, j, S.Lay(b, Written, rest))
    ensures j + Count(b) <= |lines| && IsPart(lines, base, j + Count(b), rest)
    ensures Address(lines, base, j + Count(b)) == Address(lines, base, j) + Len(b)
    ensures At(CodeOf(lines, base), Address(lines, base, j), b)
  {
    hide S.Lay, UniqueNames, Fits, WellFormed, Bound, Address, At, CodeOf, Count;
    LayPart(lines, base, j, b, Written, rest);
    LayBytes(lines, base, j, b, Written, rest);
    PlainAt(lines, base, j, b, rest);
  }

  lemma CallLinks(lines: seq<Line>, base: word, j: nat, routine: string, at: word, rest: X.Lines)
    requires Assembled(lines, base) && RoutineAt(lines, base, routine, at)
    requires IsPart(lines, base, j, S.CallLines(X.Symbol(routine, false), rest))
    ensures j + 4 <= |lines| && IsPart(lines, base, j + 4, rest) && Address(lines, base, j + 4) == Address(lines, base, j) + 9 <= 0xFFFA
    ensures At(CodeOf(lines, base), Address(lines, base, j), Call(at, Address(lines, base, j) + 9))
  {
    hide Means, S.CallLines, UniqueNames, Fits, WellFormed, Bound, Address, At, CodeOf, Call, RoutineAt;
    var t := X.Symbol(routine, false);
    CallPart(lines, base, j, t, rest);
    CallMeans(lines, base, j, routine, at);
    CallAt(lines, base, j, t, at, rest);
    AddressFits(lines, base, j + 4);
  }

  /** What it takes to hold a layout, one step at a time. */
  lemma HoldsStep(code: Code, part: Layout)
    ensures forall pc, entry {:trigger HoldsAll(code, pc, part, entry)} ::
      HoldsAll(code, pc, part, entry) ==
        match part
        case Stop => true
        case Label(_, rest) => HoldsAll(code, pc, rest, entry)
        case Plain(b, rest) => At(code, pc, b) && HoldsAll(code, pc + Len(b), rest, entry)
        case Jump(b, target, to, rest) =>
          && 0 <= entry + to < 65536 && At(code, pc, Aim(b, Ref(target, true), entry + to))
          && HoldsAll(code, pc + Len(b), rest, entry)
        case Calls(_, at, rest) =>
          0 <= pc && pc + 9 < 65536 && At(code, pc, Call(at, pc + 9)) && HoldsAll(code, pc + 9, rest, entry)
  {
  }

  lemma {:induction false} LinkPart(lines: seq<Line>, base: word, k: nat, whole: Layout, end: X.Lines, j: nat, part: Layout)
    requires Assembled(lines, base) && k < |lines| && lines[k].GlobalLabel? && IsPart(lines, base, k + 1, LayAll(whole, end))
    requires k < j && j + Height(part) == k + 1 + Height(whole) && IsPart(lines, base, j, LayAll(part, end))
    requires Consistent(part, whole) && Callable(part, lines, base)
    ensures j <= |lines| && HoldsAll(CodeOf(lines, base), Address(lines, base, j), part, Address(lines, base, k))
    decreases part
  {
    hide Means, S.Lay, S.CallLines, LabelAt, UniqueNames, Fits, WellFormed, Bound, Address, At, CodeOf, Count, Call, Aim, RoutineAt, Len;
    hide IsPart, NoGlobal, HoldsAll, Size, Offset;
    PartFits(lines, base, j, LayAll(part, end));
    HoldsStep(CodeOf(lines, base), part);
    match part
    case Stop =>
    case Label(name, rest) =>
      LabelLinks(lines, base, j, name, LayAll(rest, end));
      LinkPart(lines, base, k, whole, end, j + 1, rest);
    case Plain(b, rest) =>
      PlainLinks(lines, base, j, b, LayAll(rest, end));
      LinkPart(lines, base, k, whole, end, j + Count(b), rest);
    case Jump(b, target, to, rest) =>
      JumpLinks(lines, base, k, whole, end, j, b, target, to, LayAll(rest, end));
      LinkPart(lines, base, k, whole, end, j + Count(b), rest);
    case Calls(routine, at, rest) =>
      CallLinks(lines, base, j, routine, at, LayAll(rest, end));
      LinkPart(lines, base, k, whole, end, j + 4, rest);
  }

  lemma CallMeans(lines: seq<Line>, base: word, j: nat, routine: string, at: word)
    requires Good(lines, base) && UniqueNames(lines) && RoutineAt(lines, base, routine, at) && j + 4 <= |lines|
    ensures Means(lines, base, j, 4, Ref(routine, false), at)
  {
    hide Means, UniqueNames, Fits, WellFormed, Bound, Address;
    var m :| 0 <= m < |lines| && lines[m] == GlobalLabel(routine) && Address(lines, base, m) == at;
    GlobalMeans(lines, base, m, j, 4, routine);
  }

  /** The code of an assembled program holds the routine at the address of its label. */
  lemma Links(lines: seq<Line>, base: word, k: nat, name: string, layout: Layout, end: X.Lines)
    requires Assembled(lines, base) && IsPart(lines, base, k, X.Put(GlobalLabel(name), LayAll(layout, end)))
    requires Consistent(layout, layout) && Callable(layout, lines, base)
    ensures k < |lines| && lines[k] == GlobalLabel(name)
    ensures HoldsAll(CodeOf(lines, base), Address(lines, base, k), layout, Address(lines, base, k))
  {
    hide Consistent, Callable, HoldsAll, LayAll, UniqueNames, Fits, WellFormed, Bound;
    NextAddress(lines, base, k);
    LinkPart(lines, base, k, layout, end, k + 1, layout);
  }

  // ----- evaluation, rule by rule -----

  lemma Expanding()
    ensures forall after {:trigger X.ExpandText(X.End, after)} :: X.ExpandText(X.End, after) == Some(after)
    ensures forall l, rest, after {:trigger X.ExpandText(X.Stands(l, rest), after)} ::
      X.ExpandText(X.Stands(l, rest), after)
        == var more := X.ExpandText(rest, after); if more.Some? then Some(X.Put(l, more.value)) else None
    ensures forall op, rest, after {:trigger X.ExpandText(X.Uses(op, rest), after)} ::
      X.ExpandText(X.Uses(op, rest), after)
        == var more := X.ExpandText(rest, after); if more.Some? then X.ExpandTo(X.DEPTH, op, more.value) else None
  {
    hide X.ExpandTo;
  }

  lemma EndExpands()
    ensures X.ExpandText(X.End, X.NoLines) == Some(X.NoLines)
  {
    hide X.ExpandTo;
  }

  /** Joining two texts, line by line. */
  lemma Joining()
    ensures forall tail {:trigger X.Joined(X.End, tail)} :: X.Joined(X.End, tail) == tail
    ensures forall l, rest, tail {:trigger X.Joined(X.Stands(l, rest), tail)} ::
      X.Joined(X.Stands(l, rest), tail) == X.Stands(l, X.Joined(rest, tail))
    ensures forall op, rest, tail {:trigger X.Joined(X.Uses(op, rest), tail)} ::
      X.Joined(X.Uses(op, rest), tail) == X.Uses(op, X.Joined(rest, tail))
  {
  }

  lemma Laid()
    ensures forall after {:trigger LayAll(Stop, after)} :: LayAll(Stop, after) == after
    ensures forall name, rest, after {:trigger LayAll(Label(name, rest), after)} ::
      LayAll(Label(name, rest), after) == X.Put(LocalLabel(name), LayAll(rest, after))
    ensures forall b, rest, after {:trigger LayAll(Plain(b, rest), after)} ::
      LayAll(Plain(b, rest), after) == S.Lay(b, Written, LayAll(rest, after))
    ensures forall b, t, to: nat, rest, after {:trigger LayAll(Jump(b, t, to, rest), after)} ::
      LayAll(Jump(b, t, to, rest), after) == S.Lay(b, Ref(t, true), LayAll(rest, after))
    ensures forall r, at, rest, after {:trigger LayAll(Calls(r, at, rest), after)} ::
      LayAll(Calls(r, at, rest), after) == S.CallLines(X.Symbol(r, false), LayAll(rest, after))
  {
  }

  lemma Linked(code: Code)
    ensures forall pc, name, rest, entry {:trigger HoldsAll(code, pc, Label(name, rest), entry)} ::
      HoldsAll(code, pc, Label(name, rest), entry) == HoldsAll(code, pc, rest, entry)
    ensures forall pc, b, rest, entry {:trigger HoldsAll(code, pc, Plain(b, rest), entry)} ::
      HoldsAll(code, pc, Plain(b, rest), entry) == (At(code, pc, b) && HoldsAll(code, pc + Len(b), rest, entry))
    ensures forall pc, b, t, to: nat, rest, entry {:trigger HoldsAll(code, pc, Jump(b, t, to, rest), entry)} ::
      HoldsAll(code, pc, Jump(b, t, to, rest), entry)
        == (0 <= entry + to < 65536 && At(code, pc, Aim(b, Ref(t, true), entry + to)) && HoldsAll(code, pc + Len(b), rest, entry))
    ensures forall pc, r, at, rest, entry {:trigger HoldsAll(code, pc, Calls(r, at, rest), entry)} ::
      HoldsAll(code, pc, Calls(r, at, rest), entry)
        == (0 <= pc && pc + 9 < 65536 && At(code, pc, Call(at, pc + 9)) && HoldsAll(code, pc + 9, rest, entry))
  {
    hide At;
  }

  lemma Labelled()
    ensures forall name, rest {:trigger LabelAt(Label(name, rest), name, 0)} :: LabelAt(Label(name, rest), name, 0)
    ensures forall other, name, rest, n {:trigger LabelAt(Label(other, rest), name, n)} ::
      LabelAt(rest, name, n) ==> LabelAt(Label(other, rest), name, n)
    ensures forall b, name, rest, n {:trigger LabelAt(Plain(b, rest), name, n)} ::
      LabelAt(Plain(b, rest), name, n) == LabelAt(rest, name, n - Len(b))
    ensures forall b, t, to: nat, name, rest, n {:trigger LabelAt(Jump(b, t, to, rest), name, n)} ::
      LabelAt(Jump(b, t, to, rest), name, n) == LabelAt(rest, name, n - Len(b))
    ensures forall r, at, name, rest, n {:trigger LabelAt(Calls(r, at, rest), name, n)} ::
      LabelAt(Calls(r, at, rest), name, n) == LabelAt(rest, name, n - 9)
  {
  }

  lemma Consisting()
    ensures forall whole {:trigger Consistent(Stop, whole)} :: Consistent(Stop, whole)
    ensures forall name, rest, whole {:trigger Consistent(Label(name, rest), whole)} ::
      Consistent(Label(name, rest), whole) == Consistent(rest, whole)
    ensures forall b, rest, whole {:trigger Consistent(Plain(b, rest), whole)} ::
      Consistent(Plain(b, rest), whole) == Consistent(rest, whole)
    ensures forall b, t, to: nat, rest, whole {:trigger Consistent(Jump(b, t, to, rest), whole)} ::
      Consistent(Jump(b, t, to, rest), whole) == (LabelAt(whole, t, to) && Consistent(rest, whole))
    ensures forall r, at, rest, whole {:trigger Consistent(Calls(r, at, rest), whole)} ::
      Consistent(Calls(r, at, rest), whole) == Consistent(rest, whole)
  {
  }

  lemma NoCalls(lines: seq<Line>, base: word)
    requires Good(lines, base)
    ensures Callable(Stop, lines, base)
    ensures forall name, rest {:trigger Callable(Label(name, rest), lines, base)} ::
      Callable(Label(name, rest), lines, base) == Callable(rest, lines, base)
    ensures forall b, rest {:trigger Callable(Plain(b, rest), lines, base)} ::
      Callable(Plain(b, rest), lines, base) == Callable(rest, lines, base)
    ensures forall b, t, to: nat, rest {:trigger Callable(Jump(b, t, to, rest), lines, base)} ::
      Callable(Jump(b, t, to, rest), lines, base) == (NoGlobal(lines, t) && Callable(rest, lines, base))
    ensures forall r, at, rest {:trigger Callable(Calls(r, at, rest), lines, base)} ::
      Callable(Calls(r, at, rest), lines, base) == (RoutineAt(lines, base, r, at) && Callable(rest, lines, base))
  {
    hide UniqueNames, Fits, WellFormed, Bound, RoutineAt;
  }

  lemma Gluing(code: Code)
    ensures forall pc: int, p, q {:trigger At(code, pc, Cat(p, q))} ::
      At(code, pc, Cat(p, q)) <==> At(code, pc, p) && At(code, pc + Len(p), q)
  {
  }

  // ----- a routine in the source of a program -----

  /** These are the lines that are emitted for a text, which includes the given part. */
  ghost predicate MadeFrom(lines: seq<Line>, base: word, text: X.Text, part: X.Text) {
    X.Includes(text, part) && Interleaving.Interleaved(text, [], base) == Some(lines)
  }

  /** When parsing comes to this part of the text, k lines have been emitted. */
  ghost predicate BeginsAt(lines: seq<Line>, base: word, text: X.Text, part: X.Text, k: nat) {
    k <= |lines| && Interleaving.Reached(text, part, [], base) == Some(lines[..k])
  }

  lemma {:induction false} EmitsPart(lines: seq<Line>, done: seq<Line>, ls: X.Lines, base: word)
    requires Interleaving.Emits(done, ls, base) <= lines
    ensures done <= lines && IsPart(lines, base, |done|, ls)
    decreases ls
  {
    hide Choosing.KnownLine;
    if ls.Put? {
      EmitsPart(lines, done + [Choosing.KnownLine(ls.first, done, base)], ls.rest, base);
      assert lines[..|done|] == done;
    }
  }

  /** Every part of the text has its line, and what is emitted from there on is what that part emits. */
  lemma PartBegins(lines: seq<Line>, base: word, text: X.Text, part: X.Text) returns (k: nat)
    requires MadeFrom(lines, base, text, part)
    ensures k <= |lines| && BeginsAt(lines, base, text, part, k) && Interleaving.Interleaved(part, lines[..k], base) == Some(lines)
  {
    hide Interleaving.Interleaved, Interleaving.Reached, X.Includes;
    Interleaving.ReachesPart(text, part, [], base);
    var front := Interleaving.Reached(text, part, [], base).value;
    Interleaving.KeepsFront(part, front, base);
    k := |front|;
    assert lines[..k] == front;
  }

  /** What parsing comes to there stands there, be its names left as names or known already. */
  lemma EmitsThere(lines: seq<Line>, base: word, k: nat, part: X.Text, tail: X.Text, t: X.Text, ls: X.Lines)
    requires k <= |lines| && Interleaving.Interleaved(X.Joined(part, tail), lines[..k], base) == Some(lines)
    requires Interleaving.SameText(t, part, lines[..k], base) && X.ExpandText(t, X.NoLines) == Some(ls)
    ensures IsPart(lines, base, k, ls)
  {
    hide Interleaving.Interleaved, Interleaving.Emits, Interleaving.SameText, X.ExpandText, X.Joined, IsPart;
    var front := lines[..k];
    Interleaving.Agrees(t, part, tail, front, ls, base);
    Interleaving.KeepsFront(tail, Interleaving.Emits(front, ls, base), base);
    EmitsPart(lines, front, ls, base);
  }

  /** A part that expands with its names left as names stands there, whatever comes behind it. */
  lemma PartStands(lines: seq<Line>, base: word, text: X.Text, part: X.Text, tail: X.Text, ls: X.Lines) returns (k: nat)
    requires MadeFrom(lines, base, text, X.Joined(part, tail)) && X.ExpandText(part, X.NoLines) == Some(ls)
    ensures BeginsAt(lines, base, text, X.Joined(part, tail), k) && IsPart(lines, base, k, ls)
  {
    hide Interleaving.Interleaved, X.ExpandText, X.Joined, IsPart, MadeFrom, BeginsAt;
    k := PartBegins(lines, base, text, X.Joined(part, tail));
    assert Interleaving.SameText(part, part, lines[..k], base);
    EmitsThere(lines, base, k, part, tail, part, ls);
  }

  /** The address of a global label. */
  function EntryOf(lines: seq<Line>, base: word, name: string): Option<word>
    requires Good(lines, base)
  {
    var m := FindGlobal(lines, name, 0);
    if m.Some? then Some(Address(lines, base, m.value)) else None
  }

  lemma OneEntry(lines: seq<Line>, base: word, k: nat, name: string)
    requires Good(lines, base) && UniqueNames(lines) && k < |lines| && lines[k] == GlobalLabel(name)
    ensures EntryOf(lines, base, name) == Some(Address(lines, base, k))
  {
    assert FindGlobal(lines, name, 0) == Some(k);
  }

  /** A routine whose text is part of the source stands at its label in the assembled code. */
  lemma RoutineStands(lines: seq<Line>, base: word, text: X.Text, part: X.Text, tail: X.Text, name: string, layout: Layout)
    returns (entry: word)
    requires Assembled(lines, base) && MadeFrom(lines, base, text, X.Joined(part, tail))
    requires X.ExpandText(part, X.NoLines) == Some(X.Put(GlobalLabel(name), LayAll(layout, X.NoLines)))
    requires Consistent(layout, layout) && Callable(layout, lines, base)
    ensures EntryOf(lines, base, name) == Some(entry) && HoldsAll(CodeOf(lines, base), entry, layout, entry)
  {
    hide X.ExpandText, X.Joined, LayAll, IsPart, Address, CodeOf, HoldsAll, Fits, WellFormed, Bound, Consistent, Callable, BeginsAt, MadeFrom;
    var k := PartStands(lines, base, text, part, tail, X.Put(GlobalLabel(name), LayAll(layout, X.NoLines)));
    Links(lines, base, k, name, layout, X.NoLines);
    entry := Address(lines, base, k);
    OneEntry(lines, base, k, name);
  }
}
