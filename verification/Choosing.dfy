/**
 Names that a label in front has are numbers by the time overloads are chosen (asm/asm.c, eval_labels
 and find_macro). What an operation with its names left as names is taken for, it is taken for with
 the numbers in it as well.
 */
module Choosing {
  import opened Words
  import opened Source
  import opened MacroTable
  import opened Expand

  // ----- overloads that a number and a name choose alike -----

  /** No parameter that takes small numbers and registers, but no names. */
  predicate Firm(e: Params) { e.NoParams? || (!e.first.IMM8_REG? && Firm(e.rest)) }

  /** One of them takes registers only, the other none. */
  predicate Excludes(p: Param, q: Param) {
    (p.REG? && !TakesReg(q)) || (q.REG? && !TakesReg(p))
  }

  /** No arguments fit both, whatever becomes of the names in them. */
  predicate Split(e: Params, m: Params) {
    if e.NoParams? || m.NoParams? then e != m else Excludes(e.first, m.first) || Split(e.rest, m.rest)
  }

  predicate Separate(e: Params, m: Params) { Firm(e) || (NoOptional(e) && NoOptional(m) && Split(e, m)) }

  predicate SeparateAll(e: Params, ms: Macros) {
    match ms
    case NoMacros => true
    case Macro(ps, _, rest) => Separate(e, ps) && SeparateAll(e, rest)
  }

  /** Each overload is separate from all later ones. */
  predicate Steady(ms: Macros) {
    match ms
    case NoMacros => true
    case Macro(ps, _, rest) => SeparateAll(ps, rest) && Steady(rest)
  }

  lemma SteadyRules()
    ensures Steady(NoMacros)
    ensures forall ps, b, rest {:trigger Steady(Macro(ps, b, rest))} :: Steady(Macro(ps, b, rest)) == (SeparateAll(ps, rest) && Steady(rest))
    ensures forall e {:trigger SeparateAll(e, NoMacros)} :: SeparateAll(e, NoMacros)
    ensures forall e, ps, b, rest {:trigger SeparateAll(e, Macro(ps, b, rest))} ::
      SeparateAll(e, Macro(ps, b, rest)) == (Separate(e, ps) && SeparateAll(e, rest))
  {
  }

  lemma Steady1()
    ensures Steady(HaltMacros()) && Steady(ClfMacros()) && Steady(SubMacros())
    ensures Steady(OutbMacros()) && Steady(IncMacros()) && Steady(FdecMacros())
    ensures Steady(DecMacros()) && Steady(Eq16Macros()) && Steady(Inc16Macros())
  {
    hide Lowers, Steady, SeparateAll;
    SteadyRules();
  }

  lemma Steady2()
    ensures Steady(Dec16Macros()) && Steady(Sub16Macros()) && Steady(Add16Macros())
    ensures Steady(SignMacros()) && Steady(Sign16Macros()) && Steady(Mw16Macros())
    ensures Steady(NotMacros()) && Steady(NandMacros()) && Steady(XnorMacros())
  {
    hide Lowers, Steady, SeparateAll;
    SteadyRules();
  }

  lemma Steady3()
    ensures Steady(XorMacros()) && Steady(LdaMacros()) && Steady(Lw16Macros())
    ensures Steady(Sw16Macros()) && Steady(LwMacros()) && Steady(SwMacros())
    ensures Steady(CallMacros()) && Steady(RetMacros()) && Steady(JnzMacros())
  {
    hide Lowers, Steady, SeparateAll;
    SteadyRules();
  }

  lemma Steady4()
    ensures Steady(JmpMacros()) && Steady(JmsMacros()) && Steady(JmnMacros())
    ensures Steady(JltMacros()) && Steady(JleMacros()) && Steady(JeqMacros())
    ensures Steady(JneMacros()) && Steady(JgeMacros()) && Steady(JgtMacros())
  {
    hide Lowers, Steady, SeparateAll;
    SteadyRules();
  }

  lemma Steady5()
    ensures Steady(JzMacros()) && Steady(JcMacros()) && Steady(JncMacros())
    ensures Steady(JbMacros()) && Steady(JnbMacros()) && Steady(StlMacros())
    ensures Steady(CllMacros()) && Steady(SteMacros()) && Steady(CleMacros())
  {
    hide Lowers, Steady, SeparateAll;
    SteadyRules();
  }

  lemma Steady6()
    ensures Steady(StcMacros()) && Steady(ClcMacros()) && Steady(StbMacros())
    ensures Steady(ClbMacros()) && Steady(PushMacros()) && Steady(PopMacros())
    ensures Steady(PushaMacros()) && Steady(PopaMacros())
  {
    hide Lowers, Steady, SeparateAll;
    SteadyRules();
  }

  /** The built-in macros of every name. */
  lemma AllSteady(name: Name)
    ensures Steady(Overloads(name))
  {
    hide Steady, Lowers;
    hide
      HaltMacros, ClfMacros, SubMacros, OutbMacros, IncMacros, FdecMacros, DecMacros, Eq16Macros,
      Inc16Macros, Dec16Macros, Sub16Macros, Add16Macros, SignMacros, Sign16Macros, Mw16Macros, NotMacros,
      NandMacros, XnorMacros, XorMacros, LdaMacros, Lw16Macros, Sw16Macros, LwMacros, SwMacros,
      CallMacros, RetMacros, JnzMacros, JmpMacros, JmsMacros, JmnMacros, JltMacros, JleMacros, JeqMacros,
      JneMacros, JgeMacros, JgtMacros, JzMacros, JcMacros, JncMacros, JbMacros, JnbMacros, StlMacros,
      CllMacros, SteMacros, CleMacros, StcMacros, ClcMacros, StbMacros, ClbMacros, PushMacros, PopMacros,
      PushaMacros, PopaMacros;
    SteadyRules();
    Steady1();
    Steady2();
    Steady3();
    Steady4();
    Steady5();
    Steady6();
  }

  lemma NativeSteady()
    ensures SeparateAll(Takes2(REG, IMM16_HL), LwMacros()) && SeparateAll(Takes2(IMM16_HL, REG), SwMacros())
    ensures SeparateAll(Takes1(IMM8_REG), PushMacros()) && SeparateAll(Takes1(REG), PopMacros())
    ensures SeparateAll(Takes1(IMM16), LdaMacros()) && SeparateAll(Takes1(IMM8_REG), JnzMacros())
    ensures SeparateAll(Takes2(IMM8_REG, REG), OutbMacros())
  {
    hide Lowers, SeparateAll;
    SteadyRules();
  }

  /** The native operation of a name is separate from its macros. */
  lemma NativeSeparate(name: Name)
    requires NativeParams(name).Some?
    ensures SeparateAll(NativeParams(name).value, Overloads(name))
  {
    hide SeparateAll, Lowers;
    hide
      HaltMacros, ClfMacros, SubMacros, OutbMacros, IncMacros, FdecMacros, DecMacros, Eq16Macros,
      Inc16Macros, Dec16Macros, Sub16Macros, Add16Macros, SignMacros, Sign16Macros, Mw16Macros, NotMacros,
      NandMacros, XnorMacros, XorMacros, LdaMacros, Lw16Macros, Sw16Macros, LwMacros, SwMacros,
      CallMacros, RetMacros, JnzMacros, JmpMacros, JmsMacros, JmnMacros, JltMacros, JleMacros, JeqMacros,
      JneMacros, JgeMacros, JgtMacros, JzMacros, JcMacros, JncMacros, JbMacros, JnbMacros, StlMacros,
      CllMacros, SteMacros, CleMacros, StcMacros, ClcMacros, StbMacros, ClbMacros, PushMacros, PopMacros,
      PushaMacros, PopaMacros;
    SteadyRules();
    NativeSteady();
  }

  // ----- names that are known already -----

  /** The address of the last label of that name in front, which eval_labels puts in place of the name. */
  function Early(out: seq<Line>, base: word, name: string): Option<word> {
    var m := LastGlobal(out, name, |out|);
    if RegNamed(name).Some? || m.None? then None else Some(U16(base + Offset(out, m.value)))
  }

  function Known(a: Arg, out: seq<Line>, base: word): Arg {
    match a
    case Symbol(name, _) => if Early(out, base, name).Some? then Number(Early(out, base, name).value) else a
    case _ => a
  }

  function KnownArgs(args: Args, out: seq<Line>, base: word): Args {
    match args
    case NoArgs => NoArgs
    case Args(a, rest) => Args(Known(a, out, base), KnownArgs(rest, out, base))
  }

  function KnownOp(op: Operation, out: seq<Line>, base: word): Operation {
    Do(op.name, KnownArgs(op.args, out, base))
  }

  /** A line behind the lines `out`, with the address of a known name in it. */
  function KnownLine(l: Line, out: seq<Line>, base: word): (r: Line)
    ensures WellFormed(r) == WellFormed(l) && SizeOf(r) == SizeOf(l) && r.Op? == l.Op?
    ensures r.Labels() || !l.Op? || !l.x.Ref? ==> r == l
  {
    match l
    case Op(i, Ref(name, _)) =>
      if HasAddress(i) && Early(out, base, name).Some?
      then Op(WithAddress(i, Early(out, base, name).value), Written) else l
    case _ => l
  }

  /** A program with the addresses of known names in its lines. */
  function Filling(lines: seq<Line>, base: word): (r: seq<Line>)
    ensures |r| == |lines|
    ensures forall k | 0 <= k < |lines| :: r[k] == KnownLine(lines[k], lines[..k], base)
  {
    if lines == [] then []
    else
      var init := lines[..|lines| - 1];
      assert forall k | 0 <= k < |init| :: init[..k] == lines[..k];
      Filling(init, base) + [KnownLine(lines[|lines| - 1], init, base)]
  }

  // ----- overloads are chosen alike -----

  lemma FailsMore(p: Param, a: Arg, out: seq<Line>, base: word)
    ensures Fails(p, Known(a, out, base)) ==> Fails(p, a)
    ensures !p.IMM8_REG? ==> Fails(p, Known(a, out, base)) == Fails(p, a)
    ensures Known(a, out, base).Register? == a.Register?
  {
    hide Early;
  }

  lemma {:induction false} TakesMore(ps: Params, args: Args, out: seq<Line>, base: word)
    requires Accepts(ps, args)
    ensures Accepts(ps, KnownArgs(args, out, base))
    decreases ps
  {
    hide Known, Fails;
    if args.Args? {
      FailsMore(ps.first, args.first, out, base);
      if Fails(ps.first, args.first) {
        assert Fails(ps.first, Known(args.first, out, base)) by { FailsSame(ps.first, args.first, out, base); }
        TakesMore(ps.rest, args, out, base);
      } else {
        TakesMore(ps.rest, args.rest, out, base);
      }
    }
  }

  lemma FailsSame(p: Param, a: Arg, out: seq<Line>, base: word)
    requires Optional(p)
    ensures Fails(p, Known(a, out, base)) == Fails(p, a)
  {
    FailsMore(p, a, out, base);
  }

  lemma {:induction false} FirmTakes(ps: Params, args: Args, out: seq<Line>, base: word)
    requires Firm(ps)
    ensures Accepts(ps, KnownArgs(args, out, base)) == Accepts(ps, args)
    decreases ps
  {
    hide Known, Fails;
    if args.Args? && ps.Params? {
      FailsMore(ps.first, args.first, out, base);
      FirmTakes(ps.rest, args, out, base);
      FirmTakes(ps.rest, args.rest, out, base);
    }
  }

  lemma {:induction false} SplitRefuses(e: Params, m: Params, args: Args, out: seq<Line>, base: word)
    requires NoOptional(e) && NoOptional(m) && Split(e, m) && Accepts(m, args)
    ensures !Accepts(e, KnownArgs(args, out, base))
    decreases args
  {
    hide Known, Fails;
    if args.Args? && e.Params? {
      FailsMore(e.first, args.first, out, base);
      if Excludes(e.first, m.first) {
        OneKind(e.first, m.first, args.first, Known(args.first, out, base));
      } else {
        SplitRefuses(e.rest, m.rest, args.rest, out, base);
      }
    }
  }

  lemma OneKind(p: Param, q: Param, a: Arg, b: Arg)
    requires Excludes(p, q) && !Optional(p) && !Optional(q) && a.Register? == b.Register? && !Fails(q, a)
    ensures Fails(p, b)
  {
  }

  /** What an overload takes, an earlier one that did not take it still does not. */
  lemma SeparateStays(e: Params, m: Params, args: Args, out: seq<Line>, base: word)
    requires Separate(e, m) && Accepts(m, args) && !Accepts(e, args)
    ensures !Accepts(e, KnownArgs(args, out, base))
  {
    hide Accepts, KnownArgs;
    if Firm(e) {
      FirmTakes(e, args, out, base);
    } else {
      SplitRefuses(e, m, args, out, base);
    }
  }

  lemma {:induction false} LaterSeparate(e: Params, ms: Macros, args: Args)
    requires SeparateAll(e, ms) && FirstMatch(ms, args).Macro?
    ensures Separate(e, FirstMatch(ms, args).params) && Accepts(FirstMatch(ms, args).params, args)
    decreases ms
  {
    hide Accepts, Separate;
    if !Accepts(ms.params, args) {
      LaterSeparate(e, ms.rest, args);
    }
  }

  lemma {:induction false} SameMatch(ms: Macros, args: Args, out: seq<Line>, base: word)
    requires Steady(ms) && FirstMatch(ms, args).Macro?
    ensures FirstMatch(ms, KnownArgs(args, out, base)) == FirstMatch(ms, args)
    decreases ms
  {
    hide Accepts, Separate, SeparateAll, KnownArgs;
    if Accepts(ms.params, args) {
      TakesMore(ms.params, args, out, base);
    } else {
      LaterSeparate(ms.params, ms.rest, args);
      SeparateStays(ms.params, FirstMatch(ms.rest, args).params, args, out, base);
      SameMatch(ms.rest, args, out, base);
    }
  }

  /** An operation that expands is expanded by the same overload when its known names are numbers. */
  lemma SameChoice(op: Operation, out: seq<Line>, base: word)
    ensures IsNative(op) ==> IsNative(KnownOp(op, out, base))
    ensures
      var m := FirstMatch(Overloads(op.name), op.args);
      !IsNative(op) && m.Macro? ==>
        !IsNative(KnownOp(op, out, base)) && FirstMatch(Overloads(op.name), KnownOp(op, out, base).args) == m
  {
    hide Accepts, Separate, SeparateAll, KnownArgs, Steady, FirstMatch, Overloads, NativeParams;
    var m := FirstMatch(Overloads(op.name), op.args);
    AllSteady(op.name);
    if m.Macro? {
      SameMatch(Overloads(op.name), op.args, out, base);
    }
    if NativeParams(op.name).Some? {
      var ps := NativeParams(op.name).value;
      if Accepts(ps, op.args) {
        TakesMore(ps, op.args, out, base);
      } else if m.Macro? {
        NativeSeparate(op.name);
        LaterSeparate(ps, Overloads(op.name), op.args);
        SeparateStays(ps, m.params, op.args, out, base);
      }
    }
  }

  /** And the instruction of a native operation is the same with the address in it. */
  lemma SameNative(op: Operation, out: seq<Line>, base: word)
    requires NativeLine(op).Some?
    ensures NativeLine(KnownOp(op, out, base)) == Some(KnownLine(NativeLine(op).value, out, base))
  {
    hide Early, AluOf;
    assert KnownArgs(NoArgs, out, base) == NoArgs;
    var a, more := op.args.first, op.args.rest;
    assert KnownArgs(op.args, out, base) == Args(Known(a, out, base), KnownArgs(more, out, base));
    if more.Args? {
      assert KnownArgs(more, out, base) == Args(Known(more.first, out, base), NoArgs);
      SameNative2(op.name, a, more.first, out, base);
    }
  }

  lemma SameNative2(name: Name, a: Arg, b: Arg, out: seq<Line>, base: word)
    requires Native2(name, a, b).Some?
    ensures Native2(name, Known(a, out, base), Known(b, out, base)) == Some(KnownLine(Native2(name, a, b).value, out, base))
  {
    hide Early, AluOf;
  }
}
