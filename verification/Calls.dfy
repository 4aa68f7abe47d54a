/**
 Calls and returns (the macros CALL and RET): a call comes back to the instruction behind it, with
 the stack pointer as it was, however deep calls nest.
 */
module Calls {
  import opened Words
  import opened Isa
  import opened Core
  import opened Macros
  import opened Blocks

  /** `call hi, lo`, when the instruction behind it is at ret. */
  function CallPair(hi: Reg, lo: Reg, ret: word): (block: Block)
    ensures Len(block) == 10
  {
    var go := Cat(Point(hi, lo), One(JNZ(Imm(1))));
    assert Len(go) == 6;
    Cat(Cat(One(PUSH(Imm(Hi(ret)))), One(PUSH(Imm(Lo(ret))))), go)
  }

  /** The routine at pc has been entered, with ret on the stack. */
  predicate Entered(h: Core, h1: Core, pc: word, ret: word) {
    && h.sp >= 2 && h1.pc == pc && h1.sp == h.sp - 2 && h1.readOnly == h.readOnly
    && h1.ram == h.ram[h.sp := Hi(ret)][h.sp - 1 := Lo(ret)]
  }

  lemma RunCallPair(code: Code, h: Core, hi: Reg, lo: Reg, ret: word) returns (h': Core)
    requires At(code, h.pc, CallPair(hi, lo, ret)) && Room(h, 2)
    ensures Reaches(code, h, h') && Entered(h, h', Pointed(h.g, hi, lo), ret) && SameData(h.g, h'.g)
  {
    hide At, Reaches, Point, Regs.Get, Hi, Lo;
    var i, j, jump := PUSH(Imm(Hi(ret))), PUSH(Imm(Lo(ret))), JNZ(Imm(1));
    var go := Cat(Point(hi, lo), One(jump));
    Split(code, h.pc, Cat(One(i), One(j)), go);
    Split(code, h.pc, One(i), One(j));
    Split(code, h.pc + 4, Point(hi, lo), One(jump));
    assert h.Writable(h.sp) && h.Writable(h.sp - 1);
    RunOne(code, h, i);
    var h1 := After(i, h);
    RunOne(code, h1, j);
    var h2 := After(j, h1);
    Chain(code, h, h1, h2);
    RunPoint(code, h2, hi, lo);
    var h3 := h2.(g := h2.g.(h := h2.g.Get(hi), l := LowSeen(h2.g, hi, lo)), pc := h2.pc + 4);
    Chain(code, h, h2, h3);
    RunOne(code, h3, jump);
    h' := After(jump, h3);
    Chain(code, h, h3, h');
  }

  /** A call instruction of either form at the pc of h, which goes to t and comes back to ret. */
  ghost predicate CallHere(code: Code, h: Core, t: word, ret: word) {
    || (ret == h.pc + 9 && At(code, h.pc, Call(t, ret)))
    || (ret == h.pc + 10 && exists hi, lo :: At(code, h.pc, CallPair(hi, lo, ret)) && Pointed(h.g, hi, lo) == t)
  }

  lemma RunCallHere(code: Code, h: Core, t: word, ret: word) returns (h': Core)
    requires CallHere(code, h, t, ret) && Room(h, 2)
    ensures Reaches(code, h, h') && Entered(h, h', t, ret) && SameData(h.g, h'.g)
  {
    hide At, Reaches, Call, CallPair, Hi, Lo;
    if ret == h.pc + 9 && At(code, h.pc, Call(t, ret)) {
      h' := RunCall(code, h, t, ret);
    } else {
      var hi, lo :| At(code, h.pc, CallPair(hi, lo, ret)) && Pointed(h.g, hi, lo) == t;
      h' := RunCallPair(code, h, hi, lo, ret);
    }
  }

  // ----- call trees -----

  /** A run: some steps, one run after another, or a call whose callee runs to its end. */
  datatype Tree = Quiet(n: nat) | Both(first: Tree, second: Tree) | Calling(t: word, ret: word, callee: Tree)

  /** No cell above the floor is different. */
  predicate Above(floor: int, h: Core, h': Core) {
    h'.ram.Keys == h.ram.Keys && forall x | x in h.ram && x > floor :: h'.ram[x] == h.ram[x]
  }

  /**
   The run goes from h to h'. Steps of its own may push and pop below the floor, which is where the
   stack stood when the routine was entered; a callee must be back at its own floor when it returns.
   */
  ghost predicate Behaves(code: Code, h: Core, h': Core, tree: Tree, floor: int)
    decreases tree
  {
    match tree
    case Quiet(n) => Steps(code, h, h', n) && h'.sp <= floor && Above(floor, h, h')
    case Both(p, q) => exists mid :: Behaves(code, h, mid, p, floor) && Behaves(code, mid, h', q, floor)
    case Calling(t, ret, callee) =>
      && h.sp <= floor && CallHere(code, h, t, ret) && Room(h, 2)
      && exists h1, h2 ::
        && Reaches(code, h, h1) && Entered(h, h1, t, ret)
        && Behaves(code, h1, h2, callee, h1.sp) && Returns(code, h1, h2, h')
  }

  /** The callee ends in a RET with the stack as it found it. */
  ghost predicate Returns(code: Code, h1: Core, h2: Core, h': Core) {
    && h2.sp == h1.sp && At(code, h2.pc, Ret()) && h2.Readable(h2.sp + 1) && h2.Readable(h2.sp + 2)
    && Reaches(code, h2, h') && h'.ram == h2.ram && h'.sp == h2.sp + 2 && h'.pc == ReturnAddress(h2)
  }

  /**
   Calls nest: whatever tree of calls a run makes, it stays out of the cells above its floor, and
   every call resumes at the instruction right behind it, with the stack pointer it was made with.
   */
  lemma {:induction false} CallsNest(code: Code, h: Core, h': Core, tree: Tree, floor: int)
    requires Behaves(code, h, h', tree, floor)
    ensures Reaches(code, h, h') && Above(floor, h, h')
    ensures tree.Calling? ==> h'.pc == tree.ret && h'.sp == h.sp && tree.ret in {h.pc + 9, h.pc + 10}
    decreases tree
  {
    hide At, Steps, Call, CallPair, Hi, Lo, Pair;
    match tree
    case Quiet(n) =>
    case Both(p, q) =>
      var mid :| Behaves(code, h, mid, p, floor) && Behaves(code, mid, h', q, floor);
      CallsNest(code, h, mid, p, floor);
      CallsNest(code, mid, h', q, floor);
      Chain(code, h, mid, h');
    case Calling(t, ret, callee) =>
      var h1, h2 :|
        && Reaches(code, h, h1) && Entered(h, h1, t, ret)
        && Behaves(code, h1, h2, callee, h1.sp) && Returns(code, h1, h2, h');
      CallsNest(code, h1, h2, callee, h1.sp);
      Chain(code, h, h1, h2);
      Chain(code, h, h2, h');
      assert h.Writable(h.sp) && h.Writable(h.sp - 1);
      PairHiLo(ret);
  }

  /** Such runs exist: a call, a callee that comes to its RET in balance, and the return make one. */
  lemma CallBehaves(code: Code, h: Core, t: word, ret: word, h1: Core, h2: Core, callee: Tree, floor: int) returns (h': Core)
    requires h.sp <= floor && CallHere(code, h, t, ret) && Room(h, 2)
    requires Reaches(code, h, h1) && Entered(h, h1, t, ret) && Behaves(code, h1, h2, callee, h1.sp)
    requires h2.sp == h1.sp && At(code, h2.pc, Ret())
    ensures Behaves(code, h, h', Calling(t, ret, callee), floor) && h'.pc == ret && h'.sp == h.sp
  {
    hide At, Steps, Call, CallPair, Hi, Lo, Pair, CallHere;
    CallsNest(code, h1, h2, callee, h1.sp);
    assert h.Writable(h.sp) && h.Writable(h.sp - 1);
    h' := RunRet(code, h2);
    assert Returns(code, h1, h2, h');
    PairHiLo(ret);
  }
}
