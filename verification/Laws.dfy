/**
 Laws of the expression evaluator, operator by operator, on the tokens between two parentheses:
 what the value is to the operands, and exactly when there is one (asm/eval.c, eval_exp_op).
 */
module Laws {
  import opened Words
  import opened Source
  import opened Tokens
  import opened Eval

  /** A group has a value that a word holds, signed or not. */
  predicate InRange(w: int) { -32768 <= w <= 65535 }

  /** A 64-bit signed integer. */
  predicate Long(v: int) { -0x8000_0000_0000_0000 <= v <= 0x7FFF_FFFF_FFFF_FFFF }

  /** (x op y) */
  function Two(x: int, op: Operator, y: int): seq<Tok> { [LParen, Num(x), Sign(op), Num(y), RParen] }

  /** (op x) */
  function Signed(op: Operator, x: int): seq<Tok> { [LParen, Sign(op), Num(x), RParen] }

  /** The evaluator's answer for a group of tokens. */
  function Answer(group: seq<Tok>): Outcome
    requires |group| > 1
  {
    Group(group, 0, |group| - 1)
  }

  /** The evaluator's mark for "no value yet" in front of a minus or a tilde counts as nothing. */
  const MARK: int := 0x7FFF_FFFF_FFFF_FFFF

  lemma TwoMeans(x: int, op: Operator, y: int)
    ensures Answer(Two(x, op, y)) ==
      match Applied(Sign(op), x, y)
      case Value(w) => Bounded(w)
      case bad => bad
  {
    hide Applied, Bounded;
    var s := Two(x, op, y);
    assert s[0].LParen? && s[1] == Num(x) && s[2] == Sign(op) && s[3] == Num(y);
    assert Items(s, 1, 4, NOTHING, None) == Item(s, 1, 4, NOTHING, None, x) == Items(s, 2, 4, x, None);
    assert Items(s, 2, 4, x, None) == Items(s, 3, 4, x, Some(s[2])) == Item(s, 3, 4, x, Some(s[2]), y);
  }

  lemma SignedMeans(op: Operator, x: int)
    ensures Answer(Signed(op, x)) ==
      match Applied(Sign(op), NOTHING, x)
      case Value(w) => Bounded(w)
      case bad => bad
  {
    hide Applied, Bounded;
    var s := Signed(op, x);
    assert s[1] == Sign(op) && s[2] == Num(x);
    assert Items(s, 1, 3, NOTHING, None) == Items(s, 2, 3, NOTHING, Some(s[1])) == Item(s, 2, 3, NOTHING, Some(s[1]), x);
  }

  lemma AloneMeans(x: int)
    ensures Answer([LParen, Num(x), RParen]) == if InRange(x) then Value(x) else Rejected
  {
    var s := [LParen, Num(x), RParen];
    assert Items(s, 1, 2, NOTHING, None) == Item(s, 1, 2, NOTHING, None, x) == Items(s, 2, 2, x, None);
  }

  // ----- sums, products, quotients -----

  /** w + y == x, or w == -y behind the mark. */
  lemma MinusLaw(x: int, y: int, w: int)
    ensures Answer(Two(x, Minus, y)) == Value(w) <==> InRange(w) && w + y == if x == MARK then 0 else x
    ensures Answer(Two(x, Minus, y)).Undefined? <==> !Long(if x == MARK then -y else x - y)
  {
    TwoMeans(x, Minus, y);
  }

  lemma PlusLaw(x: int, y: int, w: int)
    ensures Answer(Two(x, Plus, y)) == Value(w) <==> InRange(w) && w - y == x
    ensures Answer(Two(x, Plus, y)).Undefined? <==> !Long(x + y)
  {
    TwoMeans(x, Plus, y);
  }

  lemma StarLaw(x: int, y: int, w: int)
    ensures Answer(Two(x, Star, y)) == Value(w) <==> InRange(w) && w == x * y
    ensures Answer(Two(x, Star, y)).Undefined? <==> !Long(x * y)
  {
    TwoMeans(x, Star, y);
  }

  function Abs(x: int): nat { if x < 0 then -x else x }

  /** x == w * y + r with a remainder that is smaller than y and has the sign of x, if it is not zero. */
  predicate Divided(x: int, y: int, w: int) {
    var r := x - w * y;
    y != 0 && Abs(r) < Abs(y) && (r < 0 ==> x < 0) && (r > 0 ==> x > 0)
  }

  lemma SlashLaw(x: int, y: int, w: int)
    ensures Answer(Two(x, Slash, y)) == Value(w) <==> InRange(w) && Divided(x, y, w)
    ensures Answer(Two(x, Slash, y)).Undefined? <==> y == 0 || forall v | Divided(x, y, v) :: !Long(v)
  {
    hide Divided, Quotient;
    TwoMeans(x, Slash, y);
    if y != 0 {
      QuotientDivides(x, y);
      forall v | Divided(x, y, v)
        ensures v == Quotient(x, y)
      {
        OneQuotient(x, y, v, Quotient(x, y));
      }
    } else {
      assert !Divided(x, y, w) by { NotByZero(x, w); }
    }
  }

  lemma NotByZero(x: int, w: int)
    ensures !Divided(x, 0, w)
  {
  }

  lemma QuotientDivides(x: int, y: int)
    requires y != 0
    ensures Divided(x, y, Quotient(x, y))
  {
    var a := Abs(x);
    var q, r := a / y, a % y;
    Remainder(a, y);
    if x < 0 {
      Minuses(q, y);
      assert x - (-q) * y == -r;
    } else if x == 0 {
      Smaller(q, y);
    }
  }

  lemma Remainder(a: int, y: int)
    requires y != 0
    ensures a == (a / y) * y + a % y && 0 <= a % y < Abs(y)
  {
  }

  lemma Minuses(q: int, y: int)
    ensures (-q) * y == -(q * y)
  {
  }

  /** A multiple of y that is smaller than y is zero. */
  lemma Smaller(q: int, y: int)
    ensures Abs(q * y) < Abs(y) ==> q == 0
  {
    if q != 0 {
      Product(q, y);
    }
  }

  lemma OneQuotient(x: int, y: int, v: int, w: int)
    requires Divided(x, y, v) && Divided(x, y, w)
    ensures v == w
  {
    var d := v - w;
    assert d * y == v * y - w * y;
    if d != 0 {
      Product(d, y);
    }
  }

  lemma Product(d: int, y: int)
    requires d != 0
    ensures Abs(d * y) >= Abs(y)
  {
    Minuses(d, y);
    assert d * -y == -(d * y) && (-d) * -y == d * y;
    if y != 0 {
      Grows(Abs(d), Abs(y));
    }
  }

  // ----- bits -----

  lemma {:induction false} BitwiseSize(op: BitOp, x: int, y: int, n: nat)
    ensures 0 - Power2(n) <= Bitwise(op, x, y, n) < Power2(n)
    ensures Bitwise(op, x, y, n) < 0 <==> op.Apply(x < 0, y < 0)
    decreases n
  {
    if n != 0 {
      BitwiseSize(op, x / 2, y / 2, n - 1);
    }
  }

  /** Numbers with the same n bits and the same sign, when n bits and a sign are all they have. */
  lemma {:induction false} SameSigned(x: int, y: int, n: nat)
    requires 0 - Power2(n) <= x < Power2(n) && 0 - Power2(n) <= y < Power2(n) && (x < 0 <==> y < 0)
    requires forall k: nat | k < n :: Bit(x, k) == Bit(y, k)
    ensures x == y
    decreases n
  {
    if n != 0 {
      assert Bit(x, 0) == Bit(y, 0);
      forall k: nat | k < n - 1
        ensures Bit(x / 2, k) == Bit(y / 2, k)
      {
        assert Bit(x, k + 1) == Bit(y, k + 1);
      }
      SameSigned(x / 2, y / 2, n - 1);
    }
  }

  lemma Power63()
    ensures Power2(63) == 0x8000_0000_0000_0000
  {
    PowerSum(32, 31);
    PowerSum(16, 16);
    PowerSum(16, 15);
    PowerSum(8, 8);
    PowerSum(8, 7);
    Power2Of8();
    assert Power2(4) == 16 && Power2(7) == 128;
  }

  lemma {:induction false} PowerSum(m: nat, n: nat)
    ensures Power2(m + n) == Power2(m) * Power2(n)
    decreases m
  {
    if m > 0 {
      PowerSum(m - 1, n);
      assert Power2(m) * Power2(n) == 2 * (Power2(m - 1) * Power2(n));
    }
  }

  /** The bits that both have, as far as 64-bit numbers go. */
  ghost predicate Common(x: int, y: int, w: int) {
    (forall k: nat | k < 63 :: Bit(w, k) == (Bit(x, k) && Bit(y, k))) && (w < 0 <==> x < 0 && y < 0)
  }

  /** The bits that one of them has. */
  ghost predicate Joint(x: int, y: int, w: int) {
    (forall k: nat | k < 63 :: Bit(w, k) == (Bit(x, k) || Bit(y, k))) && (w < 0 <==> x < 0 || y < 0)
  }

  /** The bits in which they differ. */
  ghost predicate Unlike(x: int, y: int, w: int) {
    (forall k: nat | k < 63 :: Bit(w, k) == (Bit(x, k) != Bit(y, k))) && (w < 0 <==> (x < 0) != (y < 0))
  }

  ghost predicate BitByBit(op: BitOp, x: int, y: int, w: int) {
    (forall k: nat | k < 63 :: Bit(w, k) == op.Apply(Bit(x, k), Bit(y, k))) && (w < 0 <==> op.Apply(x < 0, y < 0))
  }

  /** Bit by bit, there is one answer. */
  lemma BitsDecide(op: BitOp, x: int, y: int, w: int)
    requires Long(w)
    ensures w == Bitwise(op, x, y, 63) <==> BitByBit(op, x, y, w)
  {
    hide Bitwise, Power2, Bit, BitOp.Apply;
    var b := Bitwise(op, x, y, 63);
    BitwiseSize(op, x, y, 63);
    Power63();
    forall k: nat | k < 63
      ensures Bit(b, k) == op.Apply(Bit(x, k), Bit(y, k))
    {
      BitwiseBit(op, x, y, 63, k);
    }
    if w != b && BitByBit(op, x, y, w) {
      SameSigned(w, b, 63);
    }
  }

  lemma AsBits(x: int, y: int, w: int)
    ensures BitByBit(Both, x, y, w) <==> Common(x, y, w)
    ensures BitByBit(Either, x, y, w) <==> Joint(x, y, w)
    ensures BitByBit(Differ, x, y, w) <==> Unlike(x, y, w)
  {
    hide Bit;
  }

  lemma AmpersandLaw(x: int, y: int, w: int)
    ensures Answer(Two(x, Ampersand, y)) == Value(w) <==> InRange(w) && Common(x, y, w)
    ensures !Answer(Two(x, Ampersand, y)).Undefined?
  {
    hide Bitwise, Bit, BitByBit, Common, Answer;
    TwoMeans(x, Ampersand, y);
    AsBits(x, y, w);
    if InRange(w) {
      BitsDecide(Both, x, y, w);
    }
  }

  lemma PipeLaw(x: int, y: int, w: int)
    ensures Answer(Two(x, Pipe, y)) == Value(w) <==> InRange(w) && Joint(x, y, w)
    ensures !Answer(Two(x, Pipe, y)).Undefined?
  {
    hide Bitwise, Bit, BitByBit, Joint, Answer;
    TwoMeans(x, Pipe, y);
    AsBits(x, y, w);
    if InRange(w) {
      BitsDecide(Either, x, y, w);
    }
  }

  lemma CaretLaw(x: int, y: int, w: int)
    ensures Answer(Two(x, Caret, y)) == Value(w) <==> InRange(w) && Unlike(x, y, w)
    ensures !Answer(Two(x, Caret, y)).Undefined?
  {
    hide Bitwise, Bit, BitByBit, Unlike, Answer;
    TwoMeans(x, Caret, y);
    AsBits(x, y, w);
    if InRange(w) {
      BitsDecide(Differ, x, y, w);
    }
  }

  // ----- shifts -----

  lemma LessLaw(x: int, y: int, w: int)
    ensures Answer(Two(x, Less, y)) == Value(w) <==> InRange(w) && x >= 0 && 0 <= y < 64 && w == x * Power2(y)
    ensures Answer(Two(x, Less, y)).Undefined? <==> x < 0 || !(0 <= y < 64) || !Long(x * Power2(y))
  {
    hide Power2;
    TwoMeans(x, Less, y);
  }

  /** The floor of the quotient by 2^y. */
  lemma GreaterLaw(x: int, y: int, w: int)
    ensures Answer(Two(x, Greater, y)) == Value(w)
      <==> InRange(w) && 0 <= y < 64 && w * Power2(y) <= x < (w + 1) * Power2(y)
    ensures Answer(Two(x, Greater, y)).Undefined? <==> !(0 <= y < 64)
  {
    hide Power2;
    TwoMeans(x, Greater, y);
    if 0 <= y < 64 {
      PowerPositive(y);
      FloorIs(x, Power2(y), w);
    }
  }

  lemma FloorIs(x: int, p: int, w: int)
    requires p > 0
    ensures w == x / p <==> w * p <= x < (w + 1) * p
  {
    assert (w + 1) * p == w * p + p;
    if w == x / p {
      Remainder(x, p);
    } else if w * p <= x < (w + 1) * p {
      Divides(x, p, w, x - w * p);
      assert false;
    }
  }

  // ----- signs -----

  lemma NegativeLaw(x: int, w: int)
    ensures Answer(Signed(Minus, x)) == Value(w) <==> InRange(w) && w + x == 0
    ensures Answer(Signed(Minus, x)).Undefined? <==> !Long(-x)
  {
    SignedMeans(Minus, x);
  }

  /** Every bit the other way round. */
  lemma TildeLaw(x: int, w: int)
    ensures Answer(Signed(Tilde, x)) == Value(w) <==> InRange(w) && w + x == -1
    ensures Answer(Signed(Tilde, x)) == Value(w) ==> forall k: nat :: Bit(w, k) != Bit(x, k)
    ensures !Answer(Signed(Tilde, x)).Undefined?
  {
    hide Bit;
    SignedMeans(Tilde, x);
    if w + x == -1 {
      forall k: nat
        ensures Bit(w, k) != Bit(x, k)
      {
        TildeBit(w, x, k);
      }
    }
  }

  lemma {:induction false} TildeBit(w: int, x: int, k: nat)
    requires w + x == -1
    ensures Bit(w, k) != Bit(x, k)
    decreases k
  {
    if k > 0 {
      TildeBit(w / 2, x / 2, k - 1);
    }
  }

  /** A tilde between two values is an error, but for the mark. */
  lemma TildeBetween(x: int, y: int, w: int)
    ensures Answer(Two(x, Tilde, y)) == Value(w) <==> InRange(w) && x == MARK && w + y == -1
    ensures !Answer(Two(x, Tilde, y)).Undefined?
  {
    TwoMeans(x, Tilde, y);
  }

  // ----- from left to right -----

  /** (x op y more z) */
  function Three(x: int, op: Operator, y: int, more: Operator, z: int): seq<Tok> {
    [LParen, Num(x), Sign(op), Num(y), Sign(more), Num(z), RParen]
  }

  /** No operator binds more tightly than another: the first two operands go first. */
  lemma LeftFirst(x: int, op: Operator, y: int, more: Operator, z: int, w: int)
    requires Answer(Two(x, op, y)) == Value(w)
    ensures Answer(Three(x, op, y, more, z)) == Answer(Two(w, more, z))
  {
    hide Applied, Bounded;
    TwoMeans(x, op, y);
    TwoMeans(w, more, z);
    assert Applied(Sign(op), x, y) == Value(w) by { BoundedIs(Applied(Sign(op), x, y), w); }
    var s := Three(x, op, y, more, z);
    assert Items(s, 1, 6, NOTHING, None) == Item(s, 1, 6, NOTHING, None, x) == Items(s, 2, 6, x, None);
    assert Items(s, 2, 6, x, None) == Items(s, 3, 6, x, Some(s[2])) == Item(s, 3, 6, x, Some(s[2]), y) == Items(s, 4, 6, w, None);
    assert Items(s, 4, 6, w, None) == Items(s, 5, 6, w, Some(s[4])) == Item(s, 5, 6, w, Some(s[4]), z);
  }

  lemma BoundedIs(o: Outcome, w: int)
    requires o.Value? && Bounded(o.v) == Value(w)
    ensures o == Value(w)
  {
  }


  // ----- whole expressions -----

  /** What an operator does to two values on the way, as long as it fits 64 bits. */
  ghost predicate Computes(op: Operator, x: int, y: int, w: int) {
    match op
    case Minus => Long(w) && w + y == x
    case Plus => Long(w) && w - y == x
    case Star => Long(w) && w == x * y
    case Slash => Long(w) && Divided(x, y, w)
    case Ampersand => Long(w) && Common(x, y, w)
    case Pipe => Long(w) && Joint(x, y, w)
    case Caret => Long(w) && Unlike(x, y, w)
    case Less => Long(w) && x >= 0 && 0 <= y < 64 && w == x * Power2(y)
    case Greater => 0 <= y < 64 && w * Power2(y) <= x < (w + 1) * Power2(y)
    case Tilde => false
  }

  /** What a sign at the start of a group makes of the first value. */
  predicate Turned(u: Unary, x: int, y: int) {
    match u
    case Same => y == x
    case Negative => Long(y) && x + y == 0
    case Inverse => x + y == -1
  }

  /** v is the value of the expression: first the sign, then one operator after the other. */
  ghost predicate IsValue(e: Expr, v: int)
    decreases e, 0
  {
    exists x, y :: IsAtom(e.first, x) && Turned(e.unary, x, y) && IsRest(y, e.rest, v)
  }

  ghost predicate IsAtom(a: Atom, v: int)
    decreases a, 1
  {
    match a
    case Literal(x) => v == x
    case Inner(e) => IsValue(e, v)
  }

  ghost predicate IsRest(acc: int, t: Tail, v: int)
    decreases t, 1
  {
    acc != MARK &&
    match t
    case NoMore => v == acc && InRange(v)
    case More(op, atom, rest) => exists y, w :: IsAtom(atom, y) && Computes(op, acc, y, w) && IsRest(w, rest, v)
  }

  lemma ComputesBinary(op: Operator, x: int, y: int, w: int)
    ensures Binary(op, x, y) == Value(w) <==> Computes(op, x, y, w)
  {
    hide Divided, Quotient, Bitwise, Power2, Bit, Common, Joint, Unlike, BitByBit;
    match op
    case Slash =>
      if y != 0 {
        QuotientDivides(x, y);
        if Divided(x, y, w) {
          OneQuotient(x, y, w, Quotient(x, y));
        }
      } else {
        NotByZero(x, w);
      }
    case Ampersand => BitsAnswer(Both, x, y, w);
    case Pipe => BitsAnswer(Either, x, y, w);
    case Caret => BitsAnswer(Differ, x, y, w);
    case Greater =>
      if 0 <= y < 64 {
        PowerPositive(y);
        FloorIs(x, Power2(y), w);
      }
    case _ =>
  }

  lemma BitsAnswer(op: BitOp, x: int, y: int, w: int)
    ensures w == Bitwise(op, x, y, 63) <==> Long(w) && BitByBit(op, x, y, w)
    ensures BitByBit(Both, x, y, w) <==> Common(x, y, w)
    ensures BitByBit(Either, x, y, w) <==> Joint(x, y, w)
    ensures BitByBit(Differ, x, y, w) <==> Unlike(x, y, w)
  {
    hide Bitwise, Power2, Bit, BitByBit, Common, Joint, Unlike;
    AsBits(x, y, w);
    BitwiseSize(op, x, y, 63);
    Power63();
    if Long(w) {
      BitsDecide(op, x, y, w);
    }
  }

  lemma {:induction false} ValueIs(e: Expr, v: int)
    ensures ExprValue(e) == Value(v) <==> IsValue(e, v)
    decreases e, 0
  {
    hide Bounded, Binary, Computes;
    if ExprValue(e) == Value(v) {
      var x := AtomValue(e.first).v;
      AtomIs(e.first, x);
      var y := match e.unary case Same => x case Negative => -x case Inverse => -x - 1;
      RestIs(y, e.rest, v);
      assert IsAtom(e.first, x) && Turned(e.unary, x, y) && IsRest(y, e.rest, v);
    }
    if IsValue(e, v) {
      var x, y :| IsAtom(e.first, x) && Turned(e.unary, x, y) && IsRest(y, e.rest, v);
      AtomIs(e.first, x);
      RestIs(y, e.rest, v);
    }
  }

  lemma {:induction false} AtomIs(a: Atom, v: int)
    ensures AtomValue(a) == Value(v) <==> IsAtom(a, v)
    decreases a, 1
  {
    if a.Inner? {
      ValueIs(a.e, v);
    }
  }

  lemma {:induction false} RestIs(acc: int, t: Tail, v: int)
    ensures TailValue(acc, t) == Value(v) <==> IsRest(acc, t, v)
    decreases t, 1
  {
    hide Binary, Computes;
    if t.More? {
      if TailValue(acc, t) == Value(v) {
        var y := AtomValue(t.atom).v;
        var w := Binary(t.op, acc, y).v;
        AtomIs(t.atom, y);
        ComputesBinary(t.op, acc, y, w);
        RestIs(w, t.rest, v);
        assert IsAtom(t.atom, y) && Computes(t.op, acc, y, w) && IsRest(w, t.rest, v);
      }
      if IsRest(acc, t, v) {
        var y, w :| IsAtom(t.atom, y) && Computes(t.op, acc, y, w) && IsRest(w, t.rest, v);
        AtomIs(t.atom, y);
        ComputesBinary(t.op, acc, y, w);
        RestIs(w, t.rest, v);
      }
    }
  }

  /**
   The evaluator's answer for an expression, of any depth and length, is the value that arithmetic
   gives it; and it has no other answer, unless it runs into what C leaves undefined.
   */
  lemma AnswerIs(e: Expr, v: int)
    ensures IsValue(e, v) ==> Answer(ExprToks(e)) == Value(v)
    ensures Answer(ExprToks(e)) == Value(v) ==> IsValue(e, v) || ExprValue(e) == Undefined
  {
    hide IsValue, ExprValue, ExprToks, Group;
    var s := ExprToks(e);
    assert s[0..|s|] == s;
    ValueIs(e, v);
    if ExprValue(e) != Undefined {
      GroupMeans(s, 0, e);
    }
  }


  // ----- the expressions of test/eval.asm -----

  /** One operation in a group of its own. */
  function Plain(x: int, op: Operator, y: int): Expr { Expr(Same, Literal(x), More(op, Literal(y), NoMore)) }

  lemma PlainIs(x: int, op: Operator, y: int, w: int)
    requires x != MARK && InRange(w) && Computes(op, x, y, w)
    ensures IsValue(Plain(x, op, y), w)
  {
    hide Computes;
    var rest := More(op, Literal(y), NoMore);
    assert IsAtom(Literal(x), x) && Turned(Same, x, x);
    assert IsAtom(Literal(y), y) && IsRest(w, NoMore, w);
    assert IsRest(x, rest, w);
  }

  lemma RestOf(acc: int, op: Operator, a: Atom, y: int, w: int, rest: Tail, v: int)
    requires acc != MARK && IsAtom(a, y) && Computes(op, acc, y, w) && IsRest(w, rest, v)
    ensures IsRest(acc, More(op, a, rest), v)
  {
  }

  lemma ValueOf(e: Expr, x: int, y: int, v: int)
    requires IsAtom(e.first, x) && Turned(e.unary, x, y) && IsRest(y, e.rest, v)
    ensures IsValue(e, v)
  {
  }

  lemma SmallPowers()
    ensures Power2(0) == 1 && Power2(1) == 2 && Power2(2) == 4 && Power2(3) == 8
  {
  }

  lemma SingleValues()
    ensures Answer(Two(5, Plus, 3)) == Value(8)
    ensures Answer(Two(6, Minus, 3)) == Value(3)
    ensures Answer(Two(1, Less, 3)) == Value(8)
    ensures Answer(Two(8, Greater, 1)) == Value(4)
    ensures Answer(Two(10, Slash, 5)) == Value(2)
    ensures Answer(Two(100, Slash, 30)) == Value(3)
    ensures Answer(Signed(Minus, 1)) == Value(-1)
  {
    hide Power2;
    SmallPowers();
    PlusLaw(5, 3, 8);
    MinusLaw(6, 3, 3);
    LessLaw(1, 3, 8);
    GreaterLaw(8, 1, 4);
    SlashLaw(10, 5, 2);
    SlashLaw(100, 30, 3);
    NegativeLaw(1, -1);
  }

  lemma SumOfGroups()
    ensures Answer([LParen, LParen, Num(5), Sign(Plus), Num(6), RParen, Sign(Plus),
                    LParen, Num(3), Sign(Minus), Num(2), RParen, RParen]) == Value(12)
  {
    hide Answer, IsValue, IsRest;
    var a, b := Plain(5, Plus, 6), Plain(3, Minus, 2);
    var e := Expr(Same, Inner(a), More(Plus, Inner(b), NoMore));
    PlainIs(5, Plus, 6, 11);
    PlainIs(3, Minus, 2, 1);
    LastIs(12);
    RestOf(11, Plus, Inner(b), 1, 12, NoMore, 12);
    ValueOf(e, 11, 11, 12);
    AnswerIs(e, 12);
    assert ExprToks(e) == [LParen, LParen, Num(5), Sign(Plus), Num(6), RParen, Sign(Plus),
                           LParen, Num(3), Sign(Minus), Num(2), RParen, RParen];
  }

  lemma LastIs(v: int)
    requires InRange(v)
    ensures IsRest(v, NoMore, v)
  {
  }

  lemma LeftToRight()
    ensures Answer([LParen, Num(1), Sign(Less), Num(3), Sign(Plus), Num(5), RParen]) == Value(13)
  {
    LessLaw(1, 3, 8);
    SmallPowers();
    LeftFirst(1, Less, 3, Plus, 5, 8);
    PlusLaw(8, 5, 13);
  }

  lemma InverseOfGroup()
    ensures Answer([LParen, Sign(Tilde), LParen, Num(1), Sign(Less), Num(3), RParen, RParen]) == Value(-9)
  {
    hide Answer, IsValue, IsRest;
    var a := Plain(1, Less, 3);
    var e := Expr(Inverse, Inner(a), NoMore);
    SmallPowers();
    PlainIs(1, Less, 3, 8);
    LastIs(-9);
    ValueOf(e, 8, -9, -9);
    AnswerIs(e, -9);
    assert ExprToks(e) == [LParen, Sign(Tilde), LParen, Num(1), Sign(Less), Num(3), RParen, RParen];
  }

  /** ((5 + 6) + (3 - 2)), (1 < 3 + 5), (~(1 < 3)) */
  lemma NestedValues()
    ensures Answer([LParen, LParen, Num(5), Sign(Plus), Num(6), RParen, Sign(Plus),
                    LParen, Num(3), Sign(Minus), Num(2), RParen, RParen]) == Value(12)
    ensures Answer([LParen, Num(1), Sign(Less), Num(3), Sign(Plus), Num(5), RParen]) == Value(13)
    ensures Answer([LParen, Sign(Tilde), LParen, Num(1), Sign(Less), Num(3), RParen, RParen]) == Value(-9)
  {
    hide Answer;
    SumOfGroups();
    LeftToRight();
    InverseOfGroup();
  }
}
