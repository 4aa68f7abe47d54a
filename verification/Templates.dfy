/**
 The bracketed expressions in the bodies of the built-in macros have the values that expansion
 gives them.
 */
module Templates {
  import opened Words
  import opened Source
  import opened Tokens
  import opened Eval
  import T = MacroTable
  import X = Expand

  /** ((v > 8) & 0xFF) */
  function HighExpr(v: int): Expr {
    Expr(Same, Inner(Expr(Same, Literal(v), More(Greater, Literal(8), NoMore))), More(Ampersand, Literal(0xFF), NoMore))
  }

  /** ((v > 0) & 0xFF) */
  function LowExpr(v: int): Expr {
    Expr(Same, Inner(Expr(Same, Literal(v), More(Greater, Literal(0), NoMore))), More(Ampersand, Literal(0xFF), NoMore))
  }

  /** (v + n) */
  function PlusExpr(v: int, n: int): Expr {
    Expr(Same, Literal(v), More(Plus, Literal(n), NoMore))
  }

  /** (~n) */
  function InverseExpr(n: int): Expr {
    Expr(Inverse, Literal(n), NoMore)
  }

  /** (($ + ahead) > 8) and (($ + ahead) & 0xFF), where $ is at. */
  function HereExpr(at: int, ahead: nat, high: bool): Expr {
    Expr(Same, Inner(PlusExpr(at, ahead)), if high then More(Greater, Literal(8), NoMore) else More(Ampersand, Literal(0xFF), NoMore))
  }

  /** The last k bits of x. */
  function LastBits(x: int, k: nat): int
    decreases k
  {
    if k == 0 then 0 else x % 2 + 2 * LastBits(x / 2, k - 1)
  }

  lemma {:induction false} MaskIsLastBits(x: int, m: int, k: nat, n: nat)
    requires k <= n && m == Power2(k) - 1
    ensures Bitwise(Both, x, m, n) == LastBits(x, k)
    decreases n
  {
    if k == 0 {
      AndZero(x, n);
    } else {
      assert m % 2 == 1 && m / 2 == Power2(k - 1) - 1;
      MaskIsLastBits(x / 2, m / 2, k - 1, n - 1);
    }
  }

  lemma HalfRemainder(x: int, m: int)
    requires m > 0
    ensures x % (2 * m) == x % 2 + 2 * (x / 2 % m)
  {
    var h := x / 2;
    var q, r := h / m, h % m;
    assert h == q * m + r;
    assert 2 * (q * m) == q * (2 * m);
    Divides(x, 2 * m, q, 2 * r + x % 2);
  }

  lemma {:induction false} LastIsRemainder(x: int, k: nat)
    ensures Power2(k) > 0 && LastBits(x, k) == x % Power2(k)
    decreases k
  {
    if k > 0 {
      LastIsRemainder(x / 2, k - 1);
      HalfRemainder(x, Power2(k - 1));
    }
  }

  lemma AndByte(x: int)
    ensures Bitwise(Both, x, 0xFF, 63) == x % 256
  {
    hide Bitwise, LastBits;
    Power2Of8();
    MaskIsLastBits(x, 0xFF, 8, 63);
    LastIsRemainder(x, 8);
  }

  /** The argument that a value becomes. */
  function ArgOf(o: Outcome): Option<X.Arg> {
    match o
    case Value(v) => X.Evaluated(v)
    case _ => None
  }

  lemma OneOperation(v: int, op: Operator, n: int, w: int)
    requires v != NOTHING && Binary(op, v, n) == Value(w)
    ensures ExprValue(Expr(Same, Literal(v), More(op, Literal(n), NoMore))) == if w == NOTHING then Undefined else Bounded(w)
  {
    hide Binary;
    assert AtomValue(Literal(n)) == Value(n) && TailValue(w, NoMore) == if w == NOTHING then Undefined else Bounded(w);
  }

  lemma OnGroup(e: Expr, v: int, op: Operator, n: int, w: int)
    requires ExprValue(e) == Value(v) && v != NOTHING && Binary(op, v, n) == Value(w) && w != NOTHING
    ensures ExprValue(Expr(Same, Inner(e), More(op, Literal(n), NoMore))) == Bounded(w)
  {
    hide Binary;
    assert AtomValue(Inner(e)) == Value(v) && AtomValue(Literal(n)) == Value(n) && TailValue(w, NoMore) == Bounded(w);
  }

  lemma Shifts(v: int)
    ensures Binary(Greater, v, 8) == Value(v / 256) && Binary(Greater, v, 0) == Value(v)
  {
    Power2Of8();
  }

  /** The expressions of macro bodies, evaluated from left to right, are what expansion fills in. */
  lemma TemplateValues(args: X.Args, k: nat, n: word, v: T.Immediate)
    requires X.NumberAt(args, k) == Some(v)
    ensures X.Filled(T.HighOf(k), args) == ArgOf(ExprValue(HighExpr(v)))
    ensures X.Filled(T.LowOf(k), args) == ArgOf(ExprValue(LowExpr(v)))
    ensures X.Filled(T.PlusOf(k, n), args) == ArgOf(ExprValue(PlusExpr(v, n)))
  {
    hide Bitwise, ExprValue, Shift;
    Shifts(v);
    AndByte(v / 256);
    AndByte(v);
    OneOperation(v, Greater, 8, v / 256);
    OneOperation(v, Greater, 0, v);
    OneOperation(v, Plus, n, v + n);
    OnGroup(HighExpr(v).first.e, v / 256, Ampersand, 0xFF, v / 256 % 256);
    OnGroup(LowExpr(v).first.e, v, Ampersand, 0xFF, v % 256);
  }

  /** The masks of the macros that clear a flag. */
  lemma InverseValues(n: int)
    requires 0 <= n < 32768
    ensures ExprValue(InverseExpr(n)) == Value(-n - 1)
  {
  }

  lemma InnerFails(e: Expr, rest: Tail)
    requires ExprValue(e) == Rejected
    ensures ExprValue(Expr(Same, Inner(e), rest)) == Rejected
  {
    assert AtomValue(Inner(e)) == Rejected;
  }

  /** A `$` expression has the byte that the assembler emits, and none when the address ahead is no word. */
  lemma HereValues(at: word, ahead: word, high: bool)
    ensures ExprValue(HereExpr(at, ahead, high))
      == if at + ahead < 65536 then Value(if high then Hi(at + ahead) else Lo(at + ahead)) else Rejected
  {
    hide Bitwise, ExprValue, Shift;
    var w: int := at + ahead;
    Shifts(w);
    AndByte(w);
    OneOperation(at, Plus, ahead, w);
    if w >= 65536 {
      InnerFails(PlusExpr(at, ahead), if high then More(Greater, Literal(8), NoMore) else More(Ampersand, Literal(0xFF), NoMore));
    } else if high {
      OnGroup(PlusExpr(at, ahead), w, Greater, 8, w / 256);
    } else {
      OnGroup(PlusExpr(at, ahead), w, Ampersand, 0xFF, w % 256);
    }
  }
}
