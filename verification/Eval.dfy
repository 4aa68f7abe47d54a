/**
 Constant expressions of the assembler (asm/eval.c): what a bracketed group of tokens means,
 and the evaluator, which works on the linked tokens of a line in place.
 */
module Eval {
  import opened Words
  import opened Source
  import opened Tokens

  /**
   The value of an expression, an error report, or a computation that C leaves undefined:
   division by zero, a shift by 64 or more places, 64-bit overflow.
   */
  datatype Outcome = Value(v: int) | Rejected | Undefined

  const LONG_MAX: int := 0x7FFF_FFFF_FFFF_FFFF

  /** The value that stands for "no value yet". */
  const NOTHING: int := LONG_MAX

  function Fit(v: int): Outcome {
    if -LONG_MAX - 1 <= v <= LONG_MAX then Value(v) else Undefined
  }

  /** C's division, truncating toward zero. */
  function Quotient(x: int, y: int): int
    requires y != 0
  {
    if x >= 0 then x / y else -((-x) / y)
  }

  lemma {:induction false} PowerPositive(k: nat)
    ensures Power2(k) > 0
  {
    if k > 0 {
      PowerPositive(k - 1);
    }
  }

  function Shift(left: bool, x: int, k: int): Outcome {
    if !(0 <= k < 64) || (left && x < 0) then Undefined
    else if left then Fit(x * Power2(k))
    else
      PowerPositive(k);
      Value(x / Power2(k))
  }

  /** A 64-bit operation on two values. */
  function Binary(op: Operator, x: int, y: int): Outcome {
    match op
    case Minus => Fit(x - y)
    case Plus => Fit(x + y)
    case Star => Fit(x * y)
    case Slash => if y == 0 then Undefined else Fit(Quotient(x, y))
    case Ampersand => Value(Bitwise(Both, x, y, 63))
    case Pipe => Value(Bitwise(Either, x, y, 63))
    case Caret => Value(Bitwise(Differ, x, y, 63))
    case Less => Shift(true, x, y)
    case Greater => Shift(false, x, y)
    case Tilde => Rejected
  }

  /** eval_exp_op: the token in front of a value, and what came before it. */
  function Applied(op: Tok, acc: int, v: int): Outcome {
    match op
    case Sign(Minus) => if acc == NOTHING then Fit(-v) else Binary(Minus, acc, v)
    case Sign(Tilde) => if acc == NOTHING then Value(-v - 1) else Rejected
    case Sign(o) => Binary(o, acc, v)
    case _ => Rejected
  }

  /** A group must have a value that fits a signed or an unsigned 16-bit word. */
  function Bounded(acc: int): Outcome {
    if acc != NOTHING && -32768 <= acc <= 65535 then Value(acc) else Rejected
  }

  // ----- the evaluator on a sequence of tokens -----

  /** The parenthesis that closes the one at i. */
  function Close(s: seq<Tok>, i: nat, end: nat, depth: nat): (r: Option<nat>)
    requires i <= end <= |s| && (depth == 0 ==> i < end && s[i].LParen?)
    ensures r.Some? ==> i <= r.value < end && s[r.value].RParen?
    decreases end - i
  {
    if i == end then None
    else
      var d := if s[i].LParen? then depth + 1 else if s[i].RParen? then depth - 1 else depth;
      if d == 0 then Some(i) else Close(s, i + 1, end, d)
  }

  /** The group between the parentheses at lo and hi. */
  function Group(s: seq<Tok>, lo: nat, hi: nat): Outcome
    requires lo < hi < |s|
    decreases hi - lo, 0
  {
    Items(s, lo + 1, hi, NOTHING, None)
  }

  /** From token i on, with the value so far and the token that waits for a value. */
  function Items(s: seq<Tok>, i: nat, end: nat, acc: int, op: Option<Tok>): Outcome
    requires i <= end < |s|
    decreases end - i, 1
  {
    if i == end then Bounded(acc)
    else
      match s[i]
      case Num(v) => Item(s, i, end, acc, op, v)
      case LParen =>
        (match Close(s, i, end, 0)
         case None => Rejected
         case Some(u) =>
           match Group(s, i, u)
           case Value(v) => Item(s, u, end, acc, op, v)
           case bad => bad)
      case t => if op.Some? then Rejected else Items(s, i + 1, end, acc, Some(t))
  }

  /** A value that ends at token i is joined with what came before. */
  function Item(s: seq<Tok>, i: nat, end: nat, acc: int, op: Option<Tok>, v: int): Outcome
    requires i < end < |s|
    decreases end - i, 0
  {
    match (if op.Some? then Applied(op.value, acc, v) else Value(v))
    case Value(w) => Items(s, i + 1, end, w, None)
    case bad => bad
  }

  // ----- expressions, and their value from left to right -----

  datatype Unary = Same | Negative | Inverse

  datatype Expr = Expr(unary: Unary, first: Atom, rest: Tail)

  datatype Atom = Literal(v: int) | Inner(e: Expr)

  datatype Tail = NoMore | More(op: Operator, atom: Atom, rest: Tail)

  function ExprToks(e: Expr): (s: seq<Tok>)
    ensures |s| >= 2 && s[0].LParen? && s[|s| - 1].RParen?
  {
    [LParen] + UnaryToks(e.unary) + AtomToks(e.first) + TailToks(e.rest) + [RParen]
  }

  function UnaryToks(u: Unary): seq<Tok> {
    match u
    case Same => []
    case Negative => [Sign(Minus)]
    case Inverse => [Sign(Tilde)]
  }

  function AtomToks(a: Atom): (s: seq<Tok>)
    ensures |s| > 0
  {
    match a
    case Literal(v) => [Num(v)]
    case Inner(e) => ExprToks(e)
  }

  function TailToks(t: Tail): seq<Tok> {
    match t
    case NoMore => []
    case More(op, atom, rest) => [Sign(op)] + AtomToks(atom) + TailToks(rest)
  }

  /** Strictly from left to right, with no precedence; a sign stands at the start of a group only. */
  function ExprValue(e: Expr): Outcome {
    match AtomValue(e.first)
    case Value(v) =>
      (match (match e.unary case Same => Value(v) case Negative => Fit(-v) case Inverse => Value(-v - 1))
       case Value(w) => TailValue(w, e.rest)
       case bad => bad)
    case bad => bad
  }

  function AtomValue(a: Atom): Outcome {
    match a
    case Literal(v) => Value(v)
    case Inner(e) => ExprValue(e)
  }

  /** A value equal to the evaluator's mark for "no value" counts as undefined. */
  function TailValue(acc: int, t: Tail): Outcome
    decreases t
  {
    if acc == NOTHING then Undefined
    else
      match t
      case NoMore => Bounded(acc)
      case More(op, atom, rest) =>
        match AtomValue(atom)
        case Value(v) => (match Binary(op, acc, v) case Value(w) => TailValue(w, rest) case bad => bad)
        case bad => bad
  }

  // ----- the evaluator computes that value -----

  predicate Stands(s: seq<Tok>, i: nat, toks: seq<Tok>) {
    i + |toks| <= |s| && s[i..i + |toks|] == toks
  }

  lemma StandsSplit(s: seq<Tok>, i: nat, x: seq<Tok>, y: seq<Tok>)
    requires Stands(s, i, x + y)
    ensures Stands(s, i, x) && Stands(s, i + |x|, y)
  {
    assert s[i..i + |x|] == (x + y)[..|x|] && s[i + |x|..i + |x| + |y|] == (x + y)[|x|..];
  }

  lemma StandsFirst(s: seq<Tok>, i: nat, t: Tok, y: seq<Tok>)
    requires Stands(s, i, [t] + y)
    ensures i < |s| && s[i] == t && Stands(s, i + 1, y)
  {
    StandsSplit(s, i, [t], y);
    assert s[i..i + 1][0] == t;
  }

  /** The parts of a group. */
  lemma StandsGroup(s: seq<Tok>, i: nat, e: Expr)
    requires Stands(s, i, ExprToks(e))
    ensures
      var u := i + 1 + |UnaryToks(e.unary)|;
      var t := u + |AtomToks(e.first)|;
      var r := t + |TailToks(e.rest)|;
      && i < r < |s| && s[i].LParen? && s[r].RParen? && r == i + |ExprToks(e)| - 1
      && Stands(s, i + 1, UnaryToks(e.unary)) && Stands(s, u, AtomToks(e.first)) && Stands(s, t, TailToks(e.rest))
  {
    hide Stands, UnaryToks, AtomToks, TailToks;
    var u, a, t := UnaryToks(e.unary), AtomToks(e.first), TailToks(e.rest);
    assert ExprToks(e) == [LParen] + (u + (a + (t + ([RParen] + []))));
    StandsFirst(s, i, LParen, u + (a + (t + ([RParen] + []))));
    StandsSplit(s, i + 1, u, a + (t + ([RParen] + [])));
    StandsSplit(s, i + 1 + |u|, a, t + ([RParen] + []));
    StandsSplit(s, i + 1 + |u| + |a|, t, [RParen] + []);
    StandsFirst(s, i + 1 + |u| + |a| + |t|, RParen, []);
  }

  lemma StandsMore(s: seq<Tok>, i: nat, t: Tail)
    requires Stands(s, i, TailToks(t)) && t.More?
    ensures i < |s| && s[i] == Sign(t.op) && Stands(s, i + 1, AtomToks(t.atom))
    ensures Stands(s, i + 1 + |AtomToks(t.atom)|, TailToks(t.rest))
    ensures |TailToks(t)| == 1 + |AtomToks(t.atom)| + |TailToks(t.rest)|
  {
    hide Stands, AtomToks;
    assert TailToks(t) == [Sign(t.op)] + (AtomToks(t.atom) + TailToks(t.rest));
    StandsFirst(s, i, Sign(t.op), AtomToks(t.atom) + TailToks(t.rest));
    StandsSplit(s, i + 1, AtomToks(t.atom), TailToks(t.rest));
  }

  /** A search for a closing parenthesis passes over a whole group. */
  lemma {:induction false} CloseExpr(s: seq<Tok>, i: nat, end: nat, depth: nat, e: Expr)
    requires Stands(s, i, ExprToks(e)) && i + |ExprToks(e)| <= end <= |s|
    ensures depth > 0 ==> Close(s, i, end, depth) == Close(s, i + |ExprToks(e)|, end, depth)
    ensures i < |s| && s[i].LParen? && Close(s, i, end, 0) == Some(i + |ExprToks(e)| - 1)
    decreases e, 1
  {
    hide Stands, ExprToks, UnaryToks, AtomToks, TailToks;
    StandsGroup(s, i, e);
    var u := i + 1 + |UnaryToks(e.unary)|;
    var t := u + |AtomToks(e.first)|;
    CloseUnary(s, i + 1, end, depth + 1, e.unary);
    CloseUnary(s, i + 1, end, 1, e.unary);
    CloseAtom(s, u, end, depth + 1, e.first);
    CloseAtom(s, u, end, 1, e.first);
    CloseTail(s, t, end, depth + 1, e.rest);
    CloseTail(s, t, end, 1, e.rest);
  }

  lemma CloseUnary(s: seq<Tok>, i: nat, end: nat, depth: nat, u: Unary)
    requires Stands(s, i, UnaryToks(u)) && i + |UnaryToks(u)| <= end <= |s| && depth > 0
    ensures Close(s, i, end, depth) == Close(s, i + |UnaryToks(u)|, end, depth)
  {
    if u != Same {
      assert s[i..i + 1][0] == s[i];
    }
  }

  lemma {:induction false} CloseAtom(s: seq<Tok>, i: nat, end: nat, depth: nat, a: Atom)
    requires Stands(s, i, AtomToks(a)) && i + |AtomToks(a)| <= end <= |s| && depth > 0
    ensures Close(s, i, end, depth) == Close(s, i + |AtomToks(a)|, end, depth)
    decreases a, 0
  {
    match a
    case Literal(v) => assert s[i..i + 1][0] == s[i];
    case Inner(e) => CloseExpr(s, i, end, depth, e);
  }

  lemma {:induction false} CloseTail(s: seq<Tok>, i: nat, end: nat, depth: nat, t: Tail)
    requires Stands(s, i, TailToks(t)) && i + |TailToks(t)| <= end <= |s| && depth > 0
    ensures Close(s, i, end, depth) == Close(s, i + |TailToks(t)|, end, depth)
    decreases t, 0
  {
    hide Stands, AtomToks;
    if t.More? {
      StandsMore(s, i, t);
      CloseAtom(s, i + 1, end, depth, t.atom);
      CloseTail(s, i + 1 + |AtomToks(t.atom)|, end, depth, t.rest);
    }
  }

  /**
   On the tokens of an expression, nested as deep as one likes, the evaluator computes its value
   from left to right, or reports that some group is out of range, whenever C defines the result.
   */
  lemma {:induction false} GroupMeans(s: seq<Tok>, i: nat, e: Expr)
    requires Stands(s, i, ExprToks(e)) && ExprValue(e) != Undefined
    ensures i + |ExprToks(e)| <= |s| && Group(s, i, i + |ExprToks(e)| - 1) == ExprValue(e)
    decreases e, 1
  {
    hide Stands, ExprToks, AtomToks, TailToks, Binary, Bounded, Close;
    StandsGroup(s, i, e);
    var end := i + |ExprToks(e)| - 1;
    var u := i + 1 + |UnaryToks(e.unary)|;
    var t := u + |AtomToks(e.first)|;
    var op := UnaryTok(s, i + 1, end, e.unary);
    AtomMeans(s, u, end, NOTHING, op, e.first);
    if AtomValue(e.first).Value? {
      var v := AtomValue(e.first).v;
      var w := if op.Some? then Applied(op.value, NOTHING, v) else Value(v);
      if w.Value? {
        TailMeans(s, t, end, w.v, e.rest);
      }
    }
  }

  /** The sign at the start of a group, if there is one, waits for the first value. */
  lemma UnaryTok(s: seq<Tok>, i: nat, end: nat, u: Unary) returns (op: Option<Tok>)
    requires Stands(s, i, UnaryToks(u)) && i + |UnaryToks(u)| < end < |s|
    ensures Items(s, i, end, NOTHING, None) == Items(s, i + |UnaryToks(u)|, end, NOTHING, op)
    ensures op == match u case Same => None case Negative => Some(Sign(Minus)) case Inverse => Some(Sign(Tilde))
  {
    op := match u case Same => None case Negative => Some(Sign(Minus)) case Inverse => Some(Sign(Tilde));
    if u != Same {
      assert s[i..i + 1][0] == s[i];
    }
  }

  lemma {:induction false} AtomMeans(s: seq<Tok>, i: nat, end: nat, acc: int, op: Option<Tok>, a: Atom)
    requires Stands(s, i, AtomToks(a)) && i + |AtomToks(a)| <= end < |s| && AtomValue(a) != Undefined
    ensures |AtomToks(a)| > 0
    ensures Items(s, i, end, acc, op) ==
      match AtomValue(a)
      case Value(v) => Item(s, i + |AtomToks(a)| - 1, end, acc, op, v)
      case bad => bad
    decreases a, 0
  {
    hide Item, ExprToks, Close;
    match a
    case Literal(v) => assert s[i..i + 1][0] == s[i];
    case Inner(e) =>
      CloseExpr(s, i, end, 0, e);
      GroupMeans(s, i, e);
  }

  lemma SameOperation(op: Operator, acc: int, v: int)
    requires acc != NOTHING
    ensures Applied(Sign(op), acc, v) == Binary(op, acc, v)
  {
  }

  lemma {:induction false} TailMeans(s: seq<Tok>, i: nat, end: nat, acc: int, t: Tail)
    requires Stands(s, i, TailToks(t)) && i + |TailToks(t)| == end < |s| && TailValue(acc, t) != Undefined
    ensures Items(s, i, end, acc, None) == TailValue(acc, t)
    decreases t, 0
  {
    hide Stands, AtomToks, Binary, Bounded, Close;
    if t.More? {
      StandsMore(s, i, t);
      AtomMeans(s, i + 1, end, acc, Some(Sign(t.op)), t.atom);
      if AtomValue(t.atom).Value? {
        var w := Binary(t.op, acc, AtomValue(t.atom).v);
        SameOperation(t.op, acc, AtomValue(t.atom).v);
        if w.Value? {
          TailMeans(s, i + 1 + |AtomToks(t.atom)|, end, w.v, t.rest);
        }
      }
    }
  }

  // ----- a line of tokens, its groups replaced by their values -----

  datatype Reduction = Reduced(toks: seq<Tok>) | Unbalanced(at: nat) | Fails(o: Outcome)

  function InFront(t: Tok, r: Reduction): Reduction {
    if r.Reduced? then Reduced([t] + r.toks) else r
  }

  /** The line from token i on. */
  function Reduce(s: seq<Tok>, i: nat): Reduction
    requires i < |s|
    decreases |s| - i
  {
    if i == |s| - 1 then Reduced([s[i]])
    else if !s[i].LParen? then InFront(s[i], Reduce(s, i + 1))
    else
      match Close(s, i, |s| - 1, 0)
      case None => Unbalanced(i)
      case Some(u) =>
        match Group(s, i, u)
        case Value(v) => InFront(Num(v), Reduce(s, u + 1))
        case bad => Fails(bad)
  }

  /** A line of other tokens and groups. */
  datatype Text = Ends | Other(t: Tok, rest: Text) | Grouped(e: Expr, rest: Text)

  predicate Sound(x: Text) {
    match x
    case Ends => true
    case Other(t, rest) => !t.LParen? && !t.Eol? && Sound(rest)
    case Grouped(e, rest) => ExprValue(e).Value? && Sound(rest)
  }

  function TextToks(x: Text): (s: seq<Tok>)
    ensures |s| > 0
  {
    match x
    case Ends => [Eol]
    case Other(t, rest) => [t] + TextToks(rest)
    case Grouped(e, rest) => ExprToks(e) + TextToks(rest)
  }

  /** The line with the value of each group in its place. */
  function TextValues(x: Text): seq<Tok>
    requires Sound(x)
  {
    match x
    case Ends => [Eol]
    case Other(t, rest) => [t] + TextValues(rest)
    case Grouped(e, rest) => [Num(ExprValue(e).v)] + TextValues(rest)
  }

  /** Every group of a line is replaced by its value, and all other tokens keep their order. */
  lemma {:induction false} TextReduces(s: seq<Tok>, i: nat, x: Text)
    requires Sound(x) && Stands(s, i, TextToks(x)) && i + |TextToks(x)| == |s|
    ensures Reduce(s, i) == Reduced(TextValues(x))
    decreases x
  {
    hide Stands, ExprToks, Close, Group, ExprValue;
    match x
    case Ends =>
      assert [Eol] + [] == [Eol];
      StandsFirst(s, i, Eol, []);
    case Other(t, rest) =>
      StandsFirst(s, i, t, TextToks(rest));
      TextReduces(s, i + 1, rest);
    case Grouped(e, rest) =>
      StandsSplit(s, i, ExprToks(e), TextToks(rest));
      CloseExpr(s, i, |s| - 1, 0, e);
      GroupMeans(s, i, e);
      TextReduces(s, i + |ExprToks(e)|, rest);
  }

  // ----- the linked tokens -----

  /** Nodes lo to hi are linked forward and hold the tokens s. */
  ghost predicate Linked(nodes: seq<Token>, s: seq<Tok>, lo: nat, hi: nat)
    requires lo <= hi < |nodes| == |s|
    reads nodes
  {
    && (forall i | lo <= i < hi :: nodes[i].next == nodes[i + 1])
    && (forall i | lo <= i <= hi :: nodes[i].tok == s[i])
  }

  lemma GroupIsItems(s: seq<Tok>, lo: nat, hi: nat)
    requires lo < hi < |s|
    ensures Group(s, lo, hi) == Items(s, lo + 1, hi, NOTHING, None)
  {
  }

  /** eval_exp, on the tokens from start to end. */
  method EvalExp(start: Token, end: Token, ghost nodes: seq<Token>, ghost s: seq<Tok>, ghost lo: nat, ghost hi: nat)
    returns (r: Outcome)
    requires lo < hi < |nodes| == |s| && Linked(nodes, s, lo, hi) && Distinct(nodes)
    requires start == nodes[lo] && end == nodes[hi]
    ensures r == Group(s, lo, hi)
    decreases hi - lo
  {
    hide Bounded, Applied, Close, Group;
    var acc, op := NOTHING, None;
    GroupIsItems(s, lo, hi);
    assert nodes[lo].next == nodes[lo + 1];
    var t: Token := start.next;
    ghost var i := lo + 1;
    while t != end
      invariant lo < i <= hi && t == nodes[i]
      invariant Items(s, i, hi, acc, op) == Group(s, lo, hi)
      decreases hi - i
    {
      var tmp;
      match t.tok {
        case Num(v) =>
          tmp := v;
        case LParen =>
          var u, found := FindClose(t, end, nodes, s, i, hi);
          if !found {
            return Rejected;
          }
          ghost var j := Close(s, i, hi, 0).value;
          var inner := EvalExp(t, u, nodes, s, i, j);
          if !inner.Value? {
            return inner;
          }
          tmp := inner.v;
          t, i := u, j;
        case other =>
          if op.Some? {
            return Rejected;
          }
          op := Some(other);
          assert nodes[i].next == nodes[i + 1];
          t, i := t.next, i + 1;
          continue;
      }
      if op.Some? {
        var joined := Applied(op.value, acc, tmp);
        if !joined.Value? {
          return joined;
        }
        acc, op := joined.v, None;
      } else {
        acc := tmp;
      }
      assert nodes[i].next == nodes[i + 1];
      t, i := t.next, i + 1;
    }
    return Bounded(acc);
  }

  /** The token that closes the parenthesis at t, if there is one before end. */
  method FindClose(t: Token, end: Token, ghost nodes: seq<Token>, ghost s: seq<Tok>, ghost lo: nat, ghost hi: nat)
    returns (u: Token, found: bool)
    requires lo < hi < |nodes| == |s| && Linked(nodes, s, lo, hi) && Distinct(nodes)
    requires t == nodes[lo] && end == nodes[hi] && s[lo].LParen?
    ensures found == Close(s, lo, hi, 0).Some?
    ensures found ==> u == nodes[Close(s, lo, hi, 0).value]
  {
    u := t;
    var depth := 0;
    ghost var j := lo;
    while u != end
      invariant lo <= j <= hi && u == nodes[j] && depth >= 0 && (depth == 0 ==> j == lo)
      invariant Close(s, lo, hi, 0) == Close(s, j, hi, depth)
      decreases hi - j
    {
      if u.tok.LParen? {
        depth := depth + 1;
      } else if u.tok.RParen? {
        depth := depth - 1;
      }
      if depth == 0 {
        return u, true;
      }
      assert nodes[j].next == nodes[j + 1];
      u, j := u.next, j + 1;
    }
    return u, false;
  }

  /** The tokens that stand in front of what is still to be reduced. */
  function Ahead(done: seq<Tok>, r: Reduction): Reduction {
    if r.Reduced? then Reduced(done + r.toks) else r
  }

  datatype Report = Fine | Open(at: Token) | Failed(o: Outcome)

  lemma AheadOne(done: seq<Tok>, t: Tok, r: Reduction)
    ensures Ahead(done, InFront(t, r)) == Ahead(done + [t], r)
  {
    if r.Reduced? {
      assert done + ([t] + r.toks) == done + [t] + r.toks;
    }
  }

  lemma ReduceStep(s: seq<Tok>, i: nat)
    requires i < |s|
    ensures Reduce(s, i) ==
      if i == |s| - 1 then Reduced([s[i]])
      else if !s[i].LParen? then InFront(s[i], Reduce(s, i + 1))
      else
        match Close(s, i, |s| - 1, 0)
        case None => Unbalanced(i)
        case Some(u) =>
          match Group(s, i, u)
          case Value(v) => InFront(Num(v), Reduce(s, u + 1))
          case bad => Fails(bad)
  {
  }

  /** Tokens before i have been dealt with: the nodes `done` hold what has become of them. */
  ghost predicate Through(start: Token, tk: Token, nodes: seq<Token>, s: seq<Tok>, i: nat, done: seq<Token>)
    requires |nodes| == |s| > 0
    reads nodes, done, tk
  {
    && i < |s| && tk == nodes[i] && Linked(nodes, s, i, |s| - 1)
    && Chain(done + [tk]) && (forall n | n in done :: n in nodes[..i])
    && (if done == [] then i == 0 else done[0] == start)
    && Reduce(s, 0) == Ahead(Toks(done), Reduce(s, i))
  }

  /** A token that opens no group stays. */
  lemma Keeps(start: Token, tk: Token, nodes: seq<Token>, s: seq<Tok>, i: nat, done: seq<Token>)
    requires |nodes| == |s| > 0 && Distinct(nodes) && start == nodes[0] && Through(start, tk, nodes, s, i, done)
    requires i < |s| - 1 && !s[i].LParen?
    ensures tk.next != null && Through(start, tk.next, nodes, s, i + 1, done + [tk])
  {
    hide Reduce, Close, Group;
    assert nodes[i].next == nodes[i + 1];
    ReduceStep(s, i);
    AheadOne(Toks(done), s[i], Reduce(s, i + 1));
    assert Toks(done + [tk]) == Toks(done) + [s[i]];
  }

  /** A group gives way to a number token, linked to what stands behind the group. */
  method Replace(start: Token, tk: Token, end: Token, value: int, ghost nodes: seq<Token>, ghost s: seq<Tok>, ghost i: nat, ghost u: nat, ghost done: seq<Token>)
    returns (rest: Token)
    requires |nodes| == |s| > 0 && Distinct(nodes) && start == nodes[0] && Through(start, tk, nodes, s, i, done)
    requires i < u < |s| - 1 && s[i].LParen? && end == nodes[u]
    requires Close(s, i, |s| - 1, 0) == Some(u) && Group(s, i, u) == Value(value)
    modifies tk
    ensures Through(start, rest, nodes, s, u + 1, done + [tk])
  {
    hide Reduce, Close, Group;
    assert nodes[u].next == nodes[u + 1];
    ReduceStep(s, i);
    AheadOne(Toks(done), Num(value), Reduce(s, u + 1));
    ghost var before := Toks(done);
    assert forall n | n in done :: n != tk;
    tk.tok := Num(value);
    tk.next := end.next;
    rest := end.next;
    assert Toks(done + [tk]) == before + [Num(value)];
    assert Chain(done + [tk] + [rest]);
  }

  /**
   eval_between, on the tokens from start up to the end of the line: every outermost group becomes
   one number token, in place, and the tokens behind it are linked to that.
   */
  method EvalBetween(start: Token, eol: Token, ghost nodes: seq<Token>, ghost s: seq<Tok>) returns (r: Report, ghost out: seq<Token>)
    requires |nodes| == |s| > 0 && Linked(nodes, s, 0, |s| - 1) && Distinct(nodes)
    requires start == nodes[0] && eol == nodes[|s| - 1]
    modifies nodes
    ensures eol.next == old(eol.next)
    ensures match Reduce(s, 0)
      case Reduced(toks) =>
        r == Fine && Toks(out) == toks && Chain(out) && out[0] == start && out[|out| - 1] == eol
        && forall n | n in out :: n in nodes
      case Unbalanced(at) => at < |s| && r == Open(nodes[at])
      case Fails(o) => r == Failed(o)
  {
    hide Close, Group, Reduce, Through, Linked, Chain;
    var tk: Token := start;
    ghost var i: nat, done: seq<Token> := 0, [];
    BeginsThrough(start, nodes, s);
    while tk != eol
      invariant Through(start, tk, nodes, s, i, done) && eol.next == old(eol.next)
      decreases |s| - i
    {
      IsThrough(start, tk, nodes, s, i, done);
      ReduceStep(s, i);
      if !tk.tok.LParen? {
        Keeps(start, tk, nodes, s, i, done);
        done := done + [tk];
        tk, i := tk.next, i + 1;
      } else {
        var end, found := FindClose(tk, eol, nodes, s, i, |s| - 1);
        if !found {
          return Open(tk), [];
        }
        ghost var u := Close(s, i, |s| - 1, 0).value;
        LinkedPart(nodes, s, i, u, |s| - 1);
        var value := EvalExp(tk, end, nodes, s, i, u);
        if !value.Value? {
          return Failed(value), [];
        }
        var rest := Replace(start, tk, end, value.v, nodes, s, i, u, done);
        done := done + [tk];
        tk, i := rest, u + 1;
      }
    }
    out := done + [tk];
    EndsThrough(start, tk, nodes, s, i, done);
    return Fine, out;
  }

  lemma LinkedPart(nodes: seq<Token>, s: seq<Tok>, lo: nat, hi: nat, end: nat)
    requires lo <= hi <= end < |nodes| == |s| && Linked(nodes, s, lo, end)
    ensures Linked(nodes, s, lo, hi)
  {
  }

  lemma IsThrough(start: Token, tk: Token, nodes: seq<Token>, s: seq<Tok>, i: nat, done: seq<Token>)
    requires |nodes| == |s| > 0 && Through(start, tk, nodes, s, i, done)
    ensures i < |s| && tk == nodes[i] && tk.tok == s[i] && Linked(nodes, s, i, |s| - 1)
    ensures Reduce(s, 0) == Ahead(Toks(done), Reduce(s, i))
  {
    hide Reduce, Ahead;
  }

  lemma EndsThrough(start: Token, tk: Token, nodes: seq<Token>, s: seq<Tok>, i: nat, done: seq<Token>)
    requires |nodes| == |s| > 0 && Distinct(nodes) && start == nodes[0]
    requires Through(start, tk, nodes, s, i, done) && tk == nodes[|s| - 1]
    ensures var out := done + [tk];
      && Reduce(s, 0) == Reduced(Toks(out)) && Chain(out) && out[0] == start && out[|out| - 1] == tk
      && forall n | n in out :: n in nodes
  {
    hide Reduce;
    assert i == |s| - 1;
    ReduceStep(s, i);
    assert Toks(done + [tk]) == Toks(done) + [s[i]];
  }

  lemma BeginsThrough(start: Token, nodes: seq<Token>, s: seq<Tok>)
    requires |nodes| == |s| > 0 && Linked(nodes, s, 0, |s| - 1) && start == nodes[0]
    ensures Through(start, start, nodes, s, 0, [])
  {
    hide Reduce;
    var r := Reduce(s, 0);
    assert Toks([]) == [];
    assert r.Reduced? ==> [] + r.toks == r.toks;
  }
}
