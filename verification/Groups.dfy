/**
 Exactly which tokens between two parentheses the evaluator takes, and for what value: more than
 expressions (asm/eval.c, eval_exp).
 */
module Groups {
  import opened Words
  import opened Source
  import opened Tokens
  import opened Eval

  /**
   A group as the evaluator reads it: values, each with an operator in front of it or none, and in
   the end perhaps one token more.
   */
  datatype Loose = Last(t: Option<Tok>) | Next(op: Option<Operator>, x: Part, rest: Loose)

  datatype Part = Lone(v: int) | Nested(g: Loose)

  /** The token in the end is no value and no parenthesis. */
  predicate Proper(g: Loose)
    decreases g
  {
    match g
    case Last(None) => true
    case Last(Some(t)) => !t.Num? && !t.LParen? && !t.RParen?
    case Next(_, Lone(_), rest) => Proper(rest)
    case Next(_, Nested(h), rest) => Proper(h) && Proper(rest)
  }

  function LooseToks(g: Loose): seq<Tok>
    decreases g
  {
    match g
    case Last(None) => []
    case Last(Some(t)) => [t]
    case Next(op, x, rest) => SignToks(op) + PartToks(x) + LooseToks(rest)
  }

  function SignToks(op: Option<Operator>): seq<Tok> {
    if op.Some? then [Sign(op.value)] else []
  }

  function PartToks(x: Part): (s: seq<Tok>)
    ensures |s| > 0
  {
    match x
    case Lone(v) => [Num(v)]
    case Nested(g) => [LParen] + LooseToks(g) + [RParen]
  }

  /**
   The value from left to right, starting from acc: a value with an operator in front is joined to
   what came before, one without takes its place, and the token in the end does nothing.
   */
  function LooseValue(acc: int, g: Loose): Outcome
    decreases g
  {
    match g
    case Last(_) => Bounded(acc)
    case Next(op, x, rest) =>
      match PartValue(x)
      case Value(v) =>
        (match (if op.Some? then Applied(Sign(op.value), acc, v) else Value(v))
         case Value(w) => LooseValue(w, rest)
         case bad => bad)
      case bad => bad
  }

  function PartValue(x: Part): Outcome {
    match x
    case Lone(v) => Value(v)
    case Nested(g) => LooseValue(NOTHING, g)
  }

  // ----- what is taken has that form -----

  /** Behind a group that closes, the search for an outer parenthesis goes on. */
  lemma {:induction false} CloseSkips(s: seq<Tok>, i: nat, e: nat, end: nat, d: nat)
    requires i <= e <= end <= |s| && (d == 0 ==> i < e && s[i].LParen?) && Close(s, i, e, d).Some?
    ensures Close(s, i, end, d + 1) == Close(s, Close(s, i, e, d).value + 1, end, 1)
    decreases e - i
  {
    var n := if s[i].LParen? then d + 1 else if s[i].RParen? then d - 1 else d;
    if n != 0 {
      CloseSkips(s, i + 1, e, end, n);
    }
  }

  function Pending(op: Option<Tok>): seq<Tok> {
    if op.Some? then [op.value] else []
  }

  lemma TakenLast(acc: int, op: Option<Tok>)
    requires op.Some? ==> !op.value.Num? && !op.value.LParen? && !op.value.RParen?
    ensures Proper(Last(op)) && LooseToks(Last(op)) == Pending(op) + [] && LooseValue(acc, Last(op)) == Bounded(acc)
  {
  }

  lemma ItemMeans(s: seq<Tok>, u: nat, end: nat, acc: int, op: Option<Tok>, v: int)
    requires u < end < |s| && Item(s, u, end, acc, op, v).Value?
    ensures (if op.Some? then Applied(op.value, acc, v) else Value(v)).Value?
    ensures Item(s, u, end, acc, op, v) == Items(s, u + 1, end, ItemValue(acc, op, v), None)
  {
    hide Items, Applied;
  }

  lemma ItemsMeans(s: seq<Tok>, i: nat, end: nat, acc: int, op: Option<Tok>)
    requires i < end < |s| && Items(s, i, end, acc, op).Value?
    ensures s[i].Num? ==> Items(s, i, end, acc, op) == Item(s, i, end, acc, op, s[i].v)
    ensures s[i].LParen? ==> Close(s, i, end, 0).Some?
    ensures s[i].LParen? ==>
      var u := Close(s, i, end, 0).value;
      && i < u && Items(s, i + 1, u, NOTHING, None).Value?
      && Items(s, i, end, acc, op) == Item(s, u, end, acc, op, Items(s, i + 1, u, NOTHING, None).v)
    ensures !s[i].Num? && !s[i].LParen? ==> op.None? && Items(s, i, end, acc, op) == Items(s, i + 1, end, acc, Some(s[i]))
  {
    hide Item, Applied, Bounded;
    if s[i].LParen? && Close(s, i, end, 0).Some? { CloseInside(s, i, end); }
  }

  lemma {:induction false} TakenItems(s: seq<Tok>, i: nat, end: nat, e: nat, acc: int, op: Option<Tok>) returns (g: Loose)
    requires i <= end < e <= |s| && Close(s, i, e, 1) == Some(end)
    requires op.Some? ==> !op.value.Num? && !op.value.LParen? && !op.value.RParen?
    requires Items(s, i, end, acc, op).Value?
    ensures Proper(g) && LooseToks(g) == Pending(op) + s[i..end] && LooseValue(acc, g) == Items(s, i, end, acc, op)
    decreases end - i
  {
    hide Bounded, Applied, Close, Items, Item, LooseValue, LooseToks, Proper, Pending;
    if i == end {
      assert s[i..end] == [];
      assert Items(s, i, end, acc, op) == Bounded(acc) by { ItemsEnd(s, end, acc, op); }
      TakenLast(acc, op);
      return Last(op);
    }
    CloseStep(s, i, e, end);
    ItemsMeans(s, i, end, acc, op);
    if s[i].Num? {
      var v := s[i].v;
      ItemMeans(s, i, end, acc, op, v);
      var rest := TakenItems(s, i + 1, end, e, ItemValue(acc, op, v), None);
      assert Pending(None) + s[i + 1..end] == s[i + 1..end] by { NonePending(); }
      g := TakenPart(s, i, i, end, acc, op, Lone(v), rest);
    } else if s[i].LParen? {
      var u := Close(s, i, end, 0).value;
      CloseInside(s, i, end);
      CloseSkips(s, i, end, e, 0);
      var h := TakenItems(s, i + 1, u, end, NOTHING, None);
      var v := LooseValue(NOTHING, h).v;
      ItemMeans(s, u, end, acc, op, v);
      var rest := TakenItems(s, u + 1, end, e, ItemValue(acc, op, v), None);
      NonePending();
      assert s[i..u + 1] == [LParen] + s[i + 1..u] + [RParen];
      g := TakenPart(s, i, u, end, acc, op, Nested(h), rest);
    } else {
      g := TakenItems(s, i + 1, end, e, acc, Some(s[i]));
      OnePending(s, i, end);
    }
  }

  lemma ItemsEnd(s: seq<Tok>, end: nat, acc: int, op: Option<Tok>)
    requires end < |s|
    ensures Items(s, end, end, acc, op) == Bounded(acc)
  {
  }

  lemma NonePending()
    ensures forall x: seq<Tok> {:trigger Pending(None) + x} :: Pending(None) + x == x
  {
  }

  lemma OnePending(s: seq<Tok>, i: nat, end: nat)
    requires i < end <= |s|
    ensures Pending(Some(s[i])) + s[i + 1..end] == Pending(None) + s[i..end]
  {
  }

  function ItemValue(acc: int, op: Option<Tok>, v: int): int {
    match (if op.Some? then Applied(op.value, acc, v) else Value(v))
    case Value(w) => w
    case _ => acc
  }

  lemma TakenPart(s: seq<Tok>, i: nat, u: nat, end: nat, acc: int, op: Option<Tok>, x: Part, rest: Loose) returns (g: Loose)
    requires i <= u < end < |s| && s[i..u + 1] == PartToks(x) && PartValue(x).Value? && Proper(rest)
    requires x.Nested? ==> Proper(x.g)
    requires (if op.Some? then Applied(op.value, acc, PartValue(x).v) else Value(PartValue(x).v)).Value?
    requires LooseToks(rest) == s[u + 1..end]
    ensures Proper(g) && LooseToks(g) == Pending(op) + s[i..end]
    ensures LooseValue(acc, g) == LooseValue(ItemValue(acc, op, PartValue(x).v), rest)
  {
    hide PartToks, Bounded, Items;
    var o := if op.Some? then Some(op.value.op) else None;
    g := Next(o, x, rest);
    assert s[i..end] == s[i..u + 1] + s[u + 1..end];
    assert SignToks(o) == Pending(op);
    assert SignToks(o) + PartToks(x) + LooseToks(rest) == Pending(op) + (PartToks(x) + LooseToks(rest));
  }

  lemma CloseStep(s: seq<Tok>, i: nat, e: nat, end: nat)
    requires i < end < e <= |s| && Close(s, i, e, 1) == Some(end)
    ensures !s[i].RParen? && (!s[i].LParen? ==> Close(s, i + 1, e, 1) == Some(end))
  {
  }

  lemma CloseInside(s: seq<Tok>, i: nat, end: nat)
    requires i < end <= |s| && s[i].LParen? && Close(s, i, end, 0).Some?
    ensures var u := Close(s, i, end, 0).value; i < u < end && s[u].RParen? && Close(s, i + 1, end, 1) == Some(u)
  {
  }

  // ----- and everything of that form is taken -----

  lemma StandsLoose(s: seq<Tok>, i: nat, op: Option<Operator>, x: Part, rest: Loose)
    requires Stands(s, i, LooseToks(Next(op, x, rest)))
    ensures
      var a := i + |SignToks(op)|;
      var b := a + |PartToks(x)|;
      && Stands(s, i, SignToks(op)) && Stands(s, a, PartToks(x)) && Stands(s, b, LooseToks(rest))
      && b + |LooseToks(rest)| == i + |LooseToks(Next(op, x, rest))|
  {
    hide Stands, PartToks, SignToks;
    assert LooseToks(Next(op, x, rest)) == SignToks(op) + (PartToks(x) + LooseToks(rest));
    StandsSplit(s, i, SignToks(op), PartToks(x) + LooseToks(rest));
    StandsSplit(s, i + |SignToks(op)|, PartToks(x), LooseToks(rest));
  }

  lemma StandsNested(s: seq<Tok>, i: nat, g: Loose)
    requires Stands(s, i, PartToks(Nested(g)))
    ensures
      var u := i + 1 + |LooseToks(g)|;
      && i < u < |s| && s[i].LParen? && s[u].RParen? && Stands(s, i + 1, LooseToks(g)) && |PartToks(Nested(g))| == |LooseToks(g)| + 2
  {
    hide Stands, LooseToks;
    assert PartToks(Nested(g)) == [LParen] + (LooseToks(g) + ([RParen] + []));
    StandsFirst(s, i, LParen, LooseToks(g) + ([RParen] + []));
    StandsSplit(s, i + 1, LooseToks(g), [RParen] + []);
    StandsFirst(s, i + 1 + |LooseToks(g)|, RParen, []);
  }

  /** The search for a closing parenthesis passes over such tokens. */
  lemma {:induction false} ClosePasses(s: seq<Tok>, i: nat, end: nat, d: nat, g: Loose)
    requires Proper(g) && Stands(s, i, LooseToks(g)) && i + |LooseToks(g)| <= end <= |s| && d > 0
    ensures Close(s, i, end, d) == Close(s, i + |LooseToks(g)|, end, d)
    decreases g
  {
    hide Stands;
    match g
    case Last(None) =>
    case Last(Some(t)) =>
      assert [t] + [] == [t];
      StandsFirst(s, i, t, []);
    case Next(op, x, rest) =>
      StandsLoose(s, i, op, x, rest);
      var a := i + |SignToks(op)|;
      if op.Some? {
        assert [Sign(op.value)] + [] == [Sign(op.value)];
        StandsFirst(s, i, Sign(op.value), []);
      }
      ClosePart(s, a, end, d, x);
      ClosePasses(s, a + |PartToks(x)|, end, d, rest);
  }

  lemma {:induction false} ClosePart(s: seq<Tok>, i: nat, end: nat, d: nat, x: Part)
    requires (x.Nested? ==> Proper(x.g)) && Stands(s, i, PartToks(x)) && i + |PartToks(x)| <= end <= |s| && d > 0
    ensures Close(s, i, end, d) == Close(s, i + |PartToks(x)|, end, d)
    decreases x
  {
    hide Stands, LooseToks;
    match x
    case Lone(v) =>
      assert [Num(v)] + [] == [Num(v)];
      StandsFirst(s, i, Num(v), []);
    case Nested(g) =>
      StandsNested(s, i, g);
      ClosePasses(s, i + 1, end, d + 1, g);
  }

  lemma NestedCloses(s: seq<Tok>, i: nat, end: nat, g: Loose)
    requires Proper(g) && Stands(s, i, PartToks(Nested(g))) && i + |LooseToks(g)| + 2 <= end <= |s|
    ensures i < |s| && s[i].LParen? && Close(s, i, end, 0) == Some(i + 1 + |LooseToks(g)|)
  {
    hide Stands, LooseToks;
    StandsNested(s, i, g);
    ClosePasses(s, i + 1, end, 1, g);
  }

  lemma {:induction false} LooseTaken(s: seq<Tok>, i: nat, end: nat, acc: int, g: Loose)
    requires Proper(g) && Stands(s, i, LooseToks(g)) && i + |LooseToks(g)| == end < |s|
    ensures Items(s, i, end, acc, None) == LooseValue(acc, g)
    decreases g
  {
    hide Stands, Close, Bounded, Applied;
    match g
    case Last(None) =>
    case Last(Some(t)) =>
      assert [t] + [] == [t];
      StandsFirst(s, i, t, []);
      ItemsEnd(s, end, acc, Some(t));
    case Next(op, x, rest) =>
      StandsLoose(s, i, op, x, rest);
      var a := i + |SignToks(op)|;
      var o: Option<Tok> := if op.Some? then Some(Sign(op.value)) else None;
      if op.Some? {
        assert [Sign(op.value)] + [] == [Sign(op.value)];
        StandsFirst(s, i, Sign(op.value), []);
      }
      assert Items(s, i, end, acc, None) == Items(s, a, end, acc, o);
      PartTaken(s, a, end, acc, o, x);
      if PartValue(x).Value? {
        var w := if o.Some? then Applied(o.value, acc, PartValue(x).v) else PartValue(x);
        if w.Value? {
          LooseTaken(s, a + |PartToks(x)|, end, w.v, rest);
        }
      }
  }

  /** One value, joined with what came before. */
  lemma {:induction false} PartTaken(s: seq<Tok>, i: nat, end: nat, acc: int, op: Option<Tok>, x: Part)
    requires (x.Nested? ==> Proper(x.g)) && Stands(s, i, PartToks(x)) && i + |PartToks(x)| <= end < |s|
    ensures Items(s, i, end, acc, op) ==
      match PartValue(x)
      case Value(v) => Item(s, i + |PartToks(x)| - 1, end, acc, op, v)
      case bad => bad
    decreases x
  {
    hide Stands, Close, Bounded, Applied, LooseToks, Item;
    match x
    case Lone(v) =>
      assert [Num(v)] + [] == [Num(v)];
      StandsFirst(s, i, Num(v), []);
    case Nested(g) =>
      StandsNested(s, i, g);
      NestedCloses(s, i, end, g);
      LooseTaken(s, i + 1, i + 1 + |LooseToks(g)|, NOTHING, g);
  }

  /**
   Between an opening parenthesis and the one that closes it, the evaluator takes the tokens, with
   value v, exactly when they are values with at most one operator in front of each and at most one
   token more in the end, whose value from left to right is v.
   */
  lemma TakesExactly(s: seq<Tok>, lo: nat, hi: nat, e: nat, v: int)
    requires hi < e <= |s| && lo < e && s[lo].LParen? && Close(s, lo, e, 0) == Some(hi)
    ensures lo < hi && (Group(s, lo, hi) == Value(v)
      <==> exists g: Loose {:trigger LooseToks(g)} :: Proper(g) && LooseToks(g) == s[lo + 1..hi] && LooseValue(NOTHING, g) == Value(v))
  {
    hide Items, LooseToks, LooseValue, Proper;
    CloseInside(s, lo, e);
    GroupIsItems(s, lo, hi);
    if Group(s, lo, hi) == Value(v) {
      var g := TakenItems(s, lo + 1, hi, e, NOTHING, None);
      NonePending();
      assert LooseToks(g) == s[lo + 1..hi];
    }
    forall g: Loose | Proper(g) && LooseToks(g) == s[lo + 1..hi] && LooseValue(NOTHING, g) == Value(v)
      ensures Group(s, lo, hi) == Value(v)
    {
      LooseTaken(s, lo + 1, hi, NOTHING, g);
    }
  }

  // ----- more than expressions -----

  /** In an expression the closing parenthesis has a value in front of it. */
  lemma {:induction false} TailEnds(a: Atom, t: Tail)
    ensures var s := AtomToks(a) + TailToks(t); s[|s| - 1].Num? || s[|s| - 1].RParen?
    decreases t
  {
    hide ExprToks;
    match t
    case NoMore => assert AtomToks(a) + [] == AtomToks(a);
    case More(op, atom, rest) =>
      TailEnds(atom, rest);
      var s := AtomToks(atom) + TailToks(rest);
      assert AtomToks(a) + TailToks(t) == AtomToks(a) + [Sign(op)] + s;
  }

  lemma ExprEnds(e: Expr)
    ensures var s := ExprToks(e); |s| > 2 && (s[|s| - 2].Num? || s[|s| - 2].RParen?)
  {
    hide UnaryToks, AtomToks, TailToks;
    TailEnds(e.first, e.rest);
    var s := AtomToks(e.first) + TailToks(e.rest);
    assert ExprToks(e) == [LParen] + UnaryToks(e.unary) + s + [RParen];
  }

  /** `(1 2 +)` is no expression, and its value is 2. */
  lemma TakenForTwo()
    ensures var s := [LParen, Num(1), Num(2), Sign(Plus), RParen, Eol];
      Group(s, 0, 4) == Value(2) && forall e: Expr {:trigger ExprToks(e)} :: ExprToks(e) != s[..5]
  {
    var s := [LParen, Num(1), Num(2), Sign(Plus), RParen, Eol];
    var g := Next(None, Lone(1), Next(None, Lone(2), Last(Some(Sign(Plus)))));
    assert LooseToks(g) == s[1..4];
    LooseTaken(s, 1, 4, NOTHING, g);
    assert LooseValue(1, Next(None, Lone(2), Last(Some(Sign(Plus))))) == Value(2);
    GroupIsItems(s, 0, 4);
    forall e: Expr
      ensures ExprToks(e) != s[..5]
    {
      ExprEnds(e);
    }
  }
}
