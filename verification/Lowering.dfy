/**
 From tokens to operations: the stored lines of a macro, with the arguments in place of their
 names, the expressions reduced and what is left read as arguments, are the operations that
 expansion puts in place of the call (asm/macro.c, asm/eval.c, asm/asm.c).
 */
module Lowering {
  import I = Isa
  import opened Words
  import opened Source
  import opened MacroTable
  import opened Tokens
  import opened Eval
  import opened Templates
  import S = Substitution
  import X = Expand

  // ----- the tokens of a stored line -----

  function Use(name: string): seq<Tok> { [Sym(Percent), Word(name, false)] }

  /** A line names an argument of the call here. */
  predicate Names(p: Piece) { p.P? || p.InBrackets? || p.HighOf? || p.LowOf? || p.PlusOf? || p.Unknown? }

  /** What stands in front of the name, or all of a piece without one. `$` is written as `here`. */
  function Front(p: Piece, here: Tok): seq<Tok> {
    match p
    case P(_) => []
    case InBrackets(_) => [Sym(LBracket)]
    case R(r) => [Word(X.RegName(r), false)]
    case N(v) => if v >= 0 then [Num(v)] else [LParen, Sign(Tilde), Num(-v - 1), RParen]
    case HighOf(_) => [LParen, LParen]
    case LowOf(_) => [LParen, LParen]
    case PlusOf(_, _) => [Sym(LBracket), LParen]
    case HereT(ahead, high) =>
      [LParen, LParen, here, Sign(Plus), Num(ahead), RParen, Sign(if high then Greater else Ampersand), Num(if high then 8 else 0xFF), RParen]
    case Unknown => []
  }

  function Behind(p: Piece): seq<Tok> {
    match p
    case InBrackets(_) => [Sym(RBracket)]
    case HighOf(_) => [Sign(Greater), Num(8), RParen, Sign(Ampersand), Num(0xFF), RParen]
    case LowOf(_) => [Sign(Greater), Num(0), RParen, Sign(Ampersand), Num(0xFF), RParen]
    case PlusOf(_, n) => [Sign(Plus), Num(n), RParen, Sym(RBracket)]
    case _ => []
  }

  /** The name written for an argument. Only names of parameters are not empty. */
  function NameOf(p: Piece, names: seq<string>): string
    requires Names(p)
  {
    if !p.Unknown? && p.k < |names| then names[p.k] else ""
  }

  function PieceToks(p: Piece, names: seq<string>): seq<Tok> {
    Front(p, Sym(Dollar)) + ((if Names(p) then Use(NameOf(p, names)) else []) + Behind(p))
  }

  function PiecesToks(ps: seq<Piece>, names: seq<string>): seq<Tok> {
    if ps == [] then [Eol] else PieceToks(ps[0], names) + PiecesToks(ps[1..], names)
  }

  // ----- arguments as tokens -----

  /** Every argument was a token of the call: a register, a number or a name. */
  predicate Written(args: X.Args) {
    args.Args? ==> !args.first.HereByte? && Written(args.rest)
  }

  function ArgTok(a: X.Arg): Tok
    requires !a.HereByte?
  {
    match a
    case Register(r) => Word(X.RegName(r), false)
    case Number(v) => Num(v)
    case Symbol(name, dotted) => Word(name, dotted)
  }

  function ArgToks(args: X.Args): (s: seq<Tok>)
    requires Written(args)
    ensures |s| == X.ArgCount(args)
  {
    match args
    case NoArgs => []
    case Args(a, rest) => [ArgTok(a)] + ArgToks(rest)
  }

  lemma {:induction false} ArgTokAt(args: X.Args, k: nat)
    requires Written(args)
    ensures X.ArgAt(args, k).Some? <==> k < X.ArgCount(args)
    ensures k < X.ArgCount(args) ==> !X.ArgAt(args, k).value.HereByte? && ArgToks(args)[k] == ArgTok(X.ArgAt(args, k).value)
    decreases k
  {
    if args.Args? && k > 0 {
      ArgTokAt(args.rest, k - 1);
    }
  }

  // ----- arguments in place of their names -----

  function Both(a: Option<seq<Tok>>, b: Option<seq<Tok>>): Option<seq<Tok>> {
    if a.Some? && b.Some? then Some(a.value + b.value) else None
  }

  lemma {:induction false} SubstitutedShift(x: seq<Tok>, y: seq<Tok>, j: nat, names: seq<string>, args: seq<Tok>)
    requires j <= |y| && |args| == |names|
    ensures S.Substituted(x + y, |x| + j, names, args) == S.Substituted(y, j, names, args)
    decreases |y| - j
  {
    if j < |y| {
      assert (x + y)[|x| + j] == y[j];
      SubstitutedShift(x, y, j + 1, names, args);
      if S.Marks(y[j]) && j + 1 < |y| {
        assert (x + y)[|x| + j + 1] == y[j + 1];
        SubstitutedShift(x, y, j + 2, names, args);
      }
    }
  }

  lemma BothInFront(c: Tok, a: Option<seq<Tok>>, b: Option<seq<Tok>>)
    ensures S.InFront(c, Both(a, b)) == Both(S.InFront(c, a), b)
  {
    if a.Some? && b.Some? {
      assert [c] + (a.value + b.value) == [c] + a.value + b.value;
    }
  }

  lemma {:induction false} SubstitutedFrom(x: seq<Tok>, y: seq<Tok>, i: nat, names: seq<string>, args: seq<Tok>)
    requires i <= |x| && |args| == |names| && (x == [] || !S.Marks(x[|x| - 1]))
    ensures S.Substituted(x + y, i, names, args) == Both(S.Substituted(x, i, names, args), S.Substituted(y, 0, names, args))
    decreases |x| - i
  {
    hide S.Substituted;
    var b := S.Substituted(y, 0, names, args);
    if i == |x| {
      SubstitutedShift(x, y, 0, names, args);
      SubstitutedEnd(x, names, args);
      assert b.Some? ==> [] + b.value == b.value;
    } else {
      S.SubstitutedStep(x, i, names, args);
      S.SubstitutedStep(x + y, i, names, args);
      assert (x + y)[i] == x[i];
      if !S.Marks(x[i]) {
        SubstitutedFrom(x, y, i + 1, names, args);
        BothInFront(x[i], S.Substituted(x, i + 1, names, args), b);
      } else {
        assert (x + y)[i + 1] == x[i + 1];
        if x[i + 1].Word? && S.ParamOf(names, x[i + 1].name, |names|).Some? {
          SubstitutedFrom(x, y, i + 2, names, args);
          BothInFront(args[S.ParamOf(names, x[i + 1].name, |names|).value], S.Substituted(x, i + 2, names, args), b);
        }
      }
    }
  }

  lemma SubstitutedEnd(x: seq<Tok>, names: seq<string>, args: seq<Tok>)
    requires |args| == |names|
    ensures S.Substituted(x, |x|, names, args) == Some([])
  {
  }

  /** Substitution works part by part. */
  lemma SubstitutedJoin(x: seq<Tok>, y: seq<Tok>, names: seq<string>, args: seq<Tok>)
    requires |args| == |names| && (x == [] || !S.Marks(x[|x| - 1]))
    ensures S.Substituted(x + y, 0, names, args) == Both(S.Substituted(x, 0, names, args), S.Substituted(y, 0, names, args))
  {
    SubstitutedFrom(x, y, 0, names, args);
  }

  /** What names no argument stays. */
  lemma {:induction false} SubstitutedPlain(x: seq<Tok>, i: nat, names: seq<string>, args: seq<Tok>)
    requires i <= |x| && |args| == |names| && forall k | i <= k < |x| :: !S.Marks(x[k])
    ensures S.Substituted(x, i, names, args) == Some(x[i..])
    decreases |x| - i
  {
    if i < |x| {
      SubstitutedPlain(x, i + 1, names, args);
      assert x[i..] == [x[i]] + x[i + 1..];
    }
  }

  predicate Unique(names: seq<string>) {
    && (forall i, j | 0 <= i < j < |names| :: names[i] != names[j])
    && "" !in names
  }

  lemma {:induction false} ParamFound(names: seq<string>, k: nat, n: nat)
    requires Unique(names) && k < n <= |names|
    ensures S.ParamOf(names, names[k], n) == Some(k)
    decreases n
  {
    if k < n - 1 {
      ParamFound(names, k, n - 1);
    }
  }

  /** A piece of a line when the macro is called with args; `$` is written as `here`. */
  function Given(p: Piece, args: X.Args, here: Tok): Option<seq<Tok>>
    requires Written(args)
  {
    if !Names(p) then Some(Front(p, here))
    else if p.Unknown? || p.k >= X.ArgCount(args) then None
    else Some(Front(p, here) + [ArgToks(args)[p.k]] + Behind(p))
  }

  lemma UseIs(name: string, behind: seq<Tok>)
    ensures var s := Use(name) + behind;
      |s| == 2 + |behind| && |Use(name)| == 2 && S.Marks(s[0]) && s[1] == Word(name, false)
  {
  }

  /** A name of an argument, and what stands behind it. */
  lemma UseGives(name: string, behind: seq<Tok>, names: seq<string>, args: seq<Tok>)
    requires |args| == |names| && S.ParamOf(names, name, |names|).Some? && forall t | t in behind :: !S.Marks(t)
    ensures S.Substituted(Use(name) + behind, 0, names, args) == Some([args[S.ParamOf(names, name, |names|).value]] + behind)
  {
    hide S.ParamOf, S.Substituted, S.Marks, Use;
    var s := Use(name) + behind;
    UseIs(name, behind);
    S.SubstitutedStep(s, 0, names, args);
    assert forall k | 0 <= k < |behind| :: behind[k] in behind;
    SubstitutedShift(Use(name), behind, 0, names, args);
    SubstitutedPlain(behind, 0, names, args);
    assert behind[0..] == behind;
  }

  lemma UseMisses(name: string, behind: seq<Tok>, names: seq<string>, args: seq<Tok>)
    requires |args| == |names| && S.ParamOf(names, name, |names|).None?
    ensures S.Substituted(Use(name) + behind, 0, names, args).None?
  {
    hide S.ParamOf, S.Substituted, S.Marks, Use;
    UseIs(name, behind);
    S.SubstitutedStep(Use(name) + behind, 0, names, args);
  }

  lemma BehindNone(p: Piece)
    requires !Names(p)
    ensures Behind(p) == []
  {
  }

  lemma FrontPlain(p: Piece)
    ensures forall t | t in Front(p, Sym(Dollar)) :: !S.Marks(t)
    ensures !Names(p) ==> Front(p, Sym(Dollar)) != []
  {
  }

  lemma BehindPlain(p: Piece)
    ensures forall t | t in Behind(p) :: !S.Marks(t)
  {
  }

  lemma LastOf(s: seq<Tok>)
    requires s != []
    ensures s[|s| - 1] in s
  {
  }

  lemma PieceEnds(p: Piece, names: seq<string>)
    ensures var s := PieceToks(p, names); s != [] && !S.Marks(s[|s| - 1])
    ensures forall t | t in Front(p, Sym(Dollar)) || t in Behind(p) :: !S.Marks(t)
  {
    hide Front, Behind, S.Marks, Use, Names;
    FrontPlain(p);
    BehindPlain(p);
    if Behind(p) != [] {
      LastOf(Behind(p));
    } else if Names(p) {
      UseIs(NameOf(p, names), []);
      assert Use(NameOf(p, names)) + [] == Use(NameOf(p, names));
      assert !S.Marks(Use(NameOf(p, names))[1]) by { WordPlain(NameOf(p, names)); }
    } else {
      LastOf(Front(p, Sym(Dollar)));
    }
  }

  lemma WordPlain(name: string)
    ensures !S.Marks(Word(name, false))
  {
  }

  lemma FillsIn(front: seq<Tok>, t: Tok, behind: seq<Tok>)
    ensures Both(Some(front), Some([t] + behind)) == Some(front + [t] + behind)
    ensures front + ([] + behind) == front + behind && front + [] == front
  {
    assert front + ([t] + behind) == front + [t] + behind;
  }

  lemma PieceGiven(p: Piece, names: seq<string>, args: X.Args)
    requires Unique(names) && Written(args) && |names| == X.ArgCount(args)
    ensures S.Substituted(PieceToks(p, names), 0, names, ArgToks(args)) == Given(p, args, Sym(Dollar))
  {
    hide S.Substituted, ArgToks, Front, Behind, Use, S.Marks, S.ParamOf, Both, X.ArgCount, Written;
    var toks := ArgToks(args);
    var front, behind := Front(p, Sym(Dollar)), Behind(p);
    PieceEnds(p, names);
    SubstitutedPlain(front, 0, names, toks);
    if Names(p) {
      var name := NameOf(p, names);
      SubstitutedJoin(front, Use(name) + behind, names, toks);
      if !p.Unknown? && p.k < |names| {
        ParamFound(names, p.k, |names|);
        UseGives(name, behind, names, toks);
        FillsIn(front, toks[p.k], behind);
      } else {
        assert name == "";
        UseMisses(name, behind, names, toks);
        assert Both(Some(front), None).None? by { BothNone(front); }
      }
    } else {
      BehindNone(p);
      FillsIn(front, Eol, []);
    }
  }

  lemma BothNone(x: seq<Tok>)
    ensures Both(Some(x), None).None?
  {
  }

  function GivenAll(ps: seq<Piece>, args: X.Args, here: Tok): Option<seq<Tok>>
    requires Written(args)
  {
    if ps == [] then Some([Eol]) else Both(Given(ps[0], args, here), GivenAll(ps[1..], args, here))
  }

  lemma {:induction false} PiecesGiven(ps: seq<Piece>, names: seq<string>, args: X.Args)
    requires Unique(names) && Written(args) && |names| == X.ArgCount(args)
    ensures S.Substituted(PiecesToks(ps, names), 0, names, ArgToks(args)) == GivenAll(ps, args, Sym(Dollar))
    decreases |ps|
  {
    hide S.Substituted, ArgToks, PieceToks, Given;
    if ps == [] {
      SubstitutedPlain([Eol], 0, names, ArgToks(args));
    } else {
      PieceGiven(ps[0], names, args);
      PieceEnds(ps[0], names);
      SubstitutedJoin(PieceToks(ps[0], names), PiecesToks(ps[1..], names), names, ArgToks(args));
      PiecesGiven(ps[1..], names, args);
    }
  }

  // ----- the place of the line -----

  /** eval_labels: every `$` is the address of the line. Names stay: the assembler resolves them. */
  function Located(s: seq<Tok>, at: word): (r: seq<Tok>)
    ensures |r| == |s| && forall k | 0 <= k < |s| :: r[k] == if s[k] == Sym(Dollar) then Num(at) else s[k]
  {
    seq(|s|, k requires 0 <= k < |s| => if s[k] == Sym(Dollar) then Num(at) else s[k])
  }

  lemma LocatedJoin(x: seq<Tok>, y: seq<Tok>, at: word)
    ensures Located(x + y, at) == Located(x, at) + Located(y, at)
  {
  }

  lemma LocatedSame(x: seq<Tok>, at: word)
    requires forall t | t in x :: t != Sym(Dollar)
    ensures Located(x, at) == x
  {
    assert forall k | 0 <= k < |x| :: x[k] in x;
  }

  lemma {:induction false} ArgToksPlain(args: X.Args)
    requires Written(args)
    ensures forall t | t in ArgToks(args) :: t.Num? || t.Word?
    decreases args
  {
    if args.Args? {
      ArgToksPlain(args.rest);
    }
  }

  lemma GivenPlain(p: Piece, args: X.Args, at: word)
    requires Written(args) && Given(p, args, Sym(Dollar)).Some?
    ensures Given(p, args, Num(at)).Some? && Located(Given(p, args, Sym(Dollar)).value, at) == Given(p, args, Num(at)).value
    ensures forall t | t in Given(p, args, Sym(Dollar)).value :: !t.Eol?
  {
    hide Located, ArgToks, Front, Behind;
    LocatedFront(p, at);
    if Names(p) {
      ArgToksPlain(args);
      assert ArgToks(args)[p.k] in ArgToks(args);
      LocatedSame(Given(p, args, Sym(Dollar)).value, at);
    }
  }

  lemma LocatedFront(p: Piece, at: word)
    ensures Located(Front(p, Sym(Dollar)), at) == Front(p, Num(at))
    ensures forall t | t in Front(p, Sym(Dollar)) || t in Behind(p) :: !t.Eol?
    ensures Names(p) ==> Front(p, Num(at)) == Front(p, Sym(Dollar))
    ensures Names(p) ==> forall t | t in Front(p, Sym(Dollar)) || t in Behind(p) :: t != Sym(Dollar)
  {
  }

  lemma {:induction false} GivenAllPlain(ps: seq<Piece>, args: X.Args, at: word)
    requires Written(args)
    ensures GivenAll(ps, args, Num(at)).Some? == GivenAll(ps, args, Sym(Dollar)).Some?
    ensures GivenAll(ps, args, Sym(Dollar)).Some? ==>
      var s := GivenAll(ps, args, Sym(Dollar)).value;
      && Located(s, at) == GivenAll(ps, args, Num(at)).value
      && IsLine(s)
    decreases |ps|
  {
    hide Located, Given;
    if ps == [] {
      LocatedSame([Eol], at);
    } else {
      assert Given(ps[0], args, Num(at)).Some? == Given(ps[0], args, Sym(Dollar)).Some? by { GivenSome(ps[0], args, at); }
      GivenAllPlain(ps[1..], args, at);
      if Given(ps[0], args, Sym(Dollar)).Some? && GivenAll(ps[1..], args, Sym(Dollar)).Some? {
        GivenPlain(ps[0], args, at);
        LocatedJoin(Given(ps[0], args, Sym(Dollar)).value, GivenAll(ps[1..], args, Sym(Dollar)).value, at);
      }
    }
  }

  lemma GivenSome(p: Piece, args: X.Args, at: word)
    requires Written(args)
    ensures Given(p, args, Num(at)).Some? == Given(p, args, Sym(Dollar)).Some?
  {
  }

  // ----- reading arguments -----

  /**
   type_args, from token i on, with n arguments behind and the number of arguments since an opening
   bracket. In brackets every name is a label's, outside a register's. Written numbers have no sign
   and values of expressions are at least -32768.
   */
  function Typed(s: seq<Tok>, i: nat, n: nat, open: Option<nat>): Option<X.Args>
    requires i <= |s|
    decreases |s| - i
  {
    if i == |s| then None
    else if s[i].Eol? then Some(X.NoArgs)
    else if n >= 16 then None
    else if s[i] == Sym(LBracket) then Typed(s, i + 1, n, Some(0))
    else if s[i] == Sym(RBracket) then
      if open.Some? && open.value > 0 then Typed(s, i + 1, n, None) else None
    else if s[i].Num? then
      if -32768 <= s[i].v <= 65535 && (open.None? || open.value == 0)
        then X.Before(Some(X.Number(s[i].v)), Typed(s, i + 1, n + 1, if open.None? then None else Some(1)))
        else None
    else if s[i].Word? then
      if open.Some? then X.Before(Some(X.Symbol(s[i].name, s[i].dotted)), Typed(s, i + 1, n + 1, Some(open.value + 1)))
      else if X.RegNamed(s[i].name).Some? then X.Before(Some(X.Register(X.RegNamed(s[i].name).value)), Typed(s, i + 1, n + 1, None))
      else None
    else None
  }

  function ArgSeq(args: X.Args): seq<X.Arg> {
    match args
    case NoArgs => []
    case Args(a, rest) => [a] + ArgSeq(rest)
  }

  /** The arguments found so far and those still to come. */
  function After(out: seq<X.Arg>, more: Option<X.Args>): Option<seq<X.Arg>> {
    if more.Some? then Some(out + ArgSeq(more.value)) else None
  }

  lemma AfterOne(out: seq<X.Arg>, a: X.Arg, more: Option<X.Args>)
    ensures After(out, X.Before(Some(a), more)) == After(out + [a], more)
  {
    if more.Some? {
      assert out + ([a] + ArgSeq(more.value)) == out + [a] + ArgSeq(more.value);
    }
  }

  lemma TypedStep(s: seq<Tok>, i: nat, n: nat, open: Option<nat>)
    requires i <= |s|
    ensures i == |s| || (!s[i].Eol? && n >= 16) ==> Typed(s, i, n, open).None?
    ensures i < |s| && s[i].Eol? ==> Typed(s, i, n, open) == Some(X.NoArgs)
    ensures i < |s| && !s[i].Eol? && n < 16 ==>
      if s[i] == Sym(LBracket) then Typed(s, i, n, open) == Typed(s, i + 1, n, Some(0))
      else if s[i] == Sym(RBracket) then
        Typed(s, i, n, open) == if open.Some? && open.value > 0 then Typed(s, i + 1, n, None) else None
      else if s[i].Num? then
        Typed(s, i, n, open) ==
          if -32768 <= s[i].v <= 65535 && (open.None? || open.value == 0)
          then X.Before(Some(X.Number(s[i].v)), Typed(s, i + 1, n + 1, if open.None? then None else Some(1)))
          else None
      else if s[i].Word? then
        Typed(s, i, n, open) ==
          if open.Some? then X.Before(Some(X.Symbol(s[i].name, s[i].dotted)), Typed(s, i + 1, n + 1, Some(open.value + 1)))
          else if X.RegNamed(s[i].name).Some? then X.Before(Some(X.Register(X.RegNamed(s[i].name).value)), Typed(s, i + 1, n + 1, None))
          else None
      else Typed(s, i, n, open) == None
  {
  }

  lemma AfterNone(out: seq<X.Arg>)
    ensures After(out, None).None? && After(out, Some(X.NoArgs)) == Some(out)
  {
    assert out + [] == out;
  }

  /** The arguments of a line at that address, up to its end. */
  function Reading(s: seq<Tok>, at: word): Option<X.Args>
    requires s != []
  {
    match Reduce(Located(s, at), 0)
    case Reduced(t) => Typed(t, 0, 0, None)
    case _ => None
  }

  // ----- a line read is the line filled in -----

  /** The byte that an expression with `$` stands for. */
  function Settled(a: X.Arg, at: word): Option<X.Arg> {
    match a
    case HereByte(ahead, high) =>
      if at + ahead < 65536 then Some(X.Number(if high then Hi(at + ahead) else Lo(at + ahead))) else None
    case _ => Some(a)
  }

  function SettledAll(args: X.Args, at: word): Option<X.Args> {
    match args
    case NoArgs => Some(args)
    case Args(a, rest) => X.Before(Settled(a, at), SettledAll(rest, at))
  }

  function Final(p: Piece, args: X.Args, at: word): Option<X.Arg> {
    match X.Filled(p, args)
    case None => None
    case Some(a) => Settled(a, at)
  }

  function FinalAll(ps: seq<Piece>, args: X.Args, at: word): Option<X.Args> {
    if ps == [] then Some(X.NoArgs) else X.Before(Final(ps[0], args, at), FinalAll(ps[1..], args, at))
  }

  /** What reduction leaves of a piece, if its expression has a value. */
  function Remains(p: Piece, args: X.Args, at: word): Option<seq<Tok>>
    requires Written(args) && Given(p, args, Num(at)).Some?
  {
    match p
    case P(_) => Given(p, args, Num(at))
    case InBrackets(_) => Given(p, args, Num(at))
    case R(_) => Given(p, args, Num(at))
    case PlusOf(_, _) => (match Final(p, args, at) case Some(Number(v)) => Some([Sym(LBracket), Num(v), Sym(RBracket)]) case _ => None)
    case _ => (match Final(p, args, at) case Some(Number(v)) => Some([Num(v)]) case _ => None)
  }

  function RemainsAll(ps: seq<Piece>, args: X.Args, at: word): Option<seq<Tok>>
    requires Written(args) && GivenAll(ps, args, Num(at)).Some?
  {
    if ps == [] then Some([Eol]) else Both(Remains(ps[0], args, at), RemainsAll(ps[1..], args, at))
  }

  /** A reduction with these tokens in front, or none. */
  predicate Leaves(r: Reduction, done: Option<seq<Tok>>, rest: Reduction) {
    if done.Some? then r == Ahead(done.value, rest) else !r.Reduced?
  }

  lemma PlainStep(s: seq<Tok>, i: nat, t: Tok)
    requires Stands(s, i, [t]) && i + 1 < |s| && !t.LParen?
    ensures Leaves(Reduce(s, i), Some([t]), Reduce(s, i + 1))
  {
    hide Reduce;
    assert [t] + [] == [t];
    StandsFirst(s, i, t, []);
    ReduceStep(s, i);
  }

  lemma GroupStep(s: seq<Tok>, i: nat, e: Expr)
    requires Stands(s, i, ExprToks(e)) && i + |ExprToks(e)| < |s| && ExprValue(e) != Undefined
    ensures Leaves(Reduce(s, i), if ExprValue(e).Value? then Some([Num(ExprValue(e).v)]) else None, Reduce(s, i + |ExprToks(e)|))
  {
    hide Reduce, Stands, ExprToks, ExprValue, Close, Group;
    ReduceStep(s, i);
    CloseExpr(s, i, |s| - 1, 0, e);
    GroupMeans(s, i, e);
  }

  lemma LeavesBoth(r: Reduction, a: Option<seq<Tok>>, mid: Reduction, b: Option<seq<Tok>>, rest: Reduction)
    requires Leaves(r, a, mid) && Leaves(mid, b, rest)
    ensures Leaves(r, Both(a, b), rest)
  {
    if a.Some? && b.Some? && rest.Reduced? {
      assert a.value + (b.value + rest.toks) == a.value + b.value + rest.toks;
    }
  }

  lemma {:induction false} PlainAll(s: seq<Tok>, i: nat, x: seq<Tok>)
    requires Stands(s, i, x) && i + |x| < |s| && forall t | t in x :: !t.LParen?
    ensures Leaves(Reduce(s, i), Some(x), Reduce(s, i + |x|))
    decreases |x|
  {
    hide Stands, Reduce;
    if x == [] {
      LeavesNone(Reduce(s, i));
    } else {
      assert x == [x[0]] + x[1..];
      StandsSplit(s, i, [x[0]], x[1..]);
      PlainStep(s, i, x[0]);
      PlainAll(s, i + 1, x[1..]);
      LeavesBoth(Reduce(s, i), Some([x[0]]), Reduce(s, i + 1), Some(x[1..]), Reduce(s, i + |x|));
    }
  }

  lemma LeavesNone(r: Reduction)
    ensures Leaves(r, Some([]), r)
  {
    if r.Reduced? {
      assert [] + r.toks == r.toks;
    }
  }

  lemma OneToks(v: int, op: Operator, n: int)
    ensures ExprToks(Expr(Same, Literal(v), More(op, Literal(n), NoMore))) == [LParen, Num(v), Sign(op), Num(n), RParen]
  {
    assert TailToks(NoMore) == [];
    assert TailToks(More(op, Literal(n), NoMore)) == [Sign(op), Num(n)];
  }

  lemma OuterToks(e: Expr, op: Operator, n: int)
    ensures ExprToks(Expr(Same, Inner(e), More(op, Literal(n), NoMore))) == [LParen] + ExprToks(e) + [Sign(op), Num(n), RParen]
  {
    assert TailToks(NoMore) == [];
    assert TailToks(More(op, Literal(n), NoMore)) == [Sign(op), Num(n)];
    assert AtomToks(Inner(e)) == ExprToks(e);
  }

  lemma InverseToks(n: int)
    ensures ExprToks(InverseExpr(n)) == [LParen, Sign(Tilde), Num(n), RParen]
  {
    assert TailToks(NoMore) == [];
  }

  /** A name that is no number, with an operator behind it, has no value. */
  lemma NameFails(s: seq<Tok>, lo: nat, hi: nat)
    requires lo + 2 < |s| && s[lo + 1].Word? && s[lo + 2].Sign? && lo < hi < |s| && s[hi].RParen?
    ensures Group(s, lo, hi) == Rejected
  {
    assert Items(s, lo + 1, hi, NOTHING, None) == Items(s, lo + 2, hi, NOTHING, Some(s[lo + 1]));
  }

  lemma NameReduces(s: seq<Tok>, i: nat)
    requires i + 2 < |s| && s[i].LParen? && s[i + 1].Word? && s[i + 2].Sign?
    ensures !Reduce(s, i).Reduced?
  {
    hide Group, Close;
    ReduceStep(s, i);
    var u := Close(s, i, |s| - 1, 0);
    if u.Some? {
      NameFails(s, i, u.value);
    }
  }

  /** The same one level further in. */
  lemma NestedName(s: seq<Tok>, i: nat)
    requires i + 3 < |s| && s[i].LParen? && s[i + 1].LParen? && s[i + 2].Word? && s[i + 3].Sign?
    ensures !Reduce(s, i).Reduced?
  {
    hide Group, Close, Items;
    ReduceStep(s, i);
    var u := Close(s, i, |s| - 1, 0);
    if u.Some? {
      GroupIsItems(s, i, u.value);
      NestedItems(s, i + 1, u.value);
    }
  }

  lemma NestedItems(s: seq<Tok>, i: nat, end: nat)
    requires i + 2 < |s| && s[i].LParen? && s[i + 1].Word? && s[i + 2].Sign? && i <= end < |s| && s[end].RParen?
    ensures !Items(s, i, end, NOTHING, None).Value?
  {
    hide Group, Close, Item;
    var u := Close(s, i, end, 0);
    if u.Some? {
      NameFails(s, i, u.value);
    }
  }

  lemma ByteGiven(p: Piece, args: X.Args, at: word, v: Immediate)
    requires (p.HighOf? || p.LowOf?) && Written(args) && X.ArgAt(args, p.k) == Some(X.Number(v)) && p.k < X.ArgCount(args)
    ensures var e := if p.HighOf? then HighExpr(v) else LowExpr(v);
      && Given(p, args, Num(at)) == Some(ExprToks(e)) && ExprValue(e).Value?
      && Remains(p, args, at) == Some([Num(ExprValue(e).v)])
  {
    hide ExprToks, ExprValue, ArgToks, X.ArgCount;
    ArgTokAt(args, p.k);
    ByteToks(p.HighOf?, v);
    TemplateValues(args, p.k, 0, v);
    var e := if p.HighOf? then HighExpr(v) else LowExpr(v);
    assert X.Filled(p, args) == ArgOf(ExprValue(e)) && X.Filled(p, args).Some?;
    assert Given(p, args, Num(at)).value == ExprToks(e);
  }

  lemma ByteMissing(p: Piece, args: X.Args, at: word)
    requires (p.HighOf? || p.LowOf?) && Written(args) && p.k < X.ArgCount(args)
    requires X.ArgAt(args, p.k).Some? && !X.ArgAt(args, p.k).value.Number?
    ensures Given(p, args, Num(at)).Some? && Remains(p, args, at).None?
    ensures var g := Given(p, args, Num(at)).value; |g| > 3 && g[0].LParen? && g[1].LParen? && g[2].Word? && g[3].Sign?
  {
    hide ArgToks, X.ArgCount;
    ArgTokAt(args, p.k);
  }

  /** The bytes of an argument: its expression has a value exactly when the argument is a number. */
  lemma ByteReduces(s: seq<Tok>, i: nat, p: Piece, args: X.Args, at: word)
    requires (p.HighOf? || p.LowOf?) && Written(args) && p.k < X.ArgCount(args)
    requires var g := Given(p, args, Num(at)).value; Stands(s, i, g) && i + |g| < |s|
    ensures Leaves(Reduce(s, i), Remains(p, args, at), Reduce(s, i + |Given(p, args, Num(at)).value|))
  {
    hide Reduce, ExprToks, ExprValue, ArgToks, X.ArgCount, X.ArgAt, Given, Remains, Stands, HighExpr, LowExpr;
    ArgTokAt(args, p.k);
    var a := X.ArgAt(args, p.k).value;
    if a.Number? {
      ByteGiven(p, args, at, a.v);
      GroupStep(s, i, if p.HighOf? then HighExpr(a.v) else LowExpr(a.v));
    } else {
      ByteMissing(p, args, at);
      ByteFails(s, i, Given(p, args, Num(at)).value);
    }
  }

  lemma ByteToks(high: bool, v: int)
    ensures ExprToks(if high then HighExpr(v) else LowExpr(v))
      == [LParen, LParen, Num(v), Sign(Greater), Num(if high then 8 else 0), RParen, Sign(Ampersand), Num(0xFF), RParen]
  {
    hide ExprToks;
    var e := if high then HighExpr(v) else LowExpr(v);
    OneToks(v, Greater, if high then 8 else 0);
    OuterToks(e.first.e, Ampersand, 0xFF);
  }

  lemma ByteFails(s: seq<Tok>, i: nat, g: seq<Tok>)
    requires Stands(s, i, g) && |g| > 3 && g[0].LParen? && g[1].LParen? && g[2].Word? && g[3].Sign?
    ensures !Reduce(s, i).Reduced?
  {
    assert s[i..i + |g|][0] == g[0] && s[i..i + |g|][1] == g[1] && s[i..i + |g|][2] == g[2] && s[i..i + |g|][3] == g[3];
    NestedName(s, i);
  }

  /** The sum, if there is one. */
  function SumLeft(p: Piece, args: X.Args, at: word): Option<seq<Tok>> {
    match Final(p, args, at)
    case Some(Number(v)) => Some([Num(v)])
    case _ => None
  }

  function SumToks(t: Tok, n: int): seq<Tok> { [LParen, t, Sign(Plus), Num(n), RParen] }

  lemma SumInner(s: seq<Tok>, j: nat, p: Piece, args: X.Args, at: word, a: X.Arg)
    requires p.PlusOf? && Written(args) && X.ArgAt(args, p.k) == Some(a) && !a.HereByte?
    requires Stands(s, j, SumToks(ArgTok(a), p.n)) && j + 5 < |s|
    ensures Leaves(Reduce(s, j), SumLeft(p, args, at), Reduce(s, j + 5))
  {
    hide Reduce, ExprToks, ExprValue, Stands;
    if a.Number? {
      OneToks(a.v, Plus, p.n);
      TemplateValues(args, p.k, p.n, a.v);
      OneOperation(a.v, Plus, p.n, a.v + p.n);
      GroupStep(s, j, PlusExpr(a.v, p.n));
    } else {
      var mid := SumToks(ArgTok(a), p.n);
      assert mid == [LParen] + mid[1..] && mid[1..] == [ArgTok(a)] + mid[2..] && mid[2..] == [Sign(Plus)] + mid[3..];
      StandsFirst(s, j, LParen, mid[1..]);
      StandsFirst(s, j + 1, ArgTok(a), mid[2..]);
      StandsFirst(s, j + 2, Sign(Plus), mid[3..]);
      NameReduces(s, j);
    }
  }

  lemma SumGiven(p: Piece, args: X.Args, at: word, a: X.Arg)
    requires p.PlusOf? && Written(args) && X.ArgAt(args, p.k) == Some(a) && !a.HereByte? && p.k < X.ArgCount(args)
    ensures Given(p, args, Num(at)) == Some([Sym(LBracket)] + (SumToks(ArgTok(a), p.n) + [Sym(RBracket)]))
    ensures Remains(p, args, at) == Both(Some([Sym(LBracket)]), Both(SumLeft(p, args, at), Some([Sym(RBracket)])))
  {
    hide ArgToks, X.ArgCount, Final;
    ArgTokAt(args, p.k);
    assert Given(p, args, Num(at)).value == [Sym(LBracket)] + (SumToks(ArgTok(a), p.n) + [Sym(RBracket)]);
    var v := SumLeft(p, args, at);
    assert v.Some? ==> [Sym(LBracket)] + (v.value + [Sym(RBracket)]) == [Sym(LBracket), v.value[0], Sym(RBracket)];
  }

  lemma SumReduces(s: seq<Tok>, i: nat, p: Piece, args: X.Args, at: word)
    requires p.PlusOf? && Written(args) && p.k < X.ArgCount(args)
    requires var g := Given(p, args, Num(at)).value; Stands(s, i, g) && i + |g| < |s|
    ensures Leaves(Reduce(s, i), Remains(p, args, at), Reduce(s, i + |Given(p, args, Num(at)).value|))
  {
    hide Reduce, ArgToks, X.ArgCount, Stands, Given, Remains, SumLeft, X.ArgAt, Leaves, Both;
    ArgTokAt(args, p.k);
    var a := X.ArgAt(args, p.k).value;
    var mid := SumToks(ArgTok(a), p.n);
    SumGiven(p, args, at, a);
    StandsSplit(s, i, [Sym(LBracket)], mid + [Sym(RBracket)]);
    StandsSplit(s, i + 1, mid, [Sym(RBracket)]);
    PlainStep(s, i, Sym(LBracket));
    PlainStep(s, i + 6, Sym(RBracket));
    SumInner(s, i + 1, p, args, at, a);
    LeavesBoth(Reduce(s, i + 1), SumLeft(p, args, at), Reduce(s, i + 6), Some([Sym(RBracket)]), Reduce(s, i + 7));
    LeavesBoth(Reduce(s, i), Some([Sym(LBracket)]), Reduce(s, i + 1), Both(SumLeft(p, args, at), Some([Sym(RBracket)])), Reduce(s, i + 7));
  }

  lemma PlaceReduces(s: seq<Tok>, i: nat, p: Piece, args: X.Args, at: word)
    requires (p.HereT? || (p.N? && p.v < 0)) && Written(args)
    requires var g := Front(p, Num(at)); Stands(s, i, g) && i + |g| < |s|
    ensures Leaves(Reduce(s, i), Remains(p, args, at), Reduce(s, i + |Front(p, Num(at))|))
  {
    hide Reduce, ExprToks, ExprValue;
    if p.N? {
      InverseToks(-p.v - 1);
      InverseValues(-p.v - 1);
      GroupStep(s, i, InverseExpr(-p.v - 1));
    } else {
      var e := HereExpr(at, p.ahead, p.high);
      OneToks(at, Plus, p.ahead);
      OuterToks(PlusExpr(at, p.ahead), if p.high then Greater else Ampersand, if p.high then 8 else 0xFF);
      assert ExprToks(e) == Front(p, Num(at));
      HereValues(at, p.ahead, p.high);
      GroupStep(s, i, e);
    }
  }

  lemma PieceReduces(s: seq<Tok>, i: nat, p: Piece, args: X.Args, at: word)
    requires Written(args) && Given(p, args, Num(at)).Some?
    requires var g := Given(p, args, Num(at)).value; Stands(s, i, g) && i + |g| < |s|
    ensures Leaves(Reduce(s, i), Remains(p, args, at), Reduce(s, i + |Given(p, args, Num(at)).value|))
  {
    hide Reduce, Stands, ArgToks, X.ArgCount;
    if p.HighOf? || p.LowOf? {
      ByteReduces(s, i, p, args, at);
    } else if p.PlusOf? {
      SumReduces(s, i, p, args, at);
    } else if p.HereT? || (p.N? && p.v < 0) {
      PlaceReduces(s, i, p, args, at);
    } else {
      var g := Given(p, args, Num(at)).value;
      if Names(p) {
        ArgToksPlain(args);
        assert ArgToks(args)[p.k] in ArgToks(args);
      }
      PlainAll(s, i, g);
    }
  }

  lemma {:induction false} PiecesReduce(s: seq<Tok>, i: nat, ps: seq<Piece>, args: X.Args, at: word)
    requires Written(args) && GivenAll(ps, args, Num(at)).Some?
    requires Stands(s, i, GivenAll(ps, args, Num(at)).value) && i + |GivenAll(ps, args, Num(at)).value| == |s|
    ensures match RemainsAll(ps, args, at) case Some(t) => Reduce(s, i) == Reduced(t) case None => !Reduce(s, i).Reduced?
    decreases |ps|
  {
    hide Reduce, Stands, Given, Remains;
    if ps == [] {
      assert [Eol] + [] == [Eol];
      StandsFirst(s, i, Eol, []);
      ReduceStep(s, i);
    } else {
      var g, more := Given(ps[0], args, Num(at)).value, GivenAll(ps[1..], args, Num(at)).value;
      assert |more| > 0 by { GivenAllPlain(ps[1..], args, at); }
      StandsSplit(s, i, g, more);
      PieceReduces(s, i, ps[0], args, at);
      PiecesReduce(s, i + |g|, ps[1..], args, at);
    }
  }

  /** The argument that a token outside brackets is. */
  function LoneArg(t: Tok): Option<X.Arg> {
    if t.Num? then (if -32768 <= t.v <= 65535 then Some(X.Number(t.v)) else None)
    else if t.Word? && X.RegNamed(t.name).Some? then Some(X.Register(X.RegNamed(t.name).value))
    else None
  }

  lemma LoneTyped(s: seq<Tok>, i: nat, n: nat, t: Tok)
    requires Stands(s, i, [t]) && n < 16 && (t.Num? || t.Word?)
    ensures i + 1 <= |s| && Typed(s, i, n, None) == X.Before(LoneArg(t), Typed(s, i + 1, n + 1, None))
  {
    assert s[i..i + 1][0] == s[i];
  }

  lemma BracketTyped(s: seq<Tok>, i: nat, n: nat, t: Tok)
    requires Stands(s, i, [Sym(LBracket), t, Sym(RBracket)]) && n + 1 < 16 && (t.Num? || t.Word?) && (t.Num? ==> -32768 <= t.v <= 65535)
    ensures i + 3 <= |s|
    ensures Typed(s, i, n, None)
      == X.Before(Some(if t.Num? then X.Number(t.v) else X.Symbol(t.name, t.dotted)), Typed(s, i + 3, n + 1, None))
  {
    var x := s[i..i + 3];
    assert s[i] == x[0] && s[i + 1] == x[1] && s[i + 2] == x[2];
    assert Typed(s, i, n, None) == Typed(s, i + 1, n, Some(0));
    assert Typed(s, i + 2, n + 1, Some(1)) == Typed(s, i + 3, n + 1, None);
  }

  lemma PieceTyped(s: seq<Tok>, i: nat, n: nat, p: Piece, args: X.Args, at: word)
    requires Written(args) && Given(p, args, Num(at)).Some? && Remains(p, args, at).Some? && n + 1 < 16
    requires var t := Remains(p, args, at).value; Stands(s, i, t)
    ensures i + |Remains(p, args, at).value| <= |s|
    ensures Typed(s, i, n, None) == X.Before(Final(p, args, at), Typed(s, i + |Remains(p, args, at).value|, n + 1, None))
  {
    hide ArgToks, X.ArgCount, Typed, Stands;
    var t := Remains(p, args, at).value;
    if p.P? || p.InBrackets? {
      ArgTokAt(args, p.k);
    }
    if p.InBrackets? || p.PlusOf? {
      assert t == [Sym(LBracket), t[1], Sym(RBracket)];
      BracketTyped(s, i, n, t[1]);
    } else {
      assert t == [t[0]];
      LoneTyped(s, i, n, t[0]);
    }
  }

  lemma {:induction false} PiecesTyped(s: seq<Tok>, i: nat, n: nat, ps: seq<Piece>, args: X.Args, at: word)
    requires Written(args) && GivenAll(ps, args, Num(at)).Some? && RemainsAll(ps, args, at).Some? && n + |ps| < 16
    requires var t := RemainsAll(ps, args, at).value; Stands(s, i, t)
    ensures i <= |s| && Typed(s, i, n, None) == FinalAll(ps, args, at)
    decreases |ps|
  {
    hide Typed, Given, Remains, Stands, Final;
    if ps == [] {
      assert [Eol] + [] == [Eol];
      StandsFirst(s, i, Eol, []);
      TypedEnd(s, i, n);
    } else {
      var t, more := Remains(ps[0], args, at).value, RemainsAll(ps[1..], args, at).value;
      StandsSplit(s, i, t, more);
      PieceTyped(s, i, n, ps[0], args, at);
      PiecesTyped(s, i + |t|, n + 1, ps[1..], args, at);
    }
  }

  lemma TypedEnd(s: seq<Tok>, i: nat, n: nat)
    requires i < |s| && s[i].Eol?
    ensures Typed(s, i, n, None) == Some(X.NoArgs)
  {
  }

  lemma PieceNone(p: Piece, args: X.Args, at: word)
    requires Written(args)
    ensures Given(p, args, Num(at)).None? ==> Final(p, args, at).None?
    ensures Given(p, args, Num(at)).Some? && Remains(p, args, at).None? ==> Final(p, args, at).None?
  {
    hide ArgToks, X.ArgCount;
    if Names(p) && !p.Unknown? {
      ArgTokAt(args, p.k);
    }
  }

  lemma {:induction false} PiecesNone(ps: seq<Piece>, args: X.Args, at: word)
    requires Written(args)
    ensures GivenAll(ps, args, Num(at)).None? ==> FinalAll(ps, args, at).None?
    ensures GivenAll(ps, args, Num(at)).Some? && RemainsAll(ps, args, at).None? ==> FinalAll(ps, args, at).None?
    decreases |ps|
  {
    hide Given, Remains, Final;
    if ps != [] {
      PieceNone(ps[0], args, at);
      PiecesNone(ps[1..], args, at);
    }
  }

  function PieceSeq(pieces: Pieces): (ps: seq<Piece>)
    ensures |ps| <= 5
  {
    match pieces
    case NoPieces => []
    case With1(a) => [a]
    case With2(a, b) => [a, b]
    case With3(a, b, c) => [a, b, c]
    case With4(a, b, c, d) => [a, b, c, d]
    case With5(a, b, c, d, e) => [a, b, c, d, e]
  }

  function SettledLine(filled: Option<X.Args>, at: word): Option<X.Args> {
    if filled.Some? then SettledAll(filled.value, at) else None
  }

  lemma SettledBefore(p: Piece, more: Option<X.Args>, args: X.Args, at: word)
    ensures SettledLine(X.Before(X.Filled(p, args), more), at) == X.Before(Final(p, args, at), SettledLine(more, at))
  {
    hide X.Filled;
  }

  lemma FinalIsFilled(pieces: Pieces, args: X.Args, at: word)
    ensures FinalAll(PieceSeq(pieces), args, at) == SettledLine(X.FilledAll(pieces, args), at)
  {
    hide X.Filled, Final, SettledAll, FinalAll, SettledLine;
    assert SettledLine(Some(X.NoArgs), at) == Some(X.NoArgs) by { SettledNone(at); }
    FinalStep(args, at);
    forall p, more {:trigger X.Before(X.Filled(p, args), more)}
      ensures SettledLine(X.Before(X.Filled(p, args), more), at) == X.Before(Final(p, args, at), SettledLine(more, at))
    {
      SettledBefore(p, more, args, at);
    }
    match pieces
    case NoPieces =>
    case With1(a) => assert [a][1..] == [];
    case With2(a, b) => assert [a, b][1..] == [b] && [b][1..] == [];
    case With3(a, b, c) => assert [a, b, c][1..] == [b, c] && [b, c][1..] == [c] && [c][1..] == [];
    case With4(a, b, c, d) =>
      assert [a, b, c, d][1..] == [b, c, d] && [b, c, d][1..] == [c, d] && [c, d][1..] == [d] && [d][1..] == [];
    case With5(a, b, c, d, e) =>
      assert [a, b, c, d, e][1..] == [b, c, d, e] && [b, c, d, e][1..] == [c, d, e] && [c, d, e][1..] == [d, e];
      assert [d, e][1..] == [e] && [e][1..] == [];
  }

  lemma SettledNone(at: word)
    ensures SettledLine(Some(X.NoArgs), at) == Some(X.NoArgs)
  {
  }

  lemma FinalStep(args: X.Args, at: word)
    ensures FinalAll([], args, at) == Some(X.NoArgs)
    ensures forall ps: seq<Piece> {:trigger FinalAll(ps, args, at)} | ps != [] ::
      FinalAll(ps, args, at) == X.Before(Final(ps[0], args, at), FinalAll(ps[1..], args, at))
  {
  }

  /** The end of the line is its last token and no other. */
  predicate IsLine(s: seq<Tok>) {
    s != [] && s[|s| - 1].Eol? && forall t | t in s[..|s| - 1] :: !t.Eol?
  }

  /**
   The tokens of a stored line behind the name of the operation, with arguments substituted, `$`
   located, expressions reduced and arguments read, are the arguments that expansion fills in; and
   one fails exactly when the other does.
   */
  lemma RowReads(pieces: Pieces, names: seq<string>, args: X.Args, at: word)
    requires Unique(names) && Written(args) && |names| == X.ArgCount(args)
    ensures
      var r := S.Substituted(PiecesToks(PieceSeq(pieces), names), 0, names, ArgToks(args));
      && (r.Some? ==> IsLine(r.value))
      && SettledLine(X.FilledAll(pieces, args), at) == if r.Some? then Reading(r.value, at) else None
  {
    hide S.Substituted, X.FilledAll, PieceSeq, GivenAll, RemainsAll, FinalAll, SettledLine, Reduce, Typed, Located, PiecesToks;
    var ps := PieceSeq(pieces);
    PiecesGiven(ps, names, args);
    GivenAllPlain(ps, args, at);
    FinalIsFilled(pieces, args, at);
    PiecesNone(ps, args, at);
    if GivenAll(ps, args, Num(at)).Some? {
      var s := GivenAll(ps, args, Num(at)).value;
      assert Stands(s, 0, s) by { StandsWhole(s); }
      PiecesReduce(s, 0, ps, args, at);
      if RemainsAll(ps, args, at).Some? {
        var t := RemainsAll(ps, args, at).value;
        StandsWhole(t);
        PiecesTyped(t, 0, 0, ps, args, at);
      }
    }
  }

  lemma StandsWhole(s: seq<Tok>)
    ensures Stands(s, 0, s)
  {
  }

  // ----- all lines of a body -----

  function RowSeq(body: Body): seq<Row> {
    match body
    case Rows1(a) => [a]
    case Rows2(a, b) => [a, b]
    case Rows3(a, b, c) => [a, b, c]
    case Rows4(a, b, c, d) => [a, b, c, d]
    case Rows5(a, b, c, d, e) => [a, b, c, d, e]
  }

  /** The stored tokens of a body, with the names of operations as they are written. */
  function BodyToks(rows: seq<Row>, names: seq<string>, text: Name -> string): seq<Tok> {
    if rows == [] then []
    else [Word(text(rows[0].name), false)] + PiecesToks(PieceSeq(rows[0].pieces), names) + BodyToks(rows[1..], names, text)
  }

  /** The first end of a line. */
  function LineEnd(s: seq<Tok>): (e: Option<nat>)
    ensures e.Some? ==> e.value < |s|
  {
    if s == [] then None
    else if s[0].Eol? then Some(0)
    else
      match LineEnd(s[1..])
      case None => None
      case Some(e) => Some(e + 1)
  }

  /** The operations that the lines of s are, each at its address, in front of the text that follows. */
  function ReadText(s: seq<Tok>, ats: seq<word>, named: string -> Name, rest: X.Text): Option<X.Text> {
    if ats == [] then (if s == [] then Some(rest) else None)
    else
      match LineEnd(s)
      case None => None
      case Some(e) =>
        if e == 0 then ReadText(s[1..], ats, named, rest)
        else if !s[0].Word? then None
        else UsesNext(named(s[0].name), Reading(s[1..e + 1], ats[0]), ReadText(s[e + 1..], ats[1..], named, rest))
  }

  function UsesNext(name: Name, args: Option<X.Args>, more: Option<X.Text>): Option<X.Text> {
    if args.Some? && more.Some? then Some(X.Uses(X.Do(name, args.value), more.value)) else None
  }

  /** A text with `$` expressions replaced by their bytes in its first operations. */
  function SettledText(text: Option<X.Text>, ats: seq<word>): Option<X.Text>
    decreases |ats|
  {
    if ats == [] || text.None? || !text.value.Uses? then text
    else UsesNext(text.value.op.name, SettledAll(text.value.op.args, ats[0]), SettledText(Some(text.value.rest), ats[1..]))
  }

  function FinalRows(rows: seq<Row>, args: X.Args, ats: seq<word>, rest: X.Text): Option<X.Text>
    requires |ats| == |rows|
  {
    if rows == [] then Some(rest)
    else
      var line := SettledLine(X.FilledAll(rows[0].pieces, args), ats[0]);
      UsesNext(rows[0].name, line, FinalRows(rows[1..], args, ats[1..], rest))
  }

  lemma {:induction false} LineEnds(line: seq<Tok>, more: seq<Tok>)
    requires IsLine(line)
    ensures LineEnd(line + more) == Some(|line| - 1)
    decreases |line|
  {
    if |line| > 1 {
      assert line[0] in line[..|line| - 1];
      assert line[1..][..|line| - 2] == line[..|line| - 1][1..];
      assert (line + more)[1..] == line[1..] + more;
      LineEnds(line[1..], more);
    }
  }

  lemma WithName(name: string, line: seq<Tok>)
    requires IsLine(line)
    ensures IsLine([Word(name, false)] + line)
  {
    var s := [Word(name, false)] + line;
    assert s[..|s| - 1] == [Word(name, false)] + line[..|line| - 1];
  }

  /** One line read, and what is behind it. */
  lemma ReadNext(name: string, line: seq<Tok>, more: seq<Tok>, ats: seq<word>, named: string -> Name, rest: X.Text)
    requires IsLine(line) && ats != []
    ensures ReadText([Word(name, false)] + line + more, ats, named, rest)
      == UsesNext(named(name), Reading(line, ats[0]), ReadText(more, ats[1..], named, rest))
  {
    hide Reading, LineEnd, IsLine;
    var first := [Word(name, false)] + line;
    WithName(name, line);
    LineEnds(first, more);
    assert line != [] by { LineFull(line); }
    assert (first + more)[1..|first|] == line && (first + more)[|first|..] == more;
  }

  lemma LineFull(line: seq<Tok>)
    requires IsLine(line)
    ensures line != []
  {
  }

  lemma RowToks(row: Row, names: seq<string>, args: X.Args, name: string, more: seq<Tok>)
    requires Unique(names) && Written(args) && |names| == X.ArgCount(args)
    ensures
      var r := S.Substituted(PiecesToks(PieceSeq(row.pieces), names), 0, names, ArgToks(args));
      S.Substituted([Word(name, false)] + PiecesToks(PieceSeq(row.pieces), names) + more, 0, names, ArgToks(args))
        == Both(Both(Some([Word(name, false)]), r), S.Substituted(more, 0, names, ArgToks(args)))
  {
    hide S.Substituted, Both, PieceSeq, PieceToks;
    var ps, toks := PieceSeq(row.pieces), ArgToks(args);
    var w := [Word(name, false)];
    PiecesEnd(ps, names);
    SubstitutedJoin(w + PiecesToks(ps, names), more, names, toks);
    SubstitutedJoin(w, PiecesToks(ps, names), names, toks);
    SubstitutedPlain(w, 0, names, toks);
  }

  lemma {:induction false} PiecesEnd(ps: seq<Piece>, names: seq<string>)
    ensures var s := PiecesToks(ps, names); s != [] && s[|s| - 1].Eol?
    decreases |ps|
  {
    hide PieceToks;
    if ps != [] {
      PiecesEnd(ps[1..], names);
    }
  }

  lemma {:induction false} RowsRead(rows: seq<Row>, names: seq<string>, args: X.Args, ats: seq<word>, text: Name -> string, named: string -> Name, rest: X.Text)
    requires Unique(names) && Written(args) && |names| == X.ArgCount(args) && |ats| == |rows|
    requires forall n :: named(text(n)) == n
    ensures
      var s := S.Substituted(BodyToks(rows, names, text), 0, names, ArgToks(args));
      FinalRows(rows, args, ats, rest) == if s.Some? then ReadText(s.value, ats, named, rest) else None
    decreases |rows|
  {
    hide S.Substituted, PieceSeq, PiecesToks, IsLine, Reading, X.FilledAll, SettledLine, ArgToks, ReadText;
    if rows == [] {
      SubstitutedPlain([], 0, names, ArgToks(args));
      ReadDone(names, ats, named, rest);
    } else {
      var name := text(rows[0].name);
      RowsRead(rows[1..], names, args, ats[1..], text, named, rest);
      RowReads(rows[0].pieces, names, args, ats[0]);
      RowToks(rows[0], names, args, name, BodyToks(rows[1..], names, text));
      var r := S.Substituted(PiecesToks(PieceSeq(rows[0].pieces), names), 0, names, ArgToks(args));
      var y := S.Substituted(BodyToks(rows[1..], names, text), 0, names, ArgToks(args));
      if r.Some? && y.Some? {
        ReadNext(name, r.value, y.value, ats, named, rest);
      }
    }
  }

  lemma ReadDone(names: seq<string>, ats: seq<word>, named: string -> Name, rest: X.Text)
    requires ats == []
    ensures ReadText([], ats, named, rest) == Some(rest)
  {
  }

  lemma SettledRow(row: Row, args: X.Args, more: Option<X.Text>, ats: seq<word>)
    requires ats != []
    ensures SettledText(X.SpliceRow(row, args, more), ats)
      == UsesNext(row.name, SettledLine(X.FilledAll(row.pieces, args), ats[0]), SettledText(more, ats[1..]))
  {
    hide X.FilledAll, SettledAll;
  }

  lemma RowsSplice(body: Body, args: X.Args, ats: seq<word>, rest: X.Text)
    requires |ats| == |RowSeq(body)|
    ensures SettledText(X.Splice(body, args, rest), ats) == FinalRows(RowSeq(body), args, ats, rest)
  {
    hide X.SpliceRow, X.FilledAll, SettledLine, SettledText, UsesNext, FinalRows;
    forall row, more, b: seq<word> {:trigger SettledText(X.SpliceRow(row, args, more), b)} | b != []
      ensures SettledText(X.SpliceRow(row, args, more), b)
        == UsesNext(row.name, SettledLine(X.FilledAll(row.pieces, args), b[0]), SettledText(more, b[1..]))
    {
      SettledRow(row, args, more, b);
    }
    FinalStepRows(args, rest);
    assert ats[|ats|..] == [];
    match body
    case Rows1(a) => assert [a][1..] == [] && ats[1..] == [];
    case Rows2(a, b) => assert [a, b][1..] == [b] && [b][1..] == [] && ats[1..][1..] == [];
    case Rows3(a, b, c) =>
      assert [a, b, c][1..] == [b, c] && [b, c][1..] == [c] && [c][1..] == [] && ats[1..][1..][1..] == [];
    case Rows4(a, b, c, d) =>
      assert [a, b, c, d][1..] == [b, c, d] && [b, c, d][1..] == [c, d] && [c, d][1..] == [d] && [d][1..] == [];
      assert ats[1..][1..][1..][1..] == [];
    case Rows5(a, b, c, d, e) =>
      assert [a, b, c, d, e][1..] == [b, c, d, e] && [b, c, d, e][1..] == [c, d, e] && [c, d, e][1..] == [d, e];
      assert [d, e][1..] == [e] && [e][1..] == [] && ats[1..][1..][1..][1..][1..] == [];
  }

  lemma FinalStepRows(args: X.Args, rest: X.Text)
    ensures FinalRows([], args, [], rest) == Some(rest) && SettledText(Some(rest), []) == Some(rest)
    ensures forall rows: seq<Row>, ats: seq<word> {:trigger FinalRows(rows, args, ats, rest)} | rows != [] && |ats| == |rows| ::
      FinalRows(rows, args, ats, rest)
        == UsesNext(rows[0].name, SettledLine(X.FilledAll(rows[0].pieces, args), ats[0]), FinalRows(rows[1..], args, ats[1..], rest))
  {
  }

  /**
   A call expanded on tokens: the stored body, with the arguments substituted, read line by line,
   each at its address, is the text that expansion on operations splices in, `$` expressions settled;
   and one fails exactly when the other does.
   */
  lemma CallLowers(body: Body, names: seq<string>, args: X.Args, ats: seq<word>, text: Name -> string, named: string -> Name, rest: X.Text)
    requires Unique(names) && Written(args) && |names| == X.ArgCount(args) && |ats| == |RowSeq(body)|
    requires forall n :: named(text(n)) == n
    ensures
      var s := S.Substituted(BodyToks(RowSeq(body), names, text), 0, names, ArgToks(args));
      SettledText(X.Splice(body, args, rest), ats) == if s.Some? then ReadText(s.value, ats, named, rest) else None
  {
    hide S.Substituted, BodyToks, FinalRows, SettledText, X.Splice, ReadText, ArgToks;
    RowsSplice(body, args, ats, rest);
    RowsRead(RowSeq(body), names, args, ats, text, named, rest);
  }

  /** The arguments of a line that has been read are tokens again. */
  lemma {:induction false} TypedWritten(s: seq<Tok>, i: nat, n: nat, open: Option<nat>)
    requires i <= |s| && Typed(s, i, n, open).Some?
    ensures Written(Typed(s, i, n, open).value)
    decreases |s| - i
  {
    if !s[i].Eol? {
      if s[i] == Sym(LBracket) {
        TypedWritten(s, i + 1, n, Some(0));
      } else if s[i] == Sym(RBracket) {
        TypedWritten(s, i + 1, n, None);
      } else if s[i].Num? {
        TypedWritten(s, i + 1, n + 1, if open.None? then None else Some(1));
      } else if open.Some? {
        TypedWritten(s, i + 1, n + 1, Some(open.value + 1));
      } else {
        TypedWritten(s, i + 1, n + 1, None);
      }
    }
  }
}
