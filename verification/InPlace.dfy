/**
 A macro call on one list of linked tokens, in place: the call gives way to the lines of its macro,
 and each of them in turn has its place filled in, its expressions evaluated and its arguments read
 (asm/asm.c, parse; asm/macro.c; asm/eval.c).
 */
module InPlace {
  import opened Words
  import opened Source
  import opened Tokens
  import opened Eval
  import opened Lowering
  import I = Isa
  import L = Lowering
  import T = MacroTable
  import S = Substitution
  import X = Expand

  /** type_args, on the tokens from first to the end of the line. */
  method TypeArgs(first: Token, ghost nodes: seq<Token>, ghost s: seq<Tok>) returns (r: Option<seq<X.Arg>>)
    requires nodes != [] && first == nodes[0] && Chain(nodes) && Toks(nodes) == s && s[|s| - 1].Eol?
    ensures r == After([], Typed(s, 0, 0, None))
  {
    hide Typed, After, ArgSeq, X.RegNamed;
    var t, open, out: seq<X.Arg> := first, None, [];
    ghost var i := 0;
    while !t.tok.Eol?
      invariant i < |s| && t == nodes[i] && After([], Typed(s, 0, 0, None)) == After(out, Typed(s, i, |out|, open))
      decreases |s| - i
    {
      AfterNone(out);
      TypedStep(s, i, |out|, open);
      assert t.tok == s[i] && t.next == nodes[i + 1];
      if |out| >= 16 {
        return None;
      }
      if t.tok == Sym(LBracket) {
        open := Some(0);
      } else if t.tok == Sym(RBracket) {
        if open.None? || open.value == 0 {
          return None;
        }
        open := None;
      } else if t.tok.Num? {
        if t.tok.v < -32768 || t.tok.v > 65535 || (open.Some? && open.value > 0) {
          return None;
        }
        open := if open.None? then None else Some(1);
        AfterOne(out, X.Number(s[i].v), Typed(s, i + 1, |out| + 1, open));
        out := out + [X.Number(t.tok.v)];
      } else if t.tok.Word? {
        var a;
        if open.Some? {
          a := X.Symbol(t.tok.name, t.tok.dotted);
          open := Some(open.value + 1);
        } else {
          var reg := X.RegNamed(t.tok.name);
          if reg.None? {
            return None;
          }
          a := X.Register(reg.value);
        }
        AfterOne(out, a, Typed(s, i + 1, |out| + 1, open));
        out := out + [a];
      } else {
        return None;
      }
      t, i := t.next, i + 1;
    }
    TypedStep(s, i, |out|, open);
    AfterNone(out);
    return Some(out);
  }

  /** eval_labels, for the `$` of a line at that address. */
  method Locate(first: Token, eol: Token, at: word, ghost nodes: seq<Token>, ghost s: seq<Tok>)
    requires |nodes| == |s| > 0 && first == nodes[0] && eol == nodes[|s| - 1] && s[|s| - 1].Eol?
    requires Linked(nodes, s, 0, |s| - 1) && Distinct(nodes)
    modifies nodes
    ensures Linked(nodes, Located(s, at), 0, |s| - 1) && eol.next == old(eol.next)
  {
    var t := first;
    ghost var i := 0;
    while t != eol
      invariant i < |s| && t == nodes[i] && eol.next == old(eol.next)
      invariant forall k | 0 <= k < |s| - 1 :: nodes[k].next == nodes[k + 1]
      invariant forall k | 0 <= k < |s| :: nodes[k].tok == if k < i then Located(s, at)[k] else s[k]
      decreases |s| - i
    {
      assert t.next == nodes[i + 1];
      if t.tok == Sym(Dollar) {
        t.tok := Num(at);
      }
      t, i := t.next, i + 1;
    }
  }

  function ArgsOf(s: seq<X.Arg>): X.Args {
    if s == [] then X.NoArgs else X.Args(s[0], ArgsOf(s[1..]))
  }

  lemma {:induction false} ArgsBack(args: X.Args)
    ensures ArgsOf(ArgSeq(args)) == args
    decreases args
  {
    if args.Args? {
      assert ([args.first] + ArgSeq(args.rest))[1..] == ArgSeq(args.rest);
      ArgsBack(args.rest);
    }
  }

  /**
   The front half of parse, on the tokens behind the name of an operation: `$` is filled in,
   expressions give way to their values, and what is left is read as arguments.
   */
  method ReadArgs(first: Token, eol: Token, at: word, ghost nodes: seq<Token>, ghost s: seq<Tok>) returns (r: Option<X.Args>)
    requires |nodes| == |s| > 0 && first == nodes[0] && eol == nodes[|s| - 1] && s[|s| - 1].Eol?
    requires Linked(nodes, s, 0, |s| - 1) && Distinct(nodes)
    modifies nodes
    ensures r == Reading(s, at) && eol.next == old(eol.next)
  {
    hide Reduce, Linked, Typed, ArgSeq, ArgsOf, After, Located;
    Locate(first, eol, at, nodes, s);
    var report, out := EvalBetween(first, eol, nodes, Located(s, at));
    if report != Fine {
      return None;
    }
    ghost var t := Reduce(Located(s, at), 0).toks;
    assert t[|t| - 1].Eol? by { ReduceEnds(Located(s, at), 0); }
    var args := TypeArgs(first, out, t);
    if Typed(t, 0, 0, None).Some? {
      ArgsAfter(Typed(t, 0, 0, None).value);
    }
    AfterNone([]);
    return if args.Some? then Some(ArgsOf(args.value)) else None;
  }

  lemma ArgsAfter(args: X.Args)
    ensures After([], Some(args)).Some? && ArgsOf(After([], Some(args)).value) == args
  {
    ArgsBack(args);
    assert [] + ArgSeq(args) == ArgSeq(args);
  }

  /** The end of a line stays at its end. */
  lemma {:induction false} ReduceEnds(s: seq<Tok>, i: nat)
    requires i < |s| && s[|s| - 1].Eol? && Reduce(s, i).Reduced?
    ensures var t := Reduce(s, i).toks; t != [] && t[|t| - 1].Eol?
    decreases |s| - i
  {
    hide Group, Close;
    if i < |s| - 1 {
      if !s[i].LParen? {
        ReduceEnds(s, i + 1);
      } else {
        ReduceEnds(s, Close(s, i, |s| - 1, 0).value + 1);
      }
    }
  }

  // ----- line after line -----

  function Prepend(ops: seq<X.Operation>, text: X.Text): X.Text {
    if ops == [] then text else X.Uses(ops[0], Prepend(ops[1..], text))
  }

  function AllInFront(ops: seq<X.Operation>, text: Option<X.Text>): Option<X.Text> {
    if text.Some? then Some(Prepend(ops, text.value)) else None
  }

  lemma {:induction false} PrependOne(ops: seq<X.Operation>, op: X.Operation, text: X.Text)
    ensures Prepend(ops + [op], text) == Prepend(ops, X.Uses(op, text))
    decreases |ops|
  {
    if ops == [] {
      assert [op][1..] == [];
    } else {
      assert (ops + [op])[1..] == ops[1..] + [op];
      PrependOne(ops[1..], op, text);
    }
  }

  lemma AllOne(ops: seq<X.Operation>, name: T.Name, args: Option<X.Args>, more: Option<X.Text>)
    ensures args.Some? ==> AllInFront(ops, UsesNext(name, args, more)) == AllInFront(ops + [X.Do(name, args.value)], more)
    ensures args.None? ==> AllInFront(ops, UsesNext(name, args, more)).None?
  {
    if args.Some? && more.Some? {
      PrependOne(ops, X.Do(name, args.value), more.value);
    }
  }

  lemma ReadStep(s: seq<Tok>, ats: seq<word>, named: string -> T.Name, rest: X.Text)
    ensures ReadText(s, ats, named, rest) ==
      if ats == [] then (if s == [] then Some(rest) else None)
      else
        match LineEnd(s)
        case None => None
        case Some(e) =>
          if e == 0 then ReadText(s[1..], ats, named, rest)
          else if !s[0].Word? then None
          else UsesNext(named(s[0].name), Reading(s[1..e + 1], ats[0]), ReadText(s[e + 1..], ats[1..], named, rest))
  {
    hide Reading, LineEnd, UsesNext;
  }

  /** How far the end of the line is from token i. */
  function EndFrom(s: seq<Tok>, i: nat): Option<nat>
    requires i <= |s|
  {
    LineEnd(s[i..])
  }

  /** The token that ends the line. */
  method FindEnd(first: Token, ghost nodes: seq<Token>, ghost s: seq<Tok>, ghost i: nat) returns (eol: Token)
    requires i < |nodes| == |s| && first == nodes[i] && s[|s| - 1].Eol? && Linked(nodes, s, i, |s| - 1)
    ensures EndFrom(s, i).Some? && i + EndFrom(s, i).value < |s| && eol == nodes[i + EndFrom(s, i).value] && eol.tok.Eol?
  {
    eol := first;
    ghost var j := i;
    while !eol.tok.Eol?
      invariant i <= j < |s| && eol == nodes[j]
      invariant LineEnd(s[i..]) == (match LineEnd(s[j..]) case None => None case Some(e) => Some(j - i + e))
      decreases |s| - j
    {
      assert eol.next == nodes[j + 1] && s[j..][1..] == s[j + 1..];
      eol, j := eol.next, j + 1;
    }
  }

  lemma LineIs(s: seq<Tok>, i: nat)
    requires i < |s| && LineEnd(s[i..]).Some?
    ensures var e := LineEnd(s[i..]).value;
      && i + e < |s| && s[i + e].Eol? && s[i..][1..] == s[i + 1..] && s[i..][e + 1..] == s[i + e + 1..]
      && (e > 0 ==> s[i..][1..e + 1] == s[i + 1..i + e + 1] && s[i + 1..i + e + 1][e - 1].Eol?)
  {
    EndIsEol(s[i..]);
  }

  lemma {:induction false} EndIsEol(s: seq<Tok>)
    requires LineEnd(s).Some?
    ensures s[LineEnd(s).value].Eol?
    decreases |s|
  {
    if !s[0].Eol? {
      EndIsEol(s[1..]);
    }
  }

  /** What there is to read from token i on, with k lines read. */
  function TextFrom(s: seq<Tok>, i: nat, ats: seq<word>, k: nat, named: string -> T.Name, rest: X.Text): Option<X.Text>
    requires i <= |s| && k <= |ats|
  {
    ReadText(s[i..], ats[k..], named, rest)
  }

  lemma TextWhole(s: seq<Tok>, ats: seq<word>, named: string -> T.Name, rest: X.Text)
    ensures TextFrom(s, 0, ats, 0, named, rest) == ReadText(s, ats, named, rest)
  {
    assert s[0..] == s && ats[0..] == ats;
  }

  lemma TextStep(s: seq<Tok>, i: nat, ats: seq<word>, k: nat, named: string -> T.Name, rest: X.Text)
    requires i < |s| && k <= |ats| && EndFrom(s, i).Some?
    ensures
      var e, text := EndFrom(s, i).value, TextFrom(s, i, ats, k, named, rest);
      && i + e < |s| && s[i + e].Eol?
      && if k == |ats| then text.None?
         else if e == 0 then text == TextFrom(s, i + 1, ats, k, named, rest)
         else if !s[i].Word? then text.None?
         else text == UsesNext(named(s[i].name), Reading(s[i + 1..i + e + 1], ats[k]), TextFrom(s, i + e + 1, ats, k + 1, named, rest))
  {
    hide ReadText, LineEnd, Reading, UsesNext;
    ReadStep(s[i..], ats[k..], named, rest);
    LineIs(s, i);
    assert k < |ats| ==> ats[k..][1..] == ats[k + 1..];
  }

  lemma TextEnd(s: seq<Tok>, ats: seq<word>, k: nat, named: string -> T.Name, rest: X.Text)
    requires k <= |ats|
    ensures TextFrom(s, |s|, ats, k, named, rest) == if k == |ats| then Some(rest) else None
  {
    hide ReadText, LineEnd;
    ReadStep(s[|s|..], ats[k..], named, rest);
    NoEnd();
  }

  /** The tokens from i on are as they were, and t is the next of them, or what stands behind. */
  ghost predicate Behind(t: Token?, stop: Token?, nodes: seq<Token>, s: seq<Tok>, i: nat)
    requires |nodes| == |s| > 0
    reads nodes
  {
    && i <= |s| && t == (if i < |s| then nodes[i] else stop) && (i < |s| ==> Linked(nodes, s, i, |s| - 1))
    && nodes[|s| - 1].next == stop
  }

  /** One line of them; those behind it are left as they are. */
  method ReadOne(t: Token, eol: Token, at: word, ghost stop: Token?, ghost nodes: seq<Token>, ghost s: seq<Tok>,
      ghost i: nat, ghost e: nat)
    returns (args: Option<X.Args>)
    requires 0 < e && i + e < |nodes| == |s| && t == nodes[i] && eol == nodes[i + e] && s[i + e].Eol?
    requires Behind(t, stop, nodes, s, i) && Distinct(nodes)
    modifies nodes
    ensures args == Reading(s[i + 1..i + e + 1], at) && Behind(eol.next, stop, nodes, s, i + e + 1)
  {
    hide Reading;
    assert t.next == nodes[i + 1];
    ghost var line := nodes[i + 1..i + e + 1];
    assert eol == line[e - 1] && (i + e < |s| - 1 ==> eol.next == nodes[i + e + 1]);
    forall k | i + e < k < |s|
      ensures nodes[k] !in line
    {
    }
    args := ReadArgs(t.next, eol, at, line, s[i + 1..i + e + 1]);
  }

  predicate Outside(stop: Token?, nodes: seq<Token>) {
    forall n | n in nodes :: n != stop
  }

  lemma BehindIs(t: Token?, stop: Token?, nodes: seq<Token>, s: seq<Tok>, i: nat)
    requires |nodes| == |s| > 0 && Behind(t, stop, nodes, s, i) && Outside(stop, nodes)
    ensures t == stop <==> i == |s|
    ensures i <= |s| && nodes[|s| - 1].next == stop
    ensures i < |s| ==> t == nodes[i] && t.tok == s[i] && Linked(nodes, s, i, |s| - 1) && Behind(t.next, stop, nodes, s, i + 1)
  {
    assert i < |s| ==> nodes[i] in nodes;
  }

  lemma Begins(nodes: seq<Token>, stop: Token?, s: seq<Tok>)
    requires nodes != [] && Chain(nodes) && Toks(nodes) == s && nodes[|s| - 1].next == stop
    ensures Behind(nodes[0], stop, nodes, s, 0)
  {
  }

  lemma SameToken(nodes: seq<Token>, i: nat, j: nat)
    requires Distinct(nodes) && i < |nodes| && j < |nodes| && nodes[i] == nodes[j]
    ensures i == j
  {
  }

  /** A line with an operation on it, behind the operations read so far. */
  method ReadOp(t: Token, eol: Token, ats: seq<word>, k: nat, named: string -> T.Name, ops: seq<X.Operation>,
      ghost stop: Token?, ghost nodes: seq<Token>, ghost s: seq<Tok>, ghost i: nat, ghost e: nat, ghost rest: X.Text)
    returns (r: Option<seq<X.Operation>>)
    requires i < |nodes| == |s| && k <= |ats| && t == nodes[i] && t != eol && Distinct(nodes) && Behind(t, stop, nodes, s, i)
    requires EndFrom(s, i) == Some(e) && i + e < |s| && eol == nodes[i + e]
    modifies nodes
    ensures AllInFront(ops, TextFrom(s, i, ats, k, named, rest)) ==
      if r.None? || k == |ats| then None else AllInFront(r.value, TextFrom(s, i + e + 1, ats, k + 1, named, rest))
    ensures r.Some? ==> k < |ats| && Behind(eol.next, stop, nodes, s, i + e + 1)
  {
    hide TextFrom, EndFrom, ReadText, LineEnd, Reading, Prepend, UsesNext, Distinct, Linked;
    TextStep(s, i, ats, k, named, rest);
    assert t.tok == s[i] by { FirstIs(nodes, s, i); }
    if k == |ats| || !t.tok.Word? {
      return None;
    }
    var name := named(t.tok.name);
    var args := ReadOne(t, eol, ats[k], stop, nodes, s, i, e);
    AllOne(ops, name, args, TextFrom(s, i + e + 1, ats, k + 1, named, rest));
    return if args.None? then None else Some(ops + [X.Do(name, args.value)]);
  }

  lemma FirstIs(nodes: seq<Token>, s: seq<Tok>, i: nat)
    requires i < |nodes| == |s| && Linked(nodes, s, i, |s| - 1)
    ensures nodes[i].tok == s[i]
  {
  }

  /** Lines of operations, each at its address, up to the token `stop`. */
  method ReadLines(first: Token, stop: Token?, ats: seq<word>, named: string -> T.Name, ghost nodes: seq<Token>,
      ghost s: seq<Tok>, ghost rest: X.Text)
    returns (r: Option<seq<X.Operation>>)
    requires nodes != [] && first == nodes[0] && Chain(nodes) && Distinct(nodes) && Toks(nodes) == s
    requires s[|s| - 1].Eol? && nodes[|s| - 1].next == stop && Outside(stop, nodes)
    modifies nodes
    ensures (if r.Some? then Some(Prepend(r.value, rest)) else None) == ReadText(s, ats, named, rest)
  {
    hide TextFrom, EndFrom, ReadText, LineEnd, Reading, Prepend, AllInFront, UsesNext, Distinct, Linked, Behind, Chain, Outside, Toks;
    var t: Token?, k, ops: seq<X.Operation> := first, 0, [];
    ghost var i := 0;
    TextWhole(s, ats, named, rest);
    NoneInFront(ReadText(s, ats, named, rest));
    Begins(nodes, stop, s);
    BehindIs(t, stop, nodes, s, i);
    while t != stop
      invariant i <= |s| && k <= |ats| && Behind(t, stop, nodes, s, i) && (t == stop <==> i == |s|)
      invariant ReadText(s, ats, named, rest) == AllInFront(ops, TextFrom(s, i, ats, k, named, rest))
      decreases |s| - i
    {
      BehindIs(t, stop, nodes, s, i);
      var eol := FindEnd(t, nodes, s, i);
      ghost var e := EndFrom(s, i).value;
      if t == eol {
        SameToken(nodes, i, i + e);
        TextStep(s, i, ats, k, named, rest);
        if k == |ats| {
          NoText(ops);
          return None;
        }
        t, i := t.next, i + 1;
      } else {
        var more := ReadOp(t, eol, ats, k, named, ops, stop, nodes, s, i, e, rest);
        if more.None? {
          return None;
        }
        ops := more.value;
        t, i, k := eol.next, i + e + 1, k + 1;
      }
      BehindIs(t, stop, nodes, s, i);
    }
    TextEnd(s, ats, k, named, rest);
    NoText(ops);
    return if k == |ats| then Some(ops) else None;
  }

  lemma NoEnd()
    ensures LineEnd([]) == None
  {
  }

  lemma NoneInFront(text: Option<X.Text>)
    ensures AllInFront([], text) == text
  {
  }

  lemma NoText(ops: seq<X.Operation>)
    ensures AllInFront(ops, None).None? && forall rest :: AllInFront(ops, Some(rest)) == Some(Prepend(ops, rest))
  {
  }

  // ----- a call -----

  lemma {:induction false} SubstitutedEnds(body: seq<Tok>, i: nat, params: seq<string>, args: seq<Tok>)
    requires i < |body| && |args| == |params| && body[|body| - 1].Eol? && S.Substituted(body, i, params, args).Some?
    ensures var s := S.Substituted(body, i, params, args).value; s != [] && s[|s| - 1].Eol?
    decreases |body| - i
  {
    hide S.Substituted;
    S.SubstitutedStep(body, i, params, args);
    if !S.Marks(body[i]) {
      if i + 1 < |body| {
        SubstitutedEnds(body, i + 1, params, args);
      }
    } else {
      SubstitutedEnds(body, i + 2, params, args);
    }
  }

  /**
   expand_macro, and then the front half of parse on each of the lines that it links in, in place.
   The operations found are those of the stored body with the arguments substituted, line by line.
   */
  method ReadExpansion(first: Token, last: Token, params: seq<string>, start: Token, end: Token,
      argTokens: seq<Token>, ats: seq<word>, named: string -> T.Name, ghost body: seq<Token>, ghost rest: X.Text)
    returns (r: Option<seq<X.Operation>>)
    requires S.Body(body) && first == body[0] && last == body[|body| - 1] && |argTokens| == |params|
    requires start.prev != null && end.next != null && start.prev !in body && end.next !in body && start.prev != end
    modifies start.prev, end.next
    ensures (if r.Some? then Some(Prepend(r.value, rest)) else None) ==
      match S.Substituted(old(Toks(body)), 0, params, old(Toks(argTokens)))
      case None => None
      case Some(s) => ReadText(s, ats, named, rest)
    ensures S.Body(body) && Toks(body) == old(Toks(body))
  {
    hide ReadText, S.Substituted, Prepend, S.Body, Chain, Distinct;
    ghost var stored, given := Toks(body), Toks(argTokens);
    var stop: Token := end.next;
    var ok, tokens, out := S.Expand(first, last, params, start, end, argTokens, body);
    if !ok {
      return None;
    }
    ghost var s := Toks(out);
    assert s[|s| - 1].Eol? by {
      BodyEnd(body);
      SubstitutedEnds(stored, 0, params, given);
    }
    assert Outside(stop, out);
    r := ReadLines(tokens, stop, ats, named, out, s, rest);
  }

  lemma BodyEnd(body: seq<Token>)
    requires S.Body(body)
    ensures body != [] && body[|body| - 1].tok == Eol
  {
  }

  /**
   A call of a built-in macro: what expansion and reading in place find on the tokens of its stored
   body and of its arguments are the operations of its row in the table, filled in, with `$`
   expressions as bytes; and they fail exactly when filling in fails.
   */
  method ReadCall(first: Token, last: Token, params: seq<string>, start: Token, end: Token, argTokens: seq<Token>,
      ats: seq<word>, named: string -> T.Name, ghost body: seq<Token>, ghost macro: T.Body, ghost args: X.Args,
      ghost text: T.Name -> string, ghost rest: X.Text)
    returns (r: Option<seq<X.Operation>>)
    requires S.Body(body) && first == body[0] && last == body[|body| - 1] && |argTokens| == |params|
    requires start.prev != null && end.next != null && start.prev !in body && end.next !in body && start.prev != end
    requires L.Unique(params) && L.Written(args) && |params| == X.ArgCount(args) && |ats| == |RowSeq(macro)|
    requires Toks(body) == BodyToks(RowSeq(macro), params, text) && Toks(argTokens) == ArgToks(args)
    requires forall n :: named(text(n)) == n
    modifies start.prev, end.next
    ensures (if r.Some? then Some(Prepend(r.value, rest)) else None) == SettledText(X.Splice(macro, args, rest), ats)
    ensures S.Body(body) && Toks(body) == old(Toks(body))
  {
    hide ReadText, S.Substituted, Prepend, S.Body, SettledText, X.Splice, RowSeq, BodyToks, ArgToks;
    CallLowers(macro, params, args, ats, text, named, rest);
    r := ReadExpansion(first, last, params, start, end, argTokens, ats, named, body, rest);
  }


  // ----- what type_args reads -----

  /** A register stands alone, a name in brackets, a number either way. */
  predicate Writable(a: X.Arg, bracket: bool) {
    match a
    case Register(_) => !bracket
    case Symbol(_, _) => bracket
    case Number(_) => true
    case HereByte(_, _) => false
  }

  function ArgTok(a: X.Arg): Tok {
    match a
    case Register(r) => Word(["abcdlhzf"[r.Code()]], false)
    case Symbol(name, dotted) => Word(name, dotted)
    case Number(v) => Num(v)
    case HereByte(_, _) => Sym(Dollar)
  }

  /** The arguments of a line, one after the other, to its end. */
  function ArgLine(args: seq<X.Arg>, brackets: seq<bool>): seq<Tok>
    requires |args| == |brackets|
  {
    if args == [] then [Eol]
    else
      (if brackets[0] then [Sym(LBracket), ArgTok(args[0]), Sym(RBracket)] else [ArgTok(args[0])])
      + ArgLine(args[1..], brackets[1..])
  }

  /** There is room for 16 arguments, and for a closing bracket behind 15 of them. */
  predicate HasPlace(n: nat, brackets: seq<bool>) {
    n + |brackets| < 16 || (n + |brackets| == 16 && (brackets == [] || !brackets[|brackets| - 1]))
  }

  lemma LetterNames(r: I.Reg)
    ensures X.RegNamed(["abcdlhzf"[r.Code()]]) == Some(r)
  {
    assert ["abcdlhzf"[r.Code()]] == X.RegName(r);
  }

  /** A written line of arguments is read as those arguments, exactly when there is room for them. */
  lemma {:induction false} ArgLineReads(s: seq<Tok>, i: nat, n: nat, args: seq<X.Arg>, brackets: seq<bool>)
    requires |args| == |brackets| && n <= 16 && forall k | 0 <= k < |args| :: Writable(args[k], brackets[k])
    requires i <= |s| && s[i..] == ArgLine(args, brackets)
    ensures Typed(s, i, n, None) == if HasPlace(n, brackets) then Some(ArgsOf(args)) else None
    decreases |args|
  {
    hide X.RegNamed;
    var line := s[i..];
    assert s[i] == line[0];
    if args != [] {
      var m := if brackets[0] then 3 else 1;
      assert line == line[..m] + ArgLine(args[1..], brackets[1..]);
      assert s[i + m..] == line[m..] == ArgLine(args[1..], brackets[1..]);
      if n < 16 {
        ArgLineReads(s, i + m, n + 1, args[1..], brackets[1..]);
        if args[0].Register? { LetterNames(args[0].r); }
        if brackets[0] {
          assert s[i + 1] == line[1] && s[i + 2] == line[2];
          Bracketed(s, i, n);
        } else {
          Alone(s, i, n, args[0]);
        }
      }
    }
  }

  lemma Alone(s: seq<Tok>, i: nat, n: nat, a: X.Arg)
    requires i < |s| && n < 16 && Writable(a, false) && s[i] == ArgTok(a)
    ensures Typed(s, i, n, None) == X.Before(Some(a), Typed(s, i + 1, n + 1, None))
  {
    hide X.RegNamed;
    if a.Register? { LetterNames(a.r); }
  }

  lemma Bracketed(s: seq<Tok>, i: nat, n: nat)
    requires i + 2 < |s| && n < 16 && s[i] == Sym(LBracket) && s[i + 2] == Sym(RBracket)
    requires s[i + 1].Word? || (s[i + 1].Num? && -32768 <= s[i + 1].v <= 65535)
    ensures Typed(s, i, n, None) ==
      if n == 15 then None
      else
        var a := if s[i + 1].Num? then X.Number(s[i + 1].v) else X.Symbol(s[i + 1].name, s[i + 1].dotted);
        X.Before(Some(a), Typed(s, i + 3, n + 1, None))
  {
    hide Typed, X.RegNamed;
    TypedStep(s, i, n, None);
    TypedStep(s, i + 1, n, Some(0));
    TypedStep(s, i + 2, n + 1, Some(1));
  }
}
