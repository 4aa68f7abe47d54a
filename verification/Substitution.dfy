/**
 Macro expansion on the linked tokens (asm/macro.c): the stored body is copied, arguments replace
 their names, and the copy takes the place of the call.
 */
module Substitution {
  import opened Source
  import opened Tokens

  predicate Marks(t: Tok) { t == Sym(Percent) }

  // ----- what expansion means -----

  /** The last parameter of that name below n. */
  function ParamOf(params: seq<string>, name: string, n: nat): (r: Option<nat>)
    requires n <= |params|
    ensures r.Some? ==> r.value < n && params[r.value] == name
    ensures r.None? ==> name !in params[..n]
  {
    if n == 0 then None
    else if params[n - 1] == name then Some(n - 1)
    else ParamOf(params, name, n - 1)
  }

  function InFront(c: Tok, rest: Option<seq<Tok>>): Option<seq<Tok>> {
    if rest.Some? then Some([c] + rest.value) else None
  }

  /** The body from token i on, with each `%name` replaced by the argument of that name. */
  function Substituted(body: seq<Tok>, i: nat, params: seq<string>, args: seq<Tok>): Option<seq<Tok>>
    requires i <= |body| && |args| == |params|
    decreases |body| - i
  {
    if i == |body| then Some([])
    else if !Marks(body[i]) then InFront(body[i], Substituted(body, i + 1, params, args))
    else if i + 1 == |body| || !body[i + 1].Word? then None
    else
      match ParamOf(params, body[i + 1].name, |params|)
      case None => None
      case Some(k) => InFront(args[k], Substituted(body, i + 2, params, args))
  }

  // ----- linked nodes -----

  ghost predicate Back(nodes: seq<Token>)
    reads nodes
  {
    forall i | 0 < i < |nodes| :: nodes[i].prev == nodes[i - 1]
  }

  /** A stored macro body: linked forward, not starting with an argument, ending with its line. */
  ghost predicate Body(nodes: seq<Token>)
    reads nodes
  {
    && nodes != [] && Chain(nodes) && Distinct(nodes)
    && nodes[|nodes| - 1].tok == Eol && nodes[|nodes| - 1].next !in nodes && !Marks(nodes[0].tok)
  }

  /** duplicate_macro: a fresh copy of the body, linked both ways, with nothing behind it. */
  method Duplicate(start: Token, end: Token, ghost body: seq<Token>) returns (first: Token, ghost copy: seq<Token>)
    requires Body(body) && start == body[0] && end == body[|body| - 1]
    ensures |copy| == |body| && first == copy[0] && fresh(copy) && Distinct(copy)
    ensures Toks(copy) == Toks(body)
    ensures Chain(copy) && Back(copy) && copy[|copy| - 1].next == null
  {
    var optok: Token?, prev: Token?, result: Token? := start, null, null;
    copy := [];
    while optok != end.next
      invariant optok == if |copy| < |body| then body[|copy|] else end.next
      invariant |copy| <= |body|
      invariant if copy == [] then prev == null && result == null else prev == copy[|copy| - 1] && result == copy[0] && prev.next == null
      invariant fresh(copy) && Distinct(copy) && Chain(copy) && Back(copy)
      invariant forall k | 0 <= k < |copy| :: copy[k].tok == body[k].tok
      decreases |body| - |copy|
    {
      assert |copy| < |body| - 1 ==> body[|copy|].next == body[|copy| + 1];
      var duptok := new Token(optok.tok);
      duptok.prev := prev;
      if duptok.prev != null {
        duptok.prev.next := duptok;
      }
      prev := duptok;
      result := if result != null then result else duptok;
      copy := copy + [duptok];
      optok := optok.next;
    }
    first := result;
  }

  // ----- arguments for their names -----

  /** The argument for a parameter name: the last one of that name. */
  method FindArgument(params: seq<string>, name: string) returns (k: Option<nat>)
    ensures k == ParamOf(params, name, |params|)
  {
    k := None;
    var i := 0;
    while i < |params|
      invariant i <= |params| && k == ParamOf(params, name, i)
    {
      if params[i] == name {
        k := Some(i);
      }
      i := i + 1;
    }
  }

  function Ahead(done: seq<Tok>, rest: Option<seq<Tok>>): Option<seq<Tok>> {
    if rest.Some? then Some(done + rest.value) else None
  }

  lemma AheadOne(done: seq<Tok>, c: Tok, rest: Option<seq<Tok>>)
    ensures Ahead(done, InFront(c, rest)) == Ahead(done + [c], rest)
  {
    if rest.Some? {
      assert done + ([c] + rest.value) == done + [c] + rest.value;
    }
  }

  /** Tokens before j have been dealt with; `done` are those of them that stay. */
  ghost predicate Through(copy: seq<Token>, body: seq<Tok>, params: seq<string>, args: seq<Tok>, j: nat, done: seq<Token>)
    requires |copy| == |body| > 0 && |args| == |params|
    reads copy, done
  {
    && j <= |copy|
    && (forall k | j <= k < |copy| :: copy[k].tok == body[k])
    && (forall k | j <= k < |copy| - 1 :: copy[k].next == copy[k + 1]) && copy[|copy| - 1].next == null
    && Back(copy)
    && (if done == [] then j == 0 else j > 0 && done[|done| - 1] == copy[j - 1] && done[0] == copy[0])
    && Chain(done) && Distinct(done) && (done != [] && j < |copy| ==> copy[j - 1].next == copy[j])
    && (forall n | n in done :: n in copy[..j])
    && Substituted(body, 0, params, args) == Ahead(Toks(done), Substituted(body, j, params, args))
  }

  lemma SubstitutedStep(body: seq<Tok>, i: nat, params: seq<string>, args: seq<Tok>)
    requires i < |body| && |args| == |params|
    ensures Substituted(body, i, params, args) ==
      if !Marks(body[i]) then InFront(body[i], Substituted(body, i + 1, params, args))
      else if i + 1 == |body| || !body[i + 1].Word? then None
      else
        match ParamOf(params, body[i + 1].name, |params|)
        case None => None
        case Some(k) => InFront(args[k], Substituted(body, i + 2, params, args))
    ensures Substituted(body, |body|, params, args) == Some([])
  {
  }

  /** A token that names no argument stays. */
  lemma Keeps(copy: seq<Token>, body: seq<Tok>, params: seq<string>, args: seq<Tok>, j: nat, done: seq<Token>)
    requires |copy| == |body| > 0 && |args| == |params| && Distinct(copy) && Through(copy, body, params, args, j, done)
    requires j < |copy| && !Marks(body[j])
    ensures Through(copy, body, params, args, j + 1, done + [copy[j]])
  {
    hide Substituted;
    SubstitutedStep(body, j, params, args);
    AheadOne(Toks(done), body[j], Substituted(body, j + 1, params, args));
    assert Toks(done + [copy[j]]) == Toks(done) + [body[j]];
    assert copy[j] in copy[..j + 1];
    forall i | 0 <= i < |done|
      ensures done[i] != copy[j]
    {
      assert done[i] in copy[..j];
    }
  }

  /** A percent sign is unlinked, and the name behind it becomes the argument. */
  method Replace(t: Token, argument: Token, ghost copy: seq<Token>, ghost body: seq<Tok>, ghost params: seq<string>, ghost args: seq<Tok>, ghost j: nat, ghost k: nat, ghost done: seq<Token>)
    returns (rest: Token?)
    requires |copy| == |body| > 0 && |args| == |params| && Distinct(copy) && Through(copy, body, params, args, j, done)
    requires 0 < j < |copy| - 1 && t == copy[j] && Marks(body[j]) && body[j + 1].Word?
    requires ParamOf(params, body[j + 1].name, |params|) == Some(k) && argument.tok == args[k] && argument !in copy
    modifies copy
    ensures Through(copy, body, params, args, j + 2, done + [copy[j + 1]])
    ensures rest == if j + 2 < |copy| then copy[j + 2] else null
  {
    hide Substituted;
    SubstitutedStep(body, j, params, args);
    AheadOne(Toks(done), args[k], Substituted(body, j + 2, params, args));
    assert copy[j].next == copy[j + 1] && copy[j].prev == copy[j - 1];
    ghost var before := Toks(done);
    forall i | 0 <= i < |done|
      ensures done[i] != copy[j] && done[i] != copy[j + 1]
    {
      assert done[i] in copy[..j];
    }
    t.prev.next := t.next;
    var name: Token := t.next;
    name.tok := argument.tok;
    rest := name.next;
    assert Toks(done) == before;
    assert Toks(done + [name]) == before + [args[k]];
    assert name in copy[..j + 2] && forall n | n in done :: n in copy[..j + 2];
  }

  lemma Begins(copy: seq<Token>, body: seq<Tok>, params: seq<string>, args: seq<Tok>)
    requires |copy| == |body| > 0 && |args| == |params| && Toks(copy) == body
    requires Chain(copy) && Back(copy) && copy[|copy| - 1].next == null
    ensures Through(copy, body, params, args, 0, [])
  {
    hide Substituted;
    assert Toks([]) == [];
    var r := Substituted(body, 0, params, args);
    assert r.Some? ==> [] + r.value == r.value;
    assert forall k | 0 <= k < |copy| :: Toks(copy)[k] == copy[k].tok;
  }

  lemma Ends(copy: seq<Token>, body: seq<Tok>, params: seq<string>, args: seq<Tok>, done: seq<Token>)
    requires |copy| == |body| > 0 && |args| == |params| && Through(copy, body, params, args, |copy|, done)
    ensures Substituted(body, 0, params, args) == Some(Toks(done)) && Chain(done) && Distinct(done) && done != []
    ensures done[0] == copy[0] && done[|done| - 1] == copy[|copy| - 1] && copy[|copy| - 1].next == null
    ensures forall n | n in done :: n in copy
  {
    hide Substituted;
    SubstitutedStep(body, 0, params, args);
    assert copy[..|copy|] == copy && Toks(done) + [] == Toks(done);
  }

  lemma IsThrough(copy: seq<Token>, body: seq<Tok>, params: seq<string>, args: seq<Tok>, j: nat, done: seq<Token>)
    requires |copy| == |body| > 0 && |args| == |params| && Through(copy, body, params, args, j, done)
    ensures j <= |copy| && (j < |copy| ==> copy[j].tok == body[j])
    ensures j < |copy| ==> copy[j].next == if j + 1 < |copy| then copy[j + 1] else null
    ensures j + 1 < |copy| ==> copy[j + 1].tok == body[j + 1]
    ensures Substituted(body, 0, params, args) == Ahead(Toks(done), Substituted(body, j, params, args))
  {
    hide Substituted;
  }

  /** Arguments take the place of their names, in a fresh copy of a body. */
  method Substitute(tokens: Token, params: seq<string>, argTokens: seq<Token>, ghost copy: seq<Token>, ghost body: seq<Tok>)
    returns (ok: bool, last: Token, ghost out: seq<Token>)
    requires |copy| == |body| > 0 && |argTokens| == |params| && Toks(copy) == body && tokens == copy[0]
    requires Distinct(copy) && Chain(copy) && Back(copy) && copy[|copy| - 1].next == null
    requires !Marks(body[0]) && body[|body| - 1] == Eol && forall i | 0 <= i < |argTokens| :: argTokens[i] !in copy
    modifies copy
    ensures ok == Substituted(body, 0, params, old(Toks(argTokens))).Some?
    ensures ok ==>
      && Substituted(body, 0, params, old(Toks(argTokens))) == Some(Toks(out)) && Chain(out) && Distinct(out) && out != []
      && out[0] == tokens && out[|out| - 1] == last && last.next == null
      && last == copy[|copy| - 1] && forall n | n in out :: n in copy
  {
    hide Substituted, Through, Chain, Back, Ahead;
    ghost var args := Toks(argTokens);
    var t: Token? := tokens;
    last := tokens;
    ghost var j: nat, done: seq<Token> := 0, [];
    Begins(copy, body, params, args);
    while t != null
      invariant j <= |copy| && t == (if j < |copy| then copy[j] else null)
      invariant Through(copy, body, params, args, j, done)
      invariant forall i | 0 <= i < |argTokens| :: argTokens[i].tok == args[i]
      invariant j == |copy| ==> last == copy[|copy| - 1]
      decreases |copy| - j
    {
      IsThrough(copy, body, params, args, j, done);
      SubstitutedStep(body, j, params, args);
      last := t;
      if !Marks(t.tok) {
        Keeps(copy, body, params, args, j, done);
        done := done + [copy[j]];
        t, j := t.next, j + 1;
        continue;
      }
      if t.next == null || !t.next.tok.Word? {
        FailsHere(done, copy, body, params, args, j);
        return false, last, [];
      }
      var k := FindArgument(params, t.next.tok.name);
      if k.None? {
        FailsHere(done, copy, body, params, args, j);
        return false, last, [];
      }
      var rest := Replace(t, argTokens[k.value], copy, body, params, args, j, k.value, done);
      done := done + [copy[j + 1]];
      t, j := rest, j + 2;
    }
    Ends(copy, body, params, args, done);
    return true, last, done;
  }

  lemma FailsHere(done: seq<Token>, copy: seq<Token>, body: seq<Tok>, params: seq<string>, args: seq<Tok>, j: nat)
    requires |copy| == |body| > 0 && |args| == |params| && Through(copy, body, params, args, j, done)
    requires j < |body| && Substituted(body, j, params, args).None?
    ensures Substituted(body, 0, params, args).None?
  {
    hide Substituted;
  }

  // ----- in place of the call -----

  /**
   expand_macro: the tokens from start to end, the call, give way to the body with its arguments.
   What stands before the call is linked to the first of them, and the last of them to what stands
   behind. The stored body is left as it was, so that the next expansion starts from the same one.
   */
  method Expand(first: Token, last: Token, params: seq<string>, start: Token, end: Token, argTokens: seq<Token>, ghost body: seq<Token>)
    returns (ok: bool, tokens: Token, ghost out: seq<Token>)
    requires Body(body) && first == body[0] && last == body[|body| - 1] && |argTokens| == |params|
    requires start.prev != null && end.next != null && start.prev !in body && end.next !in body && start.prev != end
    modifies start.prev, end.next
    ensures ok == Substituted(old(Toks(body)), 0, params, old(Toks(argTokens))).Some?
    ensures ok ==>
      && Substituted(old(Toks(body)), 0, params, old(Toks(argTokens))) == Some(Toks(out))
      && Chain(out) && Distinct(out) && out != [] && fresh(out) && tokens == out[0]
      && old(start.prev).next == tokens && tokens.prev == old(start.prev)
      && out[|out| - 1].next == old(end.next) && old(end.next).prev == out[|out| - 1]
    ensures old(start.prev).tok == old(start.prev.tok) && old(end.next).tok == old(end.next.tok)
    ensures old(start.prev) != old(end.next) ==>
      old(start.prev).prev == old(start.prev.prev) && old(end.next).next == old(end.next.next)
    ensures Body(body) && Toks(body) == old(Toks(body))
  {
    hide Substituted, Body;
    ghost var stored := Toks(body);
    BodyFacts(body);
    ghost var copy;
    tokens, copy := Duplicate(first, last, body);
    var tail;
    ok, tail, out := Substitute(tokens, params, argTokens, copy, stored);
    assert Body(body) && Toks(body) == stored;
    if ok {
      forall i | 0 <= i < |out|
        ensures fresh(out[i])
      {
        assert out[i] in out;
      }
      Splice(tokens, tail, start, end, out);
    }
  }

  lemma BodyFacts(body: seq<Token>)
    requires Body(body)
    ensures body != [] && !Marks(body[0].tok) && body[|body| - 1].tok == Eol
  {
  }

  /** The new tokens are linked in where the call stood. */
  method Splice(tokens: Token, tail: Token, start: Token, end: Token, ghost out: seq<Token>)
    requires Chain(out) && out != [] && tokens == out[0] && tail == out[|out| - 1] && tail.next == null
    requires start.prev != null && end.next != null && start.prev !in out && end.next !in out && start !in out && end !in out && start.prev != end
    modifies tokens, tail, start.prev, end.next
    ensures Chain(out) && Toks(out) == old(Toks(out))
    ensures old(start.prev).next == tokens && tokens.prev == old(start.prev)
    ensures out[|out| - 1].next == old(end.next) && old(end.next).prev == tail
    ensures old(start.prev).tok == old(start.prev.tok) && old(end.next).tok == old(end.next.tok)
    ensures old(start.prev) != old(end.next) ==>
      old(start.prev).prev == old(start.prev.prev) && old(end.next).next == old(end.next.next)
  {
    assert tokens in out && tail in out;
    forall i | 0 <= i < |out| - 1
      ensures out[i] != tail
    {
      var n: Token := out[i + 1];
      assert out[i].next == n;
    }
    var before: Token := start.prev;
    tokens.prev := before;
    before.next := tokens;
    tail.next := end.next;
    end.next.prev := tail;
    assert Toks(out) == old(Toks(out));
  }
}
