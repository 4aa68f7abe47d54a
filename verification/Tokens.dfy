/** The tokens of a source text (asm/lex.h): what one says, and how they are linked. */
module Tokens {

  datatype Operator = Minus | Tilde | Plus | Ampersand | Pipe | Star | Caret | Slash | Less | Greater

  datatype Mark = LBracket | RBracket | Percent | Dollar | Dot | Colon | At | Quoted

  /**
   What a token says. Names compare as the assembler compares them; the flag says that there was a
   dot in front.
   */
  datatype Tok = Num(v: int) | LParen | RParen | Sign(op: Operator) | Word(name: string, dotted: bool) | Sym(mark: Mark) | Eol

  /** A token between its neighbours in the text. */
  class Token {
    var tok: Tok
    var next: Token?
    var prev: Token?

    constructor (tok: Tok)
      ensures this.tok == tok && next == null && prev == null
    {
      this.tok, next, prev := tok, null, null;
    }
  }

  ghost predicate Distinct(nodes: seq<Token>) {
    forall i, j | 0 <= i < j < |nodes| :: nodes[i] != nodes[j]
  }

  /** The nodes are linked forward, one to the next. */
  ghost predicate Chain(nodes: seq<Token>)
    reads nodes
  {
    forall i | 0 <= i < |nodes| - 1 :: nodes[i].next == nodes[i + 1]
  }

  ghost function Toks(nodes: seq<Token>): (s: seq<Tok>)
    reads nodes
    ensures |s| == |nodes| && forall i | 0 <= i < |nodes| :: s[i] == nodes[i].tok
  {
    seq(|nodes|, i requires 0 <= i < |nodes| reads nodes => nodes[i].tok)
  }
}
