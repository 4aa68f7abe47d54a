/**
 What asm2str writes for a program, read by the assembler line by line, gives the bytes of the
 program back.
 */
module Reassembly {
  import I = Isa
  import opened Words
  import opened Source
  import opened Decoding
  import opened Reading
  import T = MacroTable
  import X = Expand
  import A = Assembler
  import Choosing
  import Interleaving

  /** The text of each instruction on a line of its own. */
  function Listing(program: seq<I.Native>): seq<string> {
    seq(|program|, k requires 0 <= k < |program| => Text(program[k]))
  }

  /** The lines of a listing read as operations. */
  function TextOf(listing: seq<string>): Option<X.Text> {
    if listing == [] then Some(X.End)
    else
      var op, rest := LineRead(listing[0]), TextOf(listing[1..]);
      if op.Some? && rest.Some? then Some(X.Uses(op.value, rest.value)) else None
  }

  function OpFor(i: I.Native): X.Operation { X.Do(NameFor(i), ArgsFor(i)) }

  function OpsFor(program: seq<I.Native>): (text: X.Text)
    ensures X.FineText(text)
  {
    if program == [] then X.End else X.Uses(OpFor(program[0]), OpsFor(program[1..]))
  }

  function LinesFor(program: seq<I.Native>): (lines: seq<Line>)
    ensures A.AllWellFormed(lines)
  {
    seq(|program|, k requires 0 <= k < |program| => Op(program[k], Written))
  }

  lemma {:induction false} ListingReads(program: seq<I.Native>)
    ensures TextOf(Listing(program)) == Some(OpsFor(program))
  {
    hide Text, LineRead, NameFor, ArgsFor;
    if program != [] {
      TextReads(program[0]);
      ListingReads(program[1..]);
      assert Listing(program)[1..] == Listing(program[1..]);
    }
  }

  /** No label has anything to do with it. */
  lemma KnownAlike(i: I.Native, done: seq<Line>, base: word)
    ensures Choosing.KnownOp(OpFor(i), done, base) == OpFor(i)
  {
    hide Choosing.Early, NameFor;
    var args := ArgsFor(i);
    assert args.Args? && !args.first.Symbol?;
    assert args.rest.NoArgs? || (!args.rest.first.Symbol? && args.rest.rest.NoArgs?);
    assert NoNames(args.rest);
    NothingKnown(args, done, base);
  }

  predicate NoNames(args: X.Args) { args.NoArgs? || (!args.first.Symbol? && NoNames(args.rest)) }

  lemma {:induction false} NothingKnown(args: X.Args, done: seq<Line>, base: word)
    ensures NoNames(args) ==> Choosing.KnownArgs(args, done, base) == args
    decreases args
  {
    hide Choosing.Early;
    if args.Args? {
      NothingKnown(args.rest, done, base);
    }
  }

  lemma {:induction false} ListingEmits(program: seq<I.Native>, n: nat, base: word)
    requires n <= |program|
    ensures Interleaving.Interleaved(OpsFor(program[n..]), LinesFor(program[..n]), base) == Some(LinesFor(program))
    decreases |program| - n
  {
    hide OpFor, X.IsNative, X.NativeLine, Choosing.KnownOp;
    if n == |program| {
      assert program[n..] == [] && program[..n] == program;
    } else {
      var i, rest := program[n], OpsFor(program[n + 1..]);
      assert program[n..][0] == i && program[n..][1..] == program[n + 1..];
      KnownAlike(i, LinesFor(program[..n]), base);
      OpEmitted(i);
      Interleaving.NativeRound(OpFor(i), rest, LinesFor(program[..n]), base);
      assert LinesFor(program[..n]) + [Op(i, Written)] == LinesFor(program[..n + 1]);
      ListingEmits(program, n + 1, base);
    }
  }

  lemma OpEmitted(i: I.Native)
    ensures X.IsNative(OpFor(i)) && X.NativeLine(OpFor(i)) == Some(Op(i, Written))
  {
    hide X.IsNative, X.NativeLine, NameFor, ArgsFor;
    Emitted(i);
  }

  lemma {:induction false} BytesBack(program: seq<I.Native>, base: word, k: nat)
    requires k <= |program|
    ensures A.Mixed(LinesFor(program), base, 0, k) == EncodeAll(program[..k])
    decreases k
  {
    hide A.Final, A.SeenEarly, I.Encode, I.Size;
    if k > 0 {
      BytesBack(program, base, k - 1);
      assert program[..k] == program[..k - 1] + [program[k - 1]];
      EncodeLast(program[..k - 1], program[k - 1]);
    }
  }

  lemma {:induction false} EncodeLast(program: seq<I.Native>, i: I.Native)
    ensures EncodeAll(program + [i]) == EncodeAll(program) + I.Encode(i)
  {
    hide I.Encode, I.Size;
    if program == [] {
      assert [] + [i] == [i] && [i][1..] == [];
      assert EncodeAll([i]) == I.Encode(i) + EncodeAll([]);
    } else {
      assert (program + [i])[1..] == program[1..] + [i] && (program + [i])[0] == program[0];
      EncodeLast(program[1..], i);
    }
  }

  /**
   The listing of a program can be read, assembled at any origin, and comes to the bytes of that
   program, whatever the instructions.
   */
  lemma Reassembles(program: seq<I.Native>, base: word)
    ensures TextOf(Listing(program)).Some?
    ensures
      var text := TextOf(Listing(program)).value;
      var lines := Interleaving.Interleaved(text, [], base);
      && X.FineText(text) && lines.Some? && A.AllWellFormed(lines.value) && A.Assembles(lines.value, base)
      && A.Mixed(lines.value, base, 0, |lines.value|) == EncodeAll(program)
  {
    hide TextOf, Listing, EncodeAll, A.Mixed, A.HereFits, A.Final, X.FineText, OpsFor, Interleaving.Interleaved;
    ListingReads(program);
    ListingEmits(program, 0, base);
    assert program[0..] == program && LinesFor(program[..0]) == [];
    BytesBack(program, base, |program|);
    assert program[..|program|] == program;
    NoHoles(program, base);
  }

  lemma NoHoles(program: seq<I.Native>, base: word)
    ensures A.Assembles(LinesFor(program), base)
  {
    hide A.Final;
  }
}
