/**
 Built-in macros that name an argument they do not have (asm/macros.asm): no call of them
 ever expands.
 */
module Faults {
  import opened Source
  import opened MacroTable
  import opened Expand
  import opened Spelling

  predicate Misnamed(pieces: Pieces) {
    match pieces
    case NoPieces => false
    case With1(a) => a.Unknown?
    case With2(a, b) => a.Unknown? || b.Unknown?
    case With3(a, b, c) => a.Unknown? || b.Unknown? || c.Unknown?
    case With4(a, b, c, d) => a.Unknown? || b.Unknown? || c.Unknown? || d.Unknown?
    case With5(a, b, c, d, e) => a.Unknown? || b.Unknown? || c.Unknown? || d.Unknown? || e.Unknown?
  }

  predicate Broken(body: Body) {
    match body
    case Rows1(a) => Misnamed(a.pieces)
    case Rows2(a, b) => Misnamed(a.pieces) || Misnamed(b.pieces)
    case Rows3(a, b, c) => Misnamed(a.pieces) || Misnamed(b.pieces) || Misnamed(c.pieces)
    case Rows4(a, b, c, d) => Misnamed(a.pieces) || Misnamed(b.pieces) || Misnamed(c.pieces) || Misnamed(d.pieces)
    case Rows5(a, b, c, d, e) =>
      Misnamed(a.pieces) || Misnamed(b.pieces) || Misnamed(c.pieces) || Misnamed(d.pieces) || Misnamed(e.pieces)
  }

  lemma NeverFilled(pieces: Pieces, args: Args)
    requires Misnamed(pieces)
    ensures FilledAll(pieces, args) == None
  {
    assert Filled(Unknown, args) == None;
  }

  lemma RowFails(d: nat, row: Row, args: Args, after: Option<Lines>)
    ensures Misnamed(row.pieces) || after.None? ==> ExpandRow(d, row, args, after) == None
  {
    hide ExpandTo, FilledAll;
    if Misnamed(row.pieces) { NeverFilled(row.pieces, args); }
  }

  lemma BodyFails(d: nat, body: Body, args: Args, after: Lines)
    requires Broken(body)
    ensures ExpandBody(d, body, args, after) == None
  {
    hide ExpandRow, Misnamed;
    forall row: Row, more: Option<Lines>
      ensures Misnamed(row.pieces) || more.None? ==> ExpandRow(d, row, args, more) == None
    {
      RowFails(d, row, args, more);
    }
  }

  /** A call whose macro names an argument it does not have stops the assembler, whatever the arguments. */
  lemma BrokenFails(d: nat, op: Operation, after: Lines)
    requires !IsNative(op)
    requires var m := FirstMatch(Overloads(op.name), op.args); m.NoMacros? || Broken(m.body)
    ensures ExpandTo(d, op, after) == None
  {
    hide IsNative, FirstMatch, Overloads, ExpandBody, Broken;
    var m := FirstMatch(Overloads(op.name), op.args);
    if d > 0 && m.Macro? { BodyFails(d - 1, m.body, op.args, after); }
  }

  lemma SignEntry()
    ensures Overloads(Name.SIGN) == SignMacros() && NativeParams(Name.SIGN) == None
    ensures Overloads(Name.SIGN16) == Sign16Macros() && NativeParams(Name.SIGN16) == None
    ensures Overloads(Name.JNZ) == JnzMacros() && NativeParams(Name.JNZ).Some?
    ensures forall args {:trigger Accepts(NativeParams(Name.JNZ).value, args)} :: Accepts(NativeParams(Name.JNZ).value, args) ==> ArgCount(args) == 1
  {
    hide Lowers, Layer;
  }

  /** SIGN never expands. */
  lemma SignFails(d: nat, args: Args, after: Lines)
    ensures ExpandTo(d, Do(Name.SIGN, args), after) == None
  {
    hide ExpandTo, Overloads, Accepts, NativeParams;
    SignEntry();
    BrokenFails(d, Do(Name.SIGN, args), after);
  }

  lemma SignLineFails(d: nat, args: Args, after: Lines)
    ensures ExpandBody(d, Rows1(Row(Name.SIGN, With1(P(0)))), args, after) == None
  {
    hide ExpandTo;
    var row := Row(Name.SIGN, With1(P(0)));
    var filled := FilledAll(row.pieces, args);
    assert ExpandBody(d, Rows1(row), args, after) == ExpandRow(d, row, args, Some(after));
    if filled.Some? { SignFails(d, filled.value, after); }
  }

  /** Neither does SIGN16, which calls it. */
  lemma Sign16Fails(d: nat, args: Args, after: Lines)
    ensures ExpandTo(d, Do(Name.SIGN16, args), after) == None
  {
    hide Overloads, Accepts, NativeParams, ExpandBody, FirstMatch;
    SignEntry();
    Accepting();
    if d > 0 {
      SignLineFails(d - 1, args, after);
      var m := FirstMatch(Overloads(Name.SIGN16), args);
      assert m.Macro? ==> m.body == Rows1(Row(Name.SIGN, With1(P(0))));
    }
  }

  /** JNZ with a pair of registers to jump to, or any three arguments, never expands. */
  lemma FarJnzFails(d: nat, x: Arg, y: Arg, z: Arg, after: Lines)
    ensures ExpandTo(d, Do(Name.JNZ, A3(x, y, z)), after) == None
  {
    hide ExpandTo, Overloads, Accepts, NativeParams, FirstMatch, Fails;
    SignEntry();
    Accepting();
    assert ArgCount(A3(x, y, z)) == 3 by { assert ArgCount(A1(z)) == 1; }
    BrokenFails(d, Do(Name.JNZ, A3(x, y, z)), after);
  }
}
