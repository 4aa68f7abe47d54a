/**
 The parse loop as the assembler runs it, line by line: a name that a label in front has is a number
 by the time overloads are chosen. Whenever a text expands with its names left as names, this comes
 to the same image; besides, it takes some texts in which such a number is small enough for an
 operation that takes no names (asm/asm.c, parse and eval_labels).
 */
module Interleaving {
  import I = Isa
  import opened Words
  import opened Source
  import opened MacroTable
  import opened Expand
  import opened Choosing
  import A = Assembler
  import S = Spelling

  // ----- lines are filled in alike -----

  lemma {:induction false} KnownAt(args: Args, k: nat, out: seq<Line>, base: word)
    ensures ArgAt(KnownArgs(args, out, base), k)
      == match ArgAt(args, k) case None => None case Some(a) => Some(Known(a, out, base))
    decreases k
  {
    hide Known;
    if args.Args? && k > 0 {
      KnownAt(args.rest, k - 1, out, base);
    }
  }

  lemma PieceKnown(p: Piece, args: Args, out: seq<Line>, base: word)
    requires Filled(p, args).Some?
    ensures Filled(p, KnownArgs(args, out, base)).Some?
    ensures Known(Filled(p, KnownArgs(args, out, base)).value, out, base) == Known(Filled(p, args).value, out, base)
  {
    hide KnownArgs, ArgAt, LastGlobal, Offset;
    if p.P? || p.InBrackets? || p.HighOf? || p.LowOf? || p.PlusOf? {
      KnownAt(args, p.k, out, base);
    }
  }

  /** The two are the same but for names that are numbers in one of them. */
  predicate Alike(x: Option<Args>, y: Option<Args>, out: seq<Line>, base: word) {
    x.Some? ==> y.Some? && KnownArgs(y.value, out, base) == KnownArgs(x.value, out, base)
  }

  lemma BeforeAlike(p: Piece, x: Option<Args>, y: Option<Args>, args: Args, out: seq<Line>, base: word)
    requires Alike(x, y, out, base)
    ensures Alike(Before(Filled(p, args), x), Before(Filled(p, KnownArgs(args, out, base)), y), out, base)
  {
    hide Filled, Known;
    if Filled(p, args).Some? {
      PieceKnown(p, args, out, base);
    }
  }

  lemma FilledAlike(pieces: Pieces, args: Args, out: seq<Line>, base: word)
    ensures Alike(FilledAll(pieces, args), FilledAll(pieces, KnownArgs(args, out, base)), out, base)
  {
    hide Filled, Before, Alike;
    var args1 := KnownArgs(args, out, base);
    assert Alike(Some(NoArgs), Some(NoArgs), out, base) by { NoneAlike(out, base); }
    forall p, x, y {:trigger Before(Filled(p, args), x), Before(Filled(p, args1), y)} | Alike(x, y, out, base)
      ensures Alike(Before(Filled(p, args), x), Before(Filled(p, args1), y), out, base)
    {
      BeforeAlike(p, x, y, args, out, base);
    }
  }

  lemma NoneAlike(out: seq<Line>, base: word)
    ensures Alike(Some(NoArgs), Some(NoArgs), out, base)
  {
  }

  /** The same text but for known names in its first operations. */
  predicate SameText(t: Text, t0: Text, out: seq<Line>, base: word) {
    t == t0 || (
      && t.Uses? && t0.Uses? && t0.op.name == t.op.name
      && KnownArgs(t0.op.args, out, base) == KnownArgs(t.op.args, out, base) && SameText(t.rest, t0.rest, out, base))
  }

  predicate BothTexts(x: Option<Text>, y: Option<Text>, out: seq<Line>, base: word) {
    x.Some? ==> y.Some? && SameText(x.value, y.value, out, base)
  }

  lemma RowAlike(row: Row, args: Args, x: Option<Text>, y: Option<Text>, out: seq<Line>, base: word)
    requires BothTexts(x, y, out, base)
    ensures BothTexts(SpliceRow(row, args, x), SpliceRow(row, KnownArgs(args, out, base), y), out, base)
  {
    hide FilledAll;
    FilledAlike(row.pieces, args, out, base);
  }

  lemma SpliceAlike(body: Body, args: Args, rest: Text, rest0: Text, out: seq<Line>, base: word)
    requires SameText(rest, rest0, out, base)
    ensures BothTexts(Splice(body, args, rest), Splice(body, KnownArgs(args, out, base), rest0), out, base)
  {
    hide SpliceRow, BothTexts;
    var args1 := KnownArgs(args, out, base);
    assert BothTexts(Some(rest), Some(rest0), out, base) by { WholeTexts(rest, rest0, out, base); }
    forall row, x, y {:trigger SpliceRow(row, args, x), SpliceRow(row, args1, y)} | BothTexts(x, y, out, base)
      ensures BothTexts(SpliceRow(row, args, x), SpliceRow(row, args1, y), out, base)
    {
      RowAlike(row, args, x, y, out, base);
    }
  }

  lemma WholeTexts(t: Text, t0: Text, out: seq<Line>, base: word)
    requires SameText(t, t0, out, base)
    ensures BothTexts(Some(t), Some(t0), out, base)
  {
  }

  // ----- the parse loop -----

  lemma {:induction false} KnownRank(args: Args, out: seq<Line>, base: word)
    ensures ArgCount(KnownArgs(args, out, base)) == ArgCount(args)
    ensures EndsInReg(KnownArgs(args, out, base)) == EndsInReg(args)
    decreases args
  {
    hide Early;
    if args.Args? {
      KnownRank(args.rest, out, base);
    }
  }

  lemma Lighter(op: Operation, rest: Text, out: seq<Line>, base: word)
    ensures
      var op1 := KnownOp(op, out, base);
      var m := FirstMatch(Overloads(op.name), op1.args);
      m.Macro? && Splice(m.body, op1.args, rest).Some? ==>
        Weight(Splice(m.body, op1.args, rest).value) < Weight(Uses(op, rest))
  {
    hide Accepts, FirstMatch, Overloads, Splice, AllBelow, Layer, Power6, KnownArgs, ArgCount, EndsInReg;
    var op1 := KnownOp(op, out, base);
    var m := FirstMatch(Overloads(op.name), op1.args);
    KnownRank(op.args, out, base);
    assert Rank(op1) == Rank(op);
    if m.Macro? && Splice(m.body, op1.args, rest).Some? {
      MatchFacts(op.name, Overloads(op.name), op1.args);
      SpliceWeight(op1, m.params, m.body, rest);
    }
  }

  lemma Heavy(op: Operation, rest: Text)
    ensures Weight(rest) < Weight(Uses(op, rest))
  {
  }

  /** What is left to parse, and the lines emitted so far. */
  datatype Going = Going(todo: Text, done: seq<Line>)

  /**
   One round of the loop: the first line that is left is emitted, or the call in its place gives way
   to the lines of its macro.
   */
  function Round(text: Text, done: seq<Line>, base: word): Option<Going>
    requires !text.End?
  {
    match text
    case Stands(l, rest) => Some(Going(rest, done + [KnownLine(l, done, base)]))
    case Uses(op, rest) =>
      var op1 := KnownOp(op, done, base);
      if IsNative(op1) then
        if NativeLine(op1).Some? then Some(Going(rest, done + [NativeLine(op1).value])) else None
      else
        match FirstMatch(Overloads(op.name), op1.args)
        case NoMacros => None
        case Macro(_, body, _) =>
          match Splice(body, op1.args, rest)
          case None => None
          case Some(more) => Some(Going(more, done))
  }

  lemma RoundLighter(text: Text, done: seq<Line>, base: word)
    requires !text.End?
    ensures Round(text, done, base).Some? ==> Weight(Round(text, done, base).value.todo) < Weight(text)
  {
    hide KnownLine, KnownArgs, IsNative, NativeLine, FirstMatch, Overloads, Splice, Power6, Rank;
    if text.Uses? {
      Heavy(text.op, text.rest);
      Lighter(text.op, text.rest, done, base);
    }
  }

  /** The lines that the assembler emits from a text, behind those it has emitted already. */
  function Interleaved(text: Text, done: seq<Line>, base: word): Option<seq<Line>>
    decreases Weight(text)
  {
    if text.End? then Some(done)
    else
      RoundLighter(text, done, base);
      var next := Round(text, done, base);
      if next.None? then None else Interleaved(next.value.todo, next.value.done, base)
  }

  /** The lines emitted by the time that the loop comes to a part of the text. */
  function Reached(text: Text, part: Text, done: seq<Line>, base: word): Option<seq<Line>>
    decreases Weight(text)
  {
    if text == part then Some(done)
    else if text.End? then None
    else
      RoundLighter(text, done, base);
      var next := Round(text, done, base);
      if next.None? then None else Reached(next.value.todo, part, next.value.done, base)
  }

  // ----- every part of the text is reached -----

  lemma SplicePart(body: Body, args: Args, rest: Text, part: Text)
    requires Includes(rest, part) && Splice(body, args, rest).Some?
    ensures Includes(Splice(body, args, rest).value, part)
  {
    hide FilledAll;
    forall row, more: Option<Text> {:trigger SpliceRow(row, args, more)}
      | SpliceRow(row, args, more).Some? && Includes(more.value, part)
      ensures Includes(SpliceRow(row, args, more).value, part)
    {
    }
  }

  lemma RoundKeeps(text: Text, part: Text, done: seq<Line>, base: word)
    requires !text.End? && Round(text, done, base).Some?
    ensures var next := Round(text, done, base).value;
      done <= next.done && (Includes(text, part) && text != part ==> Includes(next.todo, part))
  {
    hide KnownLine, KnownArgs, IsNative, NativeLine, FirstMatch, Overloads, Splice;
    if text.Uses? && !IsNative(KnownOp(text.op, done, base)) && Includes(text.rest, part) {
      var args := KnownArgs(text.op.args, done, base);
      SplicePart(FirstMatch(Overloads(text.op.name), args).body, args, text.rest, part);
    }
  }

  /** The lines emitted so far stay at the front. */
  lemma {:induction false} KeepsFront(text: Text, done: seq<Line>, base: word)
    requires Interleaved(text, done, base).Some?
    ensures done <= Interleaved(text, done, base).value
    decreases Weight(text)
  {
    hide Round, Weight;
    if !text.End? {
      RoundLighter(text, done, base);
      RoundKeeps(text, text, done, base);
      var next := Round(text, done, base).value;
      KeepsFront(next.todo, next.done, base);
    }
  }

  /** When a text gets through, the loop comes to every part of it, and what follows is what that part emits. */
  lemma {:induction false} ReachesPart(text: Text, part: Text, done: seq<Line>, base: word)
    requires Includes(text, part) && Interleaved(text, done, base).Some?
    ensures
      var front := Reached(text, part, done, base);
      front.Some? && done <= front.value && Interleaved(part, front.value, base) == Interleaved(text, done, base)
    decreases Weight(text)
  {
    hide Round, Weight;
    if text != part {
      RoundLighter(text, done, base);
      RoundKeeps(text, part, done, base);
      var next := Round(text, done, base).value;
      ReachesPart(next.todo, part, next.done, base);
    }
  }

  // ----- it agrees with expansion on names -----

  lemma {:induction false} FillingKeeps(lines: seq<Line>, base: word, name: string, k: nat)
    requires k <= |lines|
    ensures Offset(Filling(lines, base), k) == Offset(lines, k)
    ensures LastGlobal(Filling(lines, base), name, k) == LastGlobal(lines, name, k)
    decreases k
  {
    hide Filling, KnownLine;
    if k > 0 {
      FillingKeeps(lines, base, name, k - 1);
      assert Filling(lines, base)[k - 1] == KnownLine(lines[k - 1], lines[..k - 1], base);
    }
  }

  lemma {:induction false} PrefixKeeps(lines: seq<Line>, l: Line, name: string, k: nat)
    requires k <= |lines|
    ensures Offset(lines + [l], k) == Offset(lines, k) && LastGlobal(lines + [l], name, k) == LastGlobal(lines, name, k)
    decreases k
  {
    if k > 0 {
      PrefixKeeps(lines, l, name, k - 1);
    }
  }

  /** What is known behind `out` is known behind out'. */
  ghost predicate SameKnown(out: seq<Line>, out': seq<Line>, base: word) {
    forall name :: Early(out', base, name) == Early(out, base, name)
  }

  lemma FillingKnown(lines: seq<Line>, base: word)
    ensures SameKnown(lines, Filling(lines, base), base)
  {
    hide LastGlobal, Filling, Offset;
    forall name
      ensures Early(Filling(lines, base), base, name) == Early(lines, base, name)
    {
      FillingKeeps(lines, base, name, |lines|);
      var m := LastGlobal(lines, name, |lines|);
      if m.Some? {
        FillingKeeps(lines, base, name, m.value);
      }
    }
  }

  lemma OneMoreKnown(lines: seq<Line>, l: Line, base: word)
    requires !l.Labels()
    ensures SameKnown(lines, lines + [l], base)
  {
    hide Offset;
    forall name
      ensures Early(lines + [l], base, name) == Early(lines, base, name)
    {
      PrefixKeeps(lines, l, name, |lines|);
      var m := LastGlobal(lines, name, |lines|);
      if m.Some? {
        PrefixKeeps(lines, l, name, m.value);
      }
    }
  }

  lemma {:induction false} SameArgs(args: Args, out: seq<Line>, out': seq<Line>, base: word)
    requires SameKnown(out, out', base)
    ensures KnownArgs(args, out', base) == KnownArgs(args, out, base)
    decreases args
  {
    hide Early;
    if args.Args? {
      SameArgs(args.rest, out, out', base);
    }
  }

  lemma {:induction false} SameTextThere(t: Text, t0: Text, out: seq<Line>, out': seq<Line>, base: word)
    requires SameKnown(out, out', base) && SameText(t, t0, out, base)
    ensures SameText(t, t0, out', base)
    decreases t
  {
    hide SameKnown;
    if t != t0 {
      SameArgs(t.op.args, out, out', base);
      SameArgs(t0.op.args, out, out', base);
      SameTextThere(t.rest, t0.rest, out, out', base);
    }
  }

  lemma FillingOne(out: seq<Line>, l: Line, base: word)
    ensures Filling(out + [l], base) == Filling(out, base) + [KnownLine(l, Filling(out, base), base)]
  {
    hide Early;
    FillingKnown(out, base);
    assert (out + [l])[..|out|] == out;
  }

  lemma {:induction false} JoinedEnd(text: Text)
    ensures Joined(text, End) == text
  {
    match text
    case End =>
    case Stands(_, rest) => JoinedEnd(rest);
    case Uses(_, rest) => JoinedEnd(rest);
  }

  lemma SpliceJoined(body: Body, args: Args, rest: Text, tail: Text)
    requires Splice(body, args, rest).Some?
    ensures Splice(body, args, Joined(rest, tail)) == Some(Joined(Splice(body, args, rest).value, tail))
  {
    hide FilledAll;
    forall row, x: Option<Text>, y: Option<Text> {:trigger SpliceRow(row, args, x), SpliceRow(row, args, y)}
      | SpliceRow(row, args, x).Some? && y == Some(Joined(x.value, tail))
      ensures SpliceRow(row, args, y) == Some(Joined(SpliceRow(row, args, x).value, tail))
    {
    }
  }

  /** The lines emitted so far and those of a list behind them, with the addresses of known names in them. */
  function Emits(done: seq<Line>, ls: Lines, base: word): seq<Line>
    decreases ls
  {
    match ls
    case NoLines => done
    case Put(l, rest) => Emits(done + [KnownLine(l, done, base)], rest, base)
  }

  /**
   A text that expands with its names left as names emits the lines that it expands to, but for the
   addresses of known names in them, behind whatever has been emitted and in front of whatever follows.
   */
  lemma {:induction false} Agrees(t: Text, t0: Text, tail: Text, done: seq<Line>, ls: Lines, base: word)
    requires SameText(t, t0, done, base) && ExpandText(t, NoLines) == Some(ls)
    ensures Interleaved(Joined(t0, tail), done, base) == Interleaved(tail, Emits(done, ls, base), base)
    decreases Weight(t)
  {
    hide KnownLine, KnownArgs, SameKnown, ExpandTo, IsNative, NativeLine, FirstMatch, Overloads, Splice, Power6, Rank, Interleaved, Round;
    match t
    case End =>
    case Stands(l, rest) =>
      LineRound(l, Joined(rest, tail), done, base);
      Agrees(rest, rest, tail, done + [KnownLine(l, done, base)], ls.rest, base);
    case Uses(op, rest) =>
      var op1, rest0 := KnownOp(op, done, base), t0.rest;
      assert t0.Uses? && KnownOp(t0.op, done, base) == op1 && SameText(rest, rest0, done, base);
      SameChoice(op, done, base);
      Heavy(op, rest);
      if IsNative(op) {
        NativeAgrees(op, rest, rest0, done, ls, base);
        NativeRound(t0.op, Joined(rest0, tail), done, base);
        Agrees(rest, rest0, tail, done + [NativeLine(op1).value], ls.rest, base);
      } else {
        MacroText(op, rest);
        var m := FirstMatch(Overloads(op.name), op.args);
        SpliceAlike(m.body, op.args, rest, rest0, done, base);
        SpliceJoined(m.body, op1.args, rest0, tail);
        MacroRound(t0.op, Joined(rest0, tail), done, base);
        Agrees(Splice(m.body, op.args, rest).value, Splice(m.body, op1.args, rest0).value, tail, done, ls, base);
      }
  }

  lemma NativeAgrees(op: Operation, rest: Text, rest0: Text, done: seq<Line>, ls: Lines, base: word)
    requires IsNative(op) && ExpandText(Uses(op, rest), NoLines) == Some(ls) && SameText(rest, rest0, done, base)
    ensures NativeLine(op).Some? && ls.Put? && ls.first == NativeLine(op).value && ExpandText(rest, NoLines) == Some(ls.rest)
    ensures NativeLine(KnownOp(op, done, base)) == Some(KnownLine(ls.first, done, base))
    ensures SameText(rest, rest0, done + [KnownLine(ls.first, done, base)], base)
  {
    hide KnownLine, KnownArgs, IsNative, NativeLine, SameText, FirstMatch, Overloads, ExpandBody;
    SameNative(op, done, base);
    var line := NativeLine(op).value;
    OneMoreKnown(done, KnownLine(line, done, base), base);
    SameTextThere(rest, rest0, done, done + [KnownLine(line, done, base)], base);
  }

  // Interleaved, one round at a time.

  lemma LineRound(l: Line, rest: Text, done: seq<Line>, base: word)
    ensures Interleaved(Stands(l, rest), done, base) == Interleaved(rest, done + [KnownLine(l, done, base)], base)
  {
    hide KnownLine;
  }

  lemma NativeRound(op: Operation, rest: Text, done: seq<Line>, base: word)
    requires IsNative(KnownOp(op, done, base))
    ensures
      var line := NativeLine(KnownOp(op, done, base));
      Interleaved(Uses(op, rest), done, base) == if line.Some? then Interleaved(rest, done + [line.value], base) else None
  {
    hide KnownArgs, IsNative, NativeLine, FirstMatch, Overloads, Splice, Weight;
  }

  lemma MacroRound(op: Operation, rest: Text, done: seq<Line>, base: word)
    requires !IsNative(KnownOp(op, done, base))
    ensures
      var args := KnownArgs(op.args, done, base);
      var m := FirstMatch(Overloads(op.name), args);
      Interleaved(Uses(op, rest), done, base) ==
        if m.Macro? && Splice(m.body, args, rest).Some? then Interleaved(Splice(m.body, args, rest).value, done, base) else None
  {
    hide KnownArgs, IsNative, NativeLine, FirstMatch, Overloads, Splice, Weight;
  }

  // ----- the image is the same -----

  lemma {:induction false} SliceKeeps(lines: seq<Line>, n: nat, name: string, k: nat)
    requires k <= n <= |lines|
    ensures Offset(lines[..n], k) == Offset(lines, k) && LastGlobal(lines[..n], name, k) == LastGlobal(lines, name, k)
    decreases k
  {
    if k > 0 {
      SliceKeeps(lines, n, name, k - 1);
    }
  }

  lemma {:induction false} SameLabels(lines: seq<Line>, base: word, k: nat)
    requires k <= |lines|
    ensures A.LabelsOf(Filling(lines, base), base, k) == A.LabelsOf(lines, base, k)
    decreases k
  {
    hide Filling, KnownLine, Offset;
    if k > 0 {
      SameLabels(lines, base, k - 1);
      FillingKeeps(lines, base, "", k - 1);
      assert Filling(lines, base)[k - 1] == KnownLine(lines[k - 1], lines[..k - 1], base);
    }
  }

  /** A known name has its address early, in the one pass as here. */
  lemma SeenKnown(lines: seq<Line>, base: word, k: nat)
    requires k < |lines| && A.Refers(lines[k]) && Early(lines[..k], base, lines[k].x.name).Some?
    ensures A.Final(lines, base, k) == Early(lines[..k], base, lines[k].x.name)
  {
    hide LastGlobal, Offset, A.ValueAfter;
    var name := lines[k].x.name;
    A.EarlyLookup(lines, base, k, name);
    SliceKeeps(lines, k, name, k);
    SliceKeeps(lines, k, name, LastGlobal(lines, name, k).value);
  }

  lemma SameLine(lines: seq<Line>, base: word, k: nat)
    requires k < |lines| && WellFormed(lines[k])
    ensures
      var r := Filling(lines, base);
      && WellFormed(r[k]) && A.HereFits(r, base, k) == A.HereFits(lines, base, k)
      && ((A.Refers(r[k]) ==> A.Final(r, base, k).Some?) <==> (A.Refers(lines[k]) ==> A.Final(lines, base, k).Some?))
      && A.Emitted(r, base, k, A.Final(r, base, k)) == A.Emitted(lines, base, k, A.Final(lines, base, k))
  {
    hide Filling, Early, Offset, A.LabelsOf, A.Lookup, A.ParentOf, I.Encode;
    var r := Filling(lines, base);
    assert r[k] == KnownLine(lines[k], lines[..k], base);
    FillingKeeps(lines, base, "", k);
    SameLabels(lines, base, k);
    SameLabels(lines, base, |lines|);
    if r[k] != lines[k] {
      SeenKnown(lines, base, k);
    }
  }

  lemma {:induction false} SameMixed(lines: seq<Line>, base: word, k: nat)
    requires k <= |lines| && A.AllWellFormed(lines) && A.AllWellFormed(Filling(lines, base))
    ensures A.Mixed(Filling(lines, base), base, 0, k) == A.Mixed(lines, base, 0, k)
    decreases k
  {
    hide Filling, A.Final, A.Emitted, WellFormed;
    if k > 0 {
      assert WellFormed(lines[k - 1]);
      SameMixed(lines, base, k - 1);
      SameLine(lines, base, k - 1);
    }
  }

  /** Assembling the lines with addresses in them is assembling those with names. */
  lemma FillingAssembles(lines: seq<Line>, base: word)
    requires A.AllWellFormed(lines)
    ensures A.AllWellFormed(Filling(lines, base)) && (A.Assembles(Filling(lines, base), base) <==> A.Assembles(lines, base))
    ensures A.Mixed(Filling(lines, base), base, 0, |lines|) == A.Mixed(lines, base, 0, |lines|)
  {
    hide Filling, A.Final, A.Emitted, WellFormed, A.HereFits, A.Mixed, A.Refers;
    forall k | 0 <= k < |lines|
      ensures
        var r := Filling(lines, base);
        && WellFormed(r[k]) && A.HereFits(r, base, k) == A.HereFits(lines, base, k)
        && ((A.Refers(r[k]) ==> A.Final(r, base, k).Some?) <==> (A.Refers(lines[k]) ==> A.Final(lines, base, k).Some?))
    {
      assert WellFormed(lines[k]);
      SameLine(lines, base, k);
    }
    SameMixed(lines, base, |lines|);
  }

  // ----- the loop that does it -----

  lemma {:induction false} LabelsExtend(lines: seq<Line>, l: Line, base: word, k: nat)
    requires k <= |lines|
    ensures A.LabelsOf(lines + [l], base, k) == A.LabelsOf(lines, base, k)
    decreases k
  {
    hide Offset;
    if k > 0 {
      LabelsExtend(lines, l, base, k - 1);
      PrefixKeeps(lines, l, "", k - 1);
    }
  }

  lemma SeenExtends(lines: seq<Line>, l: Line, base: word, k: nat)
    requires k < |lines|
    ensures A.SeenEarly(lines + [l], base, k) == A.SeenEarly(lines, base, k)
    ensures A.Pending(lines + [l], base, k) == A.Pending(lines, base, k)
    ensures A.Pending(lines, base, k) ==> A.PatchOf(lines + [l], base, k) == A.PatchOf(lines, base, k)
    ensures WellFormed(lines[k]) ==>
      forall v :: A.Emitted(lines + [l], base, k, v) == A.Emitted(lines, base, k, v)
  {
    hide Offset, A.LabelsOf, A.Lookup, A.ParentOf, I.Encode;
    LabelsExtend(lines, l, base, k);
    PrefixKeeps(lines, l, "", k);
    assert (lines + [l])[k] == lines[k];
  }

  /** The patch that line k leaves, if it leaves one. */
  function Left(lines: seq<Line>, base: word, k: nat): seq<A.Patch>
    requires k < |lines|
  {
    if A.Pending(lines, base, k) then [A.PatchOf(lines, base, k)] else []
  }

  /** The patches that the first k lines leave. */
  function LeftBy(lines: seq<Line>, base: word, k: nat): seq<A.Patch>
    requires k <= |lines|
  {
    A.PatchesOf(lines, base, k)
  }

  lemma LeftStep(lines: seq<Line>, base: word, k: nat)
    requires k < |lines|
    ensures LeftBy(lines, base, k + 1) == LeftBy(lines, base, k) + Left(lines, base, k)
  {
    hide A.Pending, A.PatchOf, A.PatchLines;
  }

  lemma LeftExtends(lines: seq<Line>, l: Line, base: word, k: nat)
    requires k < |lines|
    ensures Left(lines + [l], base, k) == Left(lines, base, k)
  {
    hide A.Pending, A.PatchOf, A.Emitted, WellFormed;
    SeenExtends(lines, l, base, k);
  }

  lemma {:induction false} PatchesExtend(lines: seq<Line>, l: Line, base: word, k: nat)
    requires k <= |lines|
    ensures LeftBy(lines + [l], base, k) == LeftBy(lines, base, k)
    decreases k
  {
    hide LeftBy, Left;
    if k == 0 {
      NoneLeft(lines, base);
      NoneLeft(lines + [l], base);
    } else {
      PatchesExtend(lines, l, base, k - 1);
      LeftStep(lines, base, k - 1);
      LeftStep(lines + [l], base, k - 1);
      LeftExtends(lines, l, base, k - 1);
    }
  }

  lemma NoneLeft(lines: seq<Line>, base: word)
    ensures LeftBy(lines, base, 0) == []
  {
  }

  lemma MixedStep(lines: seq<Line>, base: word, k: nat)
    requires k < |lines| && A.AllWellFormed(lines)
    ensures WellFormed(lines[k])
    ensures A.Mixed(lines, base, |lines|, k + 1)
      == A.Mixed(lines, base, |lines|, k) + A.Emitted(lines, base, k, A.SeenEarly(lines, base, k))
  {
    hide A.SeenEarly, A.Emitted, A.Final;
  }

  lemma {:induction false} MixedExtends(lines: seq<Line>, l: Line, base: word, k: nat)
    requires k <= |lines| && A.AllWellFormed(lines) && A.AllWellFormed(lines + [l])
    ensures A.Mixed(lines + [l], base, |lines + [l]|, k) == A.Mixed(lines, base, |lines|, k)
    decreases k
  {
    hide WellFormed, A.SeenEarly, A.Pending, A.PatchOf, A.Emitted, A.AllWellFormed, A.Mixed;
    if k == 0 {
      A.Begins(lines, base);
      A.Begins(lines + [l], base);
    } else {
      MixedExtends(lines, l, base, k - 1);
      MixedStep(lines, base, k - 1);
      MixedStep(lines + [l], base, k - 1);
      SeenExtends(lines, l, base, k - 1);
    }
  }

  lemma HereExtends(lines: seq<Line>, l: Line, base: word, k: nat)
    requires k < |lines|
    ensures A.HereFits(lines + [l], base, k) == A.HereFits(lines, base, k)
  {
    hide Offset;
    PrefixKeeps(lines, l, "", k);
  }

  lemma HereFront(lines: seq<Line>, n: nat, base: word, k: nat)
    requires k < n <= |lines|
    ensures A.HereFits(lines[..n], base, k) == A.HereFits(lines, base, k)
  {
    hide Offset;
    SliceKeeps(lines, n, "", k);
  }

  /** eval_labels, for one name. */
  method ResolveEarly(ctx: A.Context, name: string, done: seq<Line>) returns (v: Option<word>)
    requires A.AllWellFormed(done) && ctx.Through(done, |done|)
    ensures v == Early(done, A.Base(ctx.org), name)
  {
    hide A.Lookup, A.LabelsOf, A.PatchesOf, A.Mixed, LastGlobal, RegNamed, Offset;
    A.EarlyLookup(done, A.Base(ctx.org), |done|, name);
    var reg := RegNamed(name);
    if reg.Some? {
      return None;
    }
    var found, value := ctx.ResolveLabel(name, -1);
    return if found then Some(value) else None;
  }

  method ResolveArgs(ctx: A.Context, args: Args, done: seq<Line>) returns (r: Args)
    requires A.AllWellFormed(done) && ctx.Through(done, |done|)
    ensures r == KnownArgs(args, done, A.Base(ctx.org))
    decreases args
  {
    hide Early, A.LabelsOf, A.PatchesOf, A.Mixed;
    match args
    case NoArgs =>
      return NoArgs;
    case Args(a, rest) =>
      var b := a;
      if a.Symbol? {
        var v := ResolveEarly(ctx, a.name, done);
        if v.Some? {
          b := Number(v.value);
        }
      }
      var more := ResolveArgs(ctx, rest, done);
      return Args(b, more);
  }

  /** No value so far is out of range. */
  ghost predicate AllHere(done: seq<Line>, base: word) {
    forall n | 0 <= n < |done| :: A.HereFits(done, base, n)
  }

  lemma HereAll(done: seq<Line>, l: Line, base: word)
    requires AllHere(done, base) && A.HereFits(done + [l], base, |done|)
    ensures AllHere(done + [l], base)
  {
    hide A.HereFits;
    forall n | 0 <= n < |done|
      ensures A.HereFits(done + [l], base, n)
    {
      HereExtends(done, l, base, n);
    }
  }

  /** A value out of range is one in whatever the text becomes. */
  lemma NotFitting(text: Text, done: seq<Line>, base: word)
    requires done != [] && !A.HereFits(done, base, |done| - 1)
    ensures Interleaved(text, done, base).Some? ==> !A.Assembles(Interleaved(text, done, base).value, base)
  {
    hide Interleaved, A.HereFits;
    if Interleaved(text, done, base).Some? {
      KeepsFront(text, done, base);
      var r := Interleaved(text, done, base).value;
      assert r[..|done|] == done;
      HereFront(r, |done|, base, |done| - 1);
    }
  }

  /** One line more: its labels, its bytes and its holes. */
  method EmitLine(ctx: A.Context, done: seq<Line>, l: Line, ghost rest: Text) returns (ok: bool)
    requires A.AllWellFormed(done) && WellFormed(l) && ctx.Through(done, |done|)
    requires AllHere(done, A.Base(ctx.org))
    modifies ctx`out, ctx`labels, ctx`patches
    ensures A.AllWellFormed(done + [l])
    ensures ok ==> ctx.Through(done + [l], |done + [l]|) && AllHere(done + [l], A.Base(ctx.org))
    ensures !ok ==>
      var r := Interleaved(rest, done + [l], A.Base(ctx.org)); r.Some? ==> !A.Assembles(r.value, A.Base(ctx.org))
  {
    hide WellFormed, A.LabelsOf, A.PatchesOf, A.Mixed, A.HereFits;
    LabelsExtend(done, l, A.Base(ctx.org), |done|);
    PatchesExtend(done, l, A.Base(ctx.org), |done|);
    OneFine(done, l);
    MixedExtends(done, l, A.Base(ctx.org), |done|);
    ok := ctx.ParseLine(done + [l], |done|);
    if ok {
      HereAll(done, l, A.Base(ctx.org));
    } else {
      NotFitting(rest, done + [l], A.Base(ctx.org));
    }
  }

  lemma FineParts(text: Text)
    ensures FineText(text) ==> (text.Stands? ==> WellFormed(text.line)) && (!text.End? ==> FineText(text.rest))
  {
  }

  lemma RowFine(row: Row, args: Args, more: Option<Text>)
    requires more.Some? ==> FineText(more.value)
    ensures SpliceRow(row, args, more).Some? ==> FineText(SpliceRow(row, args, more).value)
  {
    hide FilledAll;
  }

  lemma FineSplice(body: Body, args: Args, rest: Text)
    requires FineText(rest) && Splice(body, args, rest).Some?
    ensures FineText(Splice(body, args, rest).value)
  {
    hide SpliceRow, FineText;
    forall row, more: Option<Text> {:trigger SpliceRow(row, args, more)} | more.Some? ==> FineText(more.value)
      ensures SpliceRow(row, args, more).Some? ==> FineText(SpliceRow(row, args, more).value)
    {
      RowFine(row, args, more);
    }
  }

  lemma OneFine(done: seq<Line>, l: Line)
    requires A.AllWellFormed(done) && WellFormed(l)
    ensures A.AllWellFormed(done + [l])
  {
  }

  lemma RoundFine(text: Text, done: seq<Line>, base: word)
    requires !text.End? && FineText(text) && A.AllWellFormed(done) && Round(text, done, base).Some?
    ensures var next := Round(text, done, base).value; FineText(next.todo) && A.AllWellFormed(next.done)
  {
    hide KnownLine, KnownArgs, IsNative, NativeLine, FirstMatch, Overloads, Splice, WellFormed, FineText;
    FineParts(text);
    if text.Uses? && !IsNative(KnownOp(text.op, done, base)) {
      var args := KnownArgs(text.op.args, done, base);
      FineSplice(FirstMatch(Overloads(text.op.name), args).body, args, text.rest);
    }
  }

  /** Whatever a text becomes, its lines are ones that the assembler can emit. */
  lemma {:induction false} InterleavedFine(text: Text, done: seq<Line>, base: word)
    requires FineText(text) && A.AllWellFormed(done) && Interleaved(text, done, base).Some?
    ensures A.AllWellFormed(Interleaved(text, done, base).value)
    decreases Weight(text)
  {
    hide Round, Weight, FineText, A.AllWellFormed;
    if !text.End? {
      RoundLighter(text, done, base);
      RoundFine(text, done, base);
      var next := Round(text, done, base).value;
      InterleavedFine(next.todo, next.done, base);
    }
  }

  /** A line that stands as it is, with the address of a known name in it. */
  method StandLine(ctx: A.Context, l: Line, done: seq<Line>) returns (r: Line)
    requires A.AllWellFormed(done) && ctx.Through(done, |done|)
    ensures r == KnownLine(l, done, A.Base(ctx.org))
  {
    hide Early, A.LabelsOf, A.PatchesOf, A.Mixed;
    r := l;
    match l
    case Op(i, Ref(name, _)) =>
      var v := ResolveEarly(ctx, name, done);
      if HasAddress(i) && v.Some? {
        r := Op(WithAddress(i, v.value), Written);
      }
    case _ =>
  }

  method ResolveOp(ctx: A.Context, op: Operation, done: seq<Line>) returns (r: Operation)
    requires A.AllWellFormed(done) && ctx.Through(done, |done|)
    ensures r == KnownOp(op, done, A.Base(ctx.org))
  {
    hide KnownArgs, A.LabelsOf, A.PatchesOf, A.Mixed;
    var args := ResolveArgs(ctx, op.args, done);
    return Do(op.name, args);
  }

  /** A call gives way to the lines of its macro, if there is one. */
  method ExpandCall(op: Operation, rest: Text) returns (more: Option<Text>)
    requires FineText(rest)
    ensures var m := FirstMatch(Overloads(op.name), op.args);
      more == if m.Macro? then Splice(m.body, op.args, rest) else None
    ensures more.Some? ==> FineText(more.value)
  {
    hide FirstMatch, Overloads, Splice, FineText;
    var m := FindMacro(Overloads(op.name), op.args);
    if m.NoMacros? {
      return None;
    }
    more := Splice(m.body, op.args, rest);
    if more.Some? {
      FineSplice(m.body, op.args, rest);
    }
  }

  lemma AtEnd(done: seq<Line>, base: word)
    ensures Interleaved(End, done, base) == Some(done)
  {
  }

  /**
   assemble(), on a text: the first line that is left is emitted, or a call in its place gives way to
   the lines of its macro, until none is left; then the holes are filled.
   */
  method AssembleText(text: Text, org: word) returns (bytes: Option<seq<byte>>)
    requires FineText(text)
    ensures
      var r, base := Interleaved(text, [], A.Base(org)), A.Base(org);
      && (r.Some? ==> A.AllWellFormed(r.value))
      && (bytes.Some? <==> r.Some? && A.Assembles(r.value, base))
      && (bytes.Some? ==> bytes.value == A.Mixed(r.value, base, 0, |r.value|))
  {
    hide WellFormed, A.LabelsOf, A.PatchesOf, A.Mixed, A.HereFits, A.Refers, A.Final, KnownLine, KnownArgs, Interleaved;
    hide IsNative, NativeLine, NativeParams, FirstMatch, Overloads, Splice, Power6, Rank, FineText;
    var ctx := new A.Context(org);
    ghost var base := A.Base(org);
    var todo, done: seq<Line> := text, [];
    assert ctx.Through(done, 0) by { A.Begins(done, base); }
    if Interleaved(text, [], base).Some? {
      InterleavedFine(text, [], base);
    }
    while !todo.End?
      invariant ctx.org == org && A.AllWellFormed(done) && FineText(todo) && ctx.Through(done, |done|)
      invariant Interleaved(todo, done, base) == Interleaved(text, [], base) && AllHere(done, base)
      decreases Weight(todo)
    {
      FineParts(todo);
      var next, op1, rest := None, Do(HALT, NoArgs), todo.rest;
      if todo.Stands? {
        LineRound(todo.line, rest, done, base);
        var l := StandLine(ctx, todo.line, done);
        next := Some(l);
      } else {
        op1 := ResolveOp(ctx, todo.op, done);
        Heavy(todo.op, rest);
        Lighter(todo.op, rest, done, base);
        var native := CheckNative(op1);
        if native {
          NativeRound(todo.op, rest, done, base);
          next := NativeLine(op1);
          if next.None? {
            return None;
          }
        }
      }
      if next.Some? {
        assert Interleaved(rest, done + [next.value], base) == Interleaved(text, [], base);
        var ok := EmitLine(ctx, done, next.value, rest);
        if !ok {
          return None;
        }
        todo, done := rest, done + [next.value];
      } else {
        MacroRound(todo.op, rest, done, base);
        var more := ExpandCall(op1, rest);
        if more.None? {
          return None;
        }
        todo := more.value;
      }
    }
    assert Interleaved(todo, done, base) == Some(done) by { AtEnd(done, base); }
    var ok := ctx.ResolvePatches(done);
    return if ok then Some(ctx.out) else None;
  }

  // ----- one way and the other -----

  /** A text with these lines, put in the image when they fit. */
  lemma SameImage(text: Text, lines: seq<Line>, base: word)
    requires FineText(text) && LinesOf(text) == Some(lines)
    ensures Interleaved(text, [], base) == Some(Filling(lines, base)) && A.AllWellFormed(lines)
    ensures A.AllWellFormed(Filling(lines, base)) && (A.Assembles(Filling(lines, base), base) <==> A.Assembles(lines, base))
    ensures A.Mixed(Filling(lines, base), base, 0, |lines|) == A.Mixed(lines, base, 0, |lines|)
    ensures Fits(lines, base) ==> (A.Assembles(lines, base) <==> Good(lines, base))
    ensures Good(lines, base) ==> A.Mixed(lines, base, 0, |lines|) == Image(lines, base, |lines|)
  {
    hide Interleaved, Filling, A.Assembles, A.Mixed, ExpandText, FineText, WellFormed, Image, ToSeq;
    var ls := ExpandText(text, NoLines).value;
    assert [] + ToSeq(ls) == lines;
    assert Filling([], base) == [] && SameText(text, text, [], base) by { FillingNone(base); }
    Agrees(text, text, End, [], ls, base);
    JoinedEnd(text);
    AtEnd(Emits([], ls, base), base);
    EmitsFilling([], ls, base);
    InterleavedFine(text, [], base);
    FillingFine(lines, base);
    FillingAssembles(lines, base);
    if Fits(lines, base) {
      A.AssemblesImage(lines, base);
    }
  }

  lemma {:induction false} EmitsFilling(out: seq<Line>, ls: Lines, base: word)
    ensures Emits(Filling(out, base), ls, base) == Filling(out + ToSeq(ls), base)
    decreases ls
  {
    hide Filling, KnownLine;
    match ls
    case NoLines => assert out + [] == out;
    case Put(l, rest) =>
      FillingOne(out, l, base);
      EmitsFilling(out + [l], rest, base);
      assert out + ToSeq(ls) == out + [l] + ToSeq(rest);
  }

  lemma FillingFine(lines: seq<Line>, base: word)
    requires A.AllWellFormed(Filling(lines, base))
    ensures A.AllWellFormed(lines)
  {
    hide KnownLine, WellFormed;
    forall k | 0 <= k < |lines|
      ensures WellFormed(lines[k])
    {
      assert Filling(lines, base)[k] == KnownLine(lines[k], lines[..k], base);
    }
  }

  lemma FillingNone(base: word)
    ensures Filling([], base) == []
  {
  }

  /**
   Every text that expands with its names left as names assembles line by line just as when it is
   expanded first: it gets through under the same condition, and with an image that fits the bytes
   are the image.
   */
  method AssembleSame(text: Text, org: word) returns (bytes: Option<seq<byte>>)
    requires FineText(text) && LinesOf(text).Some?
    ensures
      var lines, base := LinesOf(text).value, A.Base(org);
      && (bytes.Some? <==> A.Assembles(lines, base))
      && (Fits(lines, base) ==>
        (bytes.Some? <==> Good(lines, base)) && (bytes.Some? ==> bytes.value == Image(lines, base, |lines|)))
  {
    hide Interleaved, Filling, A.Assembles, A.Mixed, Outcome, FineText, WellFormed, Image, Fits;
    SameImage(text, LinesOf(text).value, A.Base(org));
    bytes := AssembleText(text, org);
  }

  /** `x:` at 0, `push [x]`: no overload takes the name, and PUSH takes the number 0. */
  function PushesLabel(): Text {
    Stands(GlobalLabel("x"), Uses(Do(PUSH, Args(Symbol("x", false), NoArgs)), End))
  }

  /** The same two lines the other way round. */
  function PushesAhead(): Text {
    Uses(Do(PUSH, Args(Symbol("x", false), NoArgs)), Stands(GlobalLabel("x"), End))
  }

  lemma PushTakesNoName(args: Args)
    requires args == Args(Symbol("x", false), NoArgs)
    ensures !IsNative(Do(PUSH, args)) && FirstMatch(Overloads(PUSH), args).NoMacros?
  {
    hide Accepts, FirstMatch, Overloads, NativeParams;
    S.PushEntry();
    S.Accepting();
  }

  lemma PushGoes(after: Lines, args: Args)
    requires args == Args(Symbol("x", false), NoArgs)
    ensures ExpandTo(DEPTH, Do(PUSH, args), after).None?
  {
    hide IsNative, FirstMatch, Overloads, NativeLine, ExpandBody;
    PushTakesNoName(args);
  }

  lemma OnlyInterleaved()
    ensures FineText(PushesLabel()) && LinesOf(PushesLabel()).None?
    ensures Interleaved(PushesLabel(), [], 0) == Some([GlobalLabel("x"), Op(I.PUSH(I.Imm(0)), Written)])
    ensures Interleaved(PushesAhead(), [], 0).None?
  {
    hide ExpandTo, Interleaved, IsNative, NativeLine, LastGlobal, KnownArgs;
    var l, args := GlobalLabel("x"), Args(Symbol("x", false), NoArgs);
    PushGoes(NoLines, args);
    XIsKnown();
    LineRound(l, PushesLabel().rest, [], 0);
    PushTakesZero();
    NativeRound(PushesLabel().rest.op, End, [l], 0);
    AtEnd([l, Op(I.PUSH(I.Imm(0)), Written)], 0);
    XIsUnknown();
    PushTakesNoName(args);
    MacroRound(PushesAhead().op, PushesAhead().rest, [], 0);
    assert [] + [l] == [l] && [l] + [Op(I.PUSH(I.Imm(0)), Written)] == [l, Op(I.PUSH(I.Imm(0)), Written)];
  }

  lemma XIsKnown()
    ensures KnownArgs(Args(Symbol("x", false), NoArgs), [GlobalLabel("x")], 0) == Args(Number(0), NoArgs)
  {
    var out := [GlobalLabel("x")];
    assert LastGlobal(out, "x", 1) == Some(0) && Offset(out, 0) == 0;
    assert Early(out, 0, "x") == Some(0);
    assert KnownArgs(NoArgs, out, 0) == NoArgs;
  }

  lemma XIsUnknown()
    ensures var args := Args(Symbol("x", false), NoArgs); KnownArgs(args, [], 0) == args
  {
    assert Early([], 0, "x") == None;
    assert KnownArgs(NoArgs, [], 0) == NoArgs;
  }

  lemma PushTakesZero()
    ensures
      var op := Do(PUSH, Args(Number(0), NoArgs));
      IsNative(op) && NativeLine(op) == Some(Op(I.PUSH(I.Imm(0)), Written))
  {
    hide Overloads;
  }
}
