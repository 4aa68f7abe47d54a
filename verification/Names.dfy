/**
 What a program's author means by a reference, and when the assembler takes it so. A dot on a
 reference is not looked at when labels are searched (asm/asm.c, resolve_label): a global label of
 the same name is preferred, wherever it stands.
 */
module Names {
  import opened Words
  import opened Isa
  import opened Source
  import opened Assembler

  // ----- what is meant -----

  function FindGlobal(lines: seq<Line>, name: string, from: nat): (r: Option<nat>)
    requires from <= |lines|
    ensures r.Some? ==> from <= r.value < |lines| && lines[r.value] == GlobalLabel(name)
    ensures forall n | from <= n < (if r.Some? then r.value else |lines|) :: lines[n] != GlobalLabel(name)
    decreases |lines| - from
  {
    if from == |lines| then None
    else if lines[from] == GlobalLabel(name) then Some(from)
    else FindGlobal(lines, name, from + 1)
  }

  /** A local label before the next global one. */
  function FindLocal(lines: seq<Line>, name: string, from: nat): (r: Option<nat>)
    requires from <= |lines|
    ensures r.Some? ==> from <= r.value < |lines| && lines[r.value] == LocalLabel(name)
    ensures r.Some? ==> forall n | from <= n < r.value :: !lines[n].GlobalLabel?
    ensures forall n | from <= n < |lines| && lines[n] == LocalLabel(name) && (r.Some? ==> n < r.value) ::
      exists m :: from <= m < n && lines[m].GlobalLabel?
    decreases |lines| - from
  {
    if from == |lines| || lines[from].GlobalLabel? then None
    else if lines[from] == LocalLabel(name) then Some(from)
    else FindLocal(lines, name, from + 1)
  }

  /** `name` is the global label of that name, `.name` the local one under the global label in force. */
  function Intended(lines: seq<Line>, k: nat, name: string, dotted: bool): (r: Option<nat>)
    requires k <= |lines|
    ensures r.Some? ==> r.value < |lines| && lines[r.value] == if dotted then LocalLabel(name) else GlobalLabel(name)
  {
    if !dotted then FindGlobal(lines, name, 0)
    else if Scope(lines, k) < 0 then None
    else FindLocal(lines, name, Scope(lines, k) + 1)
  }

  /** Global labels are unique, and local ones under their global label. */
  ghost predicate UniqueNames(lines: seq<Line>) {
    && (forall i, j | 0 <= i < j < |lines| && lines[i].GlobalLabel? :: lines[j] != lines[i])
    && (forall i, j | 0 <= i < j < |lines| && lines[i].LocalLabel? && lines[j] == lines[i] :: Scope(lines, i) != Scope(lines, j))
  }

  /** A sub label of that name has no global one to stand in its way. */
  ghost predicate NoGlobal(lines: seq<Line>, name: string) {
    forall n | 0 <= n < |lines| :: lines[n] != GlobalLabel(name)
  }

  /** Labels are unique, and no name is used both with and without a dot. */
  ghost predicate GoodNames(lines: seq<Line>) {
    UniqueNames(lines) && forall i, j | 0 <= i < |lines| && 0 <= j < |lines| :: Apart(lines[i], lines[j])
  }

  /** Not one of them with a dot and the other without, under the same name. */
  predicate Apart(l: Line, m: Line) {
    match (Mention(l), Mention(m))
    case (Some(p), Some(q)) => p.0 == q.0 ==> p.1 == q.1
    case _ => true
  }

  /** The name on a line, and whether it is written with a dot. */
  function Mention(l: Line): Option<(string, bool)> {
    match l
    case GlobalLabel(name) => Some((name, false))
    case LocalLabel(name) => Some((name, true))
    case Op(_, Ref(name, dotted)) => Some((name, dotted))
    case _ => None
  }

  // ----- what is taken, when names are unique -----

  lemma ScopeIs(lines: seq<Line>, a: nat, n: nat)
    requires a < n <= |lines| && lines[a].GlobalLabel? && forall m | a < m < n :: !lines[m].GlobalLabel?
    ensures Scope(lines, n) == a
  {
  }

  /** A sub label in the scope of line k is the one that a dotted reference there names. */
  lemma FindsLocal(lines: seq<Line>, k: nat, n: nat)
    requires UniqueNames(lines) && k <= |lines| && n < |lines| && lines[n].LocalLabel?
    requires Scope(lines, k) == Scope(lines, n) >= 0
    ensures FindLocal(lines, lines[n].name, Scope(lines, k) + 1) == Some(n)
  {
    hide Scope, FindLocal;
    var a := Scope(lines, k);
    var r := FindLocal(lines, lines[n].name, a + 1);
    assert forall m | a < m < n :: !lines[m].GlobalLabel?;
    assert lines[n] == LocalLabel(lines[n].name);
    assert r.Some? && r.value <= n;
    ScopeIs(lines, a, r.value);
    assert lines[r.value] == lines[n];
  }

  /** With or without a dot, a name stands for its global label, and only failing that for a local one. */
  lemma TakesGlobalFirst(lines: seq<Line>, k: nat, name: string)
    requires UniqueNames(lines) && k <= |lines|
    ensures Binding(lines, k, name) ==
      var global := Intended(lines, k, name, false);
      if global.Some? then global else Intended(lines, k, name, true)
  {
    hide Scope, FindLocal, LastGlobal, LastLocal;
    var g := FindGlobal(lines, name, 0);
    if g.Some? {
      assert lines[g.value] == GlobalLabel(name);
    } else if Scope(lines, k) >= 0 {
      var r, late := FindLocal(lines, name, Scope(lines, k) + 1), LastLocal(lines, name, Scope(lines, k), |lines|);
      if r.Some? {
        ScopeIs(lines, Scope(lines, k), r.value);
        assert IsLocal(lines, name, Scope(lines, k), r.value);
      }
      if late.Some? {
        FindsLocal(lines, k, late.value);
      }
    }
  }

  /** What a name stands for is what is meant exactly when it has a dot just where it has no global label. */
  lemma MeantExactly(lines: seq<Line>, k: nat, name: string, dotted: bool)
    requires UniqueNames(lines) && k <= |lines| && Binding(lines, k, name).Some?
    ensures Binding(lines, k, name) == Intended(lines, k, name, dotted) <==> dotted == NoGlobal(lines, name)
  {
    hide Scope, FindLocal, Binding, UniqueNames;
    TakesGlobalFirst(lines, k, name);
    var g := FindGlobal(lines, name, 0);
    if g.Some? {
      assert lines[g.value] == GlobalLabel(name);
    }
  }

  // ----- when the assembler takes a reference as it is meant -----

  function Place(lines: seq<Line>, base: word, n: nat): word
    requires n <= |lines|
  {
    U16(base + Offset(lines, n))
  }

  /**
   A reference `.x` with a label `.x` in scope ends up with the address of that label exactly when
   there is no global label x anywhere in the program, or it has the same address.
   */
  lemma DottedExact(lines: seq<Line>, base: word, k: nat)
    requires UniqueNames(lines) && k < |lines| && Refers(lines[k]) && lines[k].x.dotted
    requires Intended(lines, k, lines[k].x.name, true).Some?
    ensures
      var n, global := Intended(lines, k, lines[k].x.name, true).value, FindGlobal(lines, lines[k].x.name, 0);
      (Final(lines, base, k) == Some(Place(lines, base, n)))
      <==> (global.None? || Place(lines, base, global.value) == Place(lines, base, n))
  {
    hide Final, Binding, FindGlobal, FindLocal, LastGlobal, LastLocal, Scope, Offset, U16, UniqueNames;
    FinalIsTaken(lines, base, k);
    TakesGlobalFirst(lines, k, lines[k].x.name);
  }

  /** A reference `x` with a global label x gets its address, whatever local labels there are. */
  lemma PlainExact(lines: seq<Line>, base: word, k: nat)
    requires UniqueNames(lines) && k < |lines| && Refers(lines[k]) && FindGlobal(lines, lines[k].x.name, 0).Some?
    ensures Final(lines, base, k) == Some(Place(lines, base, FindGlobal(lines, lines[k].x.name, 0).value))
  {
    hide Final, Binding, FindGlobal, FindLocal, LastGlobal, LastLocal, Scope, Offset, U16, UniqueNames;
    FinalIsTaken(lines, base, k);
    TakesGlobalFirst(lines, k, lines[k].x.name);
  }

  /**
   A reference that means no label is accepted all the same when the name has a label of the other
   kind: `x` stands for `.x` in scope, `.x` for a global label x. It is refused exactly when there
   is neither.
   */
  lemma Unmeant(lines: seq<Line>, base: word, k: nat)
    requires UniqueNames(lines) && k < |lines| && Refers(lines[k])
    requires Intended(lines, k, lines[k].x.name, lines[k].x.dotted).None?
    ensures
      var other := Intended(lines, k, lines[k].x.name, !lines[k].x.dotted);
      Final(lines, base, k) == if other.Some? then Some(Place(lines, base, other.value)) else None
  {
    hide Final, Binding, FindGlobal, FindLocal, LastGlobal, LastLocal, Scope, Offset, U16, UniqueNames;
    FinalIsTaken(lines, base, k);
    TakesGlobalFirst(lines, k, lines[k].x.name);
  }

  lemma SameKind(lines: seq<Line>, k: nat, n: nat)
    requires GoodNames(lines) && k < |lines| && Refers(lines[k])
    requires n < |lines| && lines[n].Labels() && lines[n].name == lines[k].x.name
    ensures lines[n].LocalLabel? == lines[k].x.dotted
  {
    assert Apart(lines[n], lines[k]);
  }

  /** When no name is used both ways, every reference is taken as it is meant, and refused if it means nothing. */
  lemma FinalIsMeant(lines: seq<Line>, base: word, k: nat)
    requires GoodNames(lines) && k < |lines| && Refers(lines[k])
    ensures
      var meant := Intended(lines, k, lines[k].x.name, lines[k].x.dotted);
      Final(lines, base, k) == if meant.Some? then Some(Place(lines, base, meant.value)) else None
  {
    hide Final, Binding, FindGlobal, FindLocal, LastGlobal, LastLocal, Scope, Offset, U16, UniqueNames;
    var name, dotted := lines[k].x.name, lines[k].x.dotted;
    FinalIsTaken(lines, base, k);
    TakesGlobalFirst(lines, k, name);
    var other := Intended(lines, k, name, !dotted);
    if other.Some? {
      SameKind(lines, k, other.value);
    }
  }

  // ----- such a program -----

  /** x, a byte, y, .x, and a jump target [.x] that is to be the label on the line before. */
  function Shadowed(): seq<Line> {
    [GlobalLabel("x"), Data([0]), GlobalLabel("y"), LocalLabel("x"), Op(LDA(0), Ref("x", true))]
  }

  /** The reference goes to the global label at 0, not to `.x` at 1. */
  lemma ShadowedMissed()
    ensures var lines := Shadowed();
      && UniqueNames(lines) && Intended(lines, 4, "x", true) == Some(3)
      && Final(lines, 0, 4) == Some(0) && Place(lines, 0, 3) == 1
  {
    hide Final, Binding;
    var lines := Shadowed();
    assert Scope(lines, 3) == 2 && Scope(lines, 4) == 2;
    assert lines[3] == LocalLabel("x");
    assert FindLocal(lines, "x", 3) == Some(3);
    assert FindGlobal(lines, "x", 0) == Some(0);
    assert Offset(lines, 1) == 0 && Offset(lines, 2) == 1 && Offset(lines, 3) == 1;
    DottedExact(lines, 0, 4);
    FinalIsTaken(lines, 0, 4);
    TakesGlobalFirst(lines, 4, "x");
  }
}
