/** Nested calls on the machine: what module Calls says of a core, said of the emulator. */
module Nesting {
  import opened Words
  import opened Isa
  import opened Source
  import opened Machine
  import opened Simulation
  import opened Core
  import opened Blocks
  import opened Calls
  import opened Running

  /** The lent cells at or below the floor. */
  function Below(cells: set<word>, floor: int): set<int> {
    set x: int | x in cells && x <= floor
  }

  lemma OnlyBelow(cells: set<word>, floor: int, h: Core, h': Core)
    requires h.ram.Keys == cells && Above(floor, h, h')
    ensures OnlyIn(Below(cells, floor), h.ram, h'.ram)
  {
  }

  /**
   A run with any tree of calls, made by the emulator from an assembled program: a call resumes at
   the instruction right behind it with the stack pointer it was made with, and no physical byte
   has changed but lent ones at or below the floor.
   */
  lemma CallsNestOnMachine(s: State, lines: seq<Line>, base: word, cells: set<word>, readOnly: set<word>, h': Core, tree: Tree, floor: int)
    returns (n: nat)
    requires Ready(s, lines, base, cells, readOnly)
    requires Behaves(CodeOf(lines, base), CoreOf(s, cells, readOnly), h', tree, floor)
    ensures
      var s' := Run(s, n);
      && s'.g == h'.g && s'.sp == h'.sp && s'.pc == h'.pc && !Halted(s')
      && (tree.Calling? ==> s'.pc == tree.ret && s'.sp == s.sp && tree.ret in {s.pc + 9, s.pc + 10})
      && (forall x | x in cells && x > floor :: Peek(s', x) == Peek(s, x))
      && Untouched(s, s', Below(cells, floor)) && Loaded(s', lines, base)
  {
    hide Peek, Fits, WellFormed, Bound, Loaded, Lendable, Behaves, Reaches, Run, CodeOf, Untouched, Halted, Below;
    var h := CoreOf(s, cells, readOnly);
    CallsNest(CodeOf(lines, base), h, h', tree, floor);
    OnlyBelow(cells, floor, h, h');
    n := RunsOnMachine(s, lines, base, cells, readOnly, h', Below(cells, floor));
  }
}
