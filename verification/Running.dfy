/**
 A routine on the machine: which state a caller must provide, and what a run of the emulator
 leaves behind, stated on the machine alone.
 */
module Running {
  import opened Words
  import opened Isa
  import opened Machine
  import opened Source
  import opened Simulation
  import opened Core
  import opened Blocks
  import opened Refinement
  import opened Linking

  /** The cells lent to a routine: ordinary memory, clear of the program, and writable unless only read. */
  ghost predicate Lendable(s: State, cells: set<word>, readOnly: set<word>, lines: seq<Line>, base: word) {
    forall x | x in cells ::
      Ordinary(s, x) && (x !in readOnly ==> !Refused(s, x) && !(base <= x < base + Offset(lines, |lines|)))
  }

  function CoreOf(s: State, cells: set<word>, readOnly: set<word>): Core {
    Core(s.g, s.sp, s.pc, map x | x in cells :: Peek(s, x), readOnly)
  }

  /** No physical byte of memory has changed but those at the given addresses. */
  ghost predicate Untouched(s: State, s': State, written: set<int>) {
    && s'.mb == s.mb && s'.status == s.status && s'.io == s.io && s'.writeProtect == s.writeProtect
    && s'.banks.Keys == s.banks.Keys
    && forall c: Cell | ValidCell(s, c) && !c.Special? && !Hits(s, c, written) :: Read(s', c) == Read(s, c)
  }

  ghost predicate Hits(s: State, c: Cell, written: set<int>) {
    exists x: word :: x in written && c == Locate(s, x)
  }

  /** The machine has the program in memory and is about to run a routine on the cells lent to it. */
  ghost predicate Ready(s: State, lines: seq<Line>, base: word, cells: set<word>, readOnly: set<word>) {
    Good(lines, base) && Loaded(s, lines, base) && !Halted(s) && Lendable(s, cells, readOnly, lines, base)
  }

  lemma ReadyModels(s: State, lines: seq<Line>, base: word, cells: set<word>, readOnly: set<word>)
    requires Ready(s, lines, base, cells, readOnly)
    ensures var h := CoreOf(s, cells, readOnly);
      Models(s, h) && ClearOfImage(h, lines, base) && h.ram.Keys == cells
  {
    hide Peek, Good, Loaded, Bit;
  }

  /** What a routine does to its core, the emulator does to the machine. */
  lemma RunsOnMachine(s: State, lines: seq<Line>, base: word, cells: set<word>, readOnly: set<word>, h': Core, written: set<int>)
    returns (n: nat)
    requires Ready(s, lines, base, cells, readOnly)
    requires Reaches(CodeOf(lines, base), CoreOf(s, cells, readOnly), h')
    requires OnlyIn(written, CoreOf(s, cells, readOnly).ram, h'.ram)
    ensures var s' := Run(s, n);
      && s'.g == h'.g && s'.sp == h'.sp && s'.pc == h'.pc && !Halted(s')
      && (forall x | x in cells :: Peek(s', x) == h'.ram[x])
      && Untouched(s, s', written) && Loaded(s', lines, base)
  {
    hide Peek, Good, Loaded, Bit, Reaches, Ready, Run, CodeOf, Read, Locate;
    var h := CoreOf(s, cells, readOnly);
    ReadyModels(s, lines, base, cells, readOnly);
    assert Good(lines, base) && Loaded(s, lines, base) by { ReadyLoaded(s, lines, base, cells, readOnly); }
    n := RoutineOnMachine(s, h, h', lines, base);
    var s' := Run(s, n);
    forall c: Cell | ValidCell(s, c) && !c.Special? && !Hits(s, c, written)
      ensures Read(s', c) == Read(s, c)
    {
      if Lent(s, h, c) {
        var x :| x in h.ram && x !in h.readOnly && c == Locate(s, x);
        assert x !in written;
        assert Peek(s, x) == h.ram[x] == h'.ram[x] == Peek(s', x);
        SamePlace(s, s', x);
      }
    }
  }

  lemma ReadyLoaded(s: State, lines: seq<Line>, base: word, cells: set<word>, readOnly: set<word>)
    requires Ready(s, lines, base, cells, readOnly)
    ensures Good(lines, base) && Loaded(s, lines, base)
  {
  }

  lemma SamePlace(s: State, s': State, x: word)
    requires s'.mb == s.mb && s'.banks.Keys == s.banks.Keys
    ensures Peek(s, x) == Read(s, Locate(s, x)) && Peek(s', x) == Read(s', Locate(s, x))
  {
  }
}
