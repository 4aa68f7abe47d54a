/**
 Source text to running machine: expansion with assembly, loading and execution in one go.
 */
module Pipeline {
  import opened Words
  import opened Isa
  import opened Source
  import opened Machine
  import opened Simulation
  import opened Refinement
  import opened Emulator
  import A = Assembler
  import Interleaving
  import X = Expand

  // ----- loading -----

  /** The n bytes from a up are ordinary memory. */
  ghost predicate Storage(s: State, a: int, n: nat) {
    0 <= a && a + n <= ADDR_MB && forall x: word | a <= x < a + n :: Locate(s, x) != Absent
  }

  lemma PokeOne(s: State, a: word, v: byte, x: word, n: nat)
    requires !s.writeProtect && Storage(s, a, n) && n > 0
    ensures var s' := Poke(s, a, v);
      && !s'.writeProtect && Storage(s', a + 1, n - 1) && Peek(s', a) == v
      && s'.(mem := s.mem, banks := s.banks) == s
  {
    PokeHere(s, a, v);
    var s' := Poke(s, a, v);
    assert forall x: word {:trigger Locate(s', x)} :: Locate(s', x) == Locate(s, x);
  }

  /** Bytes stored one after the other can be read back. */
  lemma {:induction false} PokedBytes(s: State, a: word, bytes: seq<byte>, x: word)
    requires !s.writeProtect && Storage(s, a, |bytes|) && x < ADDR_MB
    ensures var s' := PokeAll(s, a, bytes);
      && Peek(s', x) == (if a <= x < a + |bytes| then bytes[x - a] else Peek(s, x))
      && s'.(mem := s.mem, banks := s.banks) == s
    decreases |bytes|
  {
    hide Peek, Poke, Locate;
    if bytes != [] {
      PokeOne(s, a, bytes[0], x, |bytes|);
      PokedBytes(Poke(s, a, bytes[0]), a + 1, bytes[1..], x);
      if x != a {
        PokeElsewhere(s, a, bytes[0], x);
      }
    }
  }

  lemma ProtectPeek(s: State, wp: bool, x: word)
    ensures Peek(s.(writeProtect := wp), x) == Peek(s, x)
  {
  }

  /** A program that has been loaded is in memory. */
  lemma LoadLoads(s: State, lines: seq<Line>, base: word)
    requires Good(lines, base) && Storage(s, base, Offset(lines, |lines|))
    ensures Loaded(PokeAll(s.(writeProtect := false), base, Image(lines, base, |lines|)).(writeProtect := s.writeProtect), lines, base)
  {
    hide Peek, Fits, WellFormed, Bound, Image, PokeAll;
    var s0 := s.(writeProtect := false);
    var bytes := Image(lines, base, |lines|);
    var s1 := PokeAll(s0, base, bytes);
    assert forall x: word {:trigger Locate(s0, x)} :: Locate(s0, x) == Locate(s, x);
    assert Storage(s0, base, |bytes|);
    forall n | 0 <= n < |bytes|
      ensures Peek(s1.(writeProtect := s.writeProtect), base + n) == bytes[n]
    {
      PokedBytes(s0, base, bytes, base + n);
      ProtectPeek(s1, s.writeProtect, base + n);
    }
  }

  // ----- the whole way -----

  /** The machine with the program at base, about to run its first instruction. */
  function Booted(s: State, lines: seq<Line>, base: word): State
    requires Good(lines, base)
  {
    PokeAll(s.(writeProtect := false), base, Image(lines, base, |lines|)).(writeProtect := s.writeProtect, pc := base)
  }

  /** The run of a booted program is the run of its symbolic form, while that keeps clear of the image. */
  ghost predicate RunsAs(start: State, s': State, lines: seq<Line>, base: word, n: nat)
    requires Good(lines, base)
  {
    && s' == Run(Booted(start, lines, base), n)
    && (Storage(start, base, Offset(lines, |lines|)) && Follows(Booted(start, lines, base), lines, base, n) ==>
          s' == SymRun(CodeOf(lines, base), Booted(start, lines, base), n) && Loaded(s', lines, base))
  }

  lemma BootedRuns(start: State, lines: seq<Line>, base: word, n: nat)
    requires Good(lines, base)
    ensures RunsAs(start, Run(Booted(start, lines, base), n), lines, base, n)
  {
    hide Fits, WellFormed, Bound, Peek, PokeAll, Run, Image, Follows, SymRun, Loaded, CodeOf, Storage;
    if Storage(start, base, Offset(lines, |lines|)) && Follows(Booted(start, lines, base), lines, base, n) {
      LoadLoads(start, lines, base);
      StillLoaded(PokeAll(start.(writeProtect := false), base, Image(lines, base, |lines|)).(writeProtect := start.writeProtect), lines, base);
      ImageSimulates(Booted(start, lines, base), lines, base, n);
    }
  }

  /** Loads bytes and runs n steps from the first of them. */
  method Start(cpu: Jdh8, bytes: seq<byte>, base: word, n: nat)
    requires cpu.Valid()
    modifies cpu.Buffers()
    ensures cpu.Now() == Run(PokeAll(old(cpu.Now()).(writeProtect := false), base, bytes).(writeProtect := old(cpu.Now()).writeProtect, pc := base), n)
  {
    hide PokeAll, Run;
    cpu.Load(bytes, base);
    cpu.SetPc(base);
    cpu.RunSteps(n);
  }

  /** The lines that are emitted when a text is assembled, if it gets that far. */
  function EmittedLines(text: X.Text, org: word): Option<seq<Line>> {
    Interleaving.Interleaved(text, [], A.Base(org))
  }

  /** assemble(): every text, line by line, and what becomes of it. */
  method Build(text: X.Text, org: word) returns (bytes: Option<seq<byte>>)
    requires X.FineText(text)
    ensures EmittedLines(text, org).None? ==> bytes.None?
    ensures EmittedLines(text, org).Some? ==>
      var lines, base := EmittedLines(text, org).value, A.Base(org);
      (bytes.Some? <==> A.Assembles(lines, base))
      && (Fits(lines, base) ==>
        (bytes.Some? <==> Good(lines, base)) && (bytes.Some? ==> bytes.value == Image(lines, base, |lines|)))
  {
    hide Fits, Good, Image, Interleaving.Interleaved, A.Assembles, A.Mixed, X.FineText;
    bytes := Interleaving.AssembleText(text, org);
    if EmittedLines(text, org).Some? && Fits(EmittedLines(text, org).value, A.Base(org)) {
      A.AssemblesImage(EmittedLines(text, org).value, A.Base(org));
    }
  }

  /**
   Assembles a text, loads the image and runs n steps. Whatever the names, with an image that fits it
   gets through exactly when every reference has a label; and as long as the program keeps clear of
   its own image, the n steps are n operations of the symbolic program.
   */
  method Boot(cpu: Jdh8, text: X.Text, org: word, n: nat) returns (ok: bool)
    requires cpu.Valid() && X.FineText(text)
    modifies cpu.Buffers()
    ensures !ok ==> cpu.Now() == old(cpu.Now())
    ensures EmittedLines(text, org).None? ==> !ok
    ensures EmittedLines(text, org).Some? ==>
      var lines, base := EmittedLines(text, org).value, A.Base(org);
      Fits(lines, base) ==>
        (ok <==> Good(lines, base)) && (ok ==> RunsAs(old(cpu.Now()), cpu.Now(), lines, base, n))
  {
    hide Fits, Good, PokeAll, Run, Image, EmittedLines, X.FineText, A.Assembles, RunsAs;
    var bytes := Build(text, org);
    if bytes.None? {
      return false;
    }
    ok := true;
    ghost var start := cpu.Now();
    Start(cpu, bytes.value, A.Base(org), n);
    if EmittedLines(text, org).Some? && Good(EmittedLines(text, org).value, A.Base(org)) {
      BootedRuns(start, EmittedLines(text, org).value, A.Base(org), n);
    }
  }

  lemma StillLoaded(s: State, lines: seq<Line>, base: word)
    requires Good(lines, base) && Loaded(s, lines, base)
    ensures Loaded(s.(pc := base), lines, base)
  {
    hide Peek, Fits, WellFormed, Bound, Image;
    var image := Image(lines, base, |lines|);
    forall n | 0 <= n < |image|
      ensures Peek(s.(pc := base), base + n) == image[n]
    {
      assert Peek(s, base + n) == image[n];
      PeekSame(s, s.(pc := base), base + n);
    }
  }
}
