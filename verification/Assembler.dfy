/**
 The back end of the assembler (asm/asm.c): one pass that emits bytes, resolves the labels it
 already knows, leaves two-byte holes for the others, and fills the holes at the end.
 */
module Assembler {
  import opened Words
  import opened Isa
  import opened Source

  /** Value of the origin that means it was never set. */
  const ORG_UNSET: word := 0xFFFF

  function Base(org: word): word { if org == ORG_UNSET then 0 else org }

  /** A label as the assembler stores it; the list is kept in order of definition. */
  datatype Lab = Lab(name: string, sub: bool, value: word)

  /** A hole in the output, and the global label in force where it was left. */
  datatype Patch = Patch(name: string, parent: int, location: nat)

  // ----- how the assembler looks labels up -----

  /** label_parent: the newest label at or before l that is not a sub label. */
  function ParentOf(labels: seq<Lab>, l: int): (p: int)
    requires -1 <= l < |labels|
    ensures -1 <= p <= l
    decreases l + 1
  {
    if l < 0 || !labels[l].sub then l else ParentOf(labels, l - 1)
  }

  predicate Matches(labels: seq<Lab>, name: string, from: int, l: int)
    requires 0 <= l < |labels|
  {
    labels[l].name == name && (!labels[l].sub || ParentOf(labels, l) == from)
  }

  /** The newest match below n, or -1. */
  function Lookup(labels: seq<Lab>, name: string, from: int, n: nat): (l: int)
    requires n <= |labels|
    ensures -1 <= l < n
    ensures l >= 0 ==> Matches(labels, name, from, l)
    ensures forall m | l < m < n :: !Matches(labels, name, from, m)
  {
    if n == 0 then -1
    else if Matches(labels, name, from, n - 1) then n - 1
    else Lookup(labels, name, from, n - 1)
  }

  /** resolve_label's starting point: no label means the newest one. */
  function Start(labels: seq<Lab>, from: int): int {
    if from < 0 then |labels| - 1 else from
  }

  // ----- what the assembler holds after k lines -----

  function LabOf(lines: seq<Line>, base: word, k: nat): Lab
    requires k < |lines| && lines[k].Labels()
  {
    Lab(lines[k].name, lines[k].LocalLabel?, U16(base + Offset(lines, k)))
  }

  function LabelsOf(lines: seq<Line>, base: word, k: nat): seq<Lab>
    requires k <= |lines|
  {
    if k == 0 then []
    else LabelsOf(lines, base, k - 1) + if lines[k - 1].Labels() then [LabOf(lines, base, k - 1)] else []
  }

  /** The global label in force after k lines. */
  function ParentAfter(lines: seq<Line>, base: word, k: nat): int
    requires k <= |lines|
  {
    ParentOf(LabelsOf(lines, base, k), |LabelsOf(lines, base, k)| - 1)
  }

  predicate Refers(l: Line) { l.Op? && l.x.Ref? }

  /** What a name resolves to among the labels of the first k lines. */
  function ValueAfter(lines: seq<Line>, base: word, k: nat, name: string, parent: int): Option<word>
    requires k <= |lines|
  {
    var labels := LabelsOf(lines, base, k);
    var l := Lookup(labels, name, Start(labels, parent), |labels|);
    if l < 0 then None else Some(labels[l].value)
  }

  /** What the reference on line k resolves to when the line is first seen. */
  function SeenEarly(lines: seq<Line>, base: word, k: nat): Option<word>
    requires k < |lines|
  {
    if Refers(lines[k]) then ValueAfter(lines, base, k, lines[k].x.name, -1) else None
  }

  /** What it resolves to at the end, if a patch was left for it. */
  function SeenLate(lines: seq<Line>, base: word, k: nat): Option<word>
    requires k < |lines|
  {
    if Refers(lines[k]) then ValueAfter(lines, base, |lines|, lines[k].x.name, ParentAfter(lines, base, k)) else None
  }

  predicate Pending(lines: seq<Line>, base: word, k: nat)
    requires k < |lines|
  {
    Refers(lines[k]) && SeenEarly(lines, base, k).None?
  }

  function Final(lines: seq<Line>, base: word, k: nat): Option<word>
    requires k < |lines|
  {
    if Pending(lines, base, k) then SeenLate(lines, base, k) else SeenEarly(lines, base, k)
  }

  function PatchOf(lines: seq<Line>, base: word, k: nat): Patch
    requires k < |lines| && Pending(lines, base, k)
  {
    Patch(lines[k].x.name, ParentAfter(lines, base, k), Offset(lines, k) + 1)
  }

  function PatchLines(lines: seq<Line>, base: word, k: nat): (ns: seq<nat>)
    requires k <= |lines|
    ensures forall j | 0 <= j < |ns| :: ns[j] < k && Pending(lines, base, ns[j])
    ensures forall i, j | 0 <= i < j < |ns| :: ns[i] < ns[j]
    ensures forall n | 0 <= n < k && Pending(lines, base, n) :: n in ns
  {
    if k == 0 then []
    else PatchLines(lines, base, k - 1) + if Pending(lines, base, k - 1) then [k - 1] else []
  }

  function PatchesOf(lines: seq<Line>, base: word, k: nat): (ps: seq<Patch>)
    requires k <= |lines|
    ensures |ps| == |PatchLines(lines, base, k)|
    ensures forall j | 0 <= j < |ps| :: ps[j] == PatchOf(lines, base, PatchLines(lines, base, k)[j])
  {
    if k == 0 then []
    else PatchesOf(lines, base, k - 1) + if Pending(lines, base, k - 1) then [PatchOf(lines, base, k - 1)] else []
  }

  /** The two bytes left in a hole, read as a word. */
  const HOLE: word := 0xF0F0

  /** `(($ + ahead) > 8)` or `(($ + ahead) & 0xFF)` on line k. */
  function HereValue(lines: seq<Line>, base: word, k: nat, ahead: nat, high: bool): nat
    requires k <= |lines|
  {
    var w := U16(base + Offset(lines, k)) + ahead;
    if high then w / 256 else w % 256
  }

  /** The instruction on line k when its reference stands for v. */
  function Filled(lines: seq<Line>, base: word, k: nat, v: Option<word>): (i: Native)
    requires k < |lines| && lines[k].Op? && WellFormed(lines[k])
    ensures Size(i) == Size(lines[k].i)
  {
    match lines[k].x
    case Written => lines[k].i
    case Ref(_, _) => WithAddress(lines[k].i, if v.Some? then v.value else HOLE)
    case Here(ahead, high) => PUSH(Imm(U8(HereValue(lines, base, k, ahead, high))))
  }

  function Emitted(lines: seq<Line>, base: word, k: nat, v: Option<word>): (s: seq<byte>)
    requires k < |lines| && WellFormed(lines[k])
    ensures |s| == SizeOf(lines[k])
  {
    match lines[k]
    case Op(_, _) => Encode(Filled(lines, base, k, v))
    case Data(bytes) => bytes
    case _ => []
  }

  ghost predicate AllWellFormed(lines: seq<Line>) {
    forall k | 0 <= k < |lines| :: WellFormed(lines[k])
  }

  /** The output when the holes of line `cut` and of all later lines are filled. */
  function Mixed(lines: seq<Line>, base: word, cut: nat, k: nat): (s: seq<byte>)
    requires k <= |lines| && AllWellFormed(lines)
    ensures |s| == Offset(lines, k)
  {
    if k == 0 then [] else
      Mixed(lines, base, cut, k - 1)
      + Emitted(lines, base, k - 1, if k - 1 >= cut then Final(lines, base, k - 1) else SeenEarly(lines, base, k - 1))
  }

  // ----- labels and lines -----

  lemma {:induction false} LabelsPrefix(lines: seq<Line>, base: word, j: nat, k: nat)
    requires j <= k <= |lines|
    ensures LabelsOf(lines, base, j) <= LabelsOf(lines, base, k)
    decreases k
  {
    if j < k {
      LabelsPrefix(lines, base, j, k - 1);
    }
  }

  /** The label on line n comes after all those on earlier lines. */
  lemma LabelAt(lines: seq<Line>, base: word, n: nat, k: nat)
    requires n < k <= |lines| && lines[n].Labels()
    ensures |LabelsOf(lines, base, n)| < |LabelsOf(lines, base, k)|
    ensures LabelsOf(lines, base, k)[|LabelsOf(lines, base, n)|] == LabOf(lines, base, n)
  {
    LabelsPrefix(lines, base, n + 1, k);
  }

  lemma {:induction false} LineOfLabel(lines: seq<Line>, base: word, k: nat, l: nat) returns (n: nat)
    requires k <= |lines| && l < |LabelsOf(lines, base, k)|
    ensures n < k && lines[n].Labels() && |LabelsOf(lines, base, n)| == l
    ensures LabelsOf(lines, base, k)[l] == LabOf(lines, base, n)
    decreases k
  {
    if l < |LabelsOf(lines, base, k - 1)| {
      n := LineOfLabel(lines, base, k - 1, l);
    } else {
      n := k - 1;
    }
  }

  lemma {:induction false} ParentPrefix(labels: seq<Lab>, more: seq<Lab>, l: int)
    requires labels <= more && -1 <= l < |labels|
    ensures ParentOf(labels, l) == ParentOf(more, l)
    decreases l + 1
  {
    if l >= 0 {
      ParentPrefix(labels, more, l - 1);
    }
  }

  /** The place in the label list of the global label in force on line k, or -1. */
  function ScopePlace(lines: seq<Line>, base: word, k: nat): int
    requires k <= |lines|
  {
    if Scope(lines, k) < 0 then -1 else |LabelsOf(lines, base, Scope(lines, k))|
  }

  /** label_parent of the newest label is the global label in force. */
  lemma {:induction false} NewestParent(lines: seq<Line>, base: word, k: nat)
    requires k <= |lines|
    ensures var labels := LabelsOf(lines, base, k);
      ParentOf(labels, |labels| - 1) == ScopePlace(lines, base, k)
    decreases k
  {
    if k != 0 {
      NewestParent(lines, base, k - 1);
      var before, labels := LabelsOf(lines, base, k - 1), LabelsOf(lines, base, k);
      if lines[k - 1].LocalLabel? {
        ParentPrefix(before, labels, |before| - 1);
      } else if !lines[k - 1].Labels() {
        assert labels == before;
      }
    }
  }

  /** label_parent of a sub label is the global label in force where it is defined. */
  lemma ParentOfLocal(lines: seq<Line>, base: word, n: nat, k: nat)
    requires n < k <= |lines| && lines[n].LocalLabel?
    ensures |LabelsOf(lines, base, n)| < |LabelsOf(lines, base, k)|
    ensures ParentOf(LabelsOf(lines, base, k), |LabelsOf(lines, base, n)|) == ScopePlace(lines, base, n)
    ensures ScopePlace(lines, base, n) < |LabelsOf(lines, base, n)|
  {
    LabelAt(lines, base, n, k);
    NewestParent(lines, base, n);
    LabelsPrefix(lines, base, n, k);
    var before := LabelsOf(lines, base, n);
    ParentPrefix(before, LabelsOf(lines, base, k), |before| - 1);
  }

  // ----- the two lookups -----

  /** A global label that is defined at all is found by its name, wherever the search starts. */
  lemma GlobalMatches(lines: seq<Line>, base: word, n: nat, k: nat, from: int)
    requires n < k <= |lines| && lines[n].GlobalLabel?
    ensures var labels := LabelsOf(lines, base, k);
      |LabelsOf(lines, base, n)| < |labels| && Matches(labels, lines[n].name, from, |LabelsOf(lines, base, n)|)
  {
    LabelAt(lines, base, n, k);
  }

  /**
   The first sight of a reference can only resolve to a global label: the search is tied to the
   newest label, and no sub label has that one as its parent.
   */
  lemma EarlyLookup(lines: seq<Line>, base: word, k: nat, name: string)
    requires k <= |lines|
    ensures
      var v := ValueAfter(lines, base, k, name, -1);
      var r := LastGlobal(lines, name, k);
      && (v.Some? <==> r.Some?)
      && (v.Some? ==> v.value == U16(base + Offset(lines, r.value)))
  {
    hide ParentOf, LastGlobal, LabelsOf, Offset;
    var labels := LabelsOf(lines, base, k);
    var from := Start(labels, -1);
    var l := Lookup(labels, name, from, |labels|);
    var r := LastGlobal(lines, name, k);
    if r.Some? {
      GlobalMatches(lines, base, r.value, k, from);
      LabelAt(lines, base, r.value, k);
    }
    if l >= 0 {
      var n := LineOfLabel(lines, base, k, l);
      if lines[n].LocalLabel? {
        ParentOfLocal(lines, base, n, k);
      }
      assert lines[n] == GlobalLabel(name);
      if n < r.value {
        PlacesDiffer(lines, base, n, r.value);
      }
    }
  }

  lemma {:induction false} PlacesDiffer(lines: seq<Line>, base: word, m: nat, n: nat)
    requires m < n <= |lines| && lines[m].Labels()
    ensures |LabelsOf(lines, base, m)| < |LabelsOf(lines, base, n)|
  {
    LabelAt(lines, base, m, n);
  }

  lemma SameScope(lines: seq<Line>, base: word, k: nat, n: nat)
    requires k <= |lines| && n <= |lines| && ScopePlace(lines, base, k) == ScopePlace(lines, base, n) >= 0
    ensures Scope(lines, k) == Scope(lines, n) >= 0
  {
    var a, b := Scope(lines, k), Scope(lines, n);
    if a < b {
      PlacesDiffer(lines, base, a, b);
    }
  }

  /** The label that the reference on line k stands for. */
  function Taken(lines: seq<Line>, k: nat): (r: Option<nat>)
    requires k < |lines|
    ensures r.Some? ==> r.value < |lines| && lines[r.value].Labels()
  {
    if Refers(lines[k]) then Binding(lines, k, lines[k].x.name) else None
  }

  /** What matches at the end is a global label, or a local one in the scope of line k. */
  lemma LateFinds(lines: seq<Line>, base: word, k: nat, l: nat) returns (n: nat)
    requires k < |lines| && Refers(lines[k])
    requires l < |LabelsOf(lines, base, |lines|)|
    requires var labels := LabelsOf(lines, base, |lines|);
      Matches(labels, lines[k].x.name, Start(labels, ScopePlace(lines, base, k)), l)
    ensures n < |lines| && lines[n].Labels() && |LabelsOf(lines, base, n)| == l
    ensures LabelsOf(lines, base, |lines|)[l] == LabOf(lines, base, n)
    ensures lines[n] == GlobalLabel(lines[k].x.name)
      || (Scope(lines, k) >= 0 && IsLocal(lines, lines[k].x.name, Scope(lines, k), n))
  {
    n := LineOfLabel(lines, base, |lines|, l);
    if lines[n].LocalLabel? {
      ParentOfLocal(lines, base, n, |lines|);
      SameScope(lines, base, k, n);
    }
  }

  /** The label that line k stands for matches. */
  lemma LateMatches(lines: seq<Line>, base: word, k: nat) returns (l: nat)
    requires k < |lines| && Refers(lines[k]) && Taken(lines, k).Some?
    ensures var labels := LabelsOf(lines, base, |lines|);
      && l == |LabelsOf(lines, base, Taken(lines, k).value)| && l < |labels|
      && Matches(labels, lines[k].x.name, Start(labels, ScopePlace(lines, base, k)), l)
      && labels[l] == LabOf(lines, base, Taken(lines, k).value)
  {
    var labels := LabelsOf(lines, base, |lines|);
    var from := Start(labels, ScopePlace(lines, base, k));
    var n := Taken(lines, k).value;
    l := |LabelsOf(lines, base, n)|;
    LabelAt(lines, base, n, |lines|);
    if lines[n].GlobalLabel? {
      GlobalMatches(lines, base, n, |lines|, from);
    } else {
      ParentOfLocal(lines, base, n, |lines|);
    }
  }

  /** Of the labels that match, the one that line k stands for is the newest, if no global label came before. */
  lemma TakenIsNewest(lines: seq<Line>, k: nat, n: nat)
    requires k < |lines| && n < |lines| && Refers(lines[k]) && LastGlobal(lines, lines[k].x.name, k).None?
    requires lines[n] == GlobalLabel(lines[k].x.name)
      || (Scope(lines, k) >= 0 && IsLocal(lines, lines[k].x.name, Scope(lines, k), n))
    ensures Taken(lines, k).Some? && n <= Taken(lines, k).value
  {
    var name := lines[k].x.name;
    var g := LastGlobal(lines, name, |lines|);
    if g.Some? && lines[n].LocalLabel? {
      assert Scope(lines, n) < k <= g.value;
    }
  }

  /**
   When the holes are filled, all labels are known: a reference that no global label came before
   finds exactly the label it stands for, through the global label in force where the hole was left.
   */
  lemma LateLookup(lines: seq<Line>, base: word, k: nat)
    requires k < |lines| && Refers(lines[k]) && LastGlobal(lines, lines[k].x.name, k).None?
    ensures
      var v := SeenLate(lines, base, k);
      && (v.Some? <==> Taken(lines, k).Some?)
      && (v.Some? ==> v.value == U16(base + Offset(lines, Taken(lines, k).value)))
  {
    hide ScopePlace, LabelsOf, Taken, IsLocal;
    var labels := LabelsOf(lines, base, |lines|);
    NewestParent(lines, base, k);
    var l := Lookup(labels, lines[k].x.name, Start(labels, ScopePlace(lines, base, k)), |labels|);
    if Taken(lines, k).Some? {
      var m := LateMatches(lines, base, k);
    }
    if l >= 0 {
      var n := LateFinds(lines, base, k, l);
      TakenIsNewest(lines, k, n);
      if n < Taken(lines, k).value {
        PlacesDiffer(lines, base, n, Taken(lines, k).value);
      }
    }
  }

  /** Early or late, in every program a reference gets the address of the label it stands for. */
  lemma FinalIsTaken(lines: seq<Line>, base: word, k: nat)
    requires k < |lines| && Refers(lines[k])
    ensures
      var v := Final(lines, base, k);
      && (v.Some? <==> Taken(lines, k).Some?)
      && (v.Some? ==> v.value == U16(base + Offset(lines, Taken(lines, k).value)))
  {
    hide ValueAfter, LastGlobal, LastLocal, Scope;
    EarlyLookup(lines, base, k, lines[k].x.name);
    if Pending(lines, base, k) {
      LateLookup(lines, base, k);
    }
  }

  // ----- filling holes -----

  lemma HoleBytes(i: Native, w: word)
    requires HasAddress(i)
    ensures Encode(WithAddress(i, w)) == Encode(WithAddress(i, HOLE))[1 := Lo(w)][2 := Hi(w)]
  {
  }

  lemma FillEmitted(lines: seq<Line>, base: word, m: nat, w: word)
    requires AllWellFormed(lines) && m < |lines| && Refers(lines[m])
    ensures SizeOf(lines[m]) == 3
    ensures Emitted(lines, base, m, Some(w)) == Emitted(lines, base, m, None)[1 := Lo(w)][2 := Hi(w)]
  {
    hide Encode, WithAddress, Lo, Hi, U16, Offset;
    HoleBytes(lines[m].i, w);
    assert Size(WithAddress(lines[m].i, w)) == 3;
  }

  lemma UpdateTail<T>(x: seq<T>, y: seq<T>, k: nat, v: T)
    requires k < |y|
    ensures (x + y)[|x| + k := v] == x + y[k := v]
  {
  }

  lemma UpdateHead<T>(x: seq<T>, y: seq<T>, k: nat, v: T)
    requires k < |x|
    ensures (x + y)[k := v] == x[k := v] + y
  {
  }

  /** Filling the hole of line m, when all later holes are filled, leaves one hole fewer. */
  lemma {:induction false} FillOne(lines: seq<Line>, base: word, m: nat, k: nat, w: word)
    requires AllWellFormed(lines) && m < k <= |lines| && Pending(lines, base, m) && SeenLate(lines, base, m) == Some(w)
    ensures Offset(lines, m) + 3 <= Offset(lines, k)
    ensures
      var at := Offset(lines, m);
      Mixed(lines, base, m, k) == Mixed(lines, base, m + 1, k)[at + 1 := Lo(w)][at + 2 := Hi(w)]
    decreases k
  {
    hide Emitted, Lo, Hi, SeenLate, SizeOf;
    var at := Offset(lines, m);
    var lo, hi := Lo(w), Hi(w);
    var x := Mixed(lines, base, m + 1, k - 1);
    if k == m + 1 {
      SameBefore(lines, base, m, m + 1, m);
      FillEmitted(lines, base, m, w);
      var y := Emitted(lines, base, m, None);
      UpdateTail(x, y, 1, lo);
      UpdateTail(x, y[1 := lo], 2, hi);
    } else {
      FillOne(lines, base, m, k - 1, w);
      var y := Emitted(lines, base, k - 1, Final(lines, base, k - 1));
      UpdateHead(x, y, at + 1, lo);
      UpdateHead(x[at + 1 := lo], y, at + 2, hi);
    }
  }

  /** Lines without a hole are the same whether filled early or late. */
  lemma {:induction false} SameBefore(lines: seq<Line>, base: word, cut: nat, cut': nat, k: nat)
    requires AllWellFormed(lines) && cut <= cut' && k <= |lines|
    requires forall n | cut <= n < cut' && n < k :: !Pending(lines, base, n)
    ensures Mixed(lines, base, cut, k) == Mixed(lines, base, cut', k)
    decreases k
  {
    hide Emitted, SeenEarly, SeenLate;
    if k != 0 {
      SameBefore(lines, base, cut, cut', k - 1);
    }
  }

  /** With every hole filled, the output is the image. */
  lemma {:induction false} MixedIsImage(lines: seq<Line>, base: word, k: nat)
    requires Good(lines, base) && k <= |lines|
    ensures AllWellFormed(lines) && Mixed(lines, base, 0, k) == Image(lines, base, k)
    decreases k
  {
    if k != 0 {
      MixedIsImage(lines, base, k - 1);
      EmittedIsBytes(lines, base, k - 1);
    }
  }

  lemma EmittedIsBytes(lines: seq<Line>, base: word, k: nat)
    requires Good(lines, base) && k < |lines|
    ensures WellFormed(lines[k]) && Emitted(lines, base, k, Final(lines, base, k)) == BytesOf(lines, base, k)
  {
    hide Encode, WithAddress, Final, Binding;
    assert WellFormed(lines[k]) && Bound(lines, k);
    OffsetGrows(lines, k, |lines|);
    if Refers(lines[k]) {
      FinalIsTaken(lines, base, k);
      OffsetGrows(lines, Taken(lines, k).value, |lines|);
    }
  }

  /** The value of every `$` expression of line k is a byte. */
  predicate HereFits(lines: seq<Line>, base: word, k: nat)
    requires k < |lines|
  {
    lines[k].Op? && lines[k].x.Here? ==> HereValue(lines, base, k, lines[k].x.ahead, lines[k].x.high) < 256
  }

  /** The assembler gets through: no value out of range, no name without a label. */
  ghost predicate Assembles(lines: seq<Line>, base: word) {
    && (forall k | 0 <= k < |lines| :: HereFits(lines, base, k))
    && (forall k | 0 <= k < |lines| && Refers(lines[k]) :: Final(lines, base, k).Some?)
  }

  /**
   Whatever the names, if the image fits the assembler gets through exactly when every reference
   stands for a label, and the holes are then filled so as to give the image.
   */
  lemma AssemblesImage(lines: seq<Line>, base: word)
    requires AllWellFormed(lines) && Fits(lines, base)
    ensures Assembles(lines, base) <==> Good(lines, base)
    ensures Good(lines, base) ==> Mixed(lines, base, 0, |lines|) == Image(lines, base, |lines|)
  {
    hide Final, Binding, Mixed;
    forall k | 0 <= k < |lines|
      ensures HereFits(lines, base, k)
    {
      OffsetGrows(lines, k, |lines|);
    }
    forall k | 0 <= k < |lines|
      ensures Bound(lines, k) <==> (Refers(lines[k]) ==> Final(lines, base, k).Some?)
    {
      if Refers(lines[k]) {
        FinalIsTaken(lines, base, k);
      }
    }
    if Good(lines, base) {
      MixedIsImage(lines, base, |lines|);
    }
  }

  /** What the j-th patch says about the line it was left for. */
  lemma PatchFacts(lines: seq<Line>, base: word, j: nat)
    requires j < |PatchLines(lines, base, |lines|)|
    ensures
      var m := PatchLines(lines, base, |lines|)[j];
      var p := PatchesOf(lines, base, |lines|)[j];
      && m < |lines| && Pending(lines, base, m) && Refers(lines[m])
      && p.location == Offset(lines, m) + 1
      && -1 <= p.parent < |LabelsOf(lines, base, |lines|)|
      && SeenLate(lines, base, m) == ValueAfter(lines, base, |lines|, p.name, p.parent)
      && Final(lines, base, m) == SeenLate(lines, base, m)
  {
    hide SeenEarly, ValueAfter, PatchLines, PatchesOf, LabelsOf;
    LabelsPrefix(lines, base, PatchLines(lines, base, |lines|)[j], |lines|);
  }

  lemma FinalOrSeen(lines: seq<Line>, base: word, k: nat)
    requires k < |lines| && Refers(lines[k])
    ensures Final(lines, base, k) == if Pending(lines, base, k) then SeenLate(lines, base, k) else SeenEarly(lines, base, k)
    ensures !Pending(lines, base, k) ==> SeenEarly(lines, base, k).Some?
  {
    hide ValueAfter;
  }

  /** Between one patch and the next there is no line with a hole. */
  lemma NoneBetween(lines: seq<Line>, base: word, j: nat)
    requires j < |PatchLines(lines, base, |lines|)|
    ensures
      var ns := PatchLines(lines, base, |lines|);
      forall n | ns[j] < n < (if j + 1 == |ns| then |lines| else ns[j + 1]) :: !Pending(lines, base, n)
  {
    hide Pending, PatchLines;
    var ns := PatchLines(lines, base, |lines|);
    forall n | ns[j] < n < (if j + 1 == |ns| then |lines| else ns[j + 1])
      ensures !Pending(lines, base, n)
    {
      forall i | 0 <= i < |ns|
        ensures ns[i] != n
      {
        if i > j { assert ns[j + 1] <= ns[i]; }
      }
      assert n !in ns;
    }
  }

  lemma NoneBefore(lines: seq<Line>, base: word)
    ensures
      var ns := PatchLines(lines, base, |lines|);
      forall n | 0 <= n < (if ns == [] then |lines| else ns[0]) :: !Pending(lines, base, n)
  {
    hide Pending, PatchLines;
    var ns := PatchLines(lines, base, |lines|);
    forall n | 0 <= n < (if ns == [] then |lines| else ns[0])
      ensures !Pending(lines, base, n)
    {
      assert n !in ns;
    }
  }

  /** What one more operation adds. */
  lemma NextOp(lines: seq<Line>, base: word, k: nat)
    requires AllWellFormed(lines) && k < |lines| && lines[k].Op?
    ensures LabelsOf(lines, base, k + 1) == LabelsOf(lines, base, k)
    ensures PatchesOf(lines, base, k + 1)
      == PatchesOf(lines, base, k) + if Pending(lines, base, k) then [PatchOf(lines, base, k)] else []
    ensures Mixed(lines, base, |lines|, k + 1)
      == Mixed(lines, base, |lines|, k) + Encode(Filled(lines, base, k, SeenEarly(lines, base, k)))
  {
    hide Pending, PatchOf, SeenEarly, Filled, Encode;
  }

  lemma Begins(lines: seq<Line>, base: word)
    requires AllWellFormed(lines)
    ensures LabelsOf(lines, base, 0) == [] && PatchesOf(lines, base, 0) == [] && Mixed(lines, base, |lines|, 0) == []
  {
  }

  // ----- the assembler itself -----

  class Context {
    var org: word
    var out: seq<byte>
    var labels: seq<Lab>
    var patches: seq<Patch>

    constructor (org: word)
      ensures this.org == org && out == [] && labels == [] && patches == []
    {
      this.org := org;
      out, labels, patches := [], [], [];
    }

    /** The address that the next byte will have. */
    function Location(): word
      reads this`out, this`org
    {
      U16(Base(org) + |out|)
    }

    method LabelParent(l: int) returns (p: int)
      requires -1 <= l < |labels|
      ensures p == ParentOf(labels, l)
    {
      p := l;
      while p >= 0 && labels[p].sub
        invariant -1 <= p <= l
        invariant ParentOf(labels, p) == ParentOf(labels, l)
      {
        p := p - 1;
      }
    }

    method ResolveLabel(name: string, from: int) returns (found: bool, value: word)
      requires -1 <= from < |labels|
      ensures var l := Lookup(labels, name, Start(labels, from), |labels|);
        found == (l >= 0) && (found ==> value == labels[l].value) && (!found ==> value == 0)
    {
      var start := if from < 0 then |labels| - 1 else from;
      var l := |labels|;
      while l > 0
        invariant 0 <= l <= |labels|
        invariant Lookup(labels, name, start, |labels|) == Lookup(labels, name, start, l)
      {
        l := l - 1;
        var parent := LabelParent(l);
        if labels[l].name == name && (!labels[l].sub || parent == start) {
          return true, labels[l].value;
        }
      }
      return false, 0;
    }

    method DefineLabel(name: string, sub: bool)
      modifies this`labels
      ensures labels == old(labels) + [Lab(name, sub, Location())]
    {
      labels := labels + [Lab(name, sub, Location())];
    }

    /** Leaves two bytes open, to be filled once the name is known. */
    method AddPatch(name: string)
      modifies this`out, this`patches
      ensures out == old(out) + [0xF0, 0xF0]
      ensures patches == old(patches) + [Patch(name, ParentOf(labels, |labels| - 1), |old(out)|)]
    {
      var parent := LabelParent(|labels| - 1);
      patches := patches + [Patch(name, parent, |out|)];
      out := out + [0xF0, 0xF0];
    }

    /** An address operand: a symbol that is not known yet, or the number w. */
    method EmitAddress(symbol: Option<string>, w: word)
      modifies this`out, this`patches
      ensures out == old(out) + Imm16(if symbol.Some? then HOLE else w)
      ensures patches == old(patches) +
        match symbol case None => [] case Some(name) => [Patch(name, ParentOf(labels, |labels| - 1), |old(out)|)]
    {
      match symbol
      case Some(name) => AddPatch(name);
      case None => out := out + [w % 256, w / 256 % 256];
    }

    /** Opcode and operands of one instruction; `symbol` stands for its address when that is not known. */
    method Emit(i: Native, symbol: Option<string>)
      requires symbol.Some? ==> HasAddress(i)
      modifies this`out, this`patches
      ensures out == old(out) + Encode(if symbol.Some? then WithAddress(i, HOLE) else i)
      ensures patches == old(patches) +
        match symbol case None => [] case Some(name) => [Patch(name, ParentOf(labels, |labels| - 1), |old(out)| + 1)]
    {
      var i0 := 16 * Opcode(i);
      match i {
        case LW(r, at) =>
          out := out + [i0 + (if at.AtHL? then 8 else 0) + r.Code()];
          if at.Abs? { EmitAddress(symbol, at.w); }
        case SW(at, r) =>
          out := out + [i0 + (if at.AtHL? then 8 else 0) + r.Code()];
          if at.Abs? { EmitAddress(symbol, at.w); }
        case PUSH(x) =>
          out := out + if x.Rg? then [i0 + 8 + x.r.Code()] else [i0, x.v];
        case JNZ(x) =>
          out := out + if x.Rg? then [i0 + 8 + x.r.Code()] else [i0, x.v];
        case POP(r) =>
          out := out + [i0 + 8 + r.Code()];
        case LDA(w) =>
          out := out + [i0];
          EmitAddress(symbol, w);
        case OUTB(x, r) =>
          EmitTwo(i0, r, x);
        case MW(r, x) =>
          EmitTwo(i0, r, x);
        case INB(r, x) =>
          EmitTwo(i0, r, x);
        case ALU(_, r, x) =>
          EmitTwo(i0, r, x);
      }
    }

    method EmitTwo(i0: byte, r: Reg, x: Arg8)
      requires i0 % 16 == 0
      modifies this`out
      ensures out == old(out) + Two(i0 / 16, r, x)
    {
      var i1 := if x.Rg? then x.r.Code() else x.v;
      out := out + [i0 + (if x.Rg? then 8 else 0) + r.Code(), i1];
    }

    /** The state after the first k lines. */
    ghost predicate Through(lines: seq<Line>, k: nat)
      requires k <= |lines| && AllWellFormed(lines)
      reads this
    {
      && labels == LabelsOf(lines, Base(org), k)
      && patches == PatchesOf(lines, Base(org), k)
      && out == Mixed(lines, Base(org), |lines|, k)
    }

    /** One line: a label is entered, anything else is emitted, with the labels that are known already. */
    method ParseLine(lines: seq<Line>, k: nat) returns (ok: bool)
      requires k < |lines| && AllWellFormed(lines) && Through(lines, k)
      modifies this`out, this`labels, this`patches
      ensures ok == HereFits(lines, Base(org), k)
      ensures ok ==> Through(lines, k + 1)
    {
      hide Encode, Lookup;
      assert WellFormed(lines[k]);
      ok := true;
      match lines[k]
      case GlobalLabel(name) => DefineLabel(name, false);
      case LocalLabel(name) => DefineLabel(name, true);
      case Data(bytes) => EmitData(bytes);
      case Op(_, _) => ok := ParseOp(lines, k);
    }

    method EmitData(bytes: seq<byte>)
      modifies this`out
      ensures out == old(out) + bytes
    {
      var n := 0;
      while n < |bytes|
        invariant n <= |bytes|
        invariant out == old(out) + bytes[..n]
      {
        out := out + [bytes[n]];
        n := n + 1;
      }
    }

    method ParseOp(lines: seq<Line>, k: nat) returns (ok: bool)
      requires k < |lines| && lines[k].Op? && AllWellFormed(lines) && Through(lines, k)
      modifies this`out, this`patches
      ensures ok == HereFits(lines, Base(org), k)
      ensures ok ==> Through(lines, k + 1)
    {
      hide Encode, Lookup, Size, HOLE, WithAddress, LabelsOf, PatchesOf, Mixed;
      assert WellFormed(lines[k]);
      NextOp(lines, Base(org), k);
      ok := true;
      var i := lines[k].i;
      match lines[k].x
      case Written =>
        Emit(i, None);
      case Here(ahead, high) =>
        var value := Location() + ahead;
        value := if high then value / 256 else value % 256;
        if value >= 256 {
          return false;
        }
        Emit(PUSH(Imm(value)), None);
      case Ref(name, _) =>
        var found, value := ResolveLabel(name, -1);
        if found {
          Emit(WithAddress(i, value), None);
        } else {
          Emit(i, Some(name));
        }
    }

    /** Fills the holes, newest first; stops at a name that no label has. */
    method ResolvePatches(lines: seq<Line>) returns (ok: bool)
      requires AllWellFormed(lines) && Through(lines, |lines|)
      modifies this`out
      ensures ok <==> forall k | 0 <= k < |lines| && Refers(lines[k]) :: Final(lines, Base(org), k).Some?
      ensures ok ==> out == Mixed(lines, Base(org), 0, |lines|)
    {
      hide Mixed, Lookup, LabelsOf, PatchLines, PatchesOf, PatchOf, Pending, SeenLate, SeenEarly, Final, Offset, AllWellFormed;
      var base := Base(org);
      var j := |patches|;
      ghost var ns := PatchLines(lines, base, |lines|);
      ghost var cut := |lines|;
      while j > 0
        invariant 0 <= j <= |patches| == |ns|
        invariant cut == if j == |ns| then |lines| else ns[j]
        invariant out == Mixed(lines, base, cut, |lines|)
        invariant forall i | j <= i < |ns| :: SeenLate(lines, base, ns[i]).Some?
      {
        j := j - 1;
        ghost var m := ns[j];
        PatchFacts(lines, base, j);
        var found, value := ResolveLabel(patches[j].name, patches[j].parent);
        if !found {
          assert Refers(lines[m]) && Final(lines, base, m).None?;
          return false;
        }
        NoneBetween(lines, base, j);
        SameBefore(lines, base, m + 1, cut, |lines|);
        FillOne(lines, base, m, |lines|, value);
        out := out[patches[j].location := value % 256][patches[j].location + 1 := value / 256 % 256];
        cut := m;
      }
      NoneBefore(lines, base);
      SameBefore(lines, base, 0, cut, |lines|);
      forall k | 0 <= k < |lines| && Refers(lines[k])
        ensures Final(lines, base, k).Some?
      {
        FinalOrSeen(lines, base, k);
        assert Pending(lines, base, k) ==> k in ns;
      }
      return true;
    }

    /** The parse loop: all lines, or up to the first whose value is out of range. */
    method ParseLines(lines: seq<Line>) returns (ok: bool)
      requires AllWellFormed(lines)
      requires out == [] && labels == [] && patches == []
      modifies this`out, this`labels, this`patches
      ensures ok <==> forall n | 0 <= n < |lines| :: HereFits(lines, Base(org), n)
      ensures ok ==> Through(lines, |lines|)
    {
      hide HereFits, Mixed, LabelsOf, PatchesOf, WellFormed;
      var k := 0;
      assert Through(lines, 0) by { Begins(lines, Base(org)); }
      while k < |lines|
        invariant k <= |lines|
        invariant Through(lines, k)
        invariant forall n | 0 <= n < k :: HereFits(lines, Base(org), n)
      {
        ok := ParseLine(lines, k);
        if !ok {
          return;
        }
        k := k + 1;
      }
      return true;
    }

    /**
     Assembles a whole program. It fails exactly when a value is out of range or a name has no
     label. When the image fits, what it produces is the image: one pass and the patches give every
     reference the address of the label it stands for.
     */
    method Assemble(lines: seq<Line>) returns (ok: bool)
      requires AllWellFormed(lines)
      requires out == [] && labels == [] && patches == []
      modifies this`out, this`labels, this`patches
      ensures ok <==> Assembles(lines, Base(org))
      ensures Fits(lines, Base(org)) ==>
        && (ok <==> Good(lines, Base(org)))
        && (ok ==> out == Image(lines, Base(org), |lines|))
    {
      hide Good, Fits, Mixed, HereFits, Through, Refers, Final, Image;
      if Fits(lines, Base(org)) {
        AssemblesImage(lines, Base(org));
      }
      ok := ParseLines(lines);
      if ok {
        ok := ResolvePatches(lines);
      }
    }
  }
}
