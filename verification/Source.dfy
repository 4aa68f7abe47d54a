/**
 Assembly programs after macro expansion, and what they mean: where each line lies, which
 label a reference names, and the bytes the finished image must hold. Nothing here follows
 how the assembler works; it is what the assembler is measured against.
 */
module Source {
  import opened Words
  import opened Isa

  datatype Option<+T> = None | Some(value: T)

  /**
   Where the number in an instruction comes from. `Written` numbers are in the instruction
   already; `Ref` is a label, `.name` when dotted; `Here` is `(($ + ahead) > 8)` or
   `(($ + ahead) & 0xFF)`, which only the CALL macros use.
   */
  datatype Operand = Written | Ref(name: string, dotted: bool) | Here(ahead: nat, high: bool)

  datatype Line =
    | GlobalLabel(name: string)
    | LocalLabel(name: string)
    | Op(i: Native, x: Operand)
    | Data(bytes: seq<byte>)
  {
    predicate Labels() { GlobalLabel? || LocalLabel? }
  }

  // ----- operands -----

  /** The instruction has a 16-bit number in it. */
  predicate HasAddress(i: Native) {
    match i
    case LW(_, at) => at.Abs?
    case SW(at, _) => at.Abs?
    case LDA(_) => true
    case _ => false
  }

  function WithAddress(i: Native, w: word): (i': Native)
    requires HasAddress(i)
    ensures HasAddress(i') && Size(i') == 3
  {
    match i
    case LW(r, _) => LW(r, Abs(w))
    case SW(_, r) => SW(Abs(w), r)
    case LDA(_) => LDA(w)
  }

  predicate WellFormed(l: Line) {
    match l
    case Op(i, Ref(_, _)) => HasAddress(i)
    case Op(i, Here(_, _)) => i.PUSH? && i.x.Imm?
    case _ => true
  }

  // ----- where lines lie -----

  function SizeOf(l: Line): nat {
    match l
    case Op(i, _) => Size(i)
    case Data(bytes) => |bytes|
    case _ => 0
  }

  /** The bytes that the first k lines take. */
  function Offset(lines: seq<Line>, k: nat): nat
    requires k <= |lines|
  {
    if k == 0 then 0 else Offset(lines, k - 1) + SizeOf(lines[k - 1])
  }

  // ----- which label a reference names -----

  /** The last global label before line k, or -1. */
  function Scope(lines: seq<Line>, k: nat): (n: int)
    requires k <= |lines|
    ensures -1 <= n < k && (n >= 0 ==> lines[n].GlobalLabel?)
    ensures forall m | n < m < k :: !lines[m].GlobalLabel?
  {
    if k == 0 then -1
    else if lines[k - 1].GlobalLabel? then k - 1
    else Scope(lines, k - 1)
  }

  /** The last global label of that name before line k. */
  function LastGlobal(lines: seq<Line>, name: string, k: nat): (r: Option<nat>)
    requires k <= |lines|
    ensures r.Some? ==> r.value < k && lines[r.value] == GlobalLabel(name)
    ensures forall n | (if r.Some? then r.value + 1 else 0) <= n < k :: lines[n] != GlobalLabel(name)
  {
    if k == 0 then None
    else if lines[k - 1] == GlobalLabel(name) then Some(k - 1)
    else LastGlobal(lines, name, k - 1)
  }

  predicate IsLocal(lines: seq<Line>, name: string, scope: int, n: nat)
    requires n < |lines|
  {
    lines[n] == LocalLabel(name) && Scope(lines, n) == scope
  }

  /** The last local label of that name, before line k, whose global label is on line `scope`. */
  function LastLocal(lines: seq<Line>, name: string, scope: int, k: nat): (r: Option<nat>)
    requires k <= |lines|
    ensures r.Some? ==> r.value < k && IsLocal(lines, name, scope, r.value)
    ensures forall n | (if r.Some? then r.value + 1 else 0) <= n < k :: !IsLocal(lines, name, scope, n)
  {
    if k == 0 then None
    else if IsLocal(lines, name, scope, k - 1) then Some(k - 1)
    else LastLocal(lines, name, scope, k - 1)
  }

  /**
   The line of the label that a name on line k stands for, in any program: a global label, the
   last one before line k if there is one; only when the program has none, the last local label in
   the scope of line k. Whether the name is written with a dot plays no part.
   */
  function Binding(lines: seq<Line>, k: nat, name: string): (r: Option<nat>)
    requires k <= |lines|
    ensures r.Some? ==> r.value < |lines| && lines[r.value].Labels() && lines[r.value].name == name
  {
    var before, anywhere := LastGlobal(lines, name, k), LastGlobal(lines, name, |lines|);
    if before.Some? then before
    else if anywhere.Some? then anywhere
    else if Scope(lines, k) < 0 then None
    else LastLocal(lines, name, Scope(lines, k), |lines|)
  }

  // ----- the finished image -----

  predicate Bound(lines: seq<Line>, k: nat)
    requires k < |lines|
  {
    match lines[k]
    case Op(_, Ref(name, _)) => Binding(lines, k, name).Some?
    case _ => true
  }

  /** The program assembles: every reference stands for a label, and the image ends below the last address. */
  ghost predicate Good(lines: seq<Line>, base: word) {
    && (forall k | 0 <= k < |lines| :: WellFormed(lines[k]) && Bound(lines, k))
    && Fits(lines, base)
  }

  /** Every address in the image, and every return address that the image computes, is a word. */
  ghost predicate Fits(lines: seq<Line>, base: word) {
    && base + Offset(lines, |lines|) < 65536
    && forall k | 0 <= k < |lines| && lines[k].Op? && lines[k].x.Here? :: base + Offset(lines, k) + lines[k].x.ahead < 65536
  }

  lemma {:induction false} OffsetGrows(lines: seq<Line>, j: nat, k: nat)
    requires j <= k <= |lines|
    ensures Offset(lines, j) <= Offset(lines, k)
    decreases k
  {
    if j < k {
      OffsetGrows(lines, j, k - 1);
    }
  }

  function Address(lines: seq<Line>, base: word, k: nat): word
    requires k <= |lines| && Fits(lines, base)
  {
    OffsetGrows(lines, k, |lines|);
    base + Offset(lines, k)
  }

  /** The instruction on line k, with its label or its `$` replaced by a number. */
  function Resolved(lines: seq<Line>, base: word, k: nat): (i: Native)
    requires Good(lines, base) && k < |lines| && lines[k].Op?
    ensures Size(i) == Size(lines[k].i)
  {
    var i := lines[k].i;
    assert WellFormed(lines[k]) && Bound(lines, k);
    match lines[k].x
    case Written => i
    case Ref(name, _) => WithAddress(i, Address(lines, base, Binding(lines, k, name).value))
    case Here(ahead, high) =>
      var w := Address(lines, base, k) + ahead;
      PUSH(Imm(if high then Hi(w) else Lo(w)))
  }

  function BytesOf(lines: seq<Line>, base: word, k: nat): (s: seq<byte>)
    requires Good(lines, base) && k < |lines|
    ensures |s| == SizeOf(lines[k])
  {
    match lines[k]
    case Op(_, _) => Encode(Resolved(lines, base, k))
    case Data(bytes) => bytes
    case _ => []
  }

  /** What the first k lines become. */
  function Image(lines: seq<Line>, base: word, k: nat): (s: seq<byte>)
    requires Good(lines, base) && k <= |lines|
    ensures |s| == Offset(lines, k)
  {
    if k == 0 then [] else Image(lines, base, k - 1) + BytesOf(lines, base, k - 1)
  }
}
