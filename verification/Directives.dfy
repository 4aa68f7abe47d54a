/**
 The directives that put data into the image and set its origin (asm/directive.c), and what
 the emulator finds in memory where that data was placed.
 */
module Directives {
  import opened Words
  import opened Source
  import opened Machine
  import opened Simulation
  import opened Assembler

  /** A token of a directive line, once expressions and labels are values. */
  datatype Item = Number(v: int) | Open | Close | Other

  // ----- bytes -----

  predicate IsByte(t: Item) { t.Number? && -128 <= t.v <= 255 }

  predicate AllBytes(line: seq<Item>) { forall k | 0 <= k < |line| :: IsByte(line[k]) }

  /** The bytes of a line of numbers, negative ones in two's complement. */
  function BytesIn(line: seq<Item>): (s: seq<byte>)
    requires AllBytes(line)
    ensures |s| == |line| && forall k | 0 <= k < |line| :: s[k] == U8(line[k].v)
  {
    seq(|line|, k requires 0 <= k < |line| => U8(line[k].v))
  }

  /** dir_db */
  method Db(ctx: Context, line: seq<Item>) returns (ok: bool)
    modifies ctx`out
    ensures ok <==> forall k | 0 <= k < |line| :: line[k].Number? && -128 <= line[k].v <= 255
    ensures ok ==> AllBytes(line) && ctx.out == old(ctx.out) + BytesIn(line)
  {
    var k := 0;
    while k < |line|
      invariant k <= |line| && AllBytes(line[..k])
      invariant ctx.out == old(ctx.out) + BytesIn(line[..k])
    {
      if !line[k].Number? || line[k].v < -128 || line[k].v > 255 {
        assert !IsByte(line[k]);
        return false;
      }
      assert line[..k + 1] == line[..k] + [line[k]];
      assert BytesIn(line[..k + 1]) == BytesIn(line[..k]) + [U8(line[k].v)];
      ctx.out := ctx.out + [U8(line[k].v)];
      k := k + 1;
    }
    assert line[..k] == line;
    return true;
  }

  // ----- words -----

  /** The numbers of a line on which each may stand in square brackets. */
  function Unbracketed(line: seq<Item>): Option<seq<int>>
    decreases |line|
  {
    if line == [] then Some([])
    else if line[0].Open? then
      if |line| >= 3 && line[1].Number? && line[2].Close? then InFront(line[1].v, Unbracketed(line[3..])) else None
    else if line[0].Number? then InFront(line[0].v, Unbracketed(line[1..]))
    else None
  }

  function InFront(v: int, rest: Option<seq<int>>): Option<seq<int>> {
    if rest.Some? && -32768 <= v <= 65535 then Some([v] + rest.value) else None
  }

  /** Low byte first. */
  function WordBytes(values: seq<int>): (s: seq<byte>)
    ensures |s| == 2 * |values|
  {
    if values == [] then [] else [Lo(U16(values[0])), Hi(U16(values[0]))] + WordBytes(values[1..])
  }

  /** Every word can be read back from its two bytes. */
  lemma {:induction false} WordAt(values: seq<int>, k: nat)
    requires k < |values|
    ensures Pair(WordBytes(values)[2 * k + 1], WordBytes(values)[2 * k]) == U16(values[k])
    decreases k
  {
    hide Lo, Hi, Pair, U16;
    if k == 0 {
      PairUp(U16(values[0]));
    } else {
      var rest := WordBytes(values[1..]);
      assert WordBytes(values)[2 * k + 1] == rest[2 * (k - 1) + 1] && WordBytes(values)[2 * k] == rest[2 * (k - 1)];
      WordAt(values[1..], k - 1);
    }
  }

  lemma PairUp(w: word)
    ensures Pair(Hi(w), Lo(w)) == w
  {
  }

  function Ahead(done: seq<int>, rest: Option<seq<int>>): Option<seq<int>> {
    if rest.Some? then Some(done + rest.value) else None
  }

  lemma AheadOne(done: seq<int>, v: int, rest: Option<seq<int>>)
    ensures Ahead(done, InFront(v, rest)) == if -32768 <= v <= 65535 then Ahead(done + [v], rest) else None
  {
    if rest.Some? {
      assert done + ([v] + rest.value) == done + [v] + rest.value;
    }
  }

  lemma {:induction false} WordBytesMore(values: seq<int>, v: int)
    ensures WordBytes(values + [v]) == WordBytes(values) + [Lo(U16(v)), Hi(U16(v))]
  {
    if values == [] {
      assert WordBytes([v]) == [Lo(U16(v)), Hi(U16(v))] + WordBytes([v][1..]);
    } else {
      assert (values + [v])[1..] == values[1..] + [v];
      WordBytesMore(values[1..], v);
    }
  }

  /** dir_dd: an opening bracket is passed over together with its closing one. */
  method Dd(ctx: Context, line: seq<Item>) returns (ok: bool)
    modifies ctx`out
    ensures ok <==> Unbracketed(line).Some?
    ensures ok ==> ctx.out == old(ctx.out) + WordBytes(Unbracketed(line).value)
  {
    var t := 0;
    ghost var done: seq<int> := [];
    assert Unbracketed(line) == Ahead(done, Unbracketed(line[t..])) by {
      assert line[0..] == line;
      if Unbracketed(line).Some? { assert [] + Unbracketed(line).value == Unbracketed(line).value; }
    }
    while t < |line|
      invariant t <= |line|
      invariant Unbracketed(line) == Ahead(done, Unbracketed(line[t..]))
      invariant ctx.out == old(ctx.out) + WordBytes(done)
    {
      var rest := line[t..];
      var v: int, next: nat;
      if line[t].Open? {
        if !(t + 2 < |line| && line[t + 1].Number? && line[t + 2].Close?) {
          return false;
        }
        v, next := line[t + 1].v, t + 3;
        assert rest[3..] == line[next..] && rest[1] == line[t + 1] && rest[2] == line[t + 2];
      } else {
        if !line[t].Number? {
          return false;
        }
        v, next := line[t].v, t + 1;
        assert rest[1..] == line[next..];
      }
      AheadOne(done, v, Unbracketed(line[next..]));
      if v < -32768 || v > 65535 {
        return false;
      }
      WordBytesMore(done, v);
      done := done + [v];
      ctx.out := ctx.out + [Lo(U16(v)), Hi(U16(v))];
      t := next;
    }
    assert line[t..] == [];
    assert done + [] == done;
    return true;
  }

  /** A line of numbers, each in brackets or not. */
  function WordLine(values: seq<int>, brackets: seq<bool>): seq<Item>
    requires |values| == |brackets|
  {
    if values == [] then []
    else
      (if brackets[0] then [Open, Number(values[0]), Close] else [Number(values[0])]) + WordLine(values[1..], brackets[1..])
  }

  /** Every such line is read as its numbers, if they fit 16 bits with or without a sign. */
  lemma {:induction false} WordLineReads(values: seq<int>, brackets: seq<bool>)
    requires |values| == |brackets|
    ensures Unbracketed(WordLine(values, brackets))
      == if (forall k | 0 <= k < |values| :: -32768 <= values[k] <= 65535) then Some(values) else None
    decreases |values|
  {
    if values != [] {
      var rest := WordLine(values[1..], brackets[1..]);
      WordLineReads(values[1..], brackets[1..]);
      var line := WordLine(values, brackets);
      assert line == (if brackets[0] then [Open, Number(values[0]), Close] + rest else [Number(values[0])] + rest);
      assert line[if brackets[0] then 3 else 1..] == rest;
      assert values == [values[0]] + values[1..];
      FitsFirst(values);
    }
  }

  lemma FitsFirst(values: seq<int>)
    requires values != []
    ensures (forall k | 0 <= k < |values| :: -32768 <= values[k] <= 65535)
      <==> -32768 <= values[0] <= 65535 && forall k | 0 <= k < |values[1..]| :: -32768 <= values[1..][k] <= 65535
  {
    if forall k | 0 <= k < |values[1..]| :: -32768 <= values[1..][k] <= 65535 {
      forall k | 0 < k < |values|
        ensures values[k] == values[1..][k - 1]
      {
      }
    }
  }

  /** No other line is accepted. */
  lemma {:induction false} WordLineOnly(line: seq<Item>) returns (brackets: seq<bool>)
    requires Unbracketed(line).Some?
    ensures |brackets| == |Unbracketed(line).value| && line == WordLine(Unbracketed(line).value, brackets)
    decreases |line|
  {
    brackets := [];
    if line != [] {
      var n := if line[0].Open? then 3 else 1;
      var more := WordLineOnly(line[n..]);
      brackets := [line[0].Open?] + more;
      var values := Unbracketed(line).value;
      assert values[1..] == Unbracketed(line[n..]).value && brackets[1..] == more;
      assert line == line[..n] + line[n..];
    }
  }

  // ----- zeros -----

  function Zeros(n: nat): (s: seq<byte>)
    ensures |s| == n && forall k | 0 <= k < n :: s[k] == 0
  {
    seq(n, k => 0)
  }

  /** dir_dn: the count is cut down to 16 bits, so that a negative one asks for nearly 64 KiB. */
  method Dn(ctx: Context, line: seq<Item>) returns (ok: bool)
    modifies ctx`out
    ensures ok <==> |line| == 1 && line[0].Number?
    ensures ok ==> ctx.out == old(ctx.out) + Zeros(line[0].v % 65536)
  {
    if !(|line| == 1 && line[0].Number?) {
      return false;
    }
    var v: nat := U16(line[0].v);
    ghost var n := v;
    while v > 0
      invariant v <= n
      invariant ctx.out == old(ctx.out) + Zeros(n - v)
    {
      assert Zeros(n - v + 1) == Zeros(n - v) + [0];
      ctx.out := ctx.out + [0];
      v := v - 1;
    }
    return true;
  }

  // ----- strings -----

  const BACKSLASH: byte := 0x5C

  /** escchar, on character codes. */
  function Escaped(c: byte): byte {
    match c
    case 97 => 0x07 case 98 => 0x08 case 101 => 0x1B case 102 => 0x0C case 110 => 0x0A case 114 => 0x0D
    case 116 => 0x09 case 118 => 0x0B case 92 => 0x5C case 39 => 0x27 case 34 => 0x22 case 63 => 0x3F
    case _ => c
  }

  /** The characters of a string token; a backslash at its very end escapes the zero behind it. */
  function Unescape(s: seq<byte>): seq<byte>
    decreases |s|
  {
    if s == [] then []
    else if s[0] != BACKSLASH then [s[0]] + Unescape(s[1..])
    else if |s| == 1 then [0]
    else [Escaped(s[1])] + Unescape(s[2..])
  }

  /** What the characters from i on stand for. */
  function Remaining(s: seq<byte>, i: nat): seq<byte> {
    if i <= |s| then Unescape(s[i..]) else []
  }

  lemma RemainingStep(s: seq<byte>, i: nat)
    requires i < |s|
    ensures Remaining(s, i) ==
      if s[i] != BACKSLASH then [s[i]] + Remaining(s, i + 1)
      else [if i + 1 < |s| then Escaped(s[i + 1]) else 0] + Remaining(s, i + 2)
  {
    var rest := s[i..];
    if s[i] != BACKSLASH {
      assert rest[1..] == s[i + 1..];
    } else if i + 1 < |s| {
      assert rest[2..] == s[i + 2..] && rest[1] == s[i + 1];
    } else {
      assert rest == [BACKSLASH] && [0] + [] == [0];
    }
  }

  lemma RemainingEnds(s: seq<byte>, i: nat)
    requires i >= |s|
    ensures Remaining(s, i) == [] && Remaining(s, 0) == Unescape(s)
  {
    assert s[0..] == s;
    if i == |s| { assert s[i..] == []; }
  }

  lemma Moves(done: seq<byte>, c: byte, rest: seq<byte>)
    ensures done + ([c] + rest) == (done + [c]) + rest
  {
  }

  /** One character more has been written, of the n that come from i on. */
  lemma DsStep(s: seq<byte>, i: nat, done: seq<byte>, c: byte, n: nat)
    requires i < |s| && n == if s[i] == BACKSLASH then 2 else 1
    requires c == if s[i] != BACKSLASH then s[i] else if i + 1 < |s| then Escaped(s[i + 1]) else Escaped(0)
    ensures done + Remaining(s, i) == done + [c] + Remaining(s, i + n)
  {
    hide Remaining, Unescape, Escaped;
    RemainingStep(s, i);
    NulEscaped();
    Moves(done, c, Remaining(s, i + n));
  }

  /** dir_ds: the characters, and a terminator. */
  method Ds(ctx: Context, s: seq<byte>)
    modifies ctx`out
    ensures ctx.out == old(ctx.out) + Unescape(s) + [0]
  {
    hide Remaining, Unescape, Escaped;
    var i := 0;
    ghost var done: seq<byte> := [];
    RemainingEnds(s, |s|);
    assert [] + Unescape(s) == Unescape(s) && old(ctx.out) + [] == old(ctx.out);
    while i < |s|
      invariant Unescape(s) == done + Remaining(s, i)
      invariant ctx.out == old(ctx.out) + done
      decreases |s| - i
    {
      ghost var from := i;
      var c := s[i];
      if c == BACKSLASH {
        i := i + 1;
        c := if i < |s| then Escaped(s[i]) else Escaped(0);
      }
      i := i + 1;
      DsStep(s, from, done, c, i - from);
      ctx.out := ctx.out + [c];
      assert old(ctx.out) + done + [c] == old(ctx.out) + (done + [c]);
      done := done + [c];
    }
    RemainingEnds(s, i);
    assert done + [] == done;
    ctx.out := ctx.out + [0];
  }

  lemma NulEscaped()
    ensures Escaped(0) == 0
  {
  }

  /** A way to write any bytes as a string token. */
  function Escape(s: seq<byte>): seq<byte> {
    if s == [] then []
    else (if s[0] == BACKSLASH then [BACKSLASH, BACKSLASH] else [s[0]]) + Escape(s[1..])
  }

  /** Whatever the bytes, a string token can say them. */
  lemma {:induction false} EscapeComesBack(s: seq<byte>)
    ensures Unescape(Escape(s)) == s
  {
    if s != [] {
      EscapeComesBack(s[1..]);
      var e := Escape(s);
      if s[0] == BACKSLASH {
        assert e[2..] == Escape(s[1..]);
      } else {
        assert e[1..] == Escape(s[1..]);
      }
      assert s == [s[0]] + s[1..];
    }
  }

  /** The letter that C gives to a byte behind a backslash, for the bytes that have one. */
  function LetterOf(b: byte): Option<char> {
    if b == 0x07 then Some('a') else if b == 0x08 then Some('b') else if b == 0x09 then Some('t')
    else if b == 0x0A then Some('n') else if b == 0x0B then Some('v') else if b == 0x0C then Some('f')
    else if b == 0x0D then Some('r') else if b == 0x1B then Some('e') else if b == 0x22 then Some('\"')
    else if b == 0x27 then Some('\'') else if b == 0x3F then Some('?') else if b == 0x5C then Some('\\')
    else None
  }

  function CharOf(c: char): byte { U8(c as int) }

  /** Every byte that has a letter is written with it. */
  function Spelled(s: seq<byte>): seq<byte> {
    if s == [] then []
    else
      (match LetterOf(s[0])
       case Some(c) => [CharOf('\\'), CharOf(c)]
       case None => [s[0]]) + Spelled(s[1..])
  }

  lemma EscapedLetter(b: byte)
    requires LetterOf(b).Some?
    ensures Escaped(CharOf(LetterOf(b).value)) == b
  {
  }

  lemma UnescapeTwo(c: byte, rest: seq<byte>)
    ensures Unescape([0x5C, c] + rest) == [Escaped(c)] + Unescape(rest)
  {
    hide Escaped;
    assert ([0x5C, c] + rest)[2..] == rest;
  }

  lemma UnescapeOne(c: byte, rest: seq<byte>)
    requires c != 0x5C
    ensures Unescape([c] + rest) == [c] + Unescape(rest)
  {
    assert ([c] + rest)[1..] == rest;
  }

  /** Whatever the bytes, written with the letters of C they come back. */
  lemma {:induction false} SpelledComesBack(s: seq<byte>)
    ensures Unescape(Spelled(s)) == s
  {
    hide Unescape, Escaped;
    if s == [] {
      assert Unescape([]) == [] by { RemainingEnds([], 0); }
    } else {
      SpelledComesBack(s[1..]);
      if LetterOf(s[0]).Some? {
        EscapedLetter(s[0]);
        UnescapeTwo(CharOf(LetterOf(s[0]).value), Spelled(s[1..]));
      } else {
        UnescapeOne(s[0], Spelled(s[1..]));
      }
      assert s == [s[0]] + s[1..];
    }
  }

  /** A backslash in front of any other character leaves that character. */
  lemma OtherCharacters(c: char, rest: seq<byte>)
    requires c as int < 256 && c !in "abefnrtv\\\'\"?"
    ensures Unescape([0x5C, c as int] + rest) == [c as int] + Unescape(rest)
  {
    hide Unescape;
    UnescapeTwo(c as int, rest);
    NotALetter(c);
  }

  lemma NotALetter(c: char)
    requires c as int < 256 && c !in "abefnrtv\\\'\"?"
    ensures Escaped(c as int) == c as int
  {
    var letters := "abefnrtv\\\'\"?";
    assert letters[0] == 'a' && letters[1] == 'b' && letters[2] == 'e' && letters[3] == 'f' && letters[4] == 'n' && letters[5] == 'r';
    assert letters[6] == 't' && letters[7] == 'v' && letters[8] == '\\' && letters[9] == '\'' && letters[10] == '\"' && letters[11] == '?';
    assert 'a' as int == 97 && 'b' as int == 98 && 'e' as int == 101 && 'f' as int == 102 && 'n' as int == 110 && 'r' as int == 114;
    assert 't' as int == 116 && 'v' as int == 118 && '\\' as int == 92 && '\'' as int == 39 && '\"' as int == 34 && '?' as int == 63;
  }

  /** The string of test/esc.asm, with its terminator. */
  lemma TestString()
    ensures Unescape(['a' as int, '\\' as int, 'n' as int, 'b' as int, '\\' as int, 't' as int, '\\' as int, '\\' as int]) + [0]
      == [97, 0x0A, 98, 0x09, 0x5C, 0]
  {
    var s := [97, 0x0A, 98, 0x09, 0x5C];
    SpelledComesBack(s);
    assert Spelled(s) == [97, 0x5C, 110, 98, 0x5C, 116, 0x5C, 0x5C];
  }

  // ----- the origin -----

  /** dir_org: once, in range; 0xFFFF leaves it unset. */
  method Org(ctx: Context, line: seq<Item>) returns (ok: bool)
    modifies ctx`org
    ensures ok <==> old(ctx.org) == ORG_UNSET && |line| == 1 && line[0].Number? && 0 <= line[0].v <= 0xFFFF
    ensures ctx.org == if ok then line[0].v else old(ctx.org)
    ensures ok ==> Base(ctx.org) == if line[0].v == 0xFFFF then 0 else line[0].v
  {
    if ctx.org != ORG_UNSET || |line| != 1 || !line[0].Number? || line[0].v < 0 || line[0].v > 0xFFFF {
      return false;
    }
    ctx.org := line[0].v;
    return true;
  }

  // ----- in memory -----

  /** A byte of a data line, where the loaded program has it. */
  lemma DataInMemory(s: State, lines: seq<Line>, base: word, k: nat, j: nat)
    requires Good(lines, base) && Loaded(s, lines, base) && k < |lines| && lines[k].Data? && j < |lines[k].bytes|
    ensures Address(lines, base, k) + j < ADDR_MB && Peek(s, Address(lines, base, k) + j) == lines[k].bytes[j]
  {
    hide Peek, Image;
    ImagePart(lines, base, k, |lines|, j);
    var at := Offset(lines, k) + j;
    assert Peek(s, base + at) == Image(lines, base, |lines|)[at];
  }

  /** The k-th word of a `@dd` line, read as the emulator reads a word. */
  lemma WordInMemory(s: State, lines: seq<Line>, base: word, n: nat, values: seq<int>, k: nat)
    requires Good(lines, base) && Loaded(s, lines, base) && n < |lines| && lines[n] == Data(WordBytes(values)) && k < |values|
    ensures Address(lines, base, n) + 2 * k + 1 < ADDR_MB
    ensures Pair(Peek(s, Address(lines, base, n) + 2 * k + 1), Peek(s, Address(lines, base, n) + 2 * k)) == U16(values[k])
  {
    hide Peek, Good, Loaded, WordBytes;
    TwoBytes(s, lines, base, n, WordBytes(values), 2 * k);
    WordAt(values, k);
  }

  lemma TwoBytes(s: State, lines: seq<Line>, base: word, n: nat, bytes: seq<byte>, j: nat)
    requires Good(lines, base) && Loaded(s, lines, base) && n < |lines| && lines[n] == Data(bytes) && j + 1 < |bytes|
    ensures Address(lines, base, n) + j + 1 < ADDR_MB
    ensures Peek(s, Address(lines, base, n) + j) == bytes[j] && Peek(s, Address(lines, base, n) + j + 1) == bytes[j + 1]
  {
    hide Peek, Good, Loaded;
    DataInMemory(s, lines, base, n, j);
    DataInMemory(s, lines, base, n, j + 1);
  }

  /** A string of n characters and its terminator lie from a up. */
  ghost predicate HoldsString(s: State, a: int, n: nat) {
    && 0 <= a && a + n < 65536 && Peek(s, a + n) == 0
    && forall x: word {:trigger Peek(s, x)} | a <= x < a + n :: Peek(s, x) != 0
  }

  /** A `@ds` line without a zero character is such a string. */
  lemma StringInMemory(s: State, lines: seq<Line>, base: word, n: nat, chars: seq<byte>)
    requires Good(lines, base) && Loaded(s, lines, base) && n < |lines|
    requires lines[n] == Data(Unescape(chars) + [0]) && 0 !in Unescape(chars)
    ensures HoldsString(s, Address(lines, base, n), |Unescape(chars)|)
  {
    hide Peek, Loaded, Unescape;
    var text := Unescape(chars);
    var a := Address(lines, base, n);
    DataInMemory(s, lines, base, n, |text|);
    assert (text + [0])[|text|] == 0;
    forall x: word | a <= x < a + |text|
      ensures Peek(s, x) != 0
    {
      DataInMemory(s, lines, base, n, x - a);
      assert (text + [0])[x - a] == text[x - a] && text[x - a] in text;
    }
  }
}
