/** Comments are stored without invalid UTF-8 and without NUL: a compaction loop over one buffer, checked against the
    grammar of section 4 of RFC 3629. */
module Utf8Filter {

  type Octet = x: int | 0 <= x < 256

  // ---------------------------------------------------------------- section 4 of RFC 3629

  predicate In(x: int, lo: int, hi: int) { lo <= x <= hi }

  predicate Tail(x: Octet) { In(x, 0x80, 0xBF) }

  predicate Utf8Char(c: seq<Octet>) { Utf8One(c) || Utf8Two(c) || Utf8Three(c) || Utf8Four(c) }

  predicate Utf8One(c: seq<Octet>) { |c| == 1 && In(c[0], 0x00, 0x7F) }

  predicate Utf8Two(c: seq<Octet>) { |c| == 2 && In(c[0], 0xC2, 0xDF) && Tail(c[1]) }

  predicate Utf8Three(c: seq<Octet>) {
    |c| == 3 && Tail(c[2])
    && (|| (c[0] == 0xE0 && In(c[1], 0xA0, 0xBF))
        || (In(c[0], 0xE1, 0xEC) && Tail(c[1]))
        || (c[0] == 0xED && In(c[1], 0x80, 0x9F))
        || (In(c[0], 0xEE, 0xEF) && Tail(c[1])))
  }

  predicate Utf8Four(c: seq<Octet>) {
    |c| == 4 && Tail(c[2]) && Tail(c[3])
    && (|| (c[0] == 0xF0 && In(c[1], 0x90, 0xBF))
        || (In(c[0], 0xF1, 0xF3) && Tail(c[1]))
        || (c[0] == 0xF4 && In(c[1], 0x80, 0x8F)))
  }

  /** UTF8-octets: any number of characters. */
  predicate Valid(b: seq<Octet>)
    decreases |b|
  {
    b == [] || exists n :: 1 <= n <= |b| && Utf8Char(b[..n]) && Valid(b[n..])
  }

  // ---------------------------------------------------------------- decoding one rune

  const RUNE_ERROR := 0xFFFD

  datatype Decoded = Decoded(rune: int, size: nat)

  const INVALID := Decoded(RUNE_ERROR, 1)

  /** The code point of the shortest encoding in front, or the error rune and one byte: no overlong encoding, no
      surrogate, nothing above 0x10FFFF. */
  function DecodeRune(b: seq<Octet>): (d: Decoded)
    requires b != []
    ensures 1 <= d.size <= |b|
  {
    if b[0] < 0x80 then Decoded(b[0], 1)
    else if In(b[0], 0xC0, 0xDF) && |b| >= 2 && Tail(b[1]) then
      var r := Bits(b[0], 0xC0) * 0x40 + Bits(b[1], 0x80);
      if r < 0x80 then INVALID else Decoded(r, 2)
    else if In(b[0], 0xE0, 0xEF) && |b| >= 3 && Tail(b[1]) && Tail(b[2]) then
      var r := Bits(b[0], 0xE0) * 0x1000 + Bits(b[1], 0x80) * 0x40 + Bits(b[2], 0x80);
      if r < 0x800 || In(r, 0xD800, 0xDFFF) then INVALID else Decoded(r, 3)
    else if In(b[0], 0xF0, 0xF7) && |b| >= 4 && Tail(b[1]) && Tail(b[2]) && Tail(b[3]) then
      var r := Bits(b[0], 0xF0) * 0x40000 + Bits(b[1], 0x80) * 0x1000 + Bits(b[2], 0x80) * 0x40 + Bits(b[3], 0x80);
      if r < 0x10000 || r > 0x10FFFF then INVALID else Decoded(r, 4)
    else INVALID
  }

  /** The payload bits of an octet that starts with this mark. */
  function Bits(x: int, mark: int): int { x - mark }

  predicate Accepted(d: Decoded) { d.rune != RUNE_ERROR || d.size > 1 }

  /** The test of the loop accepts exactly the characters of the grammar, and no other prefix is one. */
  lemma AcceptsTheGrammar(b: seq<Octet>)
    requires b != []
    ensures Accepted(DecodeRune(b)) <==> Utf8Char(b[..DecodeRune(b).size])
    ensures forall n :: 1 <= n <= |b| && Utf8Char(b[..n]) ==> n == DecodeRune(b).size
  {
    forall n | 1 <= n <= |b| && Utf8Char(b[..n]) ensures n == DecodeRune(b).size {
      assert forall i :: 0 <= i < n ==> b[..n][i] == b[i];
    }
  }

  // ---------------------------------------------------------------- the filter as a function

  function Kept(b: seq<Octet>): seq<Octet>
    decreases |b|
  {
    if b == [] then []
    else
      var d := DecodeRune(b);
      (if Accepted(d) then b[..d.size] else []) + Kept(b[d.size..])
  }

  function WithoutNul(b: seq<Octet>): seq<Octet> {
    if b == [] then [] else (if b[0] == 0 then [] else [b[0]]) + WithoutNul(b[1..])
  }

  function Stripped(b: seq<Octet>): seq<Octet> { WithoutNul(Kept(b)) }

  /** The loop of the program: reads run ahead of writes in one buffer. */
  method StripInvalidUtf8(s: seq<Octet>) returns (t: seq<Octet>)
    ensures t == Stripped(s)
  {
    var b := new Octet[|s|](i requires 0 <= i < |s| => s[i]);
    var w, r := 0, 0;
    ghost var rest, written := s, [];
    assert b[..] == s;
    while r < b.Length
      invariant 0 <= w <= r <= b.Length
      invariant b[..w] == written && b[r..] == rest
      invariant written + Kept(rest) == Kept(s)
    {
      w, r, written, rest := Turn(b, w, r, written, rest);
    }
    assert written + Kept(rest) == written;
    t := WithoutNul(b[..w]);
  }

  /** One turn of the loop: decode in front of r, move what is kept down to w. */
  method Turn(b: array<Octet>, w: nat, r: nat, ghost written: seq<Octet>, ghost rest: seq<Octet>)
    returns (w': nat, r': nat, ghost written': seq<Octet>, ghost rest': seq<Octet>)
    requires w <= r < b.Length && b[..w] == written && b[r..] == rest
    modifies b
    ensures w' <= r' <= b.Length && r < r' && b[..w'] == written' && b[r'..] == rest'
    ensures written' + Kept(rest') == written + Kept(rest)
  {
    var d := DecodeRune(b[r..]);
    KeptStep(written, rest);
    Onward(b[..], r, d.size);
    w', r', written', rest' := w, r + d.size, written, rest[d.size..];
    if d.rune != RUNE_ERROR || d.size > 1 {
      MoveDown(b, w, r, d.size);
      w', written' := w + d.size, written + rest[..d.size];
    }
  }

  lemma Onward(s: seq<Octet>, r: nat, size: nat)
    requires r + size <= |s|
    ensures s[r..][..size] == s[r..r + size]
    ensures s[r..][size..] == s[r + size..]
  {
  }

  /** One turn of the loop, on what is written and what is still to be read. */
  lemma KeptStep(done: seq<Octet>, rest: seq<Octet>)
    requires rest != []
    ensures var d := DecodeRune(rest);
      done + Kept(rest) == (if Accepted(d) then done + rest[..d.size] else done) + Kept(rest[d.size..])
  {
    var d := DecodeRune(rest);
    if !Accepted(d) { assert Kept(rest) == Kept(rest[d.size..]); }
  }

  /** append over the same buffer: the bytes from r on move down to w. */
  method MoveDown(b: array<Octet>, w: nat, r: nat, size: nat)
    requires w <= r && r + size <= b.Length
    modifies b
    ensures b[..w + size] == old(b[..w] + b[r..r + size])
    ensures b[r + size..] == old(b[r + size..])
  {
    ghost var before := b[..];
    for i := 0 to size
      invariant forall k :: 0 <= k < w ==> b[k] == before[k]
      invariant forall k :: w <= k < w + i ==> b[k] == before[k + (r - w)]
      invariant forall k :: r + i <= k < b.Length ==> b[k] == before[k]
    {
      b[w + i] := b[r + i];
    }
    assert b[..w + size] == before[..w] + before[r..r + size];
  }

  // ---------------------------------------------------------------- what it promises

  lemma ValidFront(c: seq<Octet>, b: seq<Octet>)
    requires Utf8Char(c) && Valid(b)
    ensures Valid(c + b)
  {
    assert (c + b)[..|c|] == c && (c + b)[|c|..] == b;
  }

  lemma {:induction false} KeptIsValid(b: seq<Octet>)
    ensures Valid(Kept(b))
    decreases |b|
  {
    if b != [] {
      AcceptsTheGrammar(b);
      var d := DecodeRune(b);
      KeptIsValid(b[d.size..]);
      if Accepted(d) { ValidFront(b[..d.size], Kept(b[d.size..])); } else { assert Kept(b) == Kept(b[d.size..]); }
    }
  }

  lemma {:induction false} NulFree(b: seq<Octet>)
    ensures 0 !in WithoutNul(b)
    ensures 0 !in b ==> WithoutNul(b) == b
  {
    if b != [] { NulFree(b[1..]); }
  }

  lemma {:induction false} WithoutNulConcat(a: seq<Octet>, b: seq<Octet>)
    ensures WithoutNul(a + b) == WithoutNul(a) + WithoutNul(b)
  {
    if a == [] {
      assert a + b == b;
    } else {
      assert (a + b)[0] == a[0] && (a + b)[1..] == a[1..] + b;
      WithoutNulConcat(a[1..], b);
    }
  }

  /** Dropping NUL keeps characters whole: no character of more than one octet contains it. */
  lemma {:induction false} WithoutNulIsValid(b: seq<Octet>)
    requires Valid(b)
    ensures Valid(WithoutNul(b))
    decreases |b|
  {
    if b != [] {
      var n :| 1 <= n <= |b| && Utf8Char(b[..n]) && Valid(b[n..]);
      var c, rest := b[..n], b[n..];
      WithoutNulIsValid(rest);
      assert b == c + rest;
      WithoutNulConcat(c, rest);
      if c == [0] {
        assert WithoutNul(c) == WithoutNul(c[1..]) == [];
        assert WithoutNul(b) == WithoutNul(rest);
      } else {
        CharWithoutNul(c);
        NulFree(c);
        ValidFront(c, WithoutNul(rest));
      }
    }
  }

  lemma CharWithoutNul(c: seq<Octet>)
    requires Utf8Char(c) && c != [0]
    ensures 0 !in c
  {
  }

  lemma {:induction false} KeepsValid(b: seq<Octet>)
    requires Valid(b)
    ensures Kept(b) == b
    decreases |b|
  {
    if b != [] {
      AcceptsTheGrammar(b);
      var n :| 1 <= n <= |b| && Utf8Char(b[..n]) && Valid(b[n..]);
      KeepsValid(b[n..]);
      assert b == b[..n] + b[n..];
    }
  }

  predicate Subsequence(x: seq<Octet>, y: seq<Octet>)
    decreases |y|
  {
    x == [] || (y != [] && ((x[0] == y[0] && Subsequence(x[1..], y[1..])) || Subsequence(x, y[1..])))
  }

  lemma {:induction false} SubsequenceTwice(x: seq<Octet>, y: seq<Octet>, z: seq<Octet>)
    requires Subsequence(x, y) && Subsequence(y, z)
    ensures Subsequence(x, z)
    decreases |z|
  {
    if x != [] {
      if y[0] == z[0] && Subsequence(y[1..], z[1..]) {
        if x[0] == y[0] && Subsequence(x[1..], y[1..]) {
          SubsequenceTwice(x[1..], y[1..], z[1..]);
        } else {
          SubsequenceTwice(x, y[1..], z[1..]);
        }
      } else {
        SubsequenceTwice(x, y, z[1..]);
      }
    }
  }

  lemma {:induction false} BehindPrefix(c: seq<Octet>, x: seq<Octet>, y: seq<Octet>)
    requires Subsequence(x, y)
    ensures Subsequence(x, c + y) && Subsequence(c + x, c + y)
    decreases |c|
  {
    if c == [] {
      assert c + x == x && c + y == y;
    } else {
      BehindPrefix(c[1..], x, y);
      assert (c + y)[0] == c[0] && (c + y)[1..] == c[1..] + y;
      assert (c + x)[0] == c[0] && (c + x)[1..] == c[1..] + x;
    }
  }

  lemma {:induction false} KeptIsSubsequence(b: seq<Octet>)
    ensures Subsequence(Kept(b), b)
    decreases |b|
  {
    if b != [] {
      var d := DecodeRune(b);
      KeptIsSubsequence(b[d.size..]);
      BehindPrefix(b[..d.size], Kept(b[d.size..]), b[d.size..]);
      assert b == b[..d.size] + b[d.size..];
      if !Accepted(d) { assert Kept(b) == Kept(b[d.size..]); }
    }
  }

  lemma {:induction false} WithoutNulIsSubsequence(b: seq<Octet>)
    ensures Subsequence(WithoutNul(b), b)
  {
    if b != [] {
      WithoutNulIsSubsequence(b[1..]);
      if b[0] == 0 {
        assert WithoutNul(b) == WithoutNul(b[1..]);
      } else {
        assert WithoutNul(b)[1..] == WithoutNul(b[1..]);
      }
    }
  }

  /** What the filter keeps, in terms of the grammar: a character in front stays whole, and an octet that starts none is
      dropped alone. */
  lemma KeepsCharacters(b: seq<Octet>)
    requires b != []
    ensures forall n :: 1 <= n <= |b| && Utf8Char(b[..n]) ==> Kept(b) == b[..n] + Kept(b[n..])
    ensures (forall n :: 1 <= n <= |b| ==> !Utf8Char(b[..n])) ==> Kept(b) == Kept(b[1..])
  {
    AcceptsTheGrammar(b);
    var d := DecodeRune(b);
    if !Accepted(d) { assert Kept(b) == Kept(b[d.size..]); }
  }

  /** Of the rest exactly the NULs go. */
  lemma {:induction false} DropsOnlyNul(b: seq<Octet>)
    ensures forall x :: multiset(WithoutNul(b))[x] == if x == 0 then 0 else multiset(b)[x]
  {
    if b != [] {
      DropsOnlyNul(b[1..]);
      assert b == [b[0]] + b[1..];
    }
  }

  /** For every input: the output is valid and free of NUL, a subsequence of the input, the input itself exactly when
      that was valid and free of NUL already, and a second pass changes nothing. */
  lemma StripsExactly(b: seq<Octet>)
    ensures Valid(Stripped(b)) && 0 !in Stripped(b)
    ensures Subsequence(Stripped(b), b)
    ensures Stripped(b) == b <==> Valid(b) && 0 !in b
    ensures Stripped(Stripped(b)) == Stripped(b)
  {
    KeptIsValid(b);
    WithoutNulIsValid(Kept(b));
    NulFree(Kept(b));
    KeptIsSubsequence(b);
    WithoutNulIsSubsequence(Kept(b));
    SubsequenceTwice(Stripped(b), Kept(b), b);
    KeepsValid(Stripped(b));
    NulFree(Stripped(b));
    if Valid(b) && 0 !in b {
      KeepsValid(b);
      NulFree(b);
    }
  }
}
