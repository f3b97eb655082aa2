/** The generated password: base64 text cut to length, and how evenly it falls on all strings. */
module RandomPassword {
  import opened Base

  // ---- Arithmetic; products stay folded where their factors do not matter ----

  function Mul(a: nat, b: nat): nat {
    a * b
  }

  function Pow(b: nat, e: nat): (p: nat)
    ensures b > 0 ==> p > 0
  {
    if e == 0 then 1 else Mul(b, Pow(b, e - 1))
  }

  lemma MulMono(a: nat, b: nat, c: nat)
    requires a <= b
    ensures Mul(a, c) <= Mul(b, c)
  {
  }

  lemma MulAssoc(a: nat, b: nat, c: nat)
    ensures Mul(a, Mul(b, c)) == Mul(Mul(a, b), c)
  {
  }

  lemma MulComm(a: nat, b: nat)
    ensures Mul(a, b) == Mul(b, a)
  {
  }

  lemma MulAdd(a: nat, b: nat, c: nat)
    ensures Mul(a + b, c) == Mul(a, c) + Mul(b, c)
  {
  }

  lemma MulUnits(a: nat)
    ensures Mul(a, 1) == a == Mul(1, a) && Mul(0, a) == 0
  {
  }

  lemma {:induction false} PowAdd(b: nat, x: nat, y: nat)
    ensures Pow(b, x + y) == Mul(Pow(b, x), Pow(b, y))
  {
    hide Mul;
    if x == 0 {
      MulUnits(Pow(b, y));
    } else {
      PowAdd(b, x - 1, y);
      MulAssoc(b, Pow(b, x - 1), Pow(b, y));
    }
  }

  /** A quotient and a remainder below the divisor are determined by the number. */
  lemma SameQuotient(b: nat, p: nat, x: nat, q: nat, y: nat)
    requires x < b && y < b && Mul(p, b) + x == Mul(q, b) + y
    ensures p == q && x == y
  {
    hide Mul;
    MulAdd(p, 1, b);
    MulAdd(q, 1, b);
    MulUnits(b);
    if p < q {
      MulMono(p + 1, q, b);
    }
    if q < p {
      MulMono(q + 1, p, b);
    }
  }

  lemma Cancel(x: nat, z: nat, y: nat)
    requires y > 0 && Mul(x, y) == Mul(z, y)
    ensures x == z
  {
    SameQuotient(y, x, 0, z, 0);
  }

  lemma StepBelow(b: nat, v: nat, m: nat, x: nat)
    requires v < m && x < b
    ensures Mul(v, b) + x < Mul(b, m)
  {
    hide Mul;
    MulAdd(v, 1, b);
    MulUnits(b);
    MulMono(v + 1, m, b);
    MulComm(m, b);
  }

  // ---- Numbers as digits, most significant first ----

  predicate Digits(b: nat, s: seq<nat>) {
    forall i :: 0 <= i < |s| ==> s[i] < b
  }

  function Val(b: nat, s: seq<nat>): nat {
    if s == [] then 0 else Mul(Val(b, s[..|s| - 1]), b) + s[|s| - 1]
  }

  lemma LastDigit(b: nat, s: seq<nat>, x: nat)
    ensures Val(b, s + [x]) == Mul(Val(b, s), b) + x
  {
    hide Mul;
    assert (s + [x])[..|s|] == s;
  }

  lemma OneDigit(b: nat, x: nat)
    ensures Val(b, [x]) == x
  {
    MulUnits(b);
    LastDigit(b, [], x);
    assert [] + [x] == [x];
  }

  lemma Regroup(a: nat, p: nat, c: nat, b: nat)
    ensures Mul(Mul(a, p) + c, b) == Mul(a, Mul(b, p)) + Mul(c, b)
  {
    hide Mul;
    MulAdd(Mul(a, p), c, b);
    MulAssoc(a, p, b);
    MulComm(p, b);
  }

  lemma {:induction false} ValAppend(b: nat, s: seq<nat>, t: seq<nat>)
    ensures Val(b, s + t) == Mul(Val(b, s), Pow(b, |t|)) + Val(b, t)
  {
    hide Mul, Val;
    if t == [] {
      assert s + t == s;
      NoDigits(b);
      MulUnits(Val(b, s));
    } else {
      var u, x := t[..|t| - 1], t[|t| - 1];
      ValAppend(b, s, u);
      assert s + t == s + u + [x] && t == u + [x];
      LastDigit(b, s + u, x);
      LastDigit(b, u, x);
      Regroup(Val(b, s), Pow(b, |u|), Val(b, u), b);
    }
  }

  lemma NoDigits(b: nat)
    ensures Val(b, []) == 0
  {
  }

  lemma {:induction false} ValBelow(b: nat, s: seq<nat>)
    requires Digits(b, s)
    ensures Val(b, s) < Pow(b, |s|)
  {
    hide Mul;
    if s != [] {
      var u := s[..|s| - 1];
      ValBelow(b, u);
      StepBelow(b, Val(b, u), Pow(b, |u|), s[|s| - 1]);
    }
  }

  lemma {:induction false} ValInjective(b: nat, s: seq<nat>, t: seq<nat>)
    requires Digits(b, s) && Digits(b, t) && |s| == |t| && Val(b, s) == Val(b, t)
    ensures s == t
  {
    hide Mul;
    if s != [] {
      var u, v := s[..|s| - 1], t[..|t| - 1];
      var x, y := s[|s| - 1], t[|t| - 1];
      SameQuotient(b, Val(b, u), x, Val(b, v), y);
      ValInjective(b, u, v);
      assert s == u + [x] && t == v + [y];
    }
  }

  /** The last n bytes of a number. */
  function BytesOf(n: nat, v: nat): (s: seq<nat>)
    ensures |s| == n && Digits(256, s)
  {
    if n == 0 then [] else BytesOf(n - 1, v / 256) + [v % 256]
  }

  lemma {:induction false} BytesOfValue(n: nat, v: nat)
    requires v < Pow(256, n)
    ensures Val(256, BytesOf(n, v)) == v
  {
    if n > 0 {
      assert Pow(256, n) == 256 * Pow(256, n - 1);
      BytesOfValue(n - 1, v / 256);
      LastDigit(256, BytesOf(n - 1, v / 256), v % 256);
      hide Pow, Val;
    }
  }

  // ---- base64 without padding (RFC 4648, section 5) ----

  /** The length of the encoding of n bytes: 8n / 6, rounded up. */
  function TextLength(n: nat): (m: nat)
    ensures m >= n
  {
    (8 * n + 5) / 6
  }

  /** The sextets that encode a buffer: four for three bytes, and the last one or two bytes zero-padded. */
  function Sextets(buf: seq<nat>): (s: seq<nat>)
    requires Digits(256, buf)
    ensures Digits(64, s)
    ensures |s| == TextLength(|buf|)
  {
    if |buf| == 0 then []
    else if |buf| == 1 then [buf[0] / 4, buf[0] % 4 * 16]
    else if |buf| == 2 then [buf[0] / 4, buf[0] % 4 * 16 + buf[1] / 16, buf[1] % 16 * 4]
    else Quad(buf[0], buf[1], buf[2]) + Sextets(buf[3..])
  }

  function Quad(x: nat, y: nat, z: nat): seq<nat>
    requires x < 256 && y < 256 && z < 256
  {
    [x / 4, x % 4 * 16 + y / 16, y % 16 * 4 + z / 64, z % 64]
  }

  function Letter(d: nat): char
    requires d < 64
  {
    if d < 26 then 'A' + d as char
    else if d < 52 then 'a' + (d - 26) as char
    else if d < 62 then '0' + (d - 52) as char
    else if d == 62 then '-' else '_'
  }

  predicate InAlphabet(c: char) {
    'A' <= c <= 'Z' || 'a' <= c <= 'z' || '0' <= c <= '9' || c == '-' || c == '_'
  }

  function LetterValue(c: char): (d: nat)
    requires InAlphabet(c)
    ensures d < 64 && Letter(d) == c
  {
    if 'A' <= c <= 'Z' then (c - 'A') as nat
    else if 'a' <= c <= 'z' then 26 + (c - 'a') as nat
    else if '0' <= c <= '9' then 52 + (c - '0') as nat
    else if c == '-' then 62 else 63
  }

  function Letters(s: seq<nat>): (t: string)
    requires Digits(64, s)
    ensures |t| == |s|
  {
    seq(|s|, i requires 0 <= i < |s| => Letter(s[i]))
  }

  function LetterValues(t: string): (s: seq<nat>)
    requires forall i :: 0 <= i < |t| ==> InAlphabet(t[i])
    ensures Digits(64, s) && Letters(s) == t
  {
    var s := seq(|t|, i requires 0 <= i < |t| => LetterValue(t[i]));
    assert Letters(s) == t;
    s
  }

  lemma LettersInjective(s: seq<nat>, t: seq<nat>)
    requires Digits(64, s) && Digits(64, t) && Letters(s) == Letters(t)
    ensures s == t
  {
    forall i | 0 <= i < |s|
      ensures s[i] == t[i]
    {
      assert Letter(s[i]) == Letters(s)[i] == Letters(t)[i] == Letter(t[i]);
    }
  }

  /** The encoded text cut to as many characters as there are bytes. */
  function Password(buf: seq<nat>): (p: string)
    requires Digits(256, buf)
    ensures |p| == |buf| && forall i :: 0 <= i < |p| ==> InAlphabet(p[i])
  {
    Letters(Sextets(buf))[..|buf|]
  }

  // ---- What the sextets are worth ----

  /** The zero bits that fill the last sextet, as a factor. */
  function Pad(n: nat): nat {
    if n % 3 == 0 then 1 else if n % 3 == 1 then 16 else 4
  }

  lemma SmallPowers()
    ensures Pow(64, 0) == 1 && Pow(64, 2) == 4096 && Pow(64, 3) == 262144 && Pow(64, 4) == 16777216
    ensures Pow(256, 0) == 1 && Pow(256, 1) == 256 && Pow(256, 2) == 65536 && Pow(256, 3) == 16777216
  {
    assert Pow(64, 1) == 64 * Pow(64, 0);
    assert Pow(64, 2) == 64 * Pow(64, 1);
    assert Pow(64, 3) == 64 * Pow(64, 2);
    assert Pow(64, 4) == 64 * Pow(64, 3);
    assert Pow(256, 1) == 256 * Pow(256, 0);
    assert Pow(256, 2) == 256 * Pow(256, 1);
    assert Pow(256, 3) == 256 * Pow(256, 2);
  }

  lemma PadFillsSmall(n: nat)
    requires n < 3
    ensures Pow(64, TextLength(n)) == Mul(Pow(256, n), Pad(n))
  {
    SmallPowers();
    assert TextLength(0) == 0 && TextLength(1) == 2 && TextLength(2) == 3;
    assert Pad(0) == 1 && Pad(1) == 16 && Pad(2) == 4;
    hide Pow, TextLength, Pad;
  }

  lemma ThreeMore(n: nat)
    ensures TextLength(n + 3) == 4 + TextLength(n) && Pad(n + 3) == Pad(n)
  {
  }

  lemma {:induction false} PadFills(n: nat)
    ensures Pow(64, TextLength(n)) == Mul(Pow(256, n), Pad(n))
  {
    hide Pow, Mul, TextLength, Pad;
    if n < 3 {
      PadFillsSmall(n);
    } else {
      SmallPowers();
      ThreeMore(n - 3);
      PadFills(n - 3);
      PowAdd(64, 4, TextLength(n - 3));
      PowAdd(256, 3, n - 3);
      MulAssoc(16777216, Pow(256, n - 3), Pad(n - 3));
    }
  }

  lemma QuadValue(x: nat, y: nat, z: nat)
    requires x < 256 && y < 256 && z < 256
    ensures Val(64, Quad(x, y, z)) == Val(256, [x, y, z])
  {
    var a, b, c, d := x / 4, x % 4 * 16 + y / 16, y % 16 * 4 + z / 64, z % 64;
    OneDigit(64, a);
    LastDigit(64, [a], b);
    LastDigit(64, [a] + [b], c);
    LastDigit(64, [a] + [b] + [c], d);
    OneDigit(256, x);
    LastDigit(256, [x], y);
    LastDigit(256, [x] + [y], z);
    assert Quad(x, y, z) == [a] + [b] + [c] + [d] && [x, y, z] == [x] + [y] + [z];
    hide Val, Quad;
  }

  lemma ShortValue(buf: seq<nat>)
    requires Digits(256, buf) && |buf| < 3
    ensures Val(64, Sextets(buf)) == Mul(Val(256, buf), Pad(|buf|))
  {
    hide Val, Mul;
    assert Pad(1) == 16 && Pad(2) == 4;
    hide Pad;
    if |buf| == 0 {
      NoDigits(64);
      NoDigits(256);
      MulUnits(Pad(0));
      assert Sextets(buf) == [] && buf == [];
    } else if |buf| == 1 {
      OneValue(buf[0]);
      assert buf == [buf[0]];
    } else {
      TwoValue(buf[0], buf[1]);
      assert buf == [buf[0], buf[1]];
    }
  }

  lemma OneValue(x: nat)
    requires x < 256
    ensures Val(64, Sextets([x])) == Mul(Val(256, [x]), 16)
  {
    OneDigit(64, x / 4);
    LastDigit(64, [x / 4], x % 4 * 16);
    OneDigit(256, x);
    assert Sextets([x]) == [x / 4] + [x % 4 * 16];
    hide Val;
  }

  lemma TwoValue(x: nat, y: nat)
    requires x < 256 && y < 256
    ensures Val(64, Sextets([x, y])) == Mul(Val(256, [x, y]), 4)
  {
    var a, b, c := x / 4, x % 4 * 16 + y / 16, y % 16 * 4;
    OneDigit(64, a);
    LastDigit(64, [a], b);
    LastDigit(64, [a] + [b], c);
    OneDigit(256, x);
    LastDigit(256, [x], y);
    assert [x, y] == [x] + [y] && Sextets([x, y]) == [a] + [b] + [c];
    hide Val;
  }

  /** Read as one number, the sextets are the buffer shifted by the filling bits. */
  lemma {:induction false} SextetsValue(buf: seq<nat>)
    requires Digits(256, buf)
    ensures Val(64, Sextets(buf)) == Mul(Val(256, buf), Pad(|buf|))
  {
    hide Val, Pow, Mul, Quad, Pad, TextLength;
    if |buf| < 3 {
      ShortValue(buf);
    } else {
      var t, rest := buf[..3], buf[3..];
      var q := Quad(buf[0], buf[1], buf[2]);
      assert t == [buf[0], buf[1], buf[2]] && buf == t + rest && Sextets(buf) == q + Sextets(rest);
      hide Sextets;
      ThreeMore(|rest|);
      SextetsValue(rest);
      QuadValue(buf[0], buf[1], buf[2]);
      ValAppend(64, q, Sextets(rest));
      ValAppend(256, t, rest);
      PadFills(|rest|);
      Distribute(Val(256, t), Pow(256, |rest|), Val(256, rest), Pad(|rest|));
    }
  }

  lemma Distribute(a: nat, p: nat, b: nat, pad: nat)
    ensures Mul(a, Mul(p, pad)) + Mul(b, pad) == Mul(Mul(a, p) + b, pad)
  {
    hide Mul;
    MulAdd(Mul(a, p), b, pad);
    MulAssoc(a, p, pad);
  }

  /** 64 to the characters cut off is 4 per byte, times the filling. */
  lemma CutOff(n: nat)
    ensures Pow(64, TextLength(n) - n) == Mul(Pow(4, n), Pad(n))
  {
    hide Mul, Pow, TextLength;
    PadFills(n);
    PowAdd(64, TextLength(n) - n, n);
    PowSplit(n);
    CancelPower(Pow(64, TextLength(n) - n), Pow(64, n), Pow(4, n), Pad(n));
  }

  lemma CancelPower(x: nat, y: nat, f: nat, pad: nat)
    requires y > 0 && Mul(x, y) == Mul(Mul(f, y), pad)
    ensures x == Mul(f, pad)
  {
    hide Mul;
    MulAssoc(f, y, pad);
    MulComm(y, pad);
    MulAssoc(f, pad, y);
    Cancel(x, Mul(f, pad), y);
  }

  lemma {:induction false} PowSplit(n: nat)
    ensures Pow(256, n) == Mul(Pow(4, n), Pow(64, n))
  {
    hide Mul;
    if n == 0 {
      MulUnits(1);
    } else {
      PowSplit(n - 1);
      Interleave(Pow(4, n - 1), Pow(64, n - 1));
    }
  }

  lemma Interleave(a: nat, b: nat)
    ensures Mul(256, Mul(a, b)) == Mul(Mul(4, a), Mul(64, b))
  {
    assert 256 * (a * b) == (4 * a) * (64 * b);
  }

  /** x is v followed by 2n more bits. */
  ghost predicate Extends(v: nat, n: nat, x: nat) {
    Mul(v, Pow(4, n)) <= x < Mul(v + 1, Pow(4, n))
  }

  ghost function Head(buf: seq<nat>): (s: seq<nat>)
    requires Digits(256, buf)
    ensures |s| == |buf| && Digits(64, s)
  {
    Sextets(buf)[..|buf|]
  }

  lemma HeadLetters(buf: seq<nat>)
    requires Digits(256, buf)
    ensures Letters(Head(buf)) == Password(buf)
  {
    hide Sextets;
    var s := Sextets(buf);
    assert Letters(s[..|buf|]) == Letters(s)[..|buf|];
  }

  lemma HeadAndRest(s: seq<nat>, n: nat)
    requires Digits(64, s) && n <= |s|
    ensures Val(64, s) == Mul(Val(64, s[..n]), Pow(64, |s| - n)) + Val(64, s[n..])
    ensures Val(64, s[n..]) < Pow(64, |s| - n)
  {
    hide Val, Pow, Mul;
    assert s == s[..n] + s[n..];
    ValAppend(64, s[..n], s[n..]);
    ValBelow(64, s[n..]);
  }

  lemma HeadEquation(buf: seq<nat>) returns (rest: nat)
    requires Digits(256, buf)
    ensures var n := |buf|;
            && rest < Mul(Pow(4, n), Pad(n))
            && Mul(Val(256, buf), Pad(n)) == Mul(Val(64, Head(buf)), Mul(Pow(4, n), Pad(n))) + rest
  {
    hide Val, Pow, Mul, Pad, Sextets, TextLength;
    var n, s := |buf|, Sextets(buf);
    HeadAndRest(s, n);
    SextetsValue(buf);
    CutOff(n);
    assert Head(buf) == s[..n];
    rest := Val(64, s[n..]);
  }

  /** The password's characters are the buffer's number without its last two bits per byte. */
  lemma PasswordValue(buf: seq<nat>)
    requires Digits(256, buf)
    ensures Extends(Val(64, Head(buf)), |buf|, Val(256, buf))
  {
    hide Val, Pow, Mul, Pad, Head;
    var rest := HeadEquation(buf);
    PadPositive(|buf|);
    Bracket(Val(256, buf), Pad(|buf|), Val(64, Head(buf)), Pow(4, |buf|), rest);
  }

  lemma PadPositive(n: nat)
    ensures Pad(n) > 0
  {
  }

  lemma Bracket(v: nat, pad: nat, p: nat, f: nat, r: nat)
    requires pad > 0 && Mul(v, pad) == Mul(p, Mul(f, pad)) + r && r < Mul(f, pad)
    ensures Mul(p, f) <= v < Mul(p + 1, f)
  {
    hide Mul;
    var lo, hi, g := Mul(p, f), Mul(p + 1, f), Mul(f, pad);
    MulAssoc(p, f, pad);
    MulAssoc(p + 1, f, pad);
    MulAdd(p, 1, g);
    MulUnits(g);
    MulAdd(v, 1, pad);
    MulUnits(pad);
    if v < lo {
      MulMono(v + 1, lo, pad);
    }
    if hi <= v {
      MulMono(hi, v, pad);
    }
  }

  // ---- Counting buffers ----

  /** All byte buffers of length n. */
  function Buffers(n: nat): set<seq<nat>> {
    if n == 0 then {[]}
    else set b, x: nat | b in Buffers(n - 1) && x < 256 :: b + [x]
  }

  lemma {:induction false} BuffersAreAll(n: nat, b: seq<nat>)
    ensures b in Buffers(n) <==> |b| == n && Digits(256, b)
  {
    if n > 0 {
      if |b| == n {
        BuffersAreAll(n - 1, b[..n - 1]);
        assert b == b[..n - 1] + [b[n - 1]];
      }
      if b in Buffers(n) {
        var c, x: nat :| c in Buffers(n - 1) && x < 256 && b == c + [x];
        BuffersAreAll(n - 1, c);
        assert b[..n - 1] == c;
      }
    }
  }

  ghost function Between(n: nat, lo: nat, hi: nat): set<seq<nat>> {
    set b | b in Buffers(n) && lo <= Val(256, b) < hi
  }

  /** As many buffers as numbers. */
  lemma BetweenGrows(n: nat, lo: nat, hi: nat)
    requires lo < hi <= Pow(256, n)
    ensures var b := BytesOf(n, hi - 1);
            b !in Between(n, lo, hi - 1) && Between(n, lo, hi) == Between(n, lo, hi - 1) + {b}
  {
    var b := BytesOf(n, hi - 1);
    BytesOfValue(n, hi - 1);
    BuffersAreAll(n, b);
    hide Val, Pow, Buffers;
    forall c | c in Between(n, lo, hi) && Val(256, c) == hi - 1
      ensures c == b
    {
      BuffersAreAll(n, c);
      ValInjective(256, c, b);
    }
  }

  lemma {:induction false} BetweenCount(n: nat, lo: nat, hi: nat)
    requires lo <= hi <= Pow(256, n)
    ensures |Between(n, lo, hi)| == hi - lo
    decreases hi
  {
    if lo < hi {
      BetweenCount(n, lo, hi - 1);
      BetweenGrows(n, lo, hi);
    } else {
      assert Between(n, lo, hi) == {};
    }
  }

  ghost function SourcesOf(p: string): set<seq<nat>> {
    set b | b in Buffers(|p|) && Digits(256, b) && Password(b) == p
  }

  lemma SourceRange(b: seq<nat>, p: string)
    requires Digits(256, b) && |b| == |p| && forall i :: 0 <= i < |p| ==> InAlphabet(p[i])
    ensures Password(b) == p <==> Extends(Val(64, LetterValues(p)), |p|, Val(256, b))
  {
    hide Val, Pow, Sextets, LetterValues, Head, Password, Letters, Extends;
    var s, t := Head(b), LetterValues(p);
    PasswordValue(b);
    HeadLetters(b);
    if Password(b) == p {
      LettersInjective(s, t);
    }
    if Extends(Val(64, t), |p|, Val(256, b)) {
      SameExtension(Val(64, t), Val(64, s), |p|, Val(256, b));
      ValInjective(64, s, t);
    }
  }

  lemma SameExtension(v: nat, w: nat, n: nat, x: nat)
    requires Extends(v, n, x) && Extends(w, n, x)
    ensures v == w
  {
    SameInterval(Pow(4, n), v, w, x);
  }

  lemma SameInterval(f: nat, p: nat, q: nat, v: nat)
    requires Mul(p, f) <= v < Mul(p + 1, f) && Mul(q, f) <= v < Mul(q + 1, f)
    ensures p == q
  {
    hide Mul;
    if p < q {
      MulMono(p + 1, q, f);
    }
    if q < p {
      MulMono(q + 1, p, f);
    }
  }

  lemma SourceInterval(p: string, b: seq<nat>)
    requires forall i :: 0 <= i < |p| ==> InAlphabet(p[i])
    ensures var n, v := |p|, Val(64, LetterValues(p));
            && (b in SourcesOf(p) <==> b in Between(n, Mul(v, Pow(4, n)), Mul(v + 1, Pow(4, n))))
            && (b in Buffers(n) <==> b in Between(n, 0, Pow(256, n)))
  {
    hide Val, Pow, LetterValues, Buffers, Mul, Password;
    BuffersAreAll(|p|, b);
    if b in Buffers(|p|) {
      SourceRange(b, p);
      ValBelow(256, b);
    }
  }

  /**
   * Every string of n alphabet characters is the password of exactly 4 to the n of the 256 to the n
   * buffers: a uniform buffer gives a uniform password.
   */
  lemma PasswordIsUniform(p: string)
    requires forall i :: 0 <= i < |p| ==> InAlphabet(p[i])
    ensures |SourcesOf(p)| == Pow(4, |p|)
    ensures |Buffers(|p|)| == Pow(256, |p|)
  {
    hide Val, Pow, LetterValues, Buffers, Mul, Password;
    var n, v := |p|, Val(64, LetterValues(p));
    var lo, hi := Mul(v, Pow(4, n)), Mul(v + 1, Pow(4, n));
    ValBelow(64, LetterValues(p));
    PowSplit(n);
    IntervalFits(v, Pow(4, n), Pow(64, n), Pow(256, n));
    forall b {:trigger b in Buffers(n)}
      ensures b in SourcesOf(p) <==> b in Between(n, lo, hi)
      ensures b in Buffers(n) <==> b in Between(n, 0, Pow(256, n))
    {
      SourceInterval(p, b);
    }
    assert SourcesOf(p) == Between(n, lo, hi);
    assert Buffers(n) == Between(n, 0, Pow(256, n));
    hide SourcesOf, Between;
    BetweenCount(n, lo, hi);
    BetweenCount(n, 0, Pow(256, n));
  }

  lemma IntervalFits(v: nat, f: nat, m: nat, all: nat)
    requires v < m && all == Mul(f, m)
    ensures Mul(v, f) <= Mul(v + 1, f) <= all && Mul(v + 1, f) - Mul(v, f) == f
  {
    hide Mul;
    MulMono(v + 1, m, f);
    MulComm(m, f);
    MulAdd(v, 1, f);
    MulUnits(f);
  }

  /** The random source: all bytes asked for, or an error. */
  method GenerateRandomPassword(length: nat, random: Option<seq<nat>>) returns (r: Option<string>)
    requires random.Some? ==> |random.value| == length && Digits(256, random.value)
    ensures r.Some? <==> random.Some?
    ensures r.Some? ==> r.value == Password(random.value)
    ensures r.Some? ==> |r.value| == length && forall i :: 0 <= i < length ==> InAlphabet(r.value[i])
  {
    var buf := new nat[length];
    if random.None? {
      return None;
    }
    for i := 0 to length
      invariant buf[..i] == random.value[..i]
    {
      buf[i] := random.value[i];
    }
    assert buf[..] == random.value;
    return Some(Letters(Sextets(buf[..]))[..length]);
  }
}
