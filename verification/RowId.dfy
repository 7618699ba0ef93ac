/**
 The row-id codec (crates/repo/src/id.rs): 16 bytes as 26 Crockford base32 characters, by two
 loops over a 32-bit accumulator that shifts bits out at the top.

 The reference both loops are proved against is positional notation: the bytes are the base-256
 digits of a number, the characters the base-32 digits of four times that number.
 */
module RowId {
  import opened Common

  const ROW_ID_BYTES := 16
  const ROW_ID_CHARS := 26
  const WORD := 0x1_0000_0000

  type Digit = d: nat | d < 32

  datatype Error = WrongRowIdLength(expected: nat, got: nat) | InvalidRowIdChar(ch: char)

  // ----- the alphabet

  /** `CROCKFORD[d]`: ten numerals, then the letters without I, L, O and U. */
  function Symbol(d: Digit): char {
    if d < 10 then '0' + d as char
    else if d < 18 then 'A' + (d - 10) as char
    else if d < 20 then 'J' + (d - 18) as char
    else if d < 22 then 'M' + (d - 20) as char
    else if d < 27 then 'P' + (d - 22) as char
    else 'V' + (d - 27) as char
  }

  lemma AlphabetIsCrockford()
    ensures seq(32, d requires 0 <= d < 32 => Symbol(d)) == "0123456789ABCDEFGHJKMNPQRSTVWXYZ"
  {
  }

  /** `to_ascii_uppercase`. */
  function Upper(c: char): char {
    if 'a' <= c <= 'z' then c - 'a' + 'A' else c
  }

  /** `position` from index `d` on. */
  function PositionFrom(c: char, d: nat): (r: Option<Digit>)
    requires d <= 32
    ensures r.Some? ==> Symbol(r.value) == c
    decreases 32 - d
  {
    if d == 32 then None else if Symbol(d) == c then Some(d) else PositionFrom(c, d + 1)
  }

  function Position(c: char): Option<Digit> {
    PositionFrom(Upper(c), 0)
  }

  lemma {:induction false} PositionFindsSymbol(d: Digit, from: nat)
    requires from <= d
    ensures PositionFrom(Symbol(d), from) == Some(d)
    decreases d - from
  {
    if from < d { PositionFindsSymbol(d, from + 1); }
  }

  lemma PositionOfSymbol(d: Digit)
    ensures Position(Symbol(d)) == Some(d) && Upper(Symbol(d)) == Symbol(d)
  {
    PositionFindsSymbol(d, 0);
  }

  /** The characters that are digits of an id: those of the alphabet, letters in either case. */
  predicate IsDigit(c: char) {
    c in "0123456789ABCDEFGHJKMNPQRSTVWXYZ" || c in "abcdefghjkmnpqrstvwxyz"
  }

  function Lower(c: char): char {
    if 'A' <= c <= 'Z' then c - 'A' + 'a' else c
  }

  lemma SymbolInAlphabet(d: Digit)
    ensures Symbol(d) == "0123456789ABCDEFGHJKMNPQRSTVWXYZ"[d]
  {
  }

  /** Exactly the characters of the alphabet, in either case, are read. */
  lemma PositionExactly(c: char)
    ensures Position(c).Some? <==> IsDigit(c)
  {
    if Position(c).Some? {
      SymbolInAlphabet(Position(c).value);
      UpperFromAlphabet(c);
    }
    if IsDigit(c) {
      UpperInAlphabet(c);
      var d :| 0 <= d < 32 && "0123456789ABCDEFGHJKMNPQRSTVWXYZ"[d] == Upper(c);
      SymbolInAlphabet(d);
      PositionFindsSymbol(d, 0);
    }
  }

  lemma UpperInAlphabet(c: char)
    requires IsDigit(c)
    ensures Upper(c) in "0123456789ABCDEFGHJKMNPQRSTVWXYZ"
  {
  }

  lemma UpperFromAlphabet(c: char)
    requires Upper(c) in "0123456789ABCDEFGHJKMNPQRSTVWXYZ"
    ensures IsDigit(c)
  {
  }

  // ----- positional notation

  function Pow(base: nat, n: nat): nat {
    if n == 0 then 1 else base * Pow(base, n - 1)
  }

  /** The number with these digits, most significant first. */
  function FromBase(digits: seq<nat>, base: nat): nat {
    if digits == [] then 0 else FromBase(digits[..|digits| - 1], base) * base + digits[|digits| - 1]
  }

  /** The last `n` digits of `x`. */
  function ToBase(x: nat, base: nat, n: nat): (r: seq<nat>)
    requires base > 0
    ensures |r| == n && forall i :: 0 <= i < n ==> r[i] < base
    decreases n
  {
    if n == 0 then [] else ToBase(x / base, base, n - 1) + [x % base]
  }

  lemma DivMod(q: nat, base: nat, r: nat)
    requires r < base
    ensures (q * base + r) / base == q && (q * base + r) % base == r
  {
    var x := q * base + r;
    var d := x / base - q;
    assert d * base == r - x % base;
    assert d >= 1 ==> d * base >= base;
    assert d <= -1 ==> d * base + base <= 0;
  }

  lemma JoinBound(q: nat, base: nat, r: nat, p: nat)
    requires q < p && r < base
    ensures q * base + r < base * p
  {
    assert (q + 1) * base <= p * base;
  }

  lemma {:induction false} DigitsOfNumber(digits: seq<nat>, base: nat)
    requires base > 0 && forall i :: 0 <= i < |digits| ==> digits[i] < base
    ensures ToBase(FromBase(digits, base), base, |digits|) == digits
    ensures FromBase(digits, base) < Pow(base, |digits|)
  {
    if digits != [] {
      var front, last := digits[..|digits| - 1], digits[|digits| - 1];
      DigitsOfNumber(front, base);
      DivMod(FromBase(front, base), base, last);
      JoinBound(FromBase(front, base), base, last, Pow(base, |front|));
      assert digits == front + [last];
    }
  }

  lemma DivBelow(x: nat, base: nat, p: nat)
    requires base > 0 && x < base * p
    ensures x / base < p
  {
  }

  lemma DivIdentity(x: nat, base: nat)
    requires base > 0
    ensures x / base * base + x % base == x
  {
  }

  lemma {:induction false} NumberOfDigits(x: nat, base: nat, n: nat)
    requires base > 0 && x < Pow(base, n)
    ensures FromBase(ToBase(x, base, n), base) == x
    decreases n
  {
    if n > 0 {
      var q, r := x / base, x % base;
      DivBelow(x, base, Pow(base, n - 1));
      NumberOfDigits(q, base, n - 1);
      FromBasePush(ToBase(q, base, n - 1), r, base);
      DivIdentity(x, base);
    }
  }

  /** 26 digits of 5 bits hold 16 bytes and two bits over. */
  lemma Sizes(n: nat)
    requires n == 16
    ensures 4 * Pow(256, n) == Pow(32, CharsFor(n))
  {
    PowersOf256();
    PowersOf32();
  }

  lemma PowersOf256()
    ensures Pow(256, 16) == 0x1_0000_0000_0000_0000_0000_0000_0000_0000
  {
    assert Pow(256, 8) == 0x1_0000_0000_0000_0000;
  }

  lemma PowersOf32()
    ensures Pow(32, 26) == 0x4_0000_0000_0000_0000_0000_0000_0000_0000
  {
    assert Pow(32, 13) == 0x2_0000_0000_0000_0000;
  }

  // ----- the reference codec

  function Encode(bytes: seq<Byte>): Result<string, Error> {
    if |bytes| != ROW_ID_BYTES then Err(WrongRowIdLength(ROW_ID_BYTES, |bytes|))
    else Ok(Spell(DigitsOf(bytes)))
  }

  /** `ceil(8 * n / 5)` characters for `n` bytes, and how many whole bytes `n` characters hold. */
  function CharsFor(n: nat): nat {
    (8 * n + 4) / 5
  }

  function BytesFor(n: nat): nat {
    5 * n / 8
  }

  /** The bytes as one number, moved up to leave the last two bits zero, in base 32. */
  function DigitsOf(bytes: seq<nat>): (r: seq<nat>)
    ensures |r| == CharsFor(|bytes|) && forall i :: 0 <= i < |r| ==> r[i] < 32
  {
    ToBase(4 * FromBase(bytes, 256), 32, CharsFor(|bytes|))
  }

  /** The digits as one number without its last two bits, in base 256. */
  function BytesOf(digits: seq<nat>): (r: seq<nat>)
    ensures |r| == BytesFor(|digits|) && forall i :: 0 <= i < |r| ==> r[i] < 256
  {
    ToBase(FromBase(digits, 32) / 4, 256, BytesFor(|digits|))
  }

  function Spell(digits: seq<nat>): (r: string)
    requires forall i :: 0 <= i < |digits| ==> digits[i] < 32
    ensures |r| == |digits| && forall i :: 0 <= i < |digits| ==> r[i] == Symbol(digits[i])
  {
    seq(|digits|, i requires 0 <= i < |digits| => Symbol(digits[i]))
  }

  ghost predicate FirstBad(id: string, i: nat)
    requires i < |id|
  {
    Position(id[i]).None? && forall j :: 0 <= j < i ==> Position(id[j]).Some?
  }

  /** The digits of an id, or its first character outside the alphabet. */
  function Read(id: string): (r: Result<seq<nat>, Error>)
    ensures r.Ok? ==> |r.value| == |id| && forall i :: 0 <= i < |id| ==> r.value[i] < 32
  {
    if id == [] then Ok([])
    else
      var front, c := id[..|id| - 1], id[|id| - 1];
      match Read(front)
      case Err(e) => Err(e)
      case Ok(digits) => if Position(c).Some? then Ok(digits + [Position(c).value]) else Err(InvalidRowIdChar(c))
  }

  /** The first characters of an id and their digits. */
  ghost predicate ReadSoFar(id: string, digits: seq<nat>) {
    |digits| <= |id| && forall i :: 0 <= i < |digits| ==> Position(id[i]) == Some(digits[i])
  }

  lemma {:induction false} ReadMeans(id: string)
    ensures Read(id).Ok? ==> ReadSoFar(id, Read(id).value)
    ensures Read(id).Ok? <==> forall i :: 0 <= i < |id| ==> Position(id[i]).Some?
    ensures Read(id).Err? ==> exists i :: 0 <= i < |id| && FirstBad(id, i) && Read(id) == Err(InvalidRowIdChar(id[i]))
  {
    if id != [] {
      var n := |id| - 1;
      var front := id[..n];
      ReadMeans(front);
      if Read(front).Ok? {
        if Position(id[n]).None? { assert FirstBad(id, n); }
      } else {
        var i :| 0 <= i < |front| && FirstBad(front, i) && Read(front) == Err(InvalidRowIdChar(front[i]));
        assert FirstBad(id, i) by { assert forall j :: 0 <= j < i ==> front[j] == id[j]; }
      }
    }
  }

  function Decode(id: string): Result<seq<nat>, Error> {
    if |id| != ROW_ID_CHARS then Err(WrongRowIdLength(ROW_ID_CHARS, |id|))
    else
      match Read(id)
      case Err(e) => Err(e)
      case Ok(digits) => Ok(BytesOf(digits))
  }

  // ----- what the codec promises

  lemma ReadOfSpelled(digits: seq<nat>)
    requires forall i :: 0 <= i < |digits| ==> digits[i] < 32
    ensures Read(Spell(digits)) == Ok(digits)
  {
    var id := Spell(digits);
    forall i | 0 <= i < |id| ensures Position(id[i]) == Some(digits[i]) { PositionOfSymbol(digits[i]); }
    ReadMeans(id);
    assert Read(id).value == digits;
  }

  /** Regrouping digits with room to spare loses nothing. */
  lemma Regrouped(digits: seq<nat>, base: nat, other: nat, m: nat)
    requires base > 0 && other > 0 && forall i :: 0 <= i < |digits| ==> digits[i] < base
    requires 4 * Pow(base, |digits|) == Pow(other, m)
    ensures ToBase(FromBase(ToBase(4 * FromBase(digits, base), other, m), other) / 4, base, |digits|) == digits
  {
    DigitsOfNumber(digits, base);
    NumberOfDigits(4 * FromBase(digits, base), other, m);
  }

  lemma BytesOfDigits(bytes: seq<nat>)
    requires |bytes| == ROW_ID_BYTES && forall i :: 0 <= i < |bytes| ==> bytes[i] < 256
    ensures BytesOf(DigitsOf(bytes)) == bytes
  {
    Sizes(|bytes|);
    BytesRegrouped(bytes, 256, 32, CharsFor(|bytes|));
  }

  /** `Regrouped`, said of the codec's two directions. */
  lemma BytesRegrouped(bytes: seq<nat>, base: nat, other: nat, m: nat)
    requires base == 256 && other == 32 && m == CharsFor(|bytes|) && BytesFor(m) == |bytes|
    requires 4 * Pow(base, |bytes|) == Pow(other, m) && forall i :: 0 <= i < |bytes| ==> bytes[i] < base
    ensures BytesOf(DigitsOf(bytes)) == bytes
  {
    Regrouped(bytes, base, other, m);
  }

  /** Decoding an encoded id returns its 16 bytes. */
  lemma RoundTrip(bytes: seq<Byte>)
    requires |bytes| == ROW_ID_BYTES
    ensures Encode(bytes).Ok? && |Encode(bytes).value| == ROW_ID_CHARS
    ensures Decode(Encode(bytes).value) == Ok(bytes)
  {
    ReadOfSpelled(DigitsOf(bytes));
    BytesOfDigits(bytes);
  }

  ghost predicate ValidId(id: string) {
    |id| == ROW_ID_CHARS && forall i :: 0 <= i < |id| ==> Position(id[i]).Some?
  }

  function UpperAll(id: string): (r: string)
    ensures |r| == |id| && forall i :: 0 <= i < |id| ==> r[i] == Upper(id[i])
  {
    seq(|id|, i requires 0 <= i < |id| => Upper(id[i]))
  }

  /** A string decodes exactly when it has 26 characters of the alphabet, in either case, to exactly 16
      bytes; otherwise its length, or else its first foreign character, is reported. */
  lemma DecodesExactly(id: string)
    ensures Decode(id).Ok? <==> |id| == 26 && forall i :: 0 <= i < |id| ==> IsDigit(id[i])
    ensures Decode(id).Ok? ==>
      |Decode(id).value| == ROW_ID_BYTES && forall i :: 0 <= i < ROW_ID_BYTES ==> Decode(id).value[i] < 256
    ensures |id| != 26 ==> Decode(id) == Err(WrongRowIdLength(26, |id|))
    ensures forall i :: 0 <= i < |id| == 26 && !IsDigit(id[i]) && (forall j :: 0 <= j < i ==> IsDigit(id[j])) ==>
      Decode(id) == Err(InvalidRowIdChar(id[i]))
  {
    ReadMeans(id);
    forall i | 0 <= i < |id| ensures Position(id[i]).Some? <==> IsDigit(id[i]) { PositionExactly(id[i]); }
  }

  /** Bytes encode exactly when there are 16 of them. */
  lemma EncodesExactly(bytes: seq<Byte>)
    ensures Encode(bytes).Ok? <==> |bytes| == 16
    ensures |bytes| != 16 ==> Encode(bytes) == Err(WrongRowIdLength(16, |bytes|))
  {
  }

  function LowerAll(id: string): (r: string)
    ensures |r| == |id| && forall i :: 0 <= i < |id| ==> r[i] == Lower(id[i])
  {
    seq(|id|, i requires 0 <= i < |id| => Lower(id[i]))
  }

  lemma LowerPosition(c: char)
    ensures Position(Lower(c)) == Position(c)
  {
  }

  lemma {:induction false} ReadLower(id: string)
    requires Read(id).Ok?
    ensures Read(LowerAll(id)) == Read(id)
  {
    if id != [] {
      var n := |id| - 1;
      assert LowerAll(id)[..n] == LowerAll(id[..n]);
      ReadLower(id[..n]);
      LowerPosition(id[n]);
    }
  }

  /** Case makes no difference. */
  lemma DecodesEitherCase(id: string)
    requires Decode(id).Ok?
    ensures Decode(LowerAll(id)) == Decode(id)
  {
    ReadLower(id);
  }

  /** The digits with the two padding bits of the last one cleared. */
  function Cleared(digits: seq<nat>): seq<nat>
    requires digits != []
  {
    var n := |digits| - 1;
    digits[..n] + [digits[n] - digits[n] % 4]
  }

  lemma ClearedNumber(digits: seq<nat>)
    requires digits != []
    ensures FromBase(Cleared(digits), 32) == 4 * (FromBase(digits, 32) / 4)
  {
    var n := |digits| - 1;
    assert Cleared(digits)[..n] == digits[..n];
    var q, last := FromBase(digits[..n], 32), digits[n];
    assert FromBase(digits, 32) == 32 * q + last;
  }

  lemma RegroupedBack(digits: seq<nat>, cleared: seq<nat>, base: nat, other: nat, n: nat)
    requires base > 0 && other > 0 && |cleared| == |digits|
    requires forall i :: 0 <= i < |digits| ==> digits[i] < base && cleared[i] < base
    requires Pow(base, |digits|) == 4 * Pow(other, n)
    requires FromBase(cleared, base) == 4 * (FromBase(digits, base) / 4)
    ensures ToBase(4 * FromBase(ToBase(FromBase(digits, base) / 4, other, n), other), base, |digits|) == cleared
  {
    DigitsOfNumber(digits, base);
    NumberOfDigits(FromBase(digits, base) / 4, other, n);
    DigitsOfNumber(cleared, base);
  }

  lemma DigitsOfBytes(digits: seq<nat>)
    requires |digits| == ROW_ID_CHARS && forall i :: 0 <= i < |digits| ==> digits[i] < 32
    ensures DigitsOf(BytesOf(digits)) == Cleared(digits)
  {
    var n := BytesFor(|digits|);
    Sizes(n);
    assert CharsFor(n) == |digits|;
    ClearedNumber(digits);
    RegroupedBack(digits, Cleared(digits), 32, 256, n);
  }

  lemma SpelledUpper(id: string)
    requires Read(id).Ok?
    ensures Spell(Read(id).value) == UpperAll(id)
  {
    ReadMeans(id);
    forall i | 0 <= i < |id| ensures Symbol(Read(id).value[i]) == Upper(id[i]) {
      assert Position(id[i]) == Some(Read(id).value[i]);
    }
  }

  /** Re-encoding a valid id gives its uppercase form with the two padding bits of the last
      character cleared. */
  lemma ReEncode(id: string)
    requires ValidId(id)
    ensures Decode(id).Ok? && Read(id).Ok?
    ensures Encode(Decode(id).value) == Ok(Spell(Cleared(Read(id).value)))
  {
    ReadMeans(id);
    DigitsOfBytes(Read(id).value);
  }

  /** So re-encoding is the identity up to case exactly when those two bits are zero. */
  lemma CanonicalExactly(id: string)
    requires ValidId(id)
    ensures Decode(id).Ok? && Read(id).Ok?
    ensures Encode(Decode(id).value) == Ok(UpperAll(id)) <==> Read(id).value[25] % 4 == 0
  {
    ReEncode(id);
    SpelledUpper(id);
    SpellInjective(Read(id).value, Cleared(Read(id).value));
    ClearedSame(Read(id).value);
  }

  lemma ClearedSame(digits: seq<nat>)
    requires digits != []
    ensures digits == Cleared(digits) <==> digits[|digits| - 1] % 4 == 0
  {
    var n := |digits| - 1;
    assert Cleared(digits)[n] == digits[n] - digits[n] % 4;
    assert digits == digits[..n] + [digits[n]];
  }

  lemma SpellInjective(a: seq<nat>, b: seq<nat>)
    requires |a| == |b| && forall i :: 0 <= i < |a| ==> a[i] < 32 && b[i] < 32
    ensures Spell(a) == Spell(b) <==> a == b
  {
    if Spell(a) == Spell(b) {
      ReadOfSpelled(a);
      ReadOfSpelled(b);
    }
  }

  // ----- the loops

  /** `n >> k` and `n << k`, one bit at a time. */
  function Right(n: nat, k: nat): nat {
    if k == 0 then n else Right(n / 2, k - 1)
  }

  function Left(n: nat, k: nat): nat
    decreases k
  {
    if k == 0 then n else Left(2 * n, k - 1)
  }

  lemma {:induction false} RightDivides(n: nat, k: nat)
    ensures Pow(2, k) > 0 && Right(n, k) == n / Pow(2, k)
    decreases k
  {
    PowPositive(2, k);
    if k > 0 {
      RightDivides(n / 2, k - 1);
      DivDiv(n, 2, Pow(2, k - 1));
    }
  }

  lemma {:induction false} PowPositive(base: nat, n: nat)
    requires base > 0
    ensures Pow(base, n) > 0
  {
    if n > 0 { PowPositive(base, n - 1); }
  }

  lemma {:induction false} PowAdd(base: nat, a: nat, b: nat)
    ensures Pow(base, a + b) == Pow(base, a) * Pow(base, b)
  {
    if a > 0 {
      PowAdd(base, a - 1, b);
      assert base * (Pow(base, a - 1) * Pow(base, b)) == base * Pow(base, a - 1) * Pow(base, b);
    }
  }

  lemma TwoDigits(hi: nat, mid: nat, low: nat, a: nat, c: nat)
    requires mid < c && low < a
    ensures a * c > 0 && ((hi * c + mid) * a + low) / (a * c) == hi
  {
    JoinBound(mid, a, low, c);
    assert (hi * c + mid) * a == hi * (a * c) + mid * a;
    DivMod(hi, a * c, mid * a + low);
  }

  lemma DivDiv(x: nat, a: nat, c: nat)
    requires a > 0 && c > 0
    ensures a * c > 0 && x / a / c == x / (a * c)
  {
    var q := x / a;
    assert x == q * a + x % a;
    assert q == q / c * c + q % c;
    TwoDigits(q / c, q % c, x % a, a, c);
  }

  /** `(t * (c * m) + (u * c + v)) % c`, spelled out. */
  lemma ModOfSum(t: nat, c: nat, m: nat, u: nat, v: nat)
    requires v < c
    ensures (t * (c * m) + (u * c + v)) % c == v
  {
    assert t * (c * m) == (t * m) * c;
    assert (t * m) * c + u * c == (t * m + u) * c;
    DivMod(t * m + u, c, v);
  }

  lemma ModOfMod(q: nat, c: nat, m: nat)
    requires c > 0 && m > 0
    ensures c * m > 0 && q % (c * m) % c == q % c
  {
    var t, rest := q / (c * m), q % (c * m);
    assert q == t * (c * m) + rest;
    assert rest == rest / c * c + rest % c;
    ModOfSum(t, c, m, rest / c, rest % c);
  }

  lemma DivOfMod(x: nat, a: nat, k: nat)
    requires a > 0 && k > 0
    ensures a * k > 0 && x % (a * k) / a == x / a % k
  {
    DivDiv(x, a, k);
    var q := x / a;
    var t, u, v := q / k, q % k, x % a;
    assert q == t * k + u;
    assert x == q * a + v;
    assert (t * k + u) * a == t * (a * k) + u * a;
    assert x % (a * k) == x - t * (a * k);
    DivMod(u, a, v);
  }

  /** Bits above the low `a * c` do not reach digit `x / a % c`. */
  lemma HighBitsDoNotMatter(x: nat, a: nat, c: nat, m: nat)
    requires a > 0 && c > 0 && m > 0
    ensures c * m > 0 && a * (c * m) > 0 && x % (a * (c * m)) / a % c == x / a % c
  {
    ModOfMod(x / a, c, m);
    DivOfMod(x, a, c * m);
  }

  /** Shifting a group of `g` bits in and then past it is no shift at all. */
  lemma ShiftedIn(n: nat, low: nat, g: nat, k: nat)
    requires low < Pow(2, g)
    ensures Right(n * Pow(2, g) + low, k + g) == Right(n, k)
  {
    PowAdd(2, g, k);
    PowPositive(2, g);
    PowPositive(2, k);
    DivMod(n, Pow(2, g), low);
    DivDiv(n * Pow(2, g) + low, Pow(2, g), Pow(2, k));
    RightDivides(n * Pow(2, g) + low, k + g);
    RightDivides(n, k);
  }

  lemma ShiftedPast(n: nat, g: nat, k: nat)
    ensures Pow(2, g) > 0 && Right(n, k) / Pow(2, g) == Right(n, k + g)
  {
    PowPositive(2, g);
    PowPositive(2, k);
    PowAdd(2, k, g);
    DivDiv(n, Pow(2, k), Pow(2, g));
    RightDivides(n, k);
    RightDivides(n, k + g);
  }

  /** A 32-bit accumulator still holds every digit that starts low enough. */
  lemma Truncated(n: nat, g: nat, k: nat, w: nat)
    requires k + g <= w
    ensures Pow(2, g) > 0 && Pow(2, w) > 0 && Right(n % Pow(2, w), k) % Pow(2, g) == Right(n, k) % Pow(2, g)
  {
    var m := w - k - g;
    PowPositive(2, w);
    PowPositive(2, g);
    PowPositive(2, k);
    PowPositive(2, m);
    PowAdd(2, g, m);
    PowAdd(2, k, g + m);
    HighBitsDoNotMatter(n, Pow(2, k), Pow(2, g), Pow(2, m));
    RightDivides(n, k);
    RightDivides(n % Pow(2, w), k);
  }

  lemma PushByte(n: nat, b: nat)
    requires b < 256
    ensures (n % WORD * 256) % WORD + b == (n * 256 + b) % WORD
  {
    var t, low := n / WORD, n % WORD;
    var u, v := low / 0x100_0000, low % 0x100_0000;
    DivMod(u, WORD, v * 256);
    DivMod(t * 256 + u, WORD, v * 256 + b);
  }

  lemma PushDigit(n: nat, d: nat)
    requires d < 32
    ensures (n % WORD * 32) % WORD + d == (n * 32 + d) % WORD
  {
    var t, low := n / WORD, n % WORD;
    var u, v := low / 0x800_0000, low % 0x800_0000;
    DivMod(u, WORD, v * 32);
    DivMod(t * 32 + u, WORD, v * 32 + d);
  }

  lemma SmallPowers()
    ensures Pow(2, 5) == 32 && Pow(2, 8) == 256 && Pow(2, 2) == 4 && Pow(2, 3) == 8 && Pow(2, 32) == WORD
  {
    assert Pow(2, 8) == 256;
    PowAdd(2, 8, 8);
    PowAdd(2, 16, 16);
  }

  lemma FromBaseStep(digits: seq<nat>, i: nat, base: nat)
    requires i < |digits|
    ensures FromBase(digits[..i + 1], base) == FromBase(digits[..i], base) * base + digits[i]
  {
    assert digits[..i + 1][..i] == digits[..i];
  }

  /** What the accumulator has handed out after `n` was read: all digits above its low `bits`. */
  ghost predicate Emitted(out: seq<nat>, n: nat, bits: nat, base: nat)
    requires base > 0
  {
    out == ToBase(Right(n, bits), base, |out|)
  }

  lemma ReadKeepsEmitted(out: seq<nat>, n: nat, low: nat, bits: nat, base: nat, g: nat)
    requires base > 0 && low < Pow(2, g) && Emitted(out, n, bits, base)
    ensures Emitted(out, n * Pow(2, g) + low, bits + g, base)
  {
    ShiftedIn(n, low, g, bits);
  }

  lemma EmitNext(out: seq<nat>, n: nat, bits: nat, g: nat, w: nat)
    requires bits + g <= w && Pow(2, g) > 0 && Emitted(out, n, bits + g, Pow(2, g))
    ensures Pow(2, w) > 0 && Emitted(out + [Right(n % Pow(2, w), bits) % Pow(2, g)], n, bits, Pow(2, g))
  {
    Truncated(n, g, bits, w);
    ShiftedPast(n, g, bits);
    var base, all := Pow(2, g), out + [Right(n % Pow(2, w), bits) % Pow(2, g)];
    var x := Right(n, bits);
    assert ToBase(x, base, |out| + 1) == ToBase(x / base, base, |out|) + [x % base];
  }

  lemma SmallShifts(n: nat)
    ensures Right(n, 2) == n / 4 && Right(n, 3) == n / 8 && Left(n, 2) == 4 * n
  {
    assert Right(n, 2) == Right(n / 2, 1) && Right(n, 3) == Right(n / 2, 2);
    assert Right(n / 2, 1) == n / 4 && Right(n / 2, 2) == Right(n / 4, 1);
    assert Left(n, 2) == Left(2 * n, 1) == Left(4 * n, 0);
  }

  /** The encoder has read the number `n` and kept its low 32 bits. */
  ghost predicate Encoder(n: nat, digits: seq<nat>, bits: nat, value: nat) {
    value == n % WORD && Emitted(digits, n, bits, 32)
  }

  lemma EncoderReads(n: nat, digits: seq<nat>, bits: nat, value: nat, b: nat)
    requires Encoder(n, digits, bits, value) && b < 256
    ensures Encoder(n * 256 + b, digits, bits + 8, (value * 256) % WORD + b)
  {
    PushByte(n, b);
    SmallPowers();
    ReadKeepsEmitted(digits, n, b, bits, 32, 8);
  }

  lemma EncoderEmits(n: nat, digits: seq<nat>, bits: nat, value: nat)
    requires Encoder(n, digits, bits + 5, value) && bits <= 7
    ensures Encoder(n, digits + [Right(value, bits) % 32], bits, value)
  {
    SmallPowers();
    EmitNext(digits, n, bits, 5, 32);
  }

  lemma ToBaseStep(x: nat, base: nat, n: nat)
    requires base > 0
    ensures ToBase(x, base, n + 1) == ToBase(x / base, base, n) + [x % base]
  {
  }

  lemma LastGroup(n: nat)
    ensures n % WORD * 4 % WORD % 32 == 4 * n % 32 && n / 8 == 4 * n / 32
  {
    var t, low := n / WORD, n % WORD;
    var u, v := low / 0x4000_0000, low % 0x4000_0000;
    var p, s := v / 8, v % 8;
    var q := (4 * t + u) * 0x800_0000 + p;
    DivMod(u, WORD, 4 * v);
    DivMod(p, 32, 4 * s);
    DivMod(q, 32, 4 * s);
    DivMod(q, 8, s);
  }

  /** The last character: the remaining three bits moved to the top of a group. */
  lemma EncoderEnds(n: nat, digits: seq<nat>, bits: nat, value: nat)
    requires Encoder(n, digits, bits, value) && bits == 3
    ensures digits + [Left(value, 5 - bits) % WORD % 32] == ToBase(4 * n, 32, |digits| + 1)
  {
    SmallShifts(n);
    SmallShifts(value);
    LastGroup(n);
    ToBaseStep(4 * n, 32, |digits|);
  }

  /** The decoder has read the number `n` and kept its low 32 bits. */
  ghost predicate Decoder(n: nat, out: seq<nat>, bits: nat, value: nat) {
    value == n % WORD && Emitted(out, n, bits, 256)
  }

  lemma DecoderReads(n: nat, out: seq<nat>, bits: nat, value: nat, d: nat)
    requires Decoder(n, out, bits, value) && d < 32
    ensures Decoder(n * 32 + d, out, bits + 5, (value * 32) % WORD + d)
  {
    PushDigit(n, d);
    SmallPowers();
    ReadKeepsEmitted(out, n, d, bits, 256, 5);
  }

  lemma DecoderEmits(n: nat, out: seq<nat>, bits: nat, value: nat)
    requires Decoder(n, out, bits + 8, value) && bits <= 4
    ensures Decoder(n, out + [Right(value, bits) % 256], bits, value)
  {
    SmallPowers();
    EmitNext(out, n, bits, 8, 32);
  }

  lemma DecoderEnds(digits: seq<nat>, out: seq<nat>, bits: nat, value: nat)
    requires Decoder(FromBase(digits, 32), out, bits, value) && bits == 2 && |out| == BytesFor(|digits|)
    ensures out == BytesOf(digits)
  {
    SmallShifts(FromBase(digits, 32));
  }

  ghost predicate Spelled(out: string, digits: seq<nat>) {
    |out| == |digits| && forall i :: 0 <= i < |digits| ==> digits[i] < 32 && out[i] == Symbol(digits[i])
  }

  /** The encoder has read the number `n`, kept its low 32 bits and written `out`. */
  ghost predicate Writer(n: nat, digits: seq<nat>, bits: nat, value: nat, out: string) {
    Encoder(n, digits, bits, value) && Spelled(out, digits)
  }

  lemma WriterReads(input: seq<nat>, i: nat, digits: seq<nat>, bits: nat, value: nat, out: string)
    requires i < |input| && input[i] < 256
    requires Writer(FromBase(input[..i], 256), digits, bits, value, out)
    ensures Writer(FromBase(input[..i + 1], 256), digits, bits + 8, (value * 256) % WORD + input[i], out)
  {
    FromBaseStep(input, i, 256);
    EncoderReads(FromBase(input[..i], 256), digits, bits, value, input[i]);
  }

  lemma WriterEmits(n: nat, digits: seq<nat>, bits: nat, value: nat, out: string)
    requires Writer(n, digits, bits + 5, value, out) && bits <= 7
    ensures Writer(n, digits + [Right(value, bits) % 32], bits, value, out + [Symbol(Right(value, bits) % 32)])
  {
    EncoderEmits(n, digits, bits, value);
  }

  lemma WriterEnds(bytes: seq<Byte>, digits: seq<nat>, bits: nat, value: nat, out: string)
    requires |bytes| == ROW_ID_BYTES && bits == 3 && |digits| == 25
    requires Writer(FromBase(bytes, 256), digits, bits, value, out)
    ensures Encode(bytes) == Ok(out + [Symbol(Left(value, 5 - bits) % WORD % 32)])
  {
    var d := Left(value, 5 - bits) % WORD % 32;
    EncoderEnds(FromBase(bytes, 256), digits, bits, value);
    EncodeIs(bytes, digits + [d], out + [Symbol(d)]);
  }

  lemma EncodeIs(bytes: seq<Byte>, digits: seq<nat>, out: string)
    requires |bytes| == ROW_ID_BYTES && Spelled(out, digits) && digits == DigitsOf(bytes)
    ensures Encode(bytes) == Ok(out)
  {
    assert out == Spell(digits);
  }

  method EncodeBytes(bytes: seq<Byte>) returns (r: Result<string, Error>)
    ensures r == Encode(bytes)
  {
    if |bytes| != ROW_ID_BYTES { return Err(WrongRowIdLength(ROW_ID_BYTES, |bytes|)); }
    var out: string, bits: nat, value: nat := "", 0, 0;
    ghost var digits: seq<nat>, input: seq<nat> := [], bytes;
    for i := 0 to |bytes|
      invariant bits < 5 && 8 * i == 5 * |digits| + bits
      invariant Writer(FromBase(input[..i], 256), digits, bits, value, out)
    {
      WriterReads(input, i, digits, bits, value, out);
      ghost var n := FromBase(input[..i + 1], 256);
      value := (value * 256) % WORD + bytes[i];
      bits := bits + 8;
      while bits >= 5
        invariant bits <= 12 && 8 * (i + 1) == 5 * |digits| + bits
        invariant Writer(n, digits, bits, value, out)
      {
        bits := bits - 5;
        var idx := Right(value, bits) % 32;
        WriterEmits(n, digits, bits, value, out);
        digits := digits + [idx];
        out := out + [Symbol(idx)];
      }
    }
    assert input[..|bytes|] == bytes;
    if bits > 0 {
      var idx := Left(value, 5 - bits) % WORD % 32;
      WriterEnds(bytes, digits, bits, value, out);
      out := out + [Symbol(idx)];
    }
    return Ok(out);
  }

  lemma ReadStops(id: string, digits: seq<nat>)
    requires ReadSoFar(id, digits) && |digits| < |id| && Position(id[|digits|]).None?
    ensures Read(id) == Err(InvalidRowIdChar(id[|digits|]))
  {
    ReadMeans(id);
    var j :| 0 <= j < |id| && FirstBad(id, j) && Read(id) == Err(InvalidRowIdChar(id[j]));
  }

  lemma ReadAll(id: string, digits: seq<nat>)
    requires ReadSoFar(id, digits) && |digits| == |id|
    ensures Read(id) == Ok(digits)
  {
    ReadMeans(id);
    assert Read(id).value == digits;
  }

  lemma FromBasePush(digits: seq<nat>, d: nat, base: nat)
    ensures FromBase(digits + [d], base) == FromBase(digits, base) * base + d
  {
    assert (digits + [d])[..|digits|] == digits;
  }

  /** The decoder has read these digits and written the bytes `out`. */
  ghost predicate Reader(id: string, digits: seq<nat>, bits: nat, value: nat, out: seq<nat>) {
    ReadSoFar(id, digits) && Decoder(FromBase(digits, 32), out, bits, value)
  }

  lemma ReaderReads(id: string, digits: seq<nat>, bits: nat, value: nat, out: seq<nat>, d: Digit)
    requires Reader(id, digits, bits, value, out) && |digits| < |id| && Position(id[|digits|]) == Some(d)
    ensures Reader(id, digits + [d], bits + 5, (value * 32) % WORD + d, out)
  {
    DecoderReads(FromBase(digits, 32), out, bits, value, d);
    FromBasePush(digits, d, 32);
  }

  lemma ReaderEmits(id: string, digits: seq<nat>, bits: nat, value: nat, out: seq<nat>)
    requires Reader(id, digits, bits + 8, value, out) && bits <= 4
    ensures Reader(id, digits, bits, value, out + [Right(value, bits) % 256])
  {
    DecoderEmits(FromBase(digits, 32), out, bits, value);
  }

  lemma ReaderEnds(id: string, digits: seq<nat>, bits: nat, value: nat, out: seq<nat>)
    requires |id| == ROW_ID_CHARS && |digits| == |id| && bits == 2 && |out| == ROW_ID_BYTES
    requires Reader(id, digits, bits, value, out)
    ensures Decode(id) == Ok(out)
  {
    DecoderEnds(digits, out, bits, value);
    ReadAll(id, digits);
  }

  lemma ReaderStops(id: string, digits: seq<nat>, bits: nat, value: nat, out: seq<nat>, i: nat)
    requires |id| == ROW_ID_CHARS && Reader(id, digits, bits, value, out)
    requires i == |digits| < |id| && Position(id[i]).None?
    ensures Decode(id) == Err(InvalidRowIdChar(id[i]))
  {
    ReadStops(id, digits);
  }

  method DecodeId(id: string) returns (r: Result<seq<nat>, Error>)
    ensures r == Decode(id)
  {
    if |id| != ROW_ID_CHARS { return Err(WrongRowIdLength(ROW_ID_CHARS, |id|)); }
    var out: seq<nat>, bits: nat, value: nat := [], 0, 0;
    ghost var digits: seq<nat> := [];
    for i := 0 to |id|
      invariant bits < 8 && 5 * i == 8 * |out| + bits && |digits| == i
      invariant Reader(id, digits, bits, value, out)
    {
      var found := Position(id[i]);
      if found.None? {
        ReaderStops(id, digits, bits, value, out, i);
        return Err(InvalidRowIdChar(id[i]));
      }
      ReaderReads(id, digits, bits, value, out, found.value);
      digits := digits + [found.value];
      value := (value * 32) % WORD + found.value;
      bits := bits + 5;
      if bits >= 8 {
        bits := bits - 8;
        ReaderEmits(id, digits, bits, value, out);
        out := out + [Right(value, bits) % 256];
      }
    }
    ReaderEnds(id, digits, bits, value, out);
    return Ok(out);
  }
}
