/** Bit-level access to byte buffers (source/Utils.cpp). Positions count bits from the most
    significant bit of byte 0. `Deposit` and `Extract` specify the loops; the lemmas say what
    they do bit by bit and that reading undoes writing. */
module Bits {
  import opened Types

  function Pow2(k: nat): (r: nat)
    ensures r > 0
  {
    if k == 0 then 1 else 2 * Pow2(k - 1)
  }

  /** `(v >> k) & 1` */
  predicate BitOf(v: nat, k: nat) {
    if k == 0 then v % 2 == 1 else BitOf(v / 2, k - 1)
  }

  /** `v | (1 << k)` */
  function OrBit(v: nat, k: nat): nat {
    if k == 0 then (if v % 2 == 1 then v else v + 1) else 2 * OrBit(v / 2, k - 1) + v % 2
  }

  lemma {:induction false} OrBitBits(v: nat, k: nat, j: nat)
    ensures BitOf(OrBit(v, k), j) == (j == k || BitOf(v, j))
  {
    if k > 0 {
      assert OrBit(v, k) / 2 == OrBit(v / 2, k - 1);
      if j > 0 {
        OrBitBits(v / 2, k - 1, j - 1);
      }
    } else if j > 0 {
      assert OrBit(v, 0) / 2 == v / 2;
    }
  }

  lemma {:induction false} OrBitBound(v: nat, k: nat, n: nat)
    requires k < n && v < Pow2(n)
    ensures OrBit(v, k) < Pow2(n)
  {
    assert Pow2(n) == 2 * Pow2(n - 1);
    if k > 0 {
      OrBitBound(v / 2, k - 1, n - 1);
    } else {
      assert v / 2 < Pow2(n - 1);
    }
  }

  /** Two numbers below 2^n with the same n bits are equal. */
  lemma {:induction false} BitsDetermine(a: nat, b: nat, n: nat)
    requires a < Pow2(n) && b < Pow2(n)
    requires forall j: nat :: j < n ==> BitOf(a, j) == BitOf(b, j)
    ensures a == b
  {
    if n > 0 {
      assert BitOf(a, 0) == BitOf(b, 0);
      forall j: nat | j < n - 1
        ensures BitOf(a / 2, j) == BitOf(b / 2, j)
      {
        assert BitOf(a, j + 1) == BitOf(b, j + 1);
      }
      BitsDetermine(a / 2, b / 2, n - 1);
    }
  }

  lemma ByteBound()
    ensures Pow2(8) == 256
  {
    assert Pow2(4) == 16;
    assert Pow2(6) == 64;
  }

  lemma {:induction false} Pow2Grows(m: nat, n: nat)
    requires m <= n
    ensures Pow2(m) <= Pow2(n)
    decreases n
  {
    if m < n {
      Pow2Grows(m, n - 1);
    }
  }

  lemma WordBound()
    ensures Pow2(31) == 0x8000_0000 && Pow2(32) == 0x1_0000_0000
  {
    ByteBound();
    assert Pow2(12) == 4096;
    assert Pow2(16) == 65536;
    assert Pow2(20) == 0x10_0000;
    assert Pow2(24) == 0x100_0000;
    assert Pow2(28) == 0x1000_0000;
  }

  /** A 32-bit pattern as an `int`. */
  function Int32(v: nat): int {
    if v < 0x8000_0000 then v else v - 0x1_0000_0000
  }

  /** `byte |= 1 << k` */
  function OrByte(b: byte, k: nat): byte
    requires k < 8
  {
    ByteBound();
    OrBitBound(b, k, 8);
    OrBit(b, k)
  }

  // ------------------------------------------------------------ buffers as bit sequences

  predicate BitAt(s: Bytes, pos: nat)
    requires pos < 8 * |s|
  {
    BitOf(s[pos / 8], 7 - pos % 8)
  }

  function PutBit(s: Bytes, pos: nat, on: bool): (r: Bytes)
    requires pos < 8 * |s|
    ensures |r| == |s|
  {
    if on then s[pos / 8 := OrByte(s[pos / 8], 7 - pos % 8)] else s
  }

  /** ORs the low `n` bits of `v`, most significant first, into `s` from bit `off`. */
  function Deposit(s: Bytes, off: nat, v: nat, n: nat): (r: Bytes)
    requires off + n <= 8 * |s|
    ensures |r| == |s|
    decreases n
  {
    if n == 0 then s else Deposit(PutBit(s, off, BitOf(v, n - 1)), off + 1, v, n - 1)
  }

  /** The number whose bits are the `n` bits of `s` from bit `off`. */
  function Extract(s: Bytes, off: nat, n: nat): nat
    requires off + n <= 8 * |s|
    decreases n
  {
    if n == 0 then 0
    else
      var rest := Extract(s, off + 1, n - 1);
      if BitAt(s, off) then OrBit(rest, n - 1) else rest
  }

  lemma PutBitAt(s: Bytes, p: nat, on: bool, q: nat)
    requires p < 8 * |s| && q < 8 * |s|
    ensures BitAt(PutBit(s, p, on), q) == (BitAt(s, q) || (on && q == p))
  {
    OrBitBits(s[p / 8], 7 - p % 8, 7 - q % 8);
  }

  lemma {:induction false} DepositBit(s: Bytes, off: nat, v: nat, n: nat, pos: nat)
    requires off + n <= 8 * |s| && pos < 8 * |s|
    ensures BitAt(Deposit(s, off, v, n), pos)
         == (BitAt(s, pos) || (off <= pos < off + n && BitOf(v, n - 1 - (pos - off))))
    decreases n
  {
    if n > 0 {
      PutBitAt(s, off, BitOf(v, n - 1), pos);
      DepositBit(PutBit(s, off, BitOf(v, n - 1)), off + 1, v, n - 1, pos);
    }
  }

  lemma {:induction false} ExtractBit(s: Bytes, off: nat, n: nat, j: nat)
    requires off + n <= 8 * |s| && j < n
    ensures BitOf(Extract(s, off, n), n - 1 - j) == BitAt(s, off + j)
    decreases n
  {
    hide Pow2, BitOf, OrBit, BitAt;
    var rest, k := Extract(s, off + 1, n - 1), n - 1 - j;
    OrBitBits(rest, n - 1, k);
    assert BitOf(Extract(s, off, n), k) == (BitOf(rest, k) || (BitAt(s, off) && j == 0));
    if j > 0 {
      ExtractBit(s, off + 1, n - 1, j - 1);
    } else {
      ExtractBound(s, off + 1, n - 1);
      HighBitClear(rest, n - 1);
    }
  }

  lemma {:induction false} HighBitClear(v: nat, n: nat)
    requires v < Pow2(n)
    ensures !BitOf(v, n)
  {
    if n > 0 {
      HighBitClear(v / 2, n - 1);
    }
  }

  lemma {:induction false} ExtractBound(s: Bytes, off: nat, n: nat)
    requires off + n <= 8 * |s|
    ensures Extract(s, off, n) < Pow2(n)
    decreases n
  {
    hide BitOf, BitAt, OrBit;
    if n > 0 {
      ExtractBound(s, off + 1, n - 1);
      OrBitBound(Extract(s, off + 1, n - 1), n - 1, n);
    }
  }

  /** Two buffers with the same bits are equal. */
  lemma BytesDetermine(a: Bytes, b: Bytes)
    requires |a| == |b|
    requires forall pos: nat :: pos < 8 * |a| ==> BitAt(a, pos) == BitAt(b, pos)
    ensures a == b
  {
    ByteBound();
    forall k | 0 <= k < |a|
      ensures a[k] == b[k]
    {
      forall j: nat | j < 8
        ensures BitOf(a[k], j) == BitOf(b[k], j)
      {
        var pos := 8 * k + (7 - j);
        assert BitAt(a, pos) == BitAt(b, pos);
        assert pos / 8 == k && 7 - pos % 8 == j;
      }
      BitsDetermine(a[k], b[k], 8);
    }
  }

  /** A read is determined by the bits it covers. */
  lemma {:induction false} ExtractSame(a: Bytes, b: Bytes, off: nat, n: nat)
    requires off + n <= 8 * |a| && off + n <= 8 * |b|
    requires forall pos: nat :: off <= pos < off + n ==> BitAt(a, pos) == BitAt(b, pos)
    ensures Extract(a, off, n) == Extract(b, off, n)
    decreases n
  {
    if n > 0 {
      assert BitAt(a, off) == BitAt(b, off);
      ExtractSame(a, b, off + 1, n - 1);
    }
  }

  // ------------------------------------------------------------ value mod 2^n

  lemma ModStep(v: nat, p: nat)
    requires p > 0
    ensures v % (2 * p) == 2 * (v / 2 % p) + v % 2
  {
    var q, r := v / 2 / p, v / 2 % p;
    assert v / 2 == p * q + r;
    assert v == 2 * (v / 2) + v % 2;
    assert v == (2 * p) * q + (2 * r + v % 2);
    ModUnique(v, 2 * p, q, 2 * r + v % 2);
  }

  lemma ModUnique(v: nat, m: nat, q: nat, r: nat)
    requires v == m * q + r && r < m
    ensures v % m == r
  {
    Quotient(m, v / m, v % m, q, r);
  }

  lemma Quotient(m: nat, q1: nat, r1: nat, q2: nat, r2: nat)
    requires r1 < m && r2 < m && m * q1 + r1 == m * q2 + r2
    ensures r1 == r2
  {
    if q1 < q2 {
      MulGap(m, q1, q2);
    } else if q2 < q1 {
      MulGap(m, q2, q1);
    }
  }

  lemma MulGap(m: nat, a: nat, b: nat)
    requires a < b
    ensures m * a + m <= m * b
  {
    assert m * b == m * a + m * (b - a);
    assert m * (b - a) == m + m * (b - a - 1);
  }

  lemma {:induction false} LowBits(v: nat, n: nat, j: nat)
    requires j < n
    ensures BitOf(v % Pow2(n), j) == BitOf(v, j)
  {
    hide OrBit;
    ModStep(v, Pow2(n - 1));
    var low := v % Pow2(n);
    assert low / 2 == v / 2 % Pow2(n - 1) && low % 2 == v % 2;
    if j > 0 {
      LowBits(v / 2, n - 1, j - 1);
    }
  }

  /** Reading back one field just written over clear bits. */
  lemma ExtractDeposit(s: Bytes, off: nat, v: nat, n: nat)
    requires off + n <= 8 * |s|
    requires forall pos: nat :: off <= pos < off + n ==> !BitAt(s, pos)
    ensures Extract(Deposit(s, off, v, n), off, n) == v % Pow2(n)
  {
    var r := Extract(Deposit(s, off, v, n), off, n);
    ExtractBound(Deposit(s, off, v, n), off, n);
    forall j: nat | j < n
      ensures BitOf(r, j) == BitOf(v % Pow2(n), j)
    {
      var i := n - 1 - j;
      ExtractBit(Deposit(s, off, v, n), off, n, i);
      DepositBit(s, off, v, n, off + i);
      assert !BitAt(s, off + i);
      LowBits(v, n, j);
    }
    BitsDetermine(r, v % Pow2(n), n);
  }

  /** Every bit already set where the field goes is set in the value. */
  ghost predicate Covers(s: Bytes, off: nat, v: nat, n: nat)
    requires off + n <= 8 * |s|
  {
    forall j: nat {:trigger BitOf(v, j)} :: j < n && BitAt(s, off + (n - 1 - j)) ==> BitOf(v, j)
  }

  lemma ReadBit(s: Bytes, off: nat, v: nat, n: nat, j: nat)
    requires off + n <= 8 * |s| && j < n
    ensures BitOf(Extract(Deposit(s, off, v, n), off, n), j) == (BitAt(s, off + (n - 1 - j)) || BitOf(v, j))
    ensures BitOf(v % Pow2(n), j) == BitOf(v, j)
  {
    hide Pow2, BitOf, Deposit, Extract, BitAt;
    ExtractBit(Deposit(s, off, v, n), off, n, n - 1 - j);
    DepositBit(s, off, v, n, off + (n - 1 - j));
    LowBits(v, n, j);
  }

  /** The loops only OR bits in: a field reads back as written exactly when the value covers what was
      there before. */
  lemma ReadsBackIff(s: Bytes, off: nat, v: nat, n: nat)
    requires off + n <= 8 * |s|
    ensures Extract(Deposit(s, off, v, n), off, n) == v % Pow2(n) <==> Covers(s, off, v, n)
  {
    hide Pow2, BitOf, Deposit, Extract, BitAt;
    var r := Extract(Deposit(s, off, v, n), off, n);
    ExtractBound(Deposit(s, off, v, n), off, n);
    forall j: nat | j < n
      ensures BitOf(r, j) == (BitAt(s, off + (n - 1 - j)) || BitOf(v, j))
      ensures BitOf(v % Pow2(n), j) == BitOf(v, j)
    {
      ReadBit(s, off, v, n, j);
    }
    if Covers(s, off, v, n) {
      BitsDetermine(r, v % Pow2(n), n);
    }
  }

  // ------------------------------------------------------------ lists of fields

  datatype Field = Field(width: nat, value: nat)

  function Total(fields: seq<Field>): nat {
    if fields == [] then 0 else fields[0].width + Total(fields[1..])
  }

  function DepositAll(s: Bytes, off: nat, fields: seq<Field>): (r: Bytes)
    requires off + Total(fields) <= 8 * |s|
    ensures |r| == |s|
    decreases |fields|
  {
    if fields == [] then s
    else DepositAll(Deposit(s, off, fields[0].value, fields[0].width), off + fields[0].width, fields[1..])
  }

  /** Reads consecutive fields with the widths of `shape`. */
  function ExtractAll(s: Bytes, off: nat, shape: seq<Field>): (r: seq<nat>)
    requires off + Total(shape) <= 8 * |s|
    ensures |r| == |shape|
    decreases |shape|
  {
    if shape == [] then []
    else [Extract(s, off, shape[0].width)] + ExtractAll(s, off + shape[0].width, shape[1..])
  }

  /** Writing a list of fields touches no bit outside its range. */
  lemma {:induction false} DepositAllFrame(s: Bytes, off: nat, fields: seq<Field>, pos: nat)
    requires off + Total(fields) <= 8 * |s| && pos < 8 * |s|
    requires pos < off || off + Total(fields) <= pos
    ensures BitAt(DepositAll(s, off, fields), pos) == BitAt(s, pos)
    decreases |fields|
  {
    if fields != [] {
      var f := fields[0];
      DepositBit(s, off, f.value, f.width, pos);
      DepositAllFrame(Deposit(s, off, f.value, f.width), off + f.width, fields[1..], pos);
    }
  }

  /** Any list of fields, written from any bit offset over clear bits and read back with the
      same widths, comes back as each value mod 2^width. */
  lemma {:induction false} FieldsRoundTrip(s: Bytes, off: nat, fields: seq<Field>)
    requires off + Total(fields) <= 8 * |s|
    requires forall pos: nat :: off <= pos < off + Total(fields) ==> !BitAt(s, pos)
    ensures var r := ExtractAll(DepositAll(s, off, fields), off, fields);
            forall i :: 0 <= i < |fields| ==> r[i] == fields[i].value % Pow2(fields[i].width)
    decreases |fields|
  {
    hide Pow2, BitOf, Deposit, Extract, BitAt;
    if fields != [] {
      var f, rest := fields[0], fields[1..];
      var s1 := Deposit(s, off, f.value, f.width);
      var s2 := DepositAll(s1, off + f.width, rest);
      forall pos: nat | off + f.width <= pos < off + Total(fields)
        ensures !BitAt(s1, pos)
      {
        DepositBit(s, off, f.value, f.width, pos);
      }
      FieldsRoundTrip(s1, off + f.width, rest);
      forall pos: nat | off <= pos < off + f.width
        ensures BitAt(s1, pos) == BitAt(s2, pos)
      {
        DepositAllFrame(s1, off + f.width, rest, pos);
      }
      ExtractSame(s1, s2, off, f.width);
      ExtractDeposit(s, off, f.value, f.width);
      var tail := ExtractAll(s2, off + f.width, rest);
      forall i | 0 <= i < |fields|
        ensures ([Extract(s2, off, f.width)] + tail)[i] == fields[i].value % Pow2(fields[i].width)
      {
        if i > 0 {
          assert fields[i] == rest[i - 1];
        }
      }
    }
  }

  // ------------------------------------------------------------ strings

  /** A string is written as 8-bit fields. */
  function StrFields(str: Bytes): (r: seq<Field>)
    ensures |r| == |str| && Total(r) == 8 * |str|
    ensures forall i :: 0 <= i < |str| ==> r[i] == Field(8, str[i])
  {
    if str == [] then [] else [Field(8, str[0])] + StrFields(str[1..])
  }

  function ExtractByte(s: Bytes, off: nat): byte
    requires off + 8 <= 8 * |s|
  {
    ByteBound();
    ExtractBound(s, off, 8);
    Extract(s, off, 8)
  }

  function ExtractStr(s: Bytes, off: nat, n: nat): (r: Bytes)
    requires off + 8 * n <= 8 * |s|
    ensures |r| == n
    ensures forall i :: 0 <= i < n ==> r[i] == ExtractByte(s, off + 8 * i)
  {
    seq(n, i requires 0 <= i < n => ExtractByte(s, off + 8 * i))
  }

  /** Strings survive at any offset, aligned or not. */
  lemma StringRoundTrip(s: Bytes, off: nat, str: Bytes)
    requires off + 8 * |str| <= 8 * |s|
    requires forall pos: nat :: off <= pos < off + 8 * |str| ==> !BitAt(s, pos)
    ensures ExtractStr(DepositAll(s, off, StrFields(str)), off, |str|) == str
  {
    hide Pow2, BitOf, Deposit, Extract, BitAt, DepositAll, StrFields, ExtractAll, OrBit;
    var r := DepositAll(s, off, StrFields(str));
    FieldsRoundTrip(s, off, StrFields(str));
    ByteBound();
    forall i | 0 <= i < |str|
      ensures ExtractByte(r, off + 8 * i) == str[i]
    {
      ExtractAllAt(r, off, StrFields(str), i);
    }
  }

  lemma {:induction false} ExtractAllAt(s: Bytes, off: nat, shape: seq<Field>, i: nat)
    requires i < |shape| && off + Total(shape) <= 8 * |s|
    requires forall k :: 0 <= k < |shape| ==> shape[k].width == 8
    ensures off + 8 * i + 8 <= 8 * |s|
    ensures ExtractAll(s, off, shape)[i] == Extract(s, off + 8 * i, 8)
    decreases |shape|
  {
    hide Pow2, BitOf, Deposit, Extract, BitAt;
    EightWide(shape);
    if i > 0 {
      ExtractAllAt(s, off + 8, shape[1..], i - 1);
    }
  }

  lemma EightWide(shape: seq<Field>)
    requires forall k :: 0 <= k < |shape| ==> shape[k].width == 8
    ensures Total(shape) == 8 * |shape|
  {}

  lemma DepositStrNone(s: Bytes, off: nat)
    requires off <= 8 * |s|
    ensures DepositAll(s, off, StrFields([])) == s
  {}

  lemma DepositStrStep(s: Bytes, off: nat, str: Bytes, i: nat, n: nat)
    requires i < n <= |str| && off + 8 * (n - i) <= 8 * |s|
    ensures DepositAll(s, off, StrFields(str[i..n]))
         == DepositAll(Deposit(s, off, str[i], 8), off + 8, StrFields(str[i + 1..n]))
  {
    hide Pow2, BitOf, Deposit, Extract, BitAt;
    assert str[i..n][1..] == str[i + 1..n];
    assert StrFields(str[i..n])[1..] == StrFields(str[i + 1..n]);
  }

  lemma DepositStep(s: Bytes, off: nat, v: nat, n: nat)
    requires off + n <= 8 * |s|
    ensures n > 0 ==> Deposit(s, off, v, n) == Deposit(PutBit(s, off, BitOf(v, n - 1)), off + 1, v, n - 1)
    ensures n == 0 ==> Deposit(s, off, v, n) == s
  {
    hide BitOf;
  }

  // ------------------------------------------------------------ byte-aligned access

  lemma ExtractAligned(s: Bytes, k: nat)
    requires k < |s|
    ensures ExtractByte(s, 8 * k) == s[k]
  {
    hide Extract, OrBit, Pow2, BitOf;
    ByteBound();
    ExtractBound(s, 8 * k, 8);
    forall j: nat | j < 8
      ensures BitOf(Extract(s, 8 * k, 8), j) == BitOf(s[k], j)
    {
      ExtractBit(s, 8 * k, 8, 7 - j);
    }
    BitsDetermine(Extract(s, 8 * k, 8), s[k], 8);
  }

  lemma ExtractStrAligned(s: Bytes, k: nat, n: nat)
    requires k + n <= |s|
    ensures ExtractStr(s, 8 * k, n) == s[k..k + n]
  {
    hide Pow2, BitOf, Deposit, Extract, BitAt;
    forall i | 0 <= i < n
      ensures ExtractStr(s, 8 * k, n)[i] == s[k + i]
    {
      ExtractAligned(s, k + i);
    }
  }

  lemma DepositAligned(s: Bytes, k: nat, v: nat)
    requires k < |s| && s[k] == 0
    ensures Deposit(s, 8 * k, v, 8) == s[k := v % 256]
  {
    ByteBound();
    var a, b := Deposit(s, 8 * k, v, 8), s[k := v % 256];
    forall pos: nat | pos < 8 * |s|
      ensures BitAt(a, pos) == BitAt(b, pos)
    {
      DepositBit(s, 8 * k, v, 8, pos);
      if pos / 8 == k {
        HighBitClearAll(7 - pos % 8);
        LowBits(v, 8, 7 - pos % 8);
      }
    }
    BytesDetermine(a, b);
  }

  lemma HighBitClearAll(j: nat)
    ensures !BitOf(0, j)
  {}

  /** A field of 8 + n bits is an 8-bit field with its high part and an n-bit field. */
  lemma {:induction false} DepositSplit(s: Bytes, off: nat, v: nat, m: nat)
    requires off + m + 8 <= 8 * |s|
    ensures Deposit(s, off, v, m + 8) == Deposit(Deposit(s, off, v / 256, m), off + m, v, 8)
    decreases m
  {
    if m > 0 {
      BitOfHigh(v, m - 1);
      DepositSplit(PutBit(s, off, BitOf(v, m + 7)), off + 1, v, m - 1);
    }
  }

  lemma BitOfHigh(v: nat, j: nat)
    ensures BitOf(v, j + 8) == BitOf(v / 256, j)
  {
    assert BitOf(v, j + 8) == BitOf(v / 2 / 2, j + 6);
    assert BitOf(v / 4, j + 6) == BitOf(v / 4 / 2 / 2, j + 4);
    assert BitOf(v / 16, j + 4) == BitOf(v / 16 / 2 / 2, j + 2);
    assert BitOf(v / 64, j + 2) == BitOf(v / 64 / 2 / 2, j);
  }

  lemma DepositAligned16(s: Bytes, k: nat, v: nat)
    requires k + 1 < |s| && s[k] == 0 && s[k + 1] == 0
    ensures Deposit(s, 8 * k, v, 16) == s[k := v / 256 % 256][k + 1 := v % 256]
  {
    hide Pow2, BitOf, Deposit, Extract, BitAt;
    DepositSplit(s, 8 * k, v, 8);
    DepositAligned(s, k, v / 256);
    DepositAligned(s[k := v / 256 % 256], k + 1, v);
  }

  lemma {:induction false} DepositStrAligned(s: Bytes, k: nat, str: Bytes)
    requires k + |str| <= |s|
    requires forall i :: k <= i < k + |str| ==> s[i] == 0
    ensures DepositAll(s, 8 * k, StrFields(str)) == s[..k] + str + s[k + |str|..]
    decreases |str|
  {
    hide Pow2, BitOf, Deposit, Extract, BitAt, DepositAll, StrFields;
    if str == [] {
      DepositStrNone(s, 8 * k);
    } else {
      assert str[0..|str|] == str && str[1..|str|] == str[1..];
      DepositStrStep(s, 8 * k, str, 0, |str|);
      DepositAligned(s, k, str[0]);
      DepositStrAligned(s[k := str[0]], k + 1, str[1..]);
    }
  }

  // ------------------------------------------------------------ the loops

  /** void set_bits(char* buffer, int& offset, uint32_t value, int bitCount) */
  method SetBits(buffer: array<byte>, offset: nat, value: nat, bitCount: nat) returns (next: nat)
    requires bitCount <= 32 && offset + bitCount <= 8 * buffer.Length
    modifies buffer
    ensures next == offset + bitCount
    ensures buffer[..] == Deposit(old(buffer[..]), offset, value, bitCount)
  {
    next := offset;
    for i := bitCount downto 0
      invariant next == offset + bitCount - i
      invariant Deposit(buffer[..], next, value, i) == Deposit(old(buffer[..]), offset, value, bitCount)
    {
      var byteIndex := next / 8;
      var bitIndex := 7 - next % 8;
      ghost var before := buffer[..];
      if BitOf(value, i) {
        buffer[byteIndex] := OrByte(buffer[byteIndex], bitIndex);
      }
      assert buffer[..] == PutBit(before, next, BitOf(value, i));
      next := next + 1;
    }
  }

  /** void set_bits(char* buffer, int& offset, char* str, int strLen) */
  method SetBitsStr(buffer: array<byte>, offset: nat, str: Bytes, strLen: nat) returns (next: nat)
    requires strLen <= |str| && offset + 8 * strLen <= 8 * buffer.Length
    modifies buffer
    ensures next == offset + 8 * strLen
    ensures buffer[..] == DepositAll(old(buffer[..]), offset, StrFields(str[..strLen]))
  {
    hide Pow2, BitOf, OrBit, BitAt, Extract, Deposit, DepositAll, StrFields;
    next := offset;
    assert str[0..strLen] == str[..strLen];
    for i := 0 to strLen
      invariant next == offset + 8 * i
      invariant DepositAll(buffer[..], next, StrFields(str[i..strLen]))
             == DepositAll(old(buffer[..]), offset, StrFields(str[..strLen]))
    {
      var currentChar := str[i];
      ghost var before := buffer[..];
      DepositStrStep(before, next, str, i, strLen);
      for bit := 8 downto 0
        invariant next == offset + 8 * i + 8 - bit
        invariant Deposit(buffer[..], next, currentChar, bit) == Deposit(before, offset + 8 * i, currentChar, 8)
      {
        var byteIndex := next / 8;
        var bitIndex := 7 - next % 8;
        ghost var mid := buffer[..];
        DepositStep(mid, next, currentChar, bit + 1);
        if BitOf(currentChar, bit) {
          buffer[byteIndex] := OrByte(buffer[byteIndex], bitIndex);
        }
        assert buffer[..] == PutBit(mid, next, BitOf(currentChar, bit));
        next := next + 1;
      }
      DepositStep(buffer[..], next, currentChar, 0);
    }
    assert str[strLen..strLen] == [];
    DepositStrNone(buffer[..], next);
  }

  /** `value` holds the first `i` of the `n` bits being read, in their final places. */
  ghost predicate ReadSoFar(s: Bytes, off: nat, n: nat, i: nat, value: nat)
    requires off + n <= 8 * |s|
  {
    && value < Pow2(n)
    && forall j: nat {:trigger BitOf(value, j)} :: j < n ==>
         BitOf(value, j) == (n - 1 - j < i && BitAt(s, off + (n - 1 - j)))
  }

  lemma ReadStart(s: Bytes, off: nat, n: nat)
    requires off + n <= 8 * |s|
    ensures ReadSoFar(s, off, n, 0, 0)
  {
    forall j: nat
      ensures !BitOf(0, j)
    {
      HighBitClearAll(j);
    }
  }

  lemma ReadStep(s: Bytes, off: nat, n: nat, i: nat, value: nat)
    requires off + n <= 8 * |s| && i < n
    requires ReadSoFar(s, off, n, i, value)
    ensures ReadSoFar(s, off, n, i + 1, if BitAt(s, off + i) then OrBit(value, n - 1 - i) else value)
  {
    OrBitBound(value, n - 1 - i, n);
    var next := if BitAt(s, off + i) then OrBit(value, n - 1 - i) else value;
    forall j: nat | j < n
      ensures BitOf(next, j) == (n - 1 - j < i + 1 && BitAt(s, off + (n - 1 - j)))
    {
      OrBitBits(value, n - 1 - i, j);
      assert BitOf(value, j) == (n - 1 - j < i && BitAt(s, off + (n - 1 - j)));
    }
  }

  lemma ReadDone(s: Bytes, off: nat, n: nat, value: nat)
    requires off + n <= 8 * |s|
    requires ReadSoFar(s, off, n, n, value)
    ensures value == Extract(s, off, n)
  {
    ExtractBound(s, off, n);
    forall j: nat | j < n
      ensures BitOf(value, j) == BitOf(Extract(s, off, n), j)
    {
      ExtractBit(s, off, n, n - 1 - j);
    }
    BitsDetermine(value, Extract(s, off, n), n);
  }

  /** int get_bits(char* buffer, int& bitOffset, int numBits); `pattern` is the result's bit pattern. */
  method GetBits(buffer: array<byte>, bitOffset: nat, numBits: nat) returns (value: int, next: nat)
    requires numBits <= 32 && bitOffset + numBits <= 8 * buffer.Length
    ensures next == bitOffset + numBits
    ensures value == Int32(Extract(buffer[..], bitOffset, numBits))
  {
    hide Pow2, BitOf, Extract, ReadSoFar, OrBit;
    var pattern: nat := 0;
    next := bitOffset;
    ReadStart(buffer[..], bitOffset, numBits);
    for i := 0 to numBits
      invariant next == bitOffset + i
      invariant ReadSoFar(buffer[..], bitOffset, numBits, i, pattern)
    {
      var byteIndex := next / 8;
      var bitIndex := 7 - next % 8;
      ReadStep(buffer[..], bitOffset, numBits, i, pattern);
      if BitOf(buffer[byteIndex], bitIndex) {
        pattern := OrBit(pattern, numBits - 1 - i);
      }
      next := next + 1;
    }
    ReadDone(buffer[..], bitOffset, numBits, pattern);
    value := Int32(pattern);
  }

  /** Read back through the `int` of get_bits, a field is never negative up to 31 bits; at 32 it is
      negative exactly for the upper half of the values, and its 32-bit pattern is still the value. */
  lemma SignOfField(s: Bytes, off: nat, v: nat, n: nat)
    requires n <= 32 && off + n <= 8 * |s|
    requires forall pos: nat :: off <= pos < off + n ==> !BitAt(s, pos)
    ensures var r := Int32(Extract(Deposit(s, off, v, n), off, n));
            && r % 0x1_0000_0000 == v % Pow2(n)
            && (r < 0 <==> n == 32 && v % Pow2(32) >= 0x8000_0000)
            && (n <= 31 ==> r == v % Pow2(n))
  {
    hide Pow2, Deposit, Extract, BitAt;
    ExtractDeposit(s, off, v, n);
    WordBound();
    if n <= 31 {
      Pow2Grows(n, 31);
    }
  }

  /** void get_bits(char* buffer, int& bitOffset, char* str, int strLen) */
  method GetBitsStr(buffer: array<byte>, bitOffset: nat, str: array<byte>, strLen: nat) returns (next: nat)
    requires buffer != str && strLen <= str.Length && bitOffset + 8 * strLen <= 8 * buffer.Length
    modifies str
    ensures next == bitOffset + 8 * strLen
    ensures str[..strLen] == ExtractStr(buffer[..], bitOffset, strLen)
    ensures str[strLen..] == old(str[strLen..])
  {
    hide Pow2, BitOf, Extract, ReadSoFar, OrBit;
    next := bitOffset;
    for i := 0 to strLen
      invariant next == bitOffset + 8 * i
      invariant forall k :: 0 <= k < i ==> str[k] == ExtractByte(buffer[..], bitOffset + 8 * k)
      invariant forall k :: strLen <= k < str.Length ==> str[k] == old(str[k])
    {
      var cValue: byte := 0;
      ghost var start := next;
      ByteBound();
      ReadStart(buffer[..], start, 8);
      for bit := 8 downto 0
        modifies {}
        invariant next == start + 8 - bit
        invariant ReadSoFar(buffer[..], start, 8, 8 - bit, cValue)
      {
        var byteIndex := next / 8;
        var bitIndex := 7 - next % 8;
        ReadStep(buffer[..], start, 8, 7 - bit, cValue);
        if BitOf(buffer[byteIndex], bitIndex) {
          cValue := OrByte(cValue, bit);
        }
        next := next + 1;
      }
      ReadDone(buffer[..], start, 8, cValue);
      str[i] := cValue;
    }
  }
}
