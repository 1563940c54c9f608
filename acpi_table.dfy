/** The one conversion fact the little-endian proofs need about a byte. */
module ByteValues {
  /** A number below 256 survives the trip through a byte unchanged. */
  lemma ByteValue(b: nat)
    requires b < 256
    ensures (b as bv8) as nat == b
  {
  }
}

/** Pieces shared by both table walkers: the byte buffer, the little-endian
    field readers that stand for `struct.unpack_from("<H"/"<I"/"<Q", ...)`,
    the error kinds and the common 36-byte ACPI table header check. */
module AcpiTable {
  import opened ByteValues

  type Bytes = seq<bv8>

  datatype Option<+T> = None | Some(value: T)

  /** The ways a parse call can raise. `OutOfBounds` stands for a
      `struct.unpack_from` that would read past the end of the buffer. */
  datatype Error = TooShort | BadSignature | InvalidNodeType | OutOfBounds

  datatype Result<+T> = Ok(value: T) | Err(error: Error)

  /** Size of the System Description Table Header (ACPI 6.6, section 5.2.6). */
  const HeaderSize: nat := 36

  function Pow256(n: nat): (r: nat)
    ensures r >= 1
  {
    if n == 0 then 1 else 256 * Pow256(n - 1)
  }

  /** The unsigned little-endian integer held in `d[o..o+n]`. */
  function LE(d: Bytes, o: nat, n: nat): (r: nat)
    requires o + n <= |d|
    ensures r < Pow256(n)
    decreases n
  {
    if n == 0 then 0
    else
      var rest := LE(d, o + 1, n - 1);
      assert 256 * rest <= 256 * (Pow256(n - 1) - 1);
      d[o] as nat + 256 * rest
  }

  function LE16(d: Bytes, o: nat): (r: nat)
    requires o + 2 <= |d|
    ensures r < 0x1_0000
  {
    LE(d, o, 2)
  }

  function LE32(d: Bytes, o: nat): (r: nat)
    requires o + 4 <= |d|
    ensures r < 0x1_0000_0000
  {
    LE(d, o, 4)
  }

  function LE64(d: Bytes, o: nat): (r: nat)
    requires o + 8 <= |d|
    ensures r < 0x1_0000_0000_0000_0000
  {
    assert Pow256(8) == 0x1_0000_0000_0000_0000;
    LE(d, o, 8)
  }

  /** The 32-bit little-endian field at `o` as a bit vector, for fields
      whose bits are tested one by one (flags). */
  function Bits32(d: Bytes, o: nat): bv32
    requires o + 4 <= |d|
  {
    (d[o] as bv32) | (d[o + 1] as bv32 << 8) | (d[o + 2] as bv32 << 16) | (d[o + 3] as bv32 << 24)
  }

  /** The `n`-byte little-endian encoding of `x` (the inverse of `LE`). */
  function ToLE(x: nat, n: nat): (r: Bytes)
    ensures |r| == n
  {
    if n == 0 then [] else [(x % 256) as bv8] + ToLE(x / 256, n - 1)
  }

  /** Reading `n` bytes at `o` looks at those bytes only. */
  lemma {:induction false} LEWindow(d: Bytes, o: nat, n: nat)
    requires o + n <= |d|
    ensures LE(d, o, n) == LE(d[o..o + n], 0, n)
    decreases n
  {
    if n > 0 {
      LEWindow(d, o + 1, n - 1);
      LEWindow(d[o..o + n], 1, n - 1);
      assert d[o..o + n][1..1 + (n - 1)] == d[o + 1..o + 1 + (n - 1)];
    }
  }

  /** Decoding the encoding of a value that fits gives the value back. */
  lemma {:induction false} LERoundTrip(x: nat, n: nat)
    requires x < Pow256(n)
    ensures LE(ToLE(x, n), 0, n) == x
    decreases n
  {
    if n > 0 {
      var q, b := x / 256, x % 256;
      var e := ToLE(x, n);
      assert x == b + 256 * q;
      assert q < Pow256(n - 1);
      LERoundTrip(q, n - 1);
      LEWindow(e, 1, n - 1);
      assert e[1..1 + (n - 1)] == ToLE(q, n - 1);
      ByteValue(b);
      assert e[0] as nat == b;
      assert LE(e, 0, n) == e[0] as nat + 256 * LE(e, 1, n - 1);
    }
  }

  /** Bytes put in front of a buffer do not change what is read behind them. */
  lemma {:induction false} LEShift(prefix: Bytes, s: Bytes, o: nat, n: nat)
    requires o + n <= |s|
    ensures LE(prefix + s, |prefix| + o, n) == LE(s, o, n)
    decreases n
  {
    if n > 0 {
      LEShift(prefix, s, o + 1, n - 1);
      assert (prefix + s)[|prefix| + o] == s[o];
    }
  }

  /** Bytes put after a buffer do not change what is read inside it. */
  lemma {:induction false} LEExtend(s: Bytes, suffix: Bytes, o: nat, n: nat)
    requires o + n <= |s|
    ensures LE(s + suffix, o, n) == LE(s, o, n)
    decreases n
  {
    if n > 0 {
      LEExtend(s, suffix, o + 1, n - 1);
      assert (s + suffix)[o] == s[o];
    }
  }

  /** A field of zero bytes reads as 0. */
  lemma {:induction false} LEZero(d: Bytes, o: nat, n: nat)
    requires o + n <= |d|
    requires forall i :: o <= i < o + n ==> d[i] == 0
    ensures LE(d, o, n) == 0
    decreases n
  {
    if n > 0 {
      LEZero(d, o + 1, n - 1);
    }
  }

  /** A little-endian field embedded anywhere in a buffer reads back as the
      value that was encoded there. */
  lemma LEAt(prefix: Bytes, x: nat, n: nat, suffix: Bytes)
    requires x < Pow256(n)
    ensures LE(prefix + ToLE(x, n) + suffix, |prefix|, n) == x
  {
    var d := prefix + ToLE(x, n) + suffix;
    LEWindow(d, |prefix|, n);
    assert d[|prefix|..|prefix| + n] == ToLE(x, n);
    LERoundTrip(x, n);
  }

  /** The common header check of both walkers: a buffer shorter than the
      header raises "too short", and a header whose 4-byte signature differs
      from the expected one raises "invalid". `None` means accepted. No other
      header field (length, checksum, OEM fields) is looked at. */
  function CheckHeader(data: Bytes, signature: Bytes): (r: Option<Error>)
    requires |signature| == 4
    ensures r == None <==> |data| >= HeaderSize && data[..4] == signature
    ensures r == Some(TooShort) <==> |data| < HeaderSize
    ensures r == Some(BadSignature) <==> |data| >= HeaderSize && data[..4] != signature
  {
    if |data| < HeaderSize then Some(TooShort)
    else if data[..4] != signature then Some(BadSignature)
    else None
  }

  /** Acceptance of the header depends on the buffer length and the first
      four bytes only: two buffers that agree on those get the same verdict. */
  lemma HeaderOnlyLengthAndSignature(a: Bytes, b: Bytes, signature: Bytes)
    requires |signature| == 4
    requires |a| >= HeaderSize && |b| >= HeaderSize
    requires a[..4] == b[..4]
    ensures CheckHeader(a, signature) == CheckHeader(b, signature)
  {
  }
}
