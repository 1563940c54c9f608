/** Fixtures for the worked examples of both walkers: a table assembled
    from a signature, the rest of the header and a body. */
module TableExamples {
  import opened AcpiTable

  /** A table for worked examples: the 4-byte `signature`, 32 further header
      bytes (whose contents neither walker uses), then `body`. */
  function ExampleTable(signature: Bytes, rest: Bytes, body: Bytes): Bytes {
    signature + rest + body
  }

  /** A field of the body at `o` is read at `at`, 36 bytes later. */
  lemma ExampleTableRead(signature: Bytes, rest: Bytes, body: Bytes, o: nat, at: nat, n: nat)
    requires |signature| == 4 && |rest| == 32 && o + n <= |body| && at == 36 + o
    ensures |ExampleTable(signature, rest, body)| == 36 + |body|
    ensures LE(ExampleTable(signature, rest, body), at, n) == LE(body, o, n)
  {
    LEShift(signature + rest, body, o, n);
  }
}
