// `IdGenerator`: trace and span identifiers are strings of random lower-case
// hexadecimal digits. The random source is modelled by a nondeterministic
// choice of each digit.

module IdGenerator {

  const HexChars: string := "0123456789abcdef"

  predicate IsLowerHex(s: string)
  {
    forall i :: 0 <= i < |s| ==> s[i] in HexChars
  }

  predicate IsTraceId(s: string) { |s| == 32 && IsLowerHex(s) }

  predicate IsSpanId(s: string) { |s| == 16 && IsLowerHex(s) }

  /** Fills a character buffer of the requested length with random digits. */
  method RandomHex(length: nat) returns (id: string)
    ensures |id| == length
    ensures IsLowerHex(id)
  {
    var buffer := new char[length];
    for i := 0 to length
      invariant forall k :: 0 <= k < i ==> buffer[k] in HexChars
    {
      var digit :| 0 <= digit < 16;
      buffer[i] := HexChars[digit];
    }
    id := buffer[..];
  }

  method GenerateTraceId() returns (id: string)
    ensures IsTraceId(id)
  {
    id := RandomHex(32);
  }

  method GenerateSpanId() returns (id: string)
    ensures IsSpanId(id)
  {
    id := RandomHex(16);
  }
}
