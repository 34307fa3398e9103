/**
 CopyStringAtIndex: a USB string descriptor, which holds UTF-16 code units (section 9.6.7 of the USB 2.0
 specification), is narrowed to the bytes of a C string.
 */
module StringCopy {
  import opened Bits
  import opened Wrappers

  const DESCRIPTOR_HEADER_SIZE := 2

  /** `IOUSBStringDescriptor`: the memory behind `bString` reaches at least as far as `bLength` says. */
  datatype StringDescriptor = StringDescriptor(bLength: byte, bString: seq<uint16>)

  predicate WellFormed(d: StringDescriptor) {
    d.bLength >= DESCRIPTOR_HEADER_SIZE ==> Units(d) <= |d.bString|
  }

  /** The number of code units announced by `bLength`. */
  function Units(d: StringDescriptor): (n: nat)
    requires d.bLength >= DESCRIPTOR_HEADER_SIZE
    ensures n <= 126
  {
    (d.bLength - DESCRIPTOR_HEADER_SIZE) / 2
  }

  function LowBytes(units: seq<uint16>): (bytes: seq<byte>)
    ensures |bytes| == |units|
  {
    if units == [] then [] else LowBytes(units[..|units| - 1]) + [units[|units| - 1] % 256]
  }

  lemma {:induction false} LowBytesAt(units: seq<uint16>)
    ensures forall i | 0 <= i < |units| :: LowBytes(units)[i] == units[i] % 256
  {
    if units == [] {
    } else {
      LowBytesAt(units[..|units| - 1]);
    }
  }

  /** `n` is the length of the longest prefix without a zero unit. */
  predicate StopsAt(units: seq<uint16>, n: nat) {
    n <= |units| && 0 !in units[..n] && (n < |units| ==> units[n] == 0)
  }

  lemma StopsAtUnique(units: seq<uint16>, m: nat, n: nat)
    requires StopsAt(units, m) && StopsAt(units, n)
    ensures m == n
  {
  }

  /** What is copied: the low bytes of the announced units, up to the first zero unit. */
  predicate IsCopy(d: StringDescriptor, text: seq<byte>)
    requires d.bLength >= DESCRIPTOR_HEADER_SIZE && WellFormed(d)
  {
    var units := d.bString[..Units(d)];
    StopsAt(units, |text|) && text == LowBytes(units[..|text|])
  }

  /**
   No string for index 0, a missing descriptor or one shorter than its header; otherwise the low bytes of the
   longest prefix without a zero unit. The 256-byte array is never exceeded.
   */
  method CopyStringAtIndex(descriptorIndex: byte, descriptor: Option<StringDescriptor>) returns (text: Option<seq<byte>>)
    requires descriptor.Some? ==> WellFormed(descriptor.value)
    ensures text.None? <==>
            descriptorIndex == 0 || descriptor.None? || descriptor.value.bLength < DESCRIPTOR_HEADER_SIZE
    ensures text.Some? ==> |text.value| <= 126 && IsCopy(descriptor.value, text.value)
    ensures text.Some? ==>
              var d, n := descriptor.value, |text.value|;
              && n <= (d.bLength - 2) / 2 <= |d.bString|
              && (forall i | 0 <= i < n :: d.bString[i] != 0 && text.value[i] == d.bString[i] % 256)
              && (n == (d.bLength - 2) / 2 || d.bString[n] == 0)
  {
    if descriptorIndex == 0 {
      return None;
    }
    match descriptor
    case None => return None;
    case Some(d) =>
      if d.bLength < DESCRIPTOR_HEADER_SIZE {
        return None;
      }
      var result := new byte[256](_ => 0);
      var length := Units(d);
      ghost var units := d.bString[..length];
      var index := 0;
      while index < length
        invariant index <= length
        invariant 0 !in units[..index]
        invariant result[..index] == LowBytes(units[..index])
      {
        var value := d.bString[index];
        if value == 0 {
          break;
        }
        result[index] := value % 256;
        assert units[..index + 1] == units[..index] + [value];
        assert result[..index + 1] == result[..index] + [value % 256];
        index := index + 1;
      }
      text := Some(result[..index]);
      LowBytesAt(units[..index]);
      assert forall i | 0 <= i < index :: d.bString[i] == units[..index][i];
  }

  /** The descriptor of a string of Latin-1 characters. */
  function Encode(s: seq<byte>): (d: StringDescriptor)
    requires |s| <= 126
  {
    StringDescriptor(DESCRIPTOR_HEADER_SIZE + 2 * |s|, s)
  }

  lemma {:induction false} LowBytesOfBytes(s: seq<byte>)
    ensures LowBytes(s) == s
  {
    if s == [] {
    } else {
      LowBytesOfBytes(s[..|s| - 1]);
    }
  }

  /** Every Latin-1 string of at most 126 characters without NUL is the one and only copy of its descriptor. */
  lemma StringRoundTrip(s: seq<byte>, text: seq<byte>)
    requires |s| <= 126 && 0 !in s
    ensures IsCopy(Encode(s), text) <==> text == s
  {
    var units := Encode(s).bString[..Units(Encode(s))];
    assert units == s && units[..|s|] == s;
    LowBytesOfBytes(s);
    if IsCopy(Encode(s), text) {
      StopsAtUnique(units, |text|, |s|);
    }
  }
}
