/**
 Reading and writing reports through the fields that a report descriptor declares.

 `Decode` reads the value of every field and `Encode` lays values out again; for every accepted descriptor
 the two are inverse to each other. `HostReads` is what a host makes of a packet: the controls of the
 non-constant fields of the report whose ID is the first byte (section 8.1 of HID 1.11).
 */
module HidReports {
  import opened Bits
  import opened Wrappers
  import opened HidItems
  import opened HidInterpreter

  /** A field whose logical minimum is negative holds a two's complement value (section 6.2.2.7). */
  function Value(f: Field, raw: nat): (v: int) {
    if f.logicalMin < 0 then Signed(raw, f.size) else raw
  }

  predicate Inside(f: Field, bits: seq<bool>) {
    f.offset + f.size <= |bits|
  }

  predicate Fits(fs: seq<Field>, bits: seq<bool>) {
    forall f <- fs :: Inside(f, bits)
  }

  function Read(f: Field, bits: seq<bool>): (v: int)
    requires Inside(f, bits)
  {
    Value(f, Nat(bits[f.offset..f.offset + f.size]))
  }

  function Decode(fs: seq<Field>, bits: seq<bool>): (vs: seq<int>)
    requires Fits(fs, bits)
    ensures |vs| == |fs|
  {
    if fs == [] then [] else [Read(fs[0], bits)] + Decode(fs[1..], bits)
  }

  /** The values a field can hold. */
  predicate Representable(f: Field, v: int) {
    if f.size == 0 then v == 0
    else if f.logicalMin < 0 then 0 <= v + Pow2(f.size - 1) < Pow2(f.size)
    else 0 <= v < Pow2(f.size)
  }

  function FieldBits(f: Field, v: int): (bits: seq<bool>)
    requires Representable(f, v)
    ensures |bits| == f.size
  {
    ToBits(if v < 0 then v + Pow2(f.size) else v, f.size)
  }

  predicate AllRepresentable(fs: seq<Field>, vs: seq<int>) {
    |vs| == |fs| && forall i | 0 <= i < |fs| :: Representable(fs[i], vs[i])
  }

  function Encode(fs: seq<Field>, vs: seq<int>): (bits: seq<bool>)
    requires AllRepresentable(fs, vs)
  {
    if fs == [] then [] else FieldBits(fs[0], vs[0]) + Encode(fs[1..], vs[1..])
  }

  // ---------------------------------------------------------------- decoding is a bijection

  lemma {:induction false} TilesFit(fs: seq<Field>, lo: nat, hi: nat, bits: seq<bool>)
    requires Tiles(fs, lo, hi) && hi <= |bits|
    ensures Fits(fs, bits)
  {
    forall i | 0 <= i < |fs|
      ensures Inside(fs[i], bits)
    {
      TilesDisjoint(fs, lo, hi, i);
    }
  }

  lemma ValueOfFieldBits(f: Field, v: int)
    requires Representable(f, v)
    ensures Value(f, Nat(FieldBits(f, v))) == v
  {
    NatOfToBits(if v < 0 then v + Pow2(f.size) else v, f.size);
  }

  lemma {:induction false} FieldBitsOfValue(f: Field, bits: seq<bool>)
    requires |bits| == f.size
    ensures var v := Value(f, Nat(bits)); Representable(f, v) && FieldBits(f, v) == bits
  {
    NatBound(bits);
    ToBitsOfNat(bits);
  }

  lemma {:induction false} EncodeLength(fs: seq<Field>, vs: seq<int>, lo: nat, hi: nat)
    requires Tiles(fs, lo, hi) && AllRepresentable(fs, vs)
    ensures lo + |Encode(fs, vs)| == hi
  {
    if fs == [] {
    } else {
      EncodeLength(fs[1..], vs[1..], lo + fs[0].size, hi);
    }
  }

  lemma {:induction false} DecodeAfter(prefix: seq<bool>, fs: seq<Field>, vs: seq<int>, hi: nat)
    requires Tiles(fs, |prefix|, hi) && AllRepresentable(fs, vs)
    ensures var bits := prefix + Encode(fs, vs);
            Fits(fs, bits) && Decode(fs, bits) == vs
    decreases |fs|
  {
    var bits := prefix + Encode(fs, vs);
    EncodeLength(fs, vs, |prefix|, hi);
    TilesFit(fs, |prefix|, hi, bits);
    if fs == [] {
    } else {
      var f, own := fs[0], FieldBits(fs[0], vs[0]);
      DecodeAfter(prefix + own, fs[1..], vs[1..], hi);
      assert bits == prefix + own + Encode(fs[1..], vs[1..]);
      assert bits[f.offset..f.offset + f.size] == own;
      ValueOfFieldBits(f, vs[0]);
    }
  }

  lemma RepresentableCons(fs: seq<Field>, vs: seq<int>)
    requires fs != [] && |vs| == |fs| && Representable(fs[0], vs[0]) && AllRepresentable(fs[1..], vs[1..])
    ensures AllRepresentable(fs, vs)
  {
    forall i | 0 <= i < |fs|
      ensures Representable(fs[i], vs[i])
    {
      if i > 0 {
        assert fs[i] == fs[1..][i - 1] && vs[i] == vs[1..][i - 1];
      }
    }
  }

  lemma Adjacent(bits: seq<bool>, lo: nat, mid: nat, hi: nat)
    requires lo <= mid <= hi <= |bits|
    ensures bits[lo..mid] + bits[mid..hi] == bits[lo..hi]
  {
  }

  lemma {:induction false} EncodeOfDecodeFrom(fs: seq<Field>, lo: nat, hi: nat, bits: seq<bool>)
    requires Tiles(fs, lo, hi) && hi <= |bits|
    ensures lo <= hi && Fits(fs, bits)
    ensures AllRepresentable(fs, Decode(fs, bits)) && Encode(fs, Decode(fs, bits)) == bits[lo..hi]
  {
    TilesOrdered(fs, lo, hi);
    TilesFit(fs, lo, hi, bits);
    if fs == [] {
    } else {
      var f, vs := fs[0], Decode(fs, bits);
      EncodeOfDecodeFrom(fs[1..], lo + f.size, hi, bits);
      TilesOrdered(fs[1..], lo + f.size, hi);
      FieldBitsOfValue(f, bits[lo..lo + f.size]);
      assert vs == [Read(f, bits)] + Decode(fs[1..], bits);
      Adjacent(bits, lo, lo + f.size, hi);
      RepresentableCons(fs, vs);
    }
  }

  /**
   For every accepted descriptor and every report, decoding all fields is a bijection between the bit strings
   of the report and the representable value vectors; `Encode` is its inverse.
   */
  lemma {:induction false} ReportBijection(items: seq<ShortItem>, k: Key, bits: seq<bool>, vs: seq<int>)
    requires Run(items, INITIAL).Ok?
    ensures var fs, n := FieldsOf(Run(items, INITIAL).value.fields, k), DeclaredBits(items, INITIAL_ENV, k);
            && (|bits| == n ==>
                  && Fits(fs, bits) && AllRepresentable(fs, Decode(fs, bits))
                  && Encode(fs, Decode(fs, bits)) == bits)
            && (AllRepresentable(fs, vs) ==>
                  && |Encode(fs, vs)| == n && Fits(fs, Encode(fs, vs))
                  && Decode(fs, Encode(fs, vs)) == vs)
  {
    var fs, n := FieldsOf(Run(items, INITIAL).value.fields, k), DeclaredBits(items, INITIAL_ENV, k);
    LayoutTheorem(items, k);
    if |bits| == n {
      EncodeOfDecodeFrom(fs, 0, n, bits);
    }
    if AllRepresentable(fs, vs) {
      EncodeLength(fs, vs, 0, n);
      DecodeAfter([], fs, vs, n);
      assert [] + Encode(fs, vs) == Encode(fs, vs);
    }
  }

  // ---------------------------------------------------------------- the host's view of a packet

  datatype Control = Control(usage: Option<Usage>, value: int)

  datatype HostError = BadDescriptor | UnknownReport | ShortReport

  /** The readings of the fields that are data. */
  function Controls(fs: seq<Field>, bits: seq<bool>): (cs: seq<Control>)
    requires Fits(fs, bits)
  {
    if fs == [] then []
    else (if fs[0].constant then [] else [Control(fs[0].usage, Read(fs[0], bits))]) + Controls(fs[1..], bits)
  }

  /** What a host obtains from an input packet whose first byte is the report ID. */
  function HostReads(descriptor: seq<byte>, packet: seq<byte>): (r: Result<seq<Control>, HostError>) {
    var parsed := Parse(descriptor);
    if parsed.Err? || Run(parsed.value, INITIAL).Err? then Err(BadDescriptor)
    else if packet == [] then Err(ShortReport)
    else
      var fs := FieldsOf(Run(parsed.value, INITIAL).value.fields, Key(Input, packet[0]));
      var bits := ByteBits(packet[1..]);
      if fs == [] then Err(UnknownReport)
      else if !Fits(fs, bits) then Err(ShortReport)
      else Ok(Controls(fs, bits))
  }

  predicate Accepted(descriptor: seq<byte>, items: seq<ShortItem>) {
    descriptor == PrintAll(items) && Run(items, INITIAL).Ok?
  }

  /**
   What a host makes of any packet under any descriptor. It refuses a descriptor exactly if that is not the byte form of
   an accepted item list. Otherwise a packet without a first byte, or too short for some field of its report, is refused,
   and so is one whose report has no field; from all others the data fields of the report are read.
   */
  lemma {:induction false} HostReadsExactly(descriptor: seq<byte>, packet: seq<byte>, items: seq<ShortItem>)
    ensures HostReads(descriptor, packet) == Err(BadDescriptor) ==> !Accepted(descriptor, items)
    ensures HostReads(descriptor, packet) != Err(BadDescriptor) ==>
              Parse(descriptor).Ok? && Accepted(descriptor, Parse(descriptor).value)
    ensures Accepted(descriptor, items) ==>
              HostReads(descriptor, packet) ==
              if packet == [] then Err(ShortReport)
              else
                var fs := FieldsOf(Run(items, INITIAL).value.fields, Key(Input, packet[0]));
                if fs == [] then Err(UnknownReport)
                else if exists f <- fs :: f.offset + f.size > 8 * (|packet| - 1) then Err(ShortReport)
                else Ok(Controls(fs, ByteBits(packet[1..])))
  {
    ParseExact(descriptor, items);
    if Parse(descriptor).Ok? {
      PrintOfParse(descriptor);
    }
  }

  /** Packet length in bytes of a report of `bits` bits: the ID byte, then the bits padded to whole bytes. */
  function PacketLength(bits: nat): (n: nat) {
    1 + (bits + 7) / 8
  }

  lemma {:induction false} ControlsCons(f: Field, rest: seq<Field>, bits: seq<bool>)
    requires Inside(f, bits) && Fits(rest, bits)
    ensures Fits([f] + rest, bits)
    ensures Controls([f] + rest, bits) ==
            (if f.constant then [] else [Control(f.usage, Read(f, bits))]) + Controls(rest, bits)
  {
    assert ([f] + rest)[1..] == rest;
  }

  lemma Associative(x: seq<Control>, y: seq<Control>, z: seq<Control>)
    ensures x + y + z == x + (y + z)
  {
  }

  lemma {:induction false} ControlsConcat(a: seq<Field>, b: seq<Field>, bits: seq<bool>)
    requires Fits(a, bits) && Fits(b, bits)
    ensures Fits(a + b, bits)
    ensures Controls(a + b, bits) == Controls(a, bits) + Controls(b, bits)
  {
    if a == [] {
      assert a + b == b;
    } else {
      var f, rest := a[0], a[1..];
      assert a == [f] + rest && a + b == [f] + (rest + b);
      ControlsConcat(rest, b, bits);
      ControlsCons(f, rest, bits);
      ControlsCons(f, rest + b, bits);
      Associative(if f.constant then [] else [Control(f.usage, Read(f, bits))], Controls(rest, bits), Controls(b, bits));
    }
  }
}
