/**
 Short items of a HID report descriptor and their byte form
 (Device Class Definition for HID 1.11, section 6.2.2.2).

 The one prefix byte holds the data size in bits 0-1 (code 3 means four bytes), the item type in bits 2-3
 and the tag in bits 4-7. The prefix 0xFE announces a long item (section 6.2.2.3).
 */
module HidItems {
  import opened Bits
  import opened Wrappers

  const MAIN := 0
  const GLOBAL := 1
  const LOCAL := 2
  const LONG_ITEM_PREFIX := 0xFE

  datatype Item = Item(tag: nat, kind: nat, data: seq<byte>)

  type ShortItem = i: Item | IsShort(i) witness Item(0, 0, [])

  datatype ParseError = Truncated | LongItem

  predicate IsShort(i: Item) {
    && i.tag < 16
    && i.kind < 4
    && |i.data| in {0, 1, 2, 4}
    && !(i.tag == 15 && i.kind == 3 && |i.data| == 2)
  }

  /** The number of data bytes announced by a size code. */
  function DataSize(code: nat): (n: nat)
    requires code < 4
  {
    if code == 3 then 4 else code
  }

  function SizeCode(n: nat): (code: nat)
    requires n in {0, 1, 2, 4}
    ensures code < 4 && DataSize(code) == n
  {
    if n == 4 then 3 else n
  }

  function Print(i: ShortItem): (bytes: seq<byte>)
    ensures |bytes| == 1 + |i.data| && bytes[0] != LONG_ITEM_PREFIX
  {
    [16 * i.tag + 4 * i.kind + SizeCode(|i.data|)] + i.data
  }

  function PrintAll(items: seq<ShortItem>): (bytes: seq<byte>) {
    if items == [] then [] else Print(items[0]) + PrintAll(items[1..])
  }

  /** Reads a whole descriptor; defined, and terminating, on every byte string. */
  function Parse(bytes: seq<byte>): (r: Result<seq<ShortItem>, ParseError>)
    decreases |bytes|
  {
    if bytes == [] then
      Ok([])
    else if bytes[0] == LONG_ITEM_PREFIX then
      Err(LongItem)
    else
      var n := DataSize(bytes[0] % 4);
      if |bytes| < 1 + n then
        Err(Truncated)
      else
        var item := Item(bytes[0] / 16, bytes[0] / 4 % 4, bytes[1..1 + n]);
        match Parse(bytes[1 + n..])
        case Ok(rest) => Ok([item] + rest)
        case Err(e) => Err(e)
  }

  lemma Associative(x: seq<byte>, y: seq<byte>, z: seq<byte>)
    ensures x + y + z == x + (y + z)
  {
  }

  lemma {:induction false} PrintAllCons(i: ShortItem, rest: seq<ShortItem>)
    ensures PrintAll([i] + rest) == Print(i) + PrintAll(rest)
  {
    assert ([i] + rest)[1..] == rest;
  }

  lemma {:induction false} PrintAllConcat(a: seq<ShortItem>, b: seq<ShortItem>)
    ensures PrintAll(a + b) == PrintAll(a) + PrintAll(b)
  {
    if a == [] {
      assert a + b == b;
    } else {
      var i, rest := a[0], a[1..];
      assert a == [i] + rest && a + b == [i] + (rest + b);
      PrintAllCons(i, rest);
      PrintAllCons(i, rest + b);
      PrintAllConcat(rest, b);
      Associative(Print(i), PrintAll(rest), PrintAll(b));
    }
  }

  /** The same printing folded from the left: the bytes of the first `n` items. */
  function PrintPrefix(items: seq<ShortItem>, n: nat): (bytes: seq<byte>)
    requires n <= |items|
    decreases n
  {
    if n == 0 then [] else PrintPrefix(items, n - 1) + Print(items[n - 1])
  }

  lemma {:induction false} PrintPrefixIsPrint(items: seq<ShortItem>, n: nat)
    requires n <= |items|
    ensures PrintPrefix(items, n) == PrintAll(items[..n])
  {
    if n == 0 {
    } else {
      PrintPrefixIsPrint(items, n - 1);
      assert items[..n] == items[..n - 1] + [items[n - 1]];
      PrintAllConcat(items[..n - 1], [items[n - 1]]);
      assert [items[n - 1]][1..] == [];
    }
  }

  lemma {:induction false} PrintWhole(items: seq<ShortItem>)
    ensures PrintPrefix(items, |items|) == PrintAll(items)
  {
    PrintPrefixIsPrint(items, |items|);
    assert items[..|items|] == items;
  }

  /** The prefix byte of an item determines its tag, its type and its size. */
  lemma PrefixParts(i: ShortItem)
    ensures var p := Print(i)[0]; p / 16 == i.tag && p / 4 % 4 == i.kind && DataSize(p % 4) == |i.data|
  {
    var p := Print(i)[0];
    assert p == 16 * i.tag + 4 * i.kind + SizeCode(|i.data|);
    assert p / 4 == 4 * i.tag + i.kind;
  }

  /** Parsing what was printed gives the items back. */
  lemma {:induction false} ParseOfPrint(items: seq<ShortItem>)
    ensures Parse(PrintAll(items)) == Ok(items)
  {
    if items == [] {
    } else {
      var i := items[0];
      var bytes := PrintAll(items);
      ParseOfPrint(items[1..]);
      assert bytes[1..1 + |i.data|] == i.data;
      assert bytes[1 + |i.data|..] == PrintAll(items[1..]);
      PrefixParts(i);
      assert items == [i] + items[1..];
    }
  }

  /** Printing what was parsed gives the bytes back. */
  lemma {:induction false} PrintOfParse(bytes: seq<byte>)
    requires Parse(bytes).Ok?
    ensures PrintAll(Parse(bytes).value) == bytes
    decreases |bytes|
  {
    if bytes == [] {
    } else {
      var n := DataSize(bytes[0] % 4);
      PrintOfParse(bytes[1 + n..]);
      PrintOfItem(bytes, n);
      PrintOfFirst(bytes, Item(bytes[0] / 16, bytes[0] / 4 % 4, bytes[1..1 + n]), Parse(bytes[1 + n..]).value, 1 + n);
    }
  }

  lemma {:induction false} PrintOfFirst(bytes: seq<byte>, item: ShortItem, rest: seq<ShortItem>, n: nat)
    requires n <= |bytes| && Print(item) == bytes[..n] && PrintAll(rest) == bytes[n..]
    ensures PrintAll([item] + rest) == bytes
  {
    PrintAllCons(item, rest);
    assert bytes == bytes[..n] + bytes[n..];
  }

  lemma PrintOfItem(bytes: seq<byte>, n: nat)
    requires bytes != [] && bytes[0] != LONG_ITEM_PREFIX && n == DataSize(bytes[0] % 4) < |bytes|
    ensures var item := Item(bytes[0] / 16, bytes[0] / 4 % 4, bytes[1..1 + n]);
            IsShort(item) && Print(item) == bytes[..1 + n]
  {
  }

  lemma TakenApart(bytes: seq<byte>, k: nat, m: nat)
    requires k + m < |bytes|
    ensures bytes[..k + m][..k] == bytes[..k] && bytes[..k + m][k..] == bytes[k..][..m] && bytes[k..][m] == bytes[k + m]
  {
  }

  /**
   What is wrong with a byte string that is not accepted: its first `n` bytes are the byte form of some items, and the
   next byte either announces a long item, or a short one whose data is cut off; the error tells which.
   */
  lemma {:induction false} ParseFails(bytes: seq<byte>) returns (n: nat, items: seq<ShortItem>)
    requires Parse(bytes).Err?
    ensures n < |bytes| && bytes[..n] == PrintAll(items)
    ensures Parse(bytes).error ==
            if bytes[n] == LONG_ITEM_PREFIX then LongItem else Truncated
    ensures Parse(bytes).error == Truncated ==> |bytes| < n + 1 + DataSize(bytes[n] % 4)
    decreases |bytes|
  {
    var k := 1 + DataSize(bytes[0] % 4);
    if bytes[0] == LONG_ITEM_PREFIX || |bytes| < k {
      n, items := 0, [];
    } else {
      var m, rest := ParseFails(bytes[k..]);
      n, items := k + m, [Item(bytes[0] / 16, bytes[0] / 4 % 4, bytes[1..k])] + rest;
      TakenApart(bytes, k, m);
      PrintOfItem(bytes, k - 1);
      PrintOfFirst(bytes[..n], items[0], rest, k);
    }
  }

  /** The parser accepts exactly the byte forms of item lists, and each of them has only one item list. */
  lemma {:induction false} ParseExact(bytes: seq<byte>, items: seq<ShortItem>)
    ensures Parse(bytes) == Ok(items) <==> bytes == PrintAll(items)
  {
    ParseOfPrint(items);
    if Parse(bytes) == Ok(items) {
      PrintOfParse(bytes);
    }
  }
}
