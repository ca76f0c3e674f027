/** CBOR items (section 3 of RFC 8949), of definite and of indefinite length: the data the Jade
    device sends back to back over its serial port. `Item` is what the decoder consumes from the
    front of a buffer. */
module Cbor {
  import opened Sequences

  newtype Byte = x: int | 0 <= x < 256

  /** Maps are kept flat: key, value, key, value, ... */
  datatype Value =
    | Unsigned(n: nat)
    | Negative(n: nat)
    | Bytes(data: seq<Byte>)
    | Text(data: seq<Byte>)
    | Array(items: seq<Value>)
    | Map(entries: seq<Value>)
    | Tag(tag: nat, item: Value)
    | Simple(info: nat, arg: nat)

  // ---- the head of an item: major type, additional information, argument --------------------

  datatype Head = Head(major: nat, info: nat, arg: nat, size: nat)

  function FromBytes(s: seq<Byte>): nat {
    if s == [] then 0 else FromBytes(s[..|s| - 1]) * 256 + s[|s| - 1] as nat
  }

  /** The number of argument bytes after the initial byte; `None` for the reserved values. */
  function ArgBytes(info: nat): (n: Option<nat>)
    ensures n.Some? ==> n.value <= 8
  {
    if info < 24 then Some(0)
    else if info == 24 then Some(1)
    else if info == 25 then Some(2)
    else if info == 26 then Some(4)
    else if info == 27 then Some(8)
    else if info == INDEFINITE then Some(0)
    else None
  }

  /** The additional information of an indefinite length, and of the break that ends it. */
  const INDEFINITE: nat := 31

  predicate IsBreak(h: Head) {
    h.major == 7 && h.info == INDEFINITE
  }

  function ReadHead(s: seq<Byte>): (h: Option<Head>)
    ensures h.Some? ==> 1 <= h.value.size <= |s| && h.value.major < 8
  {
    if s == [] then None
    else
      var major, info := s[0] as nat / 32, s[0] as nat % 32;
      var n := ArgBytes(info);
      if n.None? || |s| < 1 + n.value then None
      else Some(Head(major, info, if info < 24 then info else FromBytes(s[1..1 + n.value]), 1 + n.value))
  }

  // ---- text --------------------------------------------------------------------------------

  predicate Continues(b: Byte) {
    0x80 <= b < 0xC0
  }

  /** The length of the UTF-8 sequence at the front, `0` if there is none (section 4 of RFC 3629). */
  function Utf8Length(s: seq<Byte>): (n: nat)
    ensures n <= |s|
  {
    if s == [] then 0
    else if s[0] < 0x80 then 1
    else if 0xC2 <= s[0] < 0xE0 then (if |s| >= 2 && Continues(s[1]) then 2 else 0)
    else if 0xE0 <= s[0] < 0xF0 then
      if |s| >= 3 && Continues(s[1]) && Continues(s[2])
         && (s[0] == 0xE0 ==> s[1] >= 0xA0) && (s[0] == 0xED ==> s[1] < 0xA0) then 3 else 0
    else if 0xF0 <= s[0] < 0xF5 then
      if |s| >= 4 && Continues(s[1]) && Continues(s[2]) && Continues(s[3])
         && (s[0] == 0xF0 ==> s[1] >= 0x90) && (s[0] == 0xF4 ==> s[1] < 0x90) then 4 else 0
    else 0
  }

  predicate ValidUtf8(s: seq<Byte>)
    decreases |s|
  {
    s == [] || (Utf8Length(s) > 0 && ValidUtf8(s[Utf8Length(s)..]))
  }

  /** A string may be used: text has to be UTF-8. */
  predicate Acceptable(major: nat, data: seq<Byte>) {
    major == 3 ==> ValidUtf8(data)
  }

  // ---- decoding ----------------------------------------------------------------------------

  /** The first item of a buffer and the number of bytes it takes. */
  function Item(s: seq<Byte>): (r: Option<(Value, nat)>)
    ensures r.Some? ==> 1 <= r.value.1 <= |s|
    decreases |s|, 0
  {
    var h := ReadHead(s);
    if h.None? then None
    else
      var r := Body(h.value.major, h.value.info, h.value.arg, s[h.value.size..]);
      if r.None? then None else Some((r.value.0, h.value.size + r.value.1))
  }

  /** What follows the head of an item. */
  function Body(major: nat, info: nat, arg: nat, s: seq<Byte>): (r: Option<(Value, nat)>)
    ensures r.Some? ==> r.value.1 <= |s|
    decreases |s|, 2
  {
    if info == INDEFINITE then Unbounded(major, s)
    else if major == 0 then Some((Unsigned(arg), 0))
    else if major == 1 then Some((Negative(arg), 0))
    else if major == 2 || major == 3 then
      if |s| < arg || !Acceptable(major, s[..arg]) then None
      else Some((if major == 2 then Bytes(s[..arg]) else Text(s[..arg]), arg))
    else if major == 4 || major == 5 then
      var r := Items(if major == 4 then arg else 2 * arg, s);
      if r.None? then None
      else Some((if major == 4 then Array(r.value.0) else Map(r.value.0), r.value.1))
    else if major == 6 then
      var r := Item(s);
      if r.None? then None else Some((Tag(arg, r.value.0), r.value.1))
    else Some((Simple(info, arg), 0))
  }

  /** What follows the head of an item of indefinite length. */
  function Unbounded(major: nat, s: seq<Byte>): (r: Option<(Value, nat)>)
    ensures r.Some? ==> r.value.1 <= |s|
    decreases |s|, 1, 1
  {
    if major == 2 || major == 3 then
      var r := Chunks(major, s);
      if r.None? then None
      else Some((if major == 2 then Bytes(r.value.0) else Text(r.value.0), r.value.1))
    else if major == 4 || major == 5 then
      var r := Until(major == 5, false, s);
      if r.None? then None
      else Some((if major == 4 then Array(r.value.0) else Map(r.value.0), r.value.1))
    else None
  }

  /** Strings of definite length up to a break. */
  function Chunks(major: nat, s: seq<Byte>): (r: Option<(seq<Byte>, nat)>)
    ensures r.Some? ==> r.value.1 <= |s|
    decreases |s|, 0
  {
    var h := ReadHead(s);
    if h.None? then None
    else if IsBreak(h.value) then Some(([], h.value.size))
    else
      var end := h.value.size + h.value.arg;
      if h.value.major != major || h.value.info == INDEFINITE || |s| < end
         || !Acceptable(major, s[h.value.size..end]) then None
      else
        var rest := Chunks(major, s[end..]);
        if rest.None? then None
        else Some((s[h.value.size..end] + rest.value.0, end + rest.value.1))
  }

  /** Items up to a break; in a map the break may not follow a key. */
  function Until(pairs: bool, odd: bool, s: seq<Byte>): (r: Option<(seq<Value>, nat)>)
    ensures r.Some? ==> r.value.1 <= |s|
    decreases |s|, 1, 0
  {
    var h := ReadHead(s);
    if h.None? then None
    else if IsBreak(h.value) then (if pairs && odd then None else Some(([], h.value.size)))
    else
      var first := Item(s);
      if first.None? then None
      else
        var rest := Until(pairs, !odd, s[first.value.1..]);
        if rest.None? then None
        else Some(([first.value.0] + rest.value.0, first.value.1 + rest.value.1))
  }

  /** `n` items back to back. */
  function Items(n: nat, s: seq<Byte>): (r: Option<(seq<Value>, nat)>)
    ensures r.Some? ==> r.value.1 <= |s| && |r.value.0| == n
    decreases |s|, 1, n
  {
    if n == 0 then Some(([], 0))
    else
      var first := Item(s);
      if first.None? then None
      else
        var rest := Items(n - 1, s[first.value.1..]);
        if rest.None? then None
        else Some(([first.value.0] + rest.value.0, first.value.1 + rest.value.1))
  }

  // ---- a decoded item does not depend on what follows it -------------------------------------

  lemma ReadHeadExtends(s: seq<Byte>, t: seq<Byte>)
    requires ReadHead(s).Some?
    ensures ReadHead(s + t) == ReadHead(s)
  {
    var n := ReadHead(s).value.size;
    assert (s + t)[1..n] == s[1..n];
  }

  lemma {:induction false} ItemExtends(s: seq<Byte>, t: seq<Byte>)
    requires Item(s).Some?
    ensures Item(s + t) == Item(s)
    decreases |s|, 0
  {
    hide ReadHead, Body;
    ReadHeadExtends(s, t);
    var Head(major, info, arg, size) := ReadHead(s).value;
    assert (s + t)[size..] == s[size..] + t;
    BodyExtends(major, info, arg, s[size..], t);
  }

  lemma {:induction false} BodyExtends(major: nat, info: nat, arg: nat, s: seq<Byte>, t: seq<Byte>)
    requires Body(major, info, arg, s).Some?
    ensures Body(major, info, arg, s + t) == Body(major, info, arg, s)
    decreases |s|, 2
  {
    if info == INDEFINITE {
      UnboundedExtends(major, s, t);
    } else if major == 2 || major == 3 {
      assert (s + t)[..arg] == s[..arg];
    } else if major == 4 || major == 5 {
      ItemsExtend(if major == 4 then arg else 2 * arg, s, t);
    } else if major == 6 {
      ItemExtends(s, t);
    }
  }

  lemma {:induction false} UnboundedExtends(major: nat, s: seq<Byte>, t: seq<Byte>)
    requires Unbounded(major, s).Some?
    ensures Unbounded(major, s + t) == Unbounded(major, s)
    decreases |s|, 1, 1
  {
    if major == 2 || major == 3 {
      ChunksExtend(major, s, t);
    } else {
      UntilExtends(major == 5, false, s, t);
    }
  }

  lemma {:induction false} ChunksExtend(major: nat, s: seq<Byte>, t: seq<Byte>)
    requires Chunks(major, s).Some?
    ensures Chunks(major, s + t) == Chunks(major, s)
    decreases |s|, 0
  {
    hide ReadHead, Acceptable;
    ReadHeadExtends(s, t);
    var h := ReadHead(s).value;
    if !IsBreak(h) {
      var end := h.size + h.arg;
      assert (s + t)[h.size..end] == s[h.size..end];
      assert (s + t)[end..] == s[end..] + t;
      ChunksExtend(major, s[end..], t);
    }
  }

  lemma {:induction false} UntilExtends(pairs: bool, odd: bool, s: seq<Byte>, t: seq<Byte>)
    requires Until(pairs, odd, s).Some?
    ensures Until(pairs, odd, s + t) == Until(pairs, odd, s)
    decreases |s|, 1, 0
  {
    hide ReadHead, Item;
    ReadHeadExtends(s, t);
    if !IsBreak(ReadHead(s).value) {
      ItemExtends(s, t);
      var k := Item(s).value.1;
      assert (s + t)[k..] == s[k..] + t;
      UntilExtends(pairs, !odd, s[k..], t);
    }
  }

  lemma {:induction false} ItemsExtend(n: nat, s: seq<Byte>, t: seq<Byte>)
    requires Items(n, s).Some?
    ensures Items(n, s + t) == Items(n, s)
    decreases |s|, 1, n
  {
    if n > 0 {
      ItemExtends(s, t);
      var k := Item(s).value.1;
      assert (s + t)[k..] == s[k..] + t;
      ItemsExtend(n - 1, s[k..], t);
    }
  }

  // ---- the sender's side ---------------------------------------------------------------------

  function Pow256(k: nat): (r: nat)
    ensures r > 0
  {
    if k == 0 then 1 else 256 * Pow256(k - 1)
  }

  /** The `k` low-order bytes of a number, most significant first. */
  function ToBytes(n: nat, k: nat): (s: seq<Byte>)
    ensures |s| == k
  {
    if k == 0 then [] else ToBytes(n / 256, k - 1) + [(n % 256) as Byte]
  }

  lemma {:induction false} BytesRoundTrip(n: nat, k: nat)
    requires n < Pow256(k)
    ensures FromBytes(ToBytes(n, k)) == n
  {
    if k > 0 {
      BytesRoundTrip(n / 256, k - 1);
      FromBytesAppend(ToBytes(n / 256, k - 1), (n % 256) as Byte);
    }
  }

  lemma FromBytesAppend(s: seq<Byte>, b: Byte)
    ensures FromBytes(s + [b]) == FromBytes(s) * 256 + b as nat
  {
    assert (s + [b])[..|s|] == s;
  }

  /** The shortest form of an argument. */
  function InfoFor(arg: nat): nat {
    if arg < 24 then arg
    else if arg < 0x100 then 24
    else if arg < 0x1_0000 then 25
    else if arg < 0x1_0000_0000 then 26
    else 27
  }

  ghost predicate ArgFits(info: nat, arg: nat) {
    && ArgBytes(info).Some?
    && (if info < 24 then arg == info else arg < Pow256(ArgBytes(info).value))
  }

  function WriteHead(major: nat, info: nat, arg: nat): seq<Byte>
    requires major < 8 && info < 32 && ArgBytes(info).Some?
  {
    [(major * 32 + info) as Byte] + ToBytes(arg, ArgBytes(info).value)
  }

  lemma HeadRoundTrip(major: nat, info: nat, arg: nat, t: seq<Byte>)
    requires major < 8 && info < 32 && ArgFits(info, arg)
    ensures ReadHead(WriteHead(major, info, arg) + t) ==
            Some(Head(major, info, arg, |WriteHead(major, info, arg)|))
  {
    var n := ArgBytes(info).value;
    var s := WriteHead(major, info, arg) + t;
    InitialByte(major, info);
    assert s[0] == (major * 32 + info) as Byte;
    assert s[1..1 + n] == ToBytes(arg, n);
    if info >= 24 {
      BytesRoundTrip(arg, n);
    }
  }

  lemma InitialByte(major: nat, info: nat)
    requires major < 8 && info < 32
    ensures (major * 32 + info) / 32 == major && (major * 32 + info) % 32 == info
  {
  }

  lemma InfoForFits(arg: nat)
    requires arg < 0x1_0000_0000_0000_0000
    ensures InfoFor(arg) < 28 && ArgFits(InfoFor(arg), arg)
  {
    assert Pow256(1) == 0x100;
    assert Pow256(2) == 0x1_0000;
    assert Pow256(3) == 0x100_0000;
    assert Pow256(4) == 0x1_0000_0000;
    assert Pow256(6) == 0x1_0000_0000 * 0x1_0000;
    assert Pow256(8) == 0x1_0000_0000_0000_0000;
  }

  const LIMIT: nat := 0x1_0000_0000_0000_0000

  /** The values that have a definite-length encoding: every number and length fits 64 bits. */
  ghost predicate Encodable(v: Value) {
    match v
    case Unsigned(n) => n < LIMIT
    case Negative(n) => n < LIMIT
    case Bytes(data) => |data| < LIMIT
    case Text(data) => |data| < LIMIT && ValidUtf8(data)
    case Array(items) => |items| < LIMIT && (forall i :: 0 <= i < |items| ==> Encodable(items[i]))
    case Map(entries) =>
      |entries| % 2 == 0 && |entries| < LIMIT && (forall i :: 0 <= i < |entries| ==> Encodable(entries[i]))
    case Tag(tag, item) => tag < LIMIT && Encodable(item)
    case Simple(info, arg) => info < 28 && ArgFits(info, arg)
  }

  function ShortHead(major: nat, arg: nat): seq<Byte>
    requires major < 8
  {
    WriteHead(major, InfoFor(arg), arg)
  }

  function Encode(v: Value): (s: seq<Byte>)
    requires Encodable(v)
    ensures s != []
    decreases v, 0
  {
    match v
    case Unsigned(n) => ShortHead(0, n)
    case Negative(n) => ShortHead(1, n)
    case Bytes(data) => ShortHead(2, |data|) + data
    case Text(data) => ShortHead(3, |data|) + data
    case Array(items) => ShortHead(4, |items|) + EncodeAll(items)
    case Map(entries) => ShortHead(5, |entries| / 2) + EncodeAll(entries)
    case Tag(tag, item) => ShortHead(6, tag) + Encode(item)
    case Simple(info, arg) => WriteHead(7, info, arg)
  }

  function EncodeAll(vs: seq<Value>): seq<Byte>
    requires forall i :: 0 <= i < |vs| ==> Encodable(vs[i])
    decreases vs
  {
    if vs == [] then [] else Encode(vs[0]) + EncodeAll(vs[1..])
  }

  /** Decoding what was encoded gives the value back and consumes exactly its bytes. */
  lemma {:induction false} ItemRoundTrip(v: Value, t: seq<Byte>)
    requires Encodable(v)
    ensures Item(Encode(v) + t) == Some((v, |Encode(v)|))
    decreases v, 0
  {
    hide Item, Items, ReadHead, ValidUtf8;
    match v
    case Unsigned(n) => Assemble(0, n, [], t, v);
    case Negative(n) => Assemble(1, n, [], t, v);
    case Bytes(data) => StringRoundTrip(2, data, t);
    case Text(data) => StringRoundTrip(3, data, t);
    case Array(items) =>
      ItemsRoundTrip(items, t);
      Assemble(4, |items|, EncodeAll(items), t, v);
    case Map(entries) =>
      ItemsRoundTrip(entries, t);
      Assemble(5, |entries| / 2, EncodeAll(entries), t, v);
    case Tag(tag, item) =>
      ItemRoundTrip(item, t);
      Assemble(6, tag, Encode(item), t, v);
    case Simple(info, arg) => SimpleRoundTrip(info, arg, t);
  }

  lemma SimpleRoundTrip(info: nat, arg: nat, t: seq<Byte>)
    requires info < 28 && ArgFits(info, arg)
    ensures Item(WriteHead(7, info, arg) + t) == Some((Simple(info, arg), |WriteHead(7, info, arg)|))
  {
    hide ReadHead, WriteHead;
    HeadRoundTrip(7, info, arg, t);
    var head := WriteHead(7, info, arg);
    assert (head + t)[|head|..] == t;
  }

  /** A head and a body that decodes to `v` make up an item that decodes to `v`. */
  lemma Assemble(major: nat, arg: nat, body: seq<Byte>, t: seq<Byte>, v: Value)
    requires major < 8 && arg < LIMIT
    requires Body(major, InfoFor(arg), arg, body + t) == Some((v, |body|))
    ensures Item(ShortHead(major, arg) + body + t) == Some((v, |ShortHead(major, arg) + body|))
    ensures ShortHead(major, arg) + [] == ShortHead(major, arg)
  {
    hide *;
    var head := ShortHead(major, arg);
    ShortHeadRoundTrip(major, arg, body + t);
    Reassociate(head, body, t);
    UnfoldItem(head + body + t, Head(major, InfoFor(arg), arg, |head|), body + t, v, |body|);
  }

  lemma ItemIsHeadAndBody(s: seq<Byte>, h: Head)
    requires ReadHead(s) == Some(h)
    ensures var r := Body(h.major, h.info, h.arg, s[h.size..]);
            Item(s) == if r.None? then None else Some((r.value.0, h.size + r.value.1))
  {
    hide Body;
  }

  lemma UnfoldItem(s: seq<Byte>, h: Head, rest: seq<Byte>, v: Value, n: nat)
    requires ReadHead(s) == Some(h) && s[h.size..] == rest
    requires Body(h.major, h.info, h.arg, rest) == Some((v, n))
    ensures Item(s) == Some((v, h.size + n))
  {
  }

  lemma UnfoldItems(s: seq<Byte>, v: Value, n: nat, rest: seq<Byte>, vs: seq<Value>, m: nat)
    requires Item(s) == Some((v, n)) && s[n..] == rest && Items(|vs|, rest) == Some((vs, m))
    ensures Items(|vs| + 1, s) == Some(([v] + vs, n + m))
  {
    hide ReadHead, Item;
  }

  lemma ShortHeadRoundTrip(major: nat, arg: nat, t: seq<Byte>)
    requires major < 8 && arg < LIMIT
    ensures ReadHead(ShortHead(major, arg) + t) ==
            Some(Head(major, InfoFor(arg), arg, |ShortHead(major, arg)|))
  {
    InfoForFits(arg);
    HeadRoundTrip(major, InfoFor(arg), arg, t);
  }

  lemma Reassociate(head: seq<Byte>, body: seq<Byte>, t: seq<Byte>)
    ensures head + body + t == head + (body + t)
    ensures (head + body + t)[|head|..] == body + t
  {
  }

  lemma StringRoundTrip(major: nat, data: seq<Byte>, t: seq<Byte>)
    requires (major == 2 || major == 3) && |data| < LIMIT && Acceptable(major, data)
    ensures Item(ShortHead(major, |data|) + data + t) ==
            Some((if major == 2 then Bytes(data) else Text(data), |ShortHead(major, |data|) + data|))
  {
    assert (data + t)[..|data|] == data;
    Assemble(major, |data|, data, t, if major == 2 then Bytes(data) else Text(data));
  }

  lemma ItemsCons(v: Value, vs: seq<Value>, first: seq<Byte>, rest: seq<Byte>, t: seq<Byte>)
    requires Item(first + (rest + t)) == Some((v, |first|))
    requires Items(|vs|, rest + t) == Some((vs, |rest|))
    ensures Items(|vs| + 1, first + rest + t) == Some(([v] + vs, |first + rest|))
  {
    hide *;
    Reassociate(first, rest, t);
    UnfoldItems(first + rest + t, v, |first|, rest + t, vs, |rest|);
  }

  lemma NoItems(s: seq<Byte>)
    ensures Items(0, s) == Some(([], 0))
  {
  }

  lemma {:induction false} ItemsRoundTrip(vs: seq<Value>, t: seq<Byte>)
    requires forall i :: 0 <= i < |vs| ==> Encodable(vs[i])
    ensures Items(|vs|, EncodeAll(vs) + t) == Some((vs, |EncodeAll(vs)|))
    decreases vs
  {
    hide Item, Items;
    if vs == [] {
      NoItems(EncodeAll(vs) + t);
    } else {
      var first, rest := Encode(vs[0]), EncodeAll(vs[1..]);
      ItemRoundTrip(vs[0], rest + t);
      ItemsRoundTrip(vs[1..], t);
      ItemsCons(vs[0], vs[1..], first, rest, t);
      assert [vs[0]] + vs[1..] == vs;
    }
  }

  // ---- items of indefinite length ------------------------------------------------------------------------

  const BREAK: Byte := 0xFF

  lemma BreakHead(t: seq<Byte>)
    ensures ReadHead([BREAK] + t).Some? && IsBreak(ReadHead([BREAK] + t).value) && ReadHead([BREAK] + t).value.size == 1
  {
    var s := [BREAK] + t;
    assert s[0] == BREAK;
  }

  lemma ItemIsNoBreak(s: seq<Byte>)
    requires Item(s).Some?
    ensures ReadHead(s).Some? && !IsBreak(ReadHead(s).value)
  {
    hide ReadHead, Body;
    var h := ReadHead(s).value;
    BreakHasNoBody(h.arg, s[h.size..]);
  }

  lemma BreakHasNoBody(arg: nat, s: seq<Byte>)
    ensures Body(7, INDEFINITE, arg, s) == None
  {
  }

  /** Items up to a break: all of them, unless a map would end after a key. */
  lemma {:induction false} UntilRoundTrip(pairs: bool, odd: bool, vs: seq<Value>, t: seq<Byte>)
    requires forall i :: 0 <= i < |vs| ==> Encodable(vs[i])
    ensures Until(pairs, odd, EncodeAll(vs) + ([BREAK] + t)) ==
            if pairs && odd == (|vs| % 2 == 0) then None else Some((vs, |EncodeAll(vs)| + 1))
    decreases |vs|
  {
    hide ReadHead, Item, Encode, Until;
    var tail := [BREAK] + t;
    if vs == [] {
      assert EncodeAll(vs) + tail == tail;
      NothingUntil(pairs, odd, t);
    } else {
      var first, rest := Encode(vs[0]), EncodeAll(vs[1..]);
      ItemRoundTrip(vs[0], rest + tail);
      Reassociate(first, rest, tail);
      UntilRoundTrip(pairs, !odd, vs[1..], t);
      UnfoldUntil(pairs, odd, first + rest + tail);
      assert [vs[0]] + vs[1..] == vs;
    }
  }

  lemma NothingUntil(pairs: bool, odd: bool, t: seq<Byte>)
    ensures Until(pairs, odd, [BREAK] + t) == if pairs && odd then None else Some(([], 1))
  {
    BreakHead(t);
    hide ReadHead, Item;
  }

  lemma UnfoldUntil(pairs: bool, odd: bool, s: seq<Byte>)
    requires Item(s).Some?
    ensures var rest := Until(pairs, !odd, s[Item(s).value.1..]);
            Until(pairs, odd, s) ==
            if rest.None? then None
            else Some(([Item(s).value.0] + rest.value.0, Item(s).value.1 + rest.value.1))
  {
    ItemIsNoBreak(s);
    hide ReadHead, Item;
  }

  lemma IndefiniteHead(major: nat, s: seq<Byte>)
    requires major < 8
    ensures ReadHead([(32 * major + 31) as Byte] + s) == Some(Head(major, INDEFINITE, 0, 1))
    ensures ([(32 * major + 31) as Byte] + s)[1..] == s
  {
    var b := [(32 * major + 31) as Byte] + s;
    assert b[0] as nat == 32 * major + 31;
    assert b[1..1] == [];
  }

  lemma IndefiniteItem(major: nat, s: seq<Byte>)
    requires major < 8
    ensures var r := Unbounded(major, s);
            Item([(32 * major + 31) as Byte] + s) == if r.None? then None else Some((r.value.0, 1 + r.value.1))
  {
    hide ReadHead, Item, Unbounded;
    IndefiniteHead(major, s);
    ItemIsHeadAndBody([(32 * major + 31) as Byte] + s, Head(major, INDEFINITE, 0, 1));
    IndefiniteBody(major, s);
    hide Body;
  }

  lemma IndefiniteBody(major: nat, s: seq<Byte>)
    ensures Body(major, INDEFINITE, 0, s) == Unbounded(major, s)
  {
    hide Unbounded;
  }

  /** Arrays and maps of indefinite length: the items between the head and the break. */
  lemma ArrayRoundTrip(vs: seq<Value>, t: seq<Byte>)
    requires forall i :: 0 <= i < |vs| ==> Encodable(vs[i])
    ensures Item([0x9F] + (EncodeAll(vs) + ([BREAK] + t))) == Some((Array(vs), |EncodeAll(vs)| + 2))
    ensures Item([0xBF] + (EncodeAll(vs) + ([BREAK] + t))) ==
            if |vs| % 2 == 0 then Some((Map(vs), |EncodeAll(vs)| + 2)) else None
  {
    hide Item, Until, EncodeAll;
    var s := EncodeAll(vs) + ([BREAK] + t);
    UntilRoundTrip(false, false, vs, t);
    UntilRoundTrip(true, false, vs, t);
    IndefiniteItem(4, s);
    IndefiniteItem(5, s);
  }

  function EncodeChunks(major: nat, parts: seq<seq<Byte>>): seq<Byte>
    requires major < 8 && forall i :: 0 <= i < |parts| ==> |parts[i]| < LIMIT
  {
    if parts == [] then [] else ShortHead(major, |parts[0]|) + parts[0] + EncodeChunks(major, parts[1..])
  }

  function Joined(parts: seq<seq<Byte>>): seq<Byte> {
    if parts == [] then [] else parts[0] + Joined(parts[1..])
  }

  lemma {:induction false} ChunksRoundTrip(major: nat, parts: seq<seq<Byte>>, t: seq<Byte>)
    requires major == 2 || major == 3
    requires forall i :: 0 <= i < |parts| ==> |parts[i]| < LIMIT && Acceptable(major, parts[i])
    ensures Chunks(major, EncodeChunks(major, parts) + ([BREAK] + t)) ==
            Some((Joined(parts), |EncodeChunks(major, parts)| + 1))
    decreases |parts|
  {
    hide ReadHead, Acceptable, ShortHead, Chunks;
    var tail := [BREAK] + t;
    if parts == [] {
      assert EncodeChunks(major, parts) + tail == tail;
      NoChunks(major, t);
    } else {
      var head, data, rest := ShortHead(major, |parts[0]|), parts[0], EncodeChunks(major, parts[1..]);
      ShortHeadRoundTrip(major, |data|, data + (rest + tail));
      InfoForFits(|data|);
      ChunkSlices(head, data, rest, tail);
      ChunksRoundTrip(major, parts[1..], t);
      UnfoldChunks(major, head + data + rest + tail, data, rest + tail);
    }
  }

  lemma NoChunks(major: nat, t: seq<Byte>)
    ensures Chunks(major, [BREAK] + t) == Some(([], 1))
  {
    BreakHead(t);
    hide ReadHead, Acceptable;
  }

  lemma ChunkSlices(head: seq<Byte>, data: seq<Byte>, rest: seq<Byte>, tail: seq<Byte>)
    ensures var s := head + data + rest + tail;
            && s == head + (data + (rest + tail)) && s[|head|..|head| + |data|] == data
            && s[|head| + |data|..] == rest + tail
  {
  }

  lemma UnfoldChunks(major: nat, s: seq<Byte>, data: seq<Byte>, rest: seq<Byte>)
    requires major == 2 || major == 3
    requires ReadHead(s).Some?
    requires var h := ReadHead(s).value;
             && h.major == major && h.info != INDEFINITE && h.arg == |data| && |s| >= h.size + |data|
             && s[h.size..h.size + |data|] == data && s[h.size + |data|..] == rest
    requires Acceptable(major, data) && Chunks(major, rest).Some?
    ensures Chunks(major, s) ==
            Some((data + Chunks(major, rest).value.0, ReadHead(s).value.size + |data| + Chunks(major, rest).value.1))
  {
    hide ReadHead, Acceptable;
  }

  /** Strings of indefinite length: the chunks between the head and the break, joined. */
  lemma StringsRoundTrip(parts: seq<seq<Byte>>, t: seq<Byte>)
    requires forall i :: 0 <= i < |parts| ==> |parts[i]| < LIMIT
    ensures Item([0x5F] + (EncodeChunks(2, parts) + ([BREAK] + t))) ==
            Some((Bytes(Joined(parts)), |EncodeChunks(2, parts)| + 2))
    ensures (forall i :: 0 <= i < |parts| ==> ValidUtf8(parts[i])) ==>
              Item([0x7F] + (EncodeChunks(3, parts) + ([BREAK] + t))) ==
              Some((Text(Joined(parts)), |EncodeChunks(3, parts)| + 2))
  {
    hide Item, Chunks, EncodeChunks, Joined;
    ChunksRoundTrip(2, parts, t);
    IndefiniteItem(2, EncodeChunks(2, parts) + ([BREAK] + t));
    if forall i :: 0 <= i < |parts| ==> ValidUtf8(parts[i]) {
      ChunksRoundTrip(3, parts, t);
      IndefiniteItem(3, EncodeChunks(3, parts) + ([BREAK] + t));
    }
  }

  // ---- UTF-8 -------------------------------------------------------------------------------------------

  /** The scalar values: all code points but the surrogates. */
  predicate Scalar(c: int) {
    0 <= c < 0x11_0000 && !(0xD800 <= c < 0xE000)
  }

  /** The bytes of a scalar value. */
  function Utf8(c: int): (s: seq<Byte>)
    requires Scalar(c)
    ensures 1 <= |s| <= 4
  {
    if c < 0x80 then [c as Byte]
    else if c < 0x800 then [(0xC0 + c / 64) as Byte, (0x80 + c % 64) as Byte]
    else if c < 0x1_0000 then [(0xE0 + c / 64 / 64) as Byte, (0x80 + c / 64 % 64) as Byte, (0x80 + c % 64) as Byte]
    else
      [(0xF0 + c / 64 / 64 / 64) as Byte, (0x80 + c / 64 / 64 % 64) as Byte, (0x80 + c / 64 % 64) as Byte,
       (0x80 + c % 64) as Byte]
  }

  function Utf8Text(cs: seq<int>): seq<Byte>
    requires forall i :: 0 <= i < |cs| ==> Scalar(cs[i])
  {
    if cs == [] then [] else Utf8(cs[0]) + Utf8Text(cs[1..])
  }

  lemma Utf8LengthOf(c: int, t: seq<Byte>)
    requires Scalar(c)
    ensures Utf8Length(Utf8(c) + t) == |Utf8(c)| && (Utf8(c) + t)[|Utf8(c)|..] == t
  {
  }

  /** Text is accepted exactly if it is the encoding of scalar values. */
  lemma {:induction false} TextIsValid(cs: seq<int>)
    requires forall i :: 0 <= i < |cs| ==> Scalar(cs[i])
    ensures ValidUtf8(Utf8Text(cs))
  {
    hide Utf8, Utf8Length;
    if cs != [] {
      Utf8LengthOf(cs[0], Utf8Text(cs[1..]));
      TextIsValid(cs[1..]);
    }
  }

  lemma Digit(a: int, b: int)
    requires a >= 0 && 0 <= b < 64
    ensures (a * 64 + b) / 64 == a && (a * 64 + b) % 64 == b
  {
  }

  lemma FirstScalar(s: seq<Byte>) returns (c: int)
    requires Utf8Length(s) > 0
    ensures Scalar(c) && Utf8(c) == s[..Utf8Length(s)]
  {
    var n := Utf8Length(s);
    c := s[0] as int;
    if n == 2 {
      c := Append(s[0] as int - 0xC0, s[1]);
    } else if n == 3 {
      c := Append(s[0] as int - 0xE0, s[1]);
      c := Append(c, s[2]);
    } else if n == 4 {
      c := Append(s[0] as int - 0xF0, s[1]);
      c := Append(c, s[2]);
      c := Append(c, s[3]);
    }
  }

  /** One more continuation byte. */
  lemma Append(a: int, b: Byte) returns (c: int)
    requires a >= 0 && Continues(b)
    ensures c == a * 64 + (b as int - 0x80) && c / 64 == a && c % 64 == b as int - 0x80
  {
    c := a * 64 + (b as int - 0x80);
    Digit(a, b as int - 0x80);
  }

  lemma {:induction false} ValidIsText(s: seq<Byte>) returns (cs: seq<int>)
    requires ValidUtf8(s)
    ensures (forall i :: 0 <= i < |cs| ==> Scalar(cs[i])) && Utf8Text(cs) == s
    decreases |s|
  {
    hide Utf8, Utf8Length;
    if s == [] {
      cs := [];
    } else {
      var c := FirstScalar(s);
      var rest := ValidIsText(s[Utf8Length(s)..]);
      cs := [c] + rest;
      assert cs[1..] == rest;
      assert s == s[..Utf8Length(s)] + s[Utf8Length(s)..];
    }
  }

  // ---- examples of the standard ----------------------------------------------------------------------------

  /** Some of the examples in Appendix A of RFC 8949: numbers and simple values. */
  lemma StandardExamples()
    ensures Encode(Unsigned(10)) == [0x0A] && Encode(Unsigned(1000)) == [0x19, 0x03, 0xE8]
    ensures Encode(Negative(99)) == [0x38, 0x63]
    ensures Encodable(Simple(21, 21)) && Encode(Simple(21, 21)) == [0xF5]
  {
    assert ToBytes(1000, 2) == [3, 232] by { assert ToBytes(3, 1) == [3]; }
    assert ToBytes(99, 1) == [99];
    OneByte(0, 10);
  }

  /** Strings. */
  lemma StringExamples()
    ensures Encode(Bytes([1, 2, 3, 4])) == [0x44, 1, 2, 3, 4]
    ensures Encodable(Text([0x61])) && Encode(Text([0x61])) == [0x61, 0x61]
  {
    hide ShortHead;
    assert ValidUtf8([0x61]) by { assert ([0x61 as Byte])[1..] == []; }
    OneByte(2, 4);
    OneByte(3, 1);
    hide ValidUtf8;
  }

  /** And arrays, maps and tags. */
  lemma NestedExamples()
    ensures Encode(Array([])) == [0x80] && Encode(Array([Unsigned(1)])) == [0x81, 0x01]
    ensures Encode(Map([])) == [0xA0] && Encode(Map([Unsigned(1), Unsigned(2)])) == [0xA1, 0x01, 0x02]
    ensures Encode(Tag(1, Unsigned(10))) == [0xC1, 0x0A]
  {
    hide ShortHead;
    OneByte(0, 1);
    OneByte(0, 2);
    OneByte(0, 10);
    OneByte(4, 0);
    OneByte(4, 1);
    OneByte(5, 0);
    OneByte(5, 1);
    OneByte(6, 1);
    var one, two := Unsigned(1), Unsigned(2);
    assert EncodeAll([one]) == Encode(one) + [] by { assert [one][1..] == []; }
    assert EncodeAll([two]) == Encode(two) + [] by { assert [two][1..] == []; }
    assert EncodeAll([one, two]) == Encode(one) + EncodeAll([two]) by { assert [one, two][1..] == [two]; }
  }

  lemma OneByte(major: nat, arg: nat)
    requires major < 8 && arg < 24
    ensures ShortHead(major, arg) == [(32 * major + arg) as Byte]
  {
    assert ToBytes(arg, 0) == [];
  }
}
