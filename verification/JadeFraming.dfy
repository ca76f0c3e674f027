/** Reassembly of the Jade device's messages from the chunks the serial port delivers: append
    each chunk to a buffer, then decode items from its front until decoding fails or the buffer
    is empty, handing every item that is not a log message to the callback. */
module JadeFraming {
  import opened Sequences
  import opened Cbor

  // ---- framing over any decoder ----------------------------------------------------------------

  /** A decoder gives the first item of a buffer and the number of bytes it took. */
  type Decoder<!V> = seq<Byte> -> Option<(V, nat)>

  /** A success takes at least one byte and does not depend on what follows. */
  ghost predicate Stable<V(!new)>(dec: Decoder<V>) {
    && (forall s :: dec(s).Some? ==> 1 <= dec(s).value.1 <= |s|)
    && (forall s, t :: dec(s).Some? ==> dec(s + t) == dec(s))
  }

  datatype Frame<V> = Frame(value: V, data: seq<Byte>)
  datatype Drained<V> = Drained(frames: seq<Frame<V>>, rest: seq<Byte>)

  predicate Decodes<V>(dec: Decoder<V>, s: seq<Byte>) {
    dec(s).Some? && 1 <= dec(s).value.1 <= |s|
  }

  /** Greedy decoding of a byte string. */
  function Drain<V>(dec: Decoder<V>, s: seq<Byte>): Drained<V>
    decreases |s|
  {
    if !Decodes(dec, s) then Drained([], s)
    else Onto([FirstFrame(dec, s)], Drain(dec, s[dec(s).value.1..]))
  }

  /** One more chunk on top of what has been drained so far. */
  function Feed<V>(dec: Decoder<V>, d: Drained<V>, chunk: seq<Byte>): Drained<V> {
    Onto(d.frames, Drain(dec, d.rest + chunk))
  }

  function FeedAll<V>(dec: Decoder<V>, chunks: seq<seq<Byte>>): Drained<V> {
    if chunks == [] then Drained([], [])
    else Feed(dec, FeedAll(dec, chunks[..|chunks| - 1]), chunks[|chunks| - 1])
  }

  function Concat(chunks: seq<seq<Byte>>): seq<Byte> {
    if chunks == [] then [] else Concat(chunks[..|chunks| - 1]) + chunks[|chunks| - 1]
  }

  function FrameBytes<V>(frames: seq<Frame<V>>): seq<Byte> {
    if frames == [] then [] else frames[0].data + FrameBytes(frames[1..])
  }

  /** Frames already found, on top of what is still in a buffer. */
  function Onto<V>(found: seq<Frame<V>>, d: Drained<V>): Drained<V> {
    Drained(found + d.frames, d.rest)
  }

  lemma OntoTwice<V>(a: seq<Frame<V>>, b: seq<Frame<V>>, d: Drained<V>)
    ensures Onto(a, Onto(b, d)) == Onto(a + b, d)
  {
    assert a + (b + d.frames) == a + b + d.frames;
  }

  function FirstFrame<V>(dec: Decoder<V>, s: seq<Byte>): Frame<V>
    requires Decodes(dec, s)
  {
    Frame(dec(s).value.0, s[..dec(s).value.1])
  }

  /** Draining twice is draining once: a frame found early is found again in the longer string. */
  lemma {:induction false} DrainInSteps<V(!new)>(dec: Decoder<V>, s: seq<Byte>, t: seq<Byte>)
    requires Stable(dec)
    ensures Feed(dec, Drain(dec, s), t) == Drain(dec, s + t)
    decreases |s|
  {
    if Decodes(dec, s) {
      var n := dec(s).value.1;
      assert dec(s + t) == dec(s);
      assert (s + t)[..n] == s[..n];
      assert (s + t)[n..] == s[n..] + t;
      DrainInSteps(dec, s[n..], t);
      var later := Drain(dec, s[n..]);
      OntoTwice([FirstFrame(dec, s)], later.frames, Drain(dec, later.rest + t));
      assert Feed(dec, Drain(dec, s), t) == Onto([FirstFrame(dec, s)], Drain(dec, s[n..] + t));
    }
  }

  /** However the stream is cut into chunks, the frames and the leftover are those of the greedy
      decoding of the whole stream. */
  lemma {:induction false} ChunkingIsIrrelevant<V(!new)>(dec: Decoder<V>, chunks: seq<seq<Byte>>)
    requires Stable(dec)
    ensures FeedAll(dec, chunks) == Drain(dec, Concat(chunks))
  {
    if chunks != [] {
      var front, last := chunks[..|chunks| - 1], chunks[|chunks| - 1];
      ChunkingIsIrrelevant(dec, front);
      DrainInSteps(dec, Concat(front), last);
    }
  }

  /** No byte is lost, invented or moved: the frames followed by the leftover are the stream. */
  lemma {:induction false} BytesConserved<V(!new)>(dec: Decoder<V>, s: seq<Byte>)
    ensures var d := Drain(dec, s); FrameBytes(d.frames) + d.rest == s
    decreases |s|
  {
    if Decodes(dec, s) {
      var n := dec(s).value.1;
      BytesConserved(dec, s[n..]);
      var later := Drain(dec, s[n..]);
      FrameBytesCons(FirstFrame(dec, s), later.frames);
      Reassociate(s[..n], FrameBytes(later.frames), later.rest);
      assert s == s[..n] + s[n..];
    }
  }

  lemma FrameBytesCons<V>(f: Frame<V>, frames: seq<Frame<V>>)
    ensures FrameBytes([f] + frames) == f.data + FrameBytes(frames)
  {
    assert ([f] + frames)[1..] == frames;
  }

  // ---- recovery ----------------------------------------------------------------------------------

  /** More frames come out of a longer stream. */
  ghost predicate MoreWith<V>(dec: Decoder<V>, s: seq<Byte>, t: seq<Byte>) {
    Drain(dec, s + t).frames != Drain(dec, s).frames
  }

  ghost predicate DecodesWith<V>(dec: Decoder<V>, rest: seq<Byte>, t: seq<Byte>) {
    Decodes(dec, rest + t)
  }

  lemma NoFrame<V(!new)>(dec: Decoder<V>, s: seq<Byte>, t: seq<Byte>)
    requires Stable(dec) && !DecodesWith(dec, Drain(dec, s).rest, t)
    ensures Drain(dec, s + t) == Drained(Drain(dec, s).frames, Drain(dec, s).rest + t)
  {
    DrainInSteps(dec, s, t);
    var d := Drain(dec, s);
    assert d.frames + [] == d.frames;
  }

  lemma OneFrame<V(!new)>(dec: Decoder<V>, s: seq<Byte>, t: seq<Byte>)
    requires Stable(dec) && DecodesWith(dec, Drain(dec, s).rest, t)
    ensures MoreWith(dec, s, t)
  {
    DrainInSteps(dec, s, t);
    var d := Drain(dec, s);
    assert |Drain(dec, d.rest + t).frames| >= 1;
    assert |Drain(dec, s + t).frames| > |d.frames|;
  }

  /** After any bytes, garbage included, a frame is ever delivered again exactly if some continuation
      of what is left in the buffer decodes. Otherwise the buffer only grows. */
  lemma DeliversAgainExactly<V(!new)>(dec: Decoder<V>, s: seq<Byte>)
    requires Stable(dec)
    ensures (exists t :: MoreWith(dec, s, t)) <==> (exists t :: DecodesWith(dec, Drain(dec, s).rest, t))
    ensures !(exists t :: DecodesWith(dec, Drain(dec, s).rest, t)) ==>
              forall t :: Drain(dec, s + t) == Drained(Drain(dec, s).frames, Drain(dec, s).rest + t)
  {
    hide Drain, Stable, Decodes;
    var rest := Drain(dec, s).rest;
    if exists t :: DecodesWith(dec, rest, t) {
      var t :| DecodesWith(dec, rest, t);
      OneFrame(dec, s, t);
      assert DecodesWith(dec, Drain(dec, s).rest, t);
      assert exists u :: MoreWith(dec, s, u);
      assert exists u :: DecodesWith(dec, Drain(dec, s).rest, u);
    } else {
      forall t
        ensures Drain(dec, s + t) == Drained(Drain(dec, s).frames, rest + t)
        ensures !MoreWith(dec, s, t)
      {
        assert !DecodesWith(dec, rest, t);
        NoFrame(dec, s, t);
      }
    }
  }

  /** A break byte where an item should start is such garbage: nothing is ever delivered again. */
  lemma BreakIsFatal(t: seq<Byte>)
    ensures Drain(Item, [0xFF] + t) == Drained([], [0xFF] + t)
  {
    var s := [0xFF as Byte] + t;
    assert s[0] == 0xFF;
    var h := ReadHead(s).value;
    assert h.major == 7 && h.info == INDEFINITE;
    assert Body(h.major, h.info, h.arg, s[h.size..]).None?;
    hide ReadHead, Body;
    assert Item(s).None?;
  }

  lemma CborStable()
    ensures Stable(Item)
  {
    forall s, t | Item(s).Some? ensures Item(s + t) == Item(s) {
      ItemExtends(s, t);
    }
  }

  // ---- the buffer ------------------------------------------------------------------------------

  class BufReader {
    var data: seq<Byte>
    var pos: nat

    ghost predicate Valid()
      reads this
    {
      pos <= |data|
    }

    constructor ()
      ensures Valid() && data == [] && pos == 0
    {
      data, pos := [], 0;
    }

    /** `None` is the error for a read past the end; it leaves the position alone. */
    method ReadExact(n: nat) returns (r: Option<seq<Byte>>)
      requires Valid()
      modifies this`pos
      ensures Valid()
      ensures old(pos) + n <= |data| ==> pos == old(pos) + n && r == Some(data[old(pos)..pos])
      ensures old(pos) + n > |data| ==> r == None && pos == old(pos)
    {
      if pos + n > |data| {
        return None;
      }
      r := Some(data[pos..pos + n]);
      pos := pos + n;
    }

    method ResetPos()
      modifies this`pos
      ensures Valid() && pos == 0
    {
      pos := 0;
    }

    method RemoveRead() returns (removed: seq<Byte>)
      requires Valid()
      modifies this
      ensures Valid() && pos == 0
      ensures removed == old(data[..pos]) && data == old(data[pos..])
    {
      removed := data[..pos];
      data := data[pos..];
      pos := 0;
    }

    method AppendData(chunk: seq<Byte>)
      requires Valid()
      modifies this`data
      ensures Valid() && data == old(data) + chunk
    {
      data := data + chunk;
    }

    method Size() returns (n: nat)
      ensures n == |data|
    {
      n := |data|;
    }
  }

  // ---- the decoder as it reads from the buffer -------------------------------------------------

  /** What is left to read. */
  ghost function Ahead(reader: BufReader): seq<Byte>
    reads reader
    requires reader.Valid()
  {
    reader.data[reader.pos..]
  }

  lemma Slices(data: seq<Byte>, pos: nat, a: nat, b: nat)
    requires a <= b && pos + b <= |data|
    ensures data[pos..][a..b] == data[pos + a..pos + b] && data[pos..][b..] == data[pos + b..]
  {
  }

  method DecodeHead(reader: BufReader) returns (h: Option<Head>)
    requires reader.Valid()
    modifies reader`pos
    ensures reader.Valid() && h == ReadHead(old(Ahead(reader)))
    ensures h.Some? ==> reader.pos == old(reader.pos) + h.value.size
  {
    var initial := reader.ReadExact(1);
    if initial.None? {
      return None;
    }
    var b := initial.value[0];
    assert b == old(Ahead(reader))[0];
    var major, info := b as nat / 32, b as nat % 32;
    var n := ArgBytes(info);
    if n.None? {
      return None;
    }
    var arg := reader.ReadExact(n.value);
    if arg.None? {
      return None;
    }
    Slices(reader.data, old(reader.pos), 1, 1 + n.value);
    assert arg.value == old(Ahead(reader))[1..1 + n.value];
    h := Some(Head(major, info, if info < 24 then info else FromBytes(arg.value), 1 + n.value));
  }

  method DecodeItem(reader: BufReader) returns (v: Option<Value>)
    requires reader.Valid()
    modifies reader`pos
    ensures reader.Valid()
    ensures var r := Item(old(Ahead(reader)));
            && (v.Some? <==> r.Some?)
            && (r.Some? ==> v.value == r.value.0 && reader.pos == old(reader.pos) + r.value.1)
    decreases |reader.data| - reader.pos, 0
  {
    var h := DecodeHead(reader);
    if h.None? {
      return None;
    }
    assert Ahead(reader) == old(Ahead(reader))[h.value.size..];
    v := DecodeBody(reader, h.value.major, h.value.info, h.value.arg);
  }

  method DecodeBody(reader: BufReader, major: nat, info: nat, arg: nat) returns (v: Option<Value>)
    requires reader.Valid()
    modifies reader`pos
    ensures reader.Valid()
    ensures var r := Body(major, info, arg, old(Ahead(reader)));
            && (v.Some? <==> r.Some?)
            && (r.Some? ==> v.value == r.value.0 && reader.pos == old(reader.pos) + r.value.1)
    decreases |reader.data| - reader.pos, 2
  {
    if info == INDEFINITE {
      v := DecodeUnbounded(reader, major);
    } else if major == 0 {
      v := Some(Unsigned(arg));
    } else if major == 1 {
      v := Some(Negative(arg));
    } else if major == 2 || major == 3 {
      var data := reader.ReadExact(arg);
      if data.None? {
        return None;
      }
      Slices(reader.data, old(reader.pos), 0, arg);
      assert data.value == old(Ahead(reader))[..arg];
      if !Acceptable(major, data.value) {
        return None;
      }
      v := Some(if major == 2 then Bytes(data.value) else Text(data.value));
    } else if major == 4 || major == 5 {
      var items := DecodeItems(reader, if major == 4 then arg else 2 * arg);
      if items.None? {
        return None;
      }
      v := Some(if major == 4 then Array(items.value) else Map(items.value));
    } else if major == 6 {
      var item := DecodeItem(reader);
      if item.None? {
        return None;
      }
      v := Some(Tag(arg, item.value));
    } else {
      v := Some(Simple(info, arg));
    }
  }

  method DecodeUnbounded(reader: BufReader, major: nat) returns (v: Option<Value>)
    requires reader.Valid()
    modifies reader`pos
    ensures reader.Valid()
    ensures var r := Unbounded(major, old(Ahead(reader)));
            && (v.Some? <==> r.Some?)
            && (r.Some? ==> v.value == r.value.0 && reader.pos == old(reader.pos) + r.value.1)
    decreases |reader.data| - reader.pos, 1, 1
  {
    if major == 2 || major == 3 {
      var data := DecodeChunks(reader, major);
      if data.None? {
        return None;
      }
      v := Some(if major == 2 then Bytes(data.value) else Text(data.value));
    } else if major == 4 || major == 5 {
      var items := DecodeUntil(reader, major == 5, false);
      if items.None? {
        return None;
      }
      v := Some(if major == 4 then Array(items.value) else Map(items.value));
    } else {
      v := None;
    }
  }

  method DecodeChunks(reader: BufReader, major: nat) returns (data: Option<seq<Byte>>)
    requires reader.Valid()
    modifies reader`pos
    ensures reader.Valid()
    ensures var r := Chunks(major, old(Ahead(reader)));
            && (data.Some? <==> r.Some?)
            && (r.Some? ==> data.value == r.value.0 && reader.pos == old(reader.pos) + r.value.1)
    decreases |reader.data| - reader.pos, 0
  {
    hide ReadHead, Acceptable;
    ghost var s := Ahead(reader);
    var h := DecodeHead(reader);
    if h.None? {
      return None;
    }
    if IsBreak(h.value) {
      return Some([]);
    }
    if h.value.major != major || h.value.info == INDEFINITE {
      return None;
    }
    var chunk := reader.ReadExact(h.value.arg);
    if chunk.None? {
      return None;
    }
    Slices(reader.data, old(reader.pos), h.value.size, h.value.size + h.value.arg);
    assert chunk.value == s[h.value.size..h.value.size + h.value.arg];
    if !Acceptable(major, chunk.value) {
      return None;
    }
    assert Ahead(reader) == s[h.value.size + h.value.arg..];
    var rest := DecodeChunks(reader, major);
    data := if rest.None? then None else Some(chunk.value + rest.value);
  }

  method DecodeUntil(reader: BufReader, pairs: bool, odd: bool) returns (vs: Option<seq<Value>>)
    requires reader.Valid()
    modifies reader`pos
    ensures reader.Valid()
    ensures var r := Until(pairs, odd, old(Ahead(reader)));
            && (vs.Some? <==> r.Some?)
            && (r.Some? ==> vs.value == r.value.0 && reader.pos == old(reader.pos) + r.value.1)
    decreases |reader.data| - reader.pos, 1, 0
  {
    hide ReadHead, Body, Item;
    ghost var s := Ahead(reader);
    var h := DecodeHead(reader);
    if h.None? {
      return None;
    }
    if IsBreak(h.value) {
      return if pairs && odd then None else Some([]);
    }
    assert Ahead(reader) == s[h.value.size..];
    ItemIsHeadAndBody(s, h.value);
    var first := DecodeBody(reader, h.value.major, h.value.info, h.value.arg);
    if first.None? {
      return None;
    }
    assert Ahead(reader) == s[Item(s).value.1..];
    var rest := DecodeUntil(reader, pairs, !odd);
    vs := if rest.None? then None else Some([first.value] + rest.value);
  }

  method DecodeItems(reader: BufReader, n: nat) returns (vs: Option<seq<Value>>)
    requires reader.Valid()
    modifies reader`pos
    ensures reader.Valid()
    ensures var r := Items(n, old(Ahead(reader)));
            && (vs.Some? <==> r.Some?)
            && (r.Some? ==> vs.value == r.value.0 && reader.pos == old(reader.pos) + r.value.1)
    decreases |reader.data| - reader.pos, 1, n
  {
    hide ReadHead, Item;
    if n == 0 {
      return Some([]);
    }
    var first := DecodeItem(reader);
    if first.None? {
      return None;
    }
    assert Ahead(reader) == old(Ahead(reader))[reader.pos - old(reader.pos)..];
    var rest := DecodeItems(reader, n - 1);
    vs := if rest.None? then None else Some([first.value] + rest.value);
  }

  // ---- the reading thread ----------------------------------------------------------------------

  const LOG_KEY: seq<Byte> := [108, 111, 103]

  /** A map with a text key "log". */
  predicate IsLog(v: Value) {
    v.Map? && exists i :: 0 <= i < |v.entries| && i % 2 == 0 && v.entries[i] == Text(LOG_KEY)
  }

  /** What reaches the callback: the bytes of every frame that is not a log message. */
  function Delivered<V>(isLog: V -> bool, frames: seq<Frame<V>>): seq<seq<Byte>> {
    if frames == [] then []
    else
      var last := frames[|frames| - 1];
      Delivered(isLog, frames[..|frames| - 1]) + if isLog(last.value) then [] else [last.data]
  }

  /** The reading thread, over any stable decoder. */
  class Port<V(!new)> {
    const dec: Decoder<V>
    const isLog: V -> bool
    const reader: BufReader
    var delivered: seq<seq<Byte>>
    ghost var received: seq<Byte>

    /** Buffer and deliveries are those of the greedy decoding of all bytes received so far. */
    ghost predicate Valid()
      reads this, reader
    {
      var d := Drain(dec, received);
      Stable(dec) && reader.Valid() && reader.data == d.rest && delivered == Delivered(isLog, d.frames)
    }

    constructor (dec: Decoder<V>, isLog: V -> bool)
      requires Stable(dec)
      ensures Valid() && fresh(reader) && received == [] && delivered == []
      ensures this.dec == dec && this.isLog == isLog
    {
      NothingYet(dec);
      this.dec, this.isLog := dec, isLog;
      reader := new BufReader();
      delivered, received := [], [];
    }

    /** One round of the inner loop: decode, remove and hand over one frame, if there is one. */
    method TakeFrame(ghost found: seq<Frame<V>>) returns (ok: bool, ghost now: seq<Frame<V>>)
      requires Stable(dec) && reader.Valid() && delivered == Delivered(isLog, found)
      modifies this`delivered, reader
      ensures reader.Valid() && delivered == Delivered(isLog, now)
      ensures Onto(now, Drain(dec, reader.data)) == Onto(found, old(Drain(dec, reader.data)))
      ensures ok ==> |reader.data| < old(|reader.data|)
      ensures !ok ==> !Decodes(dec, reader.data)
    {
      hide Drain, Delivered, Onto;
      reader.ResetPos();
      var r := dec(reader.data);
      if r.None? {
        return false, found;
      }
      PushFrame(dec, isLog, reader.data, found);
      now := found + [FirstFrame(dec, reader.data)];
      var _ := reader.ReadExact(r.value.1);
      var frame := reader.RemoveRead();
      if !isLog(r.value.0) {
        delivered := delivered + [frame];
      }
      ok := true;
    }

    /** Handle the bytes of one `read`. */
    method OnRead(chunk: seq<Byte>)
      requires Valid()
      modifies this, reader
      ensures Valid() && received == old(received) + chunk
    {
      hide Delivered, Drain, Onto, Stable;
      ghost var found := Drain(dec, received).frames;
      reader.AppendData(chunk);
      received := received + chunk;
      InSteps(dec, old(received), chunk);
      while true
        invariant received == old(received) + chunk
        invariant reader.Valid() && delivered == Delivered(isLog, found)
        invariant Onto(found, Drain(dec, reader.data)) == Drain(dec, received)
        decreases |reader.data|
      {
        var ok: bool;
        ok, found := TakeFrame(found);
        var size := reader.Size();
        if !ok || size == 0 {
          if ok {
            EmptyDecodesNothing(dec, reader.data);
          }
          break;
        }
      }
      NothingLeft(dec, found, reader.data);
    }
  }

  /** The port of the device: CBOR items, log messages dropped. */
  method NewPort() returns (port: Port<Value>)
    ensures fresh(port) && fresh(port.reader) && port.Valid() && port.received == []
    ensures port.dec == Item && port.isLog == IsLog
  {
    CborStable();
    port := new Port(Item, IsLog);
  }

  /** The round of the inner loop as the device's thread runs it: the decoder reads through the shared
      buffer, and what it has read is what is removed and delivered. */
  method TakeItem(port: Port<Value>, ghost found: seq<Frame<Value>>)
    returns (ok: bool, ghost now: seq<Frame<Value>>)
    requires port.dec == Item && port.isLog == IsLog
    requires port.reader.Valid() && port.delivered == Delivered(port.isLog, found)
    modifies port`delivered, port.reader
    ensures port.reader.Valid() && port.delivered == Delivered(port.isLog, now)
    ensures Onto(now, Drain(port.dec, port.reader.data)) == Onto(found, old(Drain(port.dec, port.reader.data)))
    ensures ok ==> |port.reader.data| < old(|port.reader.data|)
    ensures !ok ==> !Decodes(port.dec, port.reader.data)
  {
    hide ReadHead, Body, Items, Item, IsLog, Drain, Delivered, Onto;
    var reader := port.reader;
    reader.ResetPos();
    assert Ahead(reader) == reader.data;
    var v := DecodeItem(reader);
    if v.None? {
      return false, found;
    }
    PushFrame(Item, IsLog, reader.data, found);
    now := found + [FirstFrame(Item, reader.data)];
    var frame := reader.RemoveRead();
    if !IsLog(v.value) {
      port.delivered := port.delivered + [frame];
    }
    ok := true;
  }

  /** Handle the bytes of one `read` of the device. */
  method HandleRead(port: Port<Value>, chunk: seq<Byte>)
    requires port.Valid() && port.dec == Item && port.isLog == IsLog
    modifies port, port.reader
    ensures port.Valid() && port.received == old(port.received) + chunk
  {
    hide Delivered, Drain, Onto, Stable, Item, IsLog;
    ghost var found := Drain(port.dec, port.received).frames;
    port.reader.AppendData(chunk);
    port.received := port.received + chunk;
    InSteps(port.dec, old(port.received), chunk);
    while true
      invariant port.received == old(port.received) + chunk
      invariant port.reader.Valid() && port.delivered == Delivered(port.isLog, found)
      invariant Onto(found, Drain(port.dec, port.reader.data)) == Drain(port.dec, port.received)
      decreases |port.reader.data|
    {
      var ok: bool;
      ok, found := TakeItem(port, found);
      var size := port.reader.Size();
      if !ok || size == 0 {
        if ok {
          EmptyDecodesNothing(port.dec, port.reader.data);
        }
        break;
      }
    }
    NothingLeft(port.dec, found, port.reader.data);
  }

  lemma NothingYet<V(!new)>(dec: Decoder<V>)
    requires Stable(dec)
    ensures Drain(dec, []) == Drained([], [])
  {
    EmptyDecodesNothing(dec, []);
  }

  lemma EmptyDecodesNothing<V(!new)>(dec: Decoder<V>, s: seq<Byte>)
    requires s == []
    ensures !Decodes(dec, s)
  {
  }

  lemma InSteps<V(!new)>(dec: Decoder<V>, s: seq<Byte>, t: seq<Byte>)
    requires Stable(dec)
    ensures Onto(Drain(dec, s).frames, Drain(dec, Drain(dec, s).rest + t)) == Drain(dec, s + t)
  {
    DrainInSteps(dec, s, t);
  }

  lemma NothingLeft<V>(dec: Decoder<V>, found: seq<Frame<V>>, data: seq<Byte>)
    requires !Decodes(dec, data)
    ensures Onto(found, Drain(dec, data)) == Drained(found, data)
  {
    assert found + [] == found;
  }

  /** Moving the first frame of a buffer to the frames found so far. */
  lemma PushFrame<V>(dec: Decoder<V>, isLog: V -> bool, data: seq<Byte>, found: seq<Frame<V>>)
    requires Decodes(dec, data)
    ensures var first := FirstFrame(dec, data);
            && Onto(found + [first], Drain(dec, data[|first.data|..])) == Onto(found, Drain(dec, data))
            && Delivered(isLog, found + [first]) ==
               Delivered(isLog, found) + if isLog(first.value) then [] else [first.data]
  {
    var first := FirstFrame(dec, data);
    OntoTwice(found, [first], Drain(dec, data[|first.data|..]));
    assert (found + [first])[..|found|] == found;
  }

  // ---- end to end ------------------------------------------------------------------------------

  function FramesOf(vs: seq<Value>): seq<Frame<Value>>
    requires forall i :: 0 <= i < |vs| ==> Encodable(vs[i])
  {
    if vs == [] then [] else [Frame(vs[0], Encode(vs[0]))] + FramesOf(vs[1..])
  }

  lemma {:induction false} DrainMessages(vs: seq<Value>)
    requires forall i :: 0 <= i < |vs| ==> Encodable(vs[i])
    ensures Drain(Item, EncodeAll(vs)) == Drained(FramesOf(vs), [])
  {
    if vs == [] {
      assert Item([]).None?;
    } else {
      var first, rest := Encode(vs[0]), EncodeAll(vs[1..]);
      ItemRoundTrip(vs[0], rest);
      DrainMessages(vs[1..]);
      assert (first + rest)[..|first|] == first;
      assert (first + rest)[|first|..] == rest;
    }
  }

  /** The encodings of the messages that are not log messages. */
  function Wanted(vs: seq<Value>): seq<seq<Byte>>
    requires forall i :: 0 <= i < |vs| ==> Encodable(vs[i])
  {
    if vs == [] then []
    else (if IsLog(vs[0]) then [] else [Encode(vs[0])]) + Wanted(vs[1..])
  }

  lemma {:induction false} DeliveredFirst(f: Frame<Value>, frames: seq<Frame<Value>>)
    ensures Delivered(IsLog, [f] + frames) == (if IsLog(f.value) then [] else [f.data]) + Delivered(IsLog, frames)
    decreases |frames|
  {
    if frames == [] {
      assert [f] + frames == [f];
      assert Delivered(IsLog, [f][..0]) == [];
    } else {
      var front := frames[..|frames| - 1];
      DeliveredFirst(f, front);
      assert ([f] + frames)[..|frames|] == [f] + front;
    }
  }

  lemma {:induction false} DeliveredMessages(vs: seq<Value>)
    requires forall i :: 0 <= i < |vs| ==> Encodable(vs[i])
    ensures Delivered(IsLog, FramesOf(vs)) == Wanted(vs)
  {
    if vs != [] {
      DeliveredMessages(vs[1..]);
      DeliveredFirst(Frame(vs[0], Encode(vs[0])), FramesOf(vs[1..]));
      hide Encode, IsLog, Delivered;
    }
  }

  /** Messages the device writes back to back come out one by one, in order and byte for byte,
      whatever chunks they arrive in; exactly the log messages are dropped and nothing stays. */
  lemma MessagesSurviveChunking(vs: seq<Value>, chunks: seq<seq<Byte>>)
    requires forall i :: 0 <= i < |vs| ==> Encodable(vs[i])
    requires Concat(chunks) == EncodeAll(vs)
    ensures var d := FeedAll(Item, chunks);
            d.rest == [] && d.frames == FramesOf(vs) && Delivered(IsLog, d.frames) == Wanted(vs)
  {
    CborStable();
    DeliveredMessages(vs);
    ChunkingIsIrrelevant(Item, chunks);
    DrainMessages(vs);
  }

  /** One message, in whatever chunks it arrives: a map with the text "log" among its keys, the entries at
      even positions, is dropped, and every other value is delivered as the bytes it was sent as. */
  lemma DeliveredExactly(v: Value, chunks: seq<seq<Byte>>)
    requires Encodable(v) && Concat(chunks) == Encode(v)
    ensures Delivered(IsLog, FeedAll(Item, chunks).frames) ==
            if v.Map? && (exists i :: 0 <= i < |v.entries| && i % 2 == 0 && v.entries[i] == Text([108, 111, 103])) then []
            else [Encode(v)]
  {
    assert EncodeAll([v]) == Encode(v) by {
      assert [v][1..] == [];
      assert Encode(v) + [] == Encode(v);
    }
    MessagesSurviveChunking([v], chunks);
    assert [v][1..] == [];
    assert Wanted([v]) == (if IsLog(v) then [] else [Encode(v)]) + [];
    assert LOG_KEY == [108, 111, 103];
    hide Delivered, Wanted, Encode, FeedAll;
  }
}
