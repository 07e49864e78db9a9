/** Merging of outbound messages into wire messages
    (crates/machine/src/hub_conn.rs, `coalesce_outbound_batch`). */
module Coalesce {
  import opened Basics

  type AttachId = seq<byte>

  datatype Outbound =
    | Json(text: string)
    | Output(attach: AttachId, data: seq<byte>)
    | Compression(attach: AttachId, enable: bool)

  datatype Wire =
    | Text(text: string)
    | Frame(attach: AttachId, payload: seq<byte>)
    | Marker(attach: AttachId, enable: bool)

  /** What a message means, byte by byte. */
  datatype Item =
    | TextItem(text: string)
    | ByteItem(attach: AttachId, value: byte)
    | MarkItem(attach: AttachId, enable: bool)

  function Bytes(attach: AttachId, data: seq<byte>): seq<Item>
  {
    seq(|data|, i requires 0 <= i < |data| => ByteItem(attach, data[i]))
  }

  function OutboundItems(m: Outbound): seq<Item>
  {
    match m
    case Json(text) => [TextItem(text)]
    case Output(attach, data) => Bytes(attach, data)
    case Compression(attach, enable) => [MarkItem(attach, enable)]
  }

  function WireItems(w: Wire): seq<Item>
  {
    match w
    case Text(text) => [TextItem(text)]
    case Frame(attach, payload) => Bytes(attach, payload)
    case Marker(attach, enable) => [MarkItem(attach, enable)]
  }

  function BatchMeaning(batch: seq<Outbound>): seq<Item>
  {
    if batch == [] then [] else BatchMeaning(batch[..|batch| - 1]) + OutboundItems(batch[|batch| - 1])
  }

  function WireMeaning(wire: seq<Wire>): seq<Item>
  {
    if wire == [] then [] else WireMeaning(wire[..|wire| - 1]) + WireItems(wire[|wire| - 1])
  }

  /** No two neighbouring frames belong to the same attach. */
  predicate Merged(wire: seq<Wire>)
  {
    forall i | 0 <= i < |wire| - 1 ::
      !(wire[i].Frame? && wire[i + 1].Frame? && wire[i].attach == wire[i + 1].attach)
  }

  /** Add one message: extend the last frame if it is the same attach's. */
  function Push(wire: seq<Wire>, m: Outbound): seq<Wire>
  {
    match m
    case Json(text) => wire + [Text(text)]
    case Compression(attach, enable) => wire + [Marker(attach, enable)]
    case Output(attach, data) =>
      var n := |wire|;
      if n > 0 && wire[n - 1].Frame? && wire[n - 1].attach == attach
      then wire[..n - 1] + [Frame(attach, wire[n - 1].payload + data)]
      else wire + [Frame(attach, data)]
  }

  function Coalesced(batch: seq<Outbound>): seq<Wire>
  {
    if batch == [] then [] else Push(Coalesced(batch[..|batch| - 1]), batch[|batch| - 1])
  }

  lemma MeaningPush(wire: seq<Wire>, w: Wire)
    ensures WireMeaning(wire + [w]) == WireMeaning(wire) + WireItems(w)
  {
    assert (wire + [w])[..|wire|] == wire;
  }

  lemma BytesAppend(attach: AttachId, a: seq<byte>, b: seq<byte>)
    ensures Bytes(attach, a + b) == Bytes(attach, a) + Bytes(attach, b)
  {
  }

  lemma Extended(wire: seq<Wire>, attach: AttachId, payload: seq<byte>, data: seq<byte>)
    ensures WireMeaning(wire + [Frame(attach, payload + data)])
            == WireMeaning(wire + [Frame(attach, payload)]) + Bytes(attach, data)
  {
    MeaningPush(wire, Frame(attach, payload));
    MeaningPush(wire, Frame(attach, payload + data));
    BytesAppend(attach, payload, data);
    Assoc(WireMeaning(wire), Bytes(attach, payload), Bytes(attach, data));
  }

  lemma PushKeeps(wire: seq<Wire>, m: Outbound)
    requires Merged(wire)
    ensures Merged(Push(wire, m))
    ensures WireMeaning(Push(wire, m)) == WireMeaning(wire) + OutboundItems(m)
  {
    var n := |wire|;
    if m.Output? && n > 0 && wire[n - 1].Frame? && wire[n - 1].attach == m.attach {
      assert wire == wire[..n - 1] + [wire[n - 1]];
      Extended(wire[..n - 1], m.attach, wire[n - 1].payload, m.data);
    } else {
      match m
      case Json(text) => MeaningPush(wire, Text(text));
      case Compression(attach, enable) => MeaningPush(wire, Marker(attach, enable));
      case Output(attach, data) => MeaningPush(wire, Frame(attach, data));
    }
  }

  /** Main result: merging changes nothing about what is said, byte for byte and
      in order, and leaves nothing to merge. */
  lemma {:induction false} CoalescedKeeps(batch: seq<Outbound>)
    ensures WireMeaning(Coalesced(batch)) == BatchMeaning(batch)
    ensures Merged(Coalesced(batch))
  {
    if batch != [] {
      CoalescedKeeps(batch[..|batch| - 1]);
      PushKeeps(Coalesced(batch[..|batch| - 1]), batch[|batch| - 1]);
    }
  }

  predicate NoEmptyFrames(wire: seq<Wire>)
  {
    forall i | 0 <= i < |wire| :: wire[i].Frame? ==> wire[i].payload != []
  }

  /** Those two facts leave no freedom: merged wire messages without empty
      frames that mean the same are the same. */
  lemma {:induction false} MergedIsCanonical(a: seq<Wire>, b: seq<Wire>)
    requires Merged(a) && Merged(b) && NoEmptyFrames(a) && NoEmptyFrames(b)
    requires WireMeaning(a) == WireMeaning(b)
    ensures a == b
    decreases |a|
  {
    if a == [] || b == [] {
      EmptyMeaning(a);
      EmptyMeaning(b);
    } else {
      SameLast(a, b);
      MergedIsCanonical(a[..|a| - 1], b[..|b| - 1]);
      SameParts(a, b);
    }
  }

  lemma SameParts<T>(a: seq<T>, b: seq<T>)
    requires a != [] && b != [] && a[..|a| - 1] == b[..|b| - 1] && a[|a| - 1] == b[|b| - 1]
    ensures a == b
  {
    assert a == a[..|a| - 1] + [a[|a| - 1]] && b == b[..|b| - 1] + [b[|b| - 1]];
  }

  lemma SameLast(a: seq<Wire>, b: seq<Wire>)
    requires a != [] && b != [] && Merged(a) && Merged(b) && NoEmptyFrames(a) && NoEmptyFrames(b)
    requires WireMeaning(a) == WireMeaning(b)
    ensures a[|a| - 1] == b[|b| - 1]
    ensures WireMeaning(a[..|a| - 1]) == WireMeaning(b[..|b| - 1])
  {
    var x, y := a[|a| - 1], b[|b| - 1];
    LastItem(a);
    LastItem(b);
    if x.Frame? {
      SameTail(a, b);
    } else if y.Frame? {
      SameTail(b, a);
    }
    SplitEqual(WireMeaning(a[..|a| - 1]), WireItems(x), WireMeaning(b[..|b| - 1]), WireItems(y));
    ItemsDetermine(x, y);
  }

  lemma ItemsDetermine(x: Wire, y: Wire)
    requires WireItems(x) == WireItems(y)
    requires x.Frame? ==> x.payload != []
    requires y.Frame? ==> y.payload != []
    ensures x == y
  {
    assert WireItems(x)[0] == WireItems(y)[0];
    if x.Frame? {
      forall i | 0 <= i < |x.payload| ensures x.payload[i] == y.payload[i] {
        assert WireItems(x)[i] == WireItems(y)[i];
      }
    }
  }

  lemma EmptyMeaning(wire: seq<Wire>)
    requires NoEmptyFrames(wire)
    ensures WireMeaning(wire) == [] <==> wire == []
  {
    if wire != [] {
      assert WireItems(wire[|wire| - 1]) != [];
    }
  }

  lemma LastItem(wire: seq<Wire>)
    requires wire != [] && NoEmptyFrames(wire)
    ensures WireItems(wire[|wire| - 1]) != []
    ensures var m := WireMeaning(wire); m != [] && m[|m| - 1] == WireItems(wire[|wire| - 1])[|WireItems(wire[|wire| - 1])| - 1]
  {
  }

  /** How many bytes of `attach` a meaning ends with. */
  function TailLength(items: seq<Item>, attach: AttachId): nat
  {
    if items == [] then 0
    else
      var last := items[|items| - 1];
      if last.ByteItem? && last.attach == attach then 1 + TailLength(items[..|items| - 1], attach) else 0
  }

  lemma {:induction false} TailOfBytes(items: seq<Item>, attach: AttachId, data: seq<byte>)
    requires TailLength(items, attach) == 0
    ensures TailLength(items + Bytes(attach, data), attach) == |data|
  {
    if data == [] {
      assert items + Bytes(attach, data) == items;
    } else {
      var n := |data| - 1;
      assert (items + Bytes(attach, data))[..|items| + n] == items + Bytes(attach, data[..n]);
      TailOfBytes(items, attach, data[..n]);
    }
  }

  lemma FrameTail(a: seq<Wire>)
    requires a != [] && a[|a| - 1].Frame? && Merged(a) && NoEmptyFrames(a)
    ensures TailLength(WireMeaning(a), a[|a| - 1].attach) == |a[|a| - 1].payload|
  {
    var a', x := a[..|a| - 1], a[|a| - 1];
    if a' != [] {
      LastItem(a');
      assert a[|a| - 2] == a'[|a'| - 1];
    }
    TailOfBytes(WireMeaning(a'), x.attach, x.payload);
  }

  lemma SameTail(a: seq<Wire>, b: seq<Wire>)
    requires a != [] && b != [] && Merged(a) && Merged(b) && NoEmptyFrames(a) && NoEmptyFrames(b)
    requires WireMeaning(a) == WireMeaning(b) && a[|a| - 1].Frame?
    ensures b[|b| - 1].Frame? && |b[|b| - 1].payload| == |a[|a| - 1].payload|
  {
    LastItem(a);
    LastItem(b);
    FrameTail(a);
    FrameTail(b);
  }

  /** The function as the program writes it: a vector whose last element grows. */
  method CoalesceBatch(batch: seq<Outbound>) returns (wire: seq<Wire>)
    ensures wire == Coalesced(batch)
  {
    wire := [];
    var i := 0;
    while i < |batch|
      invariant 0 <= i <= |batch|
      invariant wire == Coalesced(batch[..i])
    {
      assert batch[..i + 1][..i] == batch[..i];
      match batch[i] {
        case Json(text) => wire := wire + [Text(text)];
        case Compression(attach, enable) => wire := wire + [Marker(attach, enable)];
        case Output(attach, data) =>
          var n := |wire|;
          if n > 0 && wire[n - 1].Frame? && wire[n - 1].attach == attach {
            wire := wire[..n - 1] + [wire[n - 1].(payload := wire[n - 1].payload + data)];
          } else {
            wire := wire + [Frame(attach, data)];
          }
      }
      i := i + 1;
    }
    assert batch[..i] == batch;
  }

  predicate NoEmptyOutput(batch: seq<Outbound>)
  {
    forall i | 0 <= i < |batch| :: batch[i].Output? ==> batch[i].data != []
  }

  lemma {:induction false} CoalescedNoEmpty(batch: seq<Outbound>)
    requires NoEmptyOutput(batch)
    ensures NoEmptyFrames(Coalesced(batch))
  {
    if batch != [] {
      CoalescedNoEmpty(batch[..|batch| - 1]);
      assert batch[|batch| - 1].Output? ==> batch[|batch| - 1].data != [];
    }
  }

  lemma {:induction false} BatchMeaningAppend(a: seq<Outbound>, b: seq<Outbound>)
    ensures BatchMeaning(a + b) == BatchMeaning(a) + BatchMeaning(b)
  {
    if b == [] {
      assert a + b == a;
    } else {
      var n := |b| - 1;
      ButLast(a, b);
      BatchMeaningAppend(a, b[..n]);
      Assoc(BatchMeaning(a), BatchMeaning(b[..n]), OutboundItems(b[n]));
    }
  }
}
