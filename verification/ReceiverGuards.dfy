/** The receiving channel against any records, whoever made them. */
module ReceiverGuards {
  import opened Basics
  import opened Outbound
  import opened Reassembly

  function ReceiveRecords(r: Receiver, records: seq<Record>): Receiver
  {
    if records == [] then r else Receive(ReceiveRecords(r, records[..|records| - 1]), records[|records| - 1])
  }

  // ----- which records are taken -----

  /** A record with a sound header and a fragment of the right size. */
  predicate WellSized(record: Record)
  {
    && 1 <= |record.data| <= 16 * 1024
    && 0 < record.total <= 32 * 1024 * 1024 && record.offset + |record.data| <= record.total
  }

  /** A first fragment has a new, higher id and, unless it is the whole message, finds
      fewer than 8 assemblies under way and room for its message in 64 MiB; a later one
      goes on exactly where the assembly of its id has come to. */
  predicate Expected(r: Receiver, record: Record)
  {
    if record.offset == 0 then
      && record.id > r.lastStarted
      && (|record.data| == record.total
          || (|r.pending| < 8 && r.reserved + record.total <= 64 * 1024 * 1024))
    else
      && record.id in r.pending && r.pending[record.id].total == record.total
      && |r.pending[record.id].data| == record.offset
  }

  /** Main result: the channel fails at exactly the first record that is not sound or not
      expected, and stays failed, with everything forgotten. */
  lemma FailsExactly(r: Receiver, record: Record)
    ensures Receive(r, record).failed <==> r.failed || !WellSized(record) || !Expected(r, record)
    ensures r.failed ==> Receive(r, record) == r
    ensures !r.failed && Receive(r, record).failed ==>
              Receive(r, record).pending == map[] && Receive(r, record).reserved == 0
              && Receive(r, record).delivered == r.delivered
  {
  }

  // ----- what it may hold -----

  /** The sizes of the messages under way. */
  ghost function Promised(pending: map<nat, Assembly>): nat
  {
    if pending == map[] then 0
    else
      var id :| id in pending;
      pending[id].total + Promised(pending - {id})
  }

  lemma {:induction false} PromisedWithout(pending: map<nat, Assembly>, id: nat)
    requires id in pending
    ensures Promised(pending) == pending[id].total + Promised(pending - {id})
    decreases |pending|
  {
    var other :| other in pending && Promised(pending) == pending[other].total + Promised(pending - {other});
    if other != id {
      PromisedWithout(pending - {other}, id);
      PromisedWithout(pending - {id}, other);
      assert (pending - {other}) - {id} == (pending - {id}) - {other};
    }
  }

  lemma PromisedMore(pending: map<nat, Assembly>, id: nat, assembly: Assembly)
    ensures id !in pending ==> Promised(pending[id := assembly]) == assembly.total + Promised(pending)
    ensures id in pending && pending[id].total == assembly.total ==> Promised(pending[id := assembly]) == Promised(pending)
  {
    PromisedWithout(pending[id := assembly], id);
    assert pending[id := assembly] - {id} == pending - {id};
    if id in pending {
      PromisedWithout(pending, id);
    } else {
      assert pending - {id} == pending;
    }
  }

  ghost predicate Bounded(r: Receiver)
  {
    && |r.pending| <= 8 && r.reserved == Promised(r.pending) <= 64 * 1024 * 1024
    && (forall id | id in r.pending ::
          id <= r.lastStarted && 0 < |r.pending[id].data| < r.pending[id].total <= 32 * 1024 * 1024)
  }

  lemma ReceiveBounded(r: Receiver, record: Record)
    requires Bounded(r)
    ensures Bounded(Receive(r, record))
  {
    FailsExactly(r, record);
    assert Promised(map[]) == 0;
    if !r.failed && !Receive(r, record).failed {
      if record.offset == 0 {
        StartBounded(r, record);
      } else {
        GoOnBounded(r, record);
      }
    }
  }

  lemma StartBounded(r: Receiver, record: Record)
    requires Bounded(r) && !r.failed && WellSized(record) && Expected(r, record) && record.offset == 0
    ensures Bounded(Receive(r, record))
  {
    assert record.id !in r.pending;
    PromisedMore(r.pending, record.id, Assembly(record.total, record.data));
  }

  lemma GoOnBounded(r: Receiver, record: Record)
    requires Bounded(r) && !r.failed && WellSized(record) && Expected(r, record) && record.offset != 0
    ensures Bounded(Receive(r, record))
  {
    var assembly := r.pending[record.id];
    PromisedMore(r.pending, record.id, assembly.(data := assembly.data + record.data));
    PromisedWithout(r.pending, record.id);
  }

  lemma {:induction false} RecordsBounded(r: Receiver, records: seq<Record>)
    requires Bounded(r)
    ensures Bounded(ReceiveRecords(r, records))
  {
    if records != [] {
      RecordsBounded(r, records[..|records| - 1]);
      ReceiveBounded(ReceiveRecords(r, records[..|records| - 1]), records[|records| - 1]);
    }
  }

  /** Main result: whatever records come, a channel assembles at most 8 messages, has
      reserved exactly their sizes, at most 64 MiB together, and holds no more than it
      has reserved. */
  lemma AlwaysBounded(records: seq<Record>)
    ensures Bounded(ReceiveRecords(Listening(), records))
  {
    assert Promised(map[]) == 0;
    RecordsBounded(Listening(), records);
  }

  // ----- what it delivers -----

  /** The data of all records of one id, in their order. */
  function DataOf(records: seq<Record>, id: nat): seq<byte>
  {
    if records == [] then []
    else
      var last := records[|records| - 1];
      DataOf(records[..|records| - 1], id) + if last.id == id then last.data else []
  }

  lemma DataPush(records: seq<Record>, record: Record, id: nat)
    ensures DataOf(records + [record], id) == DataOf(records, id) + if record.id == id then record.data else []
  {
    assert (records + [record])[..|records|] == records;
  }

  /** The messages delivered, by their ids: each once, none still under way, and each is
      the data of its records; an assembly is the data of its records so far. */
  ghost predicate Traced(r: Receiver, records: seq<Record>, ids: seq<nat>)
  {
    && |ids| == |r.delivered|
    && (forall i, j | 0 <= i < j < |ids| :: ids[i] != ids[j])
    && (forall i | 0 <= i < |ids| ::
          ids[i] <= r.lastStarted && ids[i] !in r.pending && r.delivered[i] == DataOf(records, ids[i]))
    && (forall id | id in r.pending :: id <= r.lastStarted && r.pending[id].data == DataOf(records, id))
    && (forall id: nat | id > r.lastStarted :: DataOf(records, id) == [])
  }

  lemma StartTraced(r: Receiver, records: seq<Record>, ids: seq<nat>, record: Record) returns (after: seq<nat>)
    requires Traced(r, records, ids) && !r.failed && WellSized(record) && Expected(r, record) && record.offset == 0
    ensures Traced(Receive(r, record), records + [record], after)
  {
    after := if |record.data| == record.total then ids + [record.id] else ids;
    OthersSame(records, record);
    assert DataOf(records, record.id) == [] && [] + record.data == record.data;
  }

  lemma OthersSame(records: seq<Record>, record: Record)
    ensures DataOf(records + [record], record.id) == DataOf(records, record.id) + record.data
    ensures forall id: nat | id != record.id :: DataOf(records + [record], id) == DataOf(records, id)
  {
    DataPush(records, record, record.id);
    forall id: nat | id != record.id ensures DataOf(records + [record], id) == DataOf(records, id) {
      DataPush(records, record, id);
      assert DataOf(records, id) + [] == DataOf(records, id);
    }
  }

  lemma GoOnTraced(r: Receiver, records: seq<Record>, ids: seq<nat>, record: Record)
    requires Traced(r, records, ids) && !r.failed && WellSized(record) && Expected(r, record)
    requires record.offset != 0 && record.offset + |record.data| < record.total
    ensures Traced(Receive(r, record), records + [record], ids)
  {
    OthersSame(records, record);
  }

  lemma EndTraced(r: Receiver, records: seq<Record>, ids: seq<nat>, record: Record)
    requires Traced(r, records, ids) && !r.failed && WellSized(record) && Expected(r, record)
    requires record.offset != 0 && record.offset + |record.data| == record.total
    ensures Traced(Receive(r, record), records + [record], ids + [record.id])
  {
    OthersSame(records, record);
  }

  /** Main result: as long as the channel has not failed, every message it delivered is
      the data of the records of one id, whole and in the order in which they came, and
      no id gives two. */
  lemma {:induction false} DeliversWhatCame(records: seq<Record>) returns (ids: seq<nat>)
    ensures !ReceiveRecords(Listening(), records).failed ==> Traced(ReceiveRecords(Listening(), records), records, ids)
  {
    if records == [] {
      ids := [];
    } else {
      var before, record := records[..|records| - 1], records[|records| - 1];
      assert records == before + [record];
      var earlier := DeliversWhatCame(before);
      ids := earlier;
      var r := ReceiveRecords(Listening(), before);
      FailsExactly(r, record);
      if !r.failed && WellSized(record) && Expected(r, record) {
        if record.offset == 0 {
          ids := StartTraced(r, before, earlier, record);
        } else if record.offset + |record.data| < record.total {
          GoOnTraced(r, before, earlier, record);
        } else {
          EndTraced(r, before, earlier, record);
          ids := earlier + [record.id];
        }
      }
    }
  }
}
