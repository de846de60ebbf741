/** The messages waiting in claude's command queue, as the session mirrors them. */
module CommandQueue {
  import opened LineChain
  import opened Prelude

  datatype Entry = Entry(uuid: Uuid, text: string)

  /** The index of the first entry with this uuid, or the length. */
  function FirstWith(queue: seq<Entry>, uuid: Uuid): (i: nat)
    ensures i <= |queue|
    ensures i < |queue| ==> queue[i].uuid == uuid
    ensures forall j :: 0 <= j < i ==> queue[j].uuid != uuid
  {
    if queue == [] then 0 else if queue[0].uuid == uuid then 0 else 1 + FirstWith(queue[1..], uuid)
  }

  /** The queue without its first entry for this uuid. */
  function Without(queue: seq<Entry>, uuid: Uuid): seq<Entry> {
    var i := FirstWith(queue, uuid);
    if i < |queue| then queue[..i] + queue[i + 1..] else queue
  }

  function StillQueued(queue: seq<Entry>, still: set<Uuid>): seq<Entry> {
    if queue == [] then []
    else StillQueued(queue[..|queue| - 1], still)
         + if queue[|queue| - 1].uuid in still then [queue[|queue| - 1]] else []
  }

  function Uuids(queue: seq<Entry>): set<Uuid> {
    set e | e in queue :: e.uuid
  }

  /** No two entries share a uuid. */
  ghost predicate Distinct(queue: seq<Entry>) {
    forall i, j :: 0 <= i < j < |queue| ==> queue[i].uuid != queue[j].uuid
  }

  lemma UuidAt(queue: seq<Entry>, uuid: Uuid) returns (i: nat)
    requires uuid in Uuids(queue)
    ensures i < |queue| && queue[i].uuid == uuid
  {
    var e :| e in queue && e.uuid == uuid;
    i :| i < |queue| && queue[i] == e;
  }

  lemma WithoutDropsOne(queue: seq<Entry>, uuid: Uuid)
    requires Distinct(queue)
    ensures Distinct(Without(queue, uuid)) && Uuids(Without(queue, uuid)) == Uuids(queue) - {uuid}
  {
    var i, left := FirstWith(queue, uuid), Without(queue, uuid);
    if i < |queue| {
      forall j | 0 <= j < |queue| && j != i
        ensures queue[j] in left
      {
        assert left[if j < i then j else j - 1] == queue[j];
      }
    }
  }

  lemma PushDistinct(queue: seq<Entry>, e: Entry)
    requires Distinct(queue) && e.uuid !in Uuids(queue)
    ensures Distinct(queue + [e]) && Uuids(queue + [e]) == Uuids(queue) + {e.uuid}
  {
  }

  lemma {:induction false} StillQueuedKeepsExactly(queue: seq<Entry>, still: set<Uuid>)
    requires Distinct(queue)
    ensures Distinct(StillQueued(queue, still)) && Uuids(StillQueued(queue, still)) == Uuids(queue) * still
  {
    if queue != [] {
      var front, e := queue[..|queue| - 1], queue[|queue| - 1];
      StillQueuedKeepsExactly(front, still);
      assert queue == front + [e];
      assert Uuids([e]) == {e.uuid};
      if e.uuid in Uuids(front) {
        var j := UuidAt(front, e.uuid);
      }
      if e.uuid in still {
        PushDistinct(StillQueued(front, still), e);
      } else {
        assert StillQueued(queue, still) == StillQueued(front, still);
      }
    }
  }

  // ---- order ----

  /** The places in a queue, in ascending order, that give these entries. */
  ghost predicate Picks(queue: seq<Entry>, at: seq<int>, entries: seq<Entry>) {
    && |at| == |entries|
    && (forall k :: 0 <= k < |at| ==> 0 <= at[k] < |queue| && entries[k] == queue[at[k]])
    && (forall j, k :: 0 <= j < k < |at| ==> at[j] < at[k])
  }

  lemma PicksSnoc(queue: seq<Entry>, at: seq<int>, entries: seq<Entry>, e: Entry)
    requires Picks(queue, at, entries)
    ensures Picks(queue + [e], at, entries) && Picks(queue + [e], at + [|queue|], entries + [e])
  {
  }

  /** What a reconcile leaves are the very entries whose uuid the inventory lists, in the order they had. */
  lemma {:induction false} StillQueuedKeepsOrder(queue: seq<Entry>, still: set<Uuid>) returns (at: seq<int>)
    ensures Picks(queue, at, StillQueued(queue, still))
    ensures forall i :: 0 <= i < |queue| ==> (i in at <==> queue[i].uuid in still)
  {
    at := [];
    if queue != [] {
      var n := |queue| - 1;
      var front, last := queue[..n], queue[n];
      at := StillQueuedKeepsOrder(front, still);
      PicksSnoc(front, at, StillQueued(front, still), last);
      assert queue == front + [last];
      assert n !in at;
      if last.uuid in still {
        at := at + [n];
      } else {
        assert StillQueued(front, still) + [] == StillQueued(front, still);
      }
    }
  }

  /** What a removal leaves are all entries but the first with the uuid, in the order they had. */
  lemma WithoutKeepsOrder(queue: seq<Entry>, uuid: Uuid) returns (at: seq<int>)
    ensures Picks(queue, at, Without(queue, uuid))
    ensures forall i :: 0 <= i < |queue| ==>
              (i !in at <==> queue[i].uuid == uuid && forall j :: 0 <= j < i ==> queue[j].uuid != uuid)
  {
    var first := FirstWith(queue, uuid);
    if first < |queue| {
      at := seq(|queue| - 1, k requires 0 <= k => if k < first then k else k + 1);
      forall i: nat | i < |queue| && i != first
        ensures i in at
      {
        assert at[if i < first then i else i - 1] == i;
      }
    } else {
      at := seq(|queue|, k requires 0 <= k => k);
      forall i: nat | i < |queue|
        ensures i in at
      {
        assert at[i] == i;
      }
    }
  }

  /** The entries are among those of the queue, in the same order. */
  ghost predicate Within(queue: seq<Entry>, entries: seq<Entry>) {
    exists at :: Picks(queue, at, entries)
  }

  lemma WithinItself(queue: seq<Entry>)
    ensures Within(queue, queue)
  {
    assert Picks(queue, seq(|queue|, k requires 0 <= k => k), queue);
  }

  lemma WithinWithin(queue: seq<Entry>, mid: seq<Entry>, entries: seq<Entry>)
    requires Within(queue, mid) && Within(mid, entries)
    ensures Within(queue, entries)
  {
    var a :| Picks(queue, a, mid);
    var b :| Picks(mid, b, entries);
    assert Picks(queue, seq(|b|, k requires 0 <= k < |b| => a[b[k]]), entries);
  }

  lemma WithinAppended(queue: seq<Entry>, entries: seq<Entry>, e: Entry)
    requires Within(queue, entries)
    ensures Within(queue + [e], entries + [e])
  {
    var at :| Picks(queue, at, entries);
    assert Picks(queue + [e], at + [|queue|], entries + [e]);
  }

  class CommandQueue {
    var Queue: seq<Entry>

    constructor ()
      ensures Queue == []
    {
      Queue := [];
    }

    method AddQueued(e: Entry)
      modifies this
      ensures Queue == old(Queue) + [e]
    {
      Queue := Queue + [e];
    }

    method PeekQueued(uuid: Uuid) returns (entry: Option<Entry>)
      ensures entry == var i := FirstWith(Queue, uuid); if i < |Queue| then Some(Queue[i]) else None
    {
      var i := 0;
      while i < |Queue|
        invariant 0 <= i <= |Queue|
        invariant forall j :: 0 <= j < i ==> Queue[j].uuid != uuid
      {
        if Queue[i].uuid == uuid {
          return Some(Queue[i]);
        }
        i := i + 1;
      }
      return None;
    }

    /** Removes and returns the entry for uuid. */
    method TakeQueued(uuid: Uuid) returns (entry: Option<Entry>)
      modifies this
      ensures entry == (var i := FirstWith(old(Queue), uuid); if i < |old(Queue)| then Some(old(Queue)[i]) else None)
      ensures Queue == Without(old(Queue), uuid)
    {
      var i := 0;
      while i < |Queue|
        invariant 0 <= i <= |Queue| && Queue == old(Queue)
        invariant forall j :: 0 <= j < i ==> Queue[j].uuid != uuid
      {
        if Queue[i].uuid == uuid {
          entry := Some(Queue[i]);
          Queue := Queue[..i] + Queue[i + 1..];
          return;
        }
        i := i + 1;
      }
      return None;
    }

    method RemoveQueued(uuid: Uuid)
      modifies this
      ensures Queue == Without(old(Queue), uuid)
    {
      var dropped := TakeQueued(uuid);
    }

    /** Drops every entry that is not in the inventory. */
    method ReconcileQueued(stillQueued: set<Uuid>)
      modifies this
      ensures Queue == StillQueued(old(Queue), stillQueued)
    {
      var kept := [];
      for i := 0 to |Queue|
        invariant Queue == old(Queue) && kept == StillQueued(Queue[..i], stillQueued)
      {
        assert Queue[..i + 1][..i] == Queue[..i];
        if Queue[i].uuid in stillQueued {
          kept := kept + [Queue[i]];
        }
      }
      assert Queue[..|Queue|] == Queue;
      Queue := kept;
    }
  }
}
