/** The compacted log of rendered events, and why replaying it gives the page that every event gave. */
module EventLog {

  /** A rendered event, named by an id. */
  datatype Event = Event(seqNo: nat, id: nat, key: string, parent: string)

  type Element = string

  /** What an event's HTML does to one element. An overwritten element shows only this event. */
  datatype Effect = Untouched | Appended | Overwritten

  /** The effects of every event by id, and the elements that each compact key stands for. */
  datatype Page = Page(effect: (nat, Element) -> Effect, group: string -> iset<Element>)

  /** What element x shows after an event, as a list of the ids of the events whose content it shows. */
  function Apply(page: Page, shown: seq<nat>, e: Event, x: Element): seq<nat> {
    match page.effect(e.id, x)
    case Untouched => shown
    case Appended => shown + [e.id]
    case Overwritten => [e.id]
  }

  /** What element x shows after a log is replayed. */
  function Replay(page: Page, shown: seq<nat>, log: seq<Event>, x: Element): seq<nat> {
    if log == [] then shown else Apply(page, Replay(page, shown, log[..|log| - 1], x), log[|log| - 1], x)
  }

  /** Events behave as their keys say: a keyed event overwrites all of its key's elements and touches no
      other, and a parented event touches only its parent's elements. */
  ghost predicate Behaves(page: Page, e: Event) {
    && (e.key != "" ==> forall x :: page.effect(e.id, x) == if x in page.group(e.key) then Overwritten else Untouched)
    && (e.parent != "" ==> forall x :: x !in page.group(e.parent) ==> page.effect(e.id, x) == Untouched)
  }

  // ---- compaction ----

  predicate Supersedes(log: seq<Event>, key: string) {
    key != "" && exists i :: 0 <= i < |log| && log[i].key == key
  }

  /** The log without one key's events, nor those parented to the key. */
  function Dropped(log: seq<Event>, key: string): seq<Event> {
    if log == [] then []
    else
      var e := log[|log| - 1];
      Dropped(log[..|log| - 1], key) + if e.key == key || e.parent == key then [] else [e]
  }

  function Compacted(log: seq<Event>, key: string): seq<Event> {
    if Supersedes(log, key) then Dropped(log, key) else log
  }

  class EventLog {
    var events: seq<Event>
    var seqNo: nat

    ghost predicate Valid()
      reads this
    {
      Wellformed(events, seqNo)
    }

    constructor ()
      ensures Valid() && events == [] && seqNo == 0
    {
      events, seqNo := [], 0;
    }

    /** Adds an event and returns its sequence number. key is the explicit key, or the one derived from
        the event's HTML when there is none. */
    method Append(id: nat, key: string, parent: string) returns (n: nat)
      requires Valid()
      modifies this
      ensures Valid() && n == seqNo == old(seqNo) + 1
      ensures events == Compacted(old(events), key) + [Event(n, id, key, parent)]
    {
      AppendKeepsWellformed(events, seqNo, id, key, parent);
      Compact(key);
      seqNo := seqNo + 1;
      n := seqNo;
      events := events + [Event(seqNo, id, key, parent)];
    }

    /** If an event has this key already, drops it and the events parented to the key. */
    method Compact(key: string)
      modifies this`events
      ensures events == Compacted(old(events), key)
    {
      if key != "" {
        var matched := HasKey(key);
        if matched {
          ghost var all := events;
          events := Delete(KeyIs(key));
          events := Delete(ParentIs(key));
          FiltersCompose(all, key);
        }
      }
    }

    method HasKey(key: string) returns (found: bool)
      ensures found <==> exists i :: 0 <= i < |events| && events[i].key == key
    {
      for i := 0 to |events|
        invariant forall j :: 0 <= j < i ==> events[j].key != key
      {
        if events[i].key == key {
          return true;
        }
      }
      return false;
    }

    /** slices.DeleteFunc. */
    method Delete(gone: Event -> bool) returns (kept: seq<Event>)
      ensures kept == Without(events, gone)
    {
      kept := [];
      for i := 0 to |events|
        invariant kept == Without(events[..i], gone)
      {
        assert events[..i + 1][..i] == events[..i];
        if !gone(events[i]) {
          kept := kept + [events[i]];
        }
      }
      assert events[..|events|] == events;
    }
  }

  function Without(log: seq<Event>, gone: Event -> bool): seq<Event> {
    if log == [] then []
    else Without(log[..|log| - 1], gone) + if gone(log[|log| - 1]) then [] else [log[|log| - 1]]
  }

  function KeyIs(key: string): Event -> bool {
    (e: Event) => e.key == key
  }

  function ParentIs(key: string): Event -> bool {
    (e: Event) => e.parent == key
  }

  /** Deleting the key's events and then those parented to it drops both kinds. */
  lemma {:induction false} FiltersCompose(log: seq<Event>, key: string)
    ensures Without(Without(log, KeyIs(key)), ParentIs(key)) == Dropped(log, key)
  {
    if log != [] {
      var front, e := log[..|log| - 1], log[|log| - 1];
      FiltersCompose(front, key);
      var once := Without(front, KeyIs(key));
      if e.key == key {
        assert once + [] == once;
      } else {
        assert (once + [e])[..|once|] == once;
      }
    }
  }

  /** Compaction keeps a log whole that has no event of the key. Otherwise it keeps exactly the events that have
      neither the key nor a parent of that key, in the order they had. */
  lemma {:induction false} CompactedKeepsOrder(log: seq<Event>, key: string) returns (at: seq<int>)
    ensures Picks(log, at, Compacted(log, key))
    ensures forall i :: 0 <= i < |log| ==>
              (i in at <==>
               || key == "" || (forall j :: 0 <= j < |log| ==> log[j].key != key)
               || (log[i].key != key && log[i].parent != key))
  {
    if Supersedes(log, key) {
      at := DroppedKeepsOrder(log, key);
    } else {
      at := seq(|log|, k requires 0 <= k => k);
      forall i | 0 <= i < |log|
        ensures i in at
      {
        assert at[i] == i;
      }
    }
  }

  /** The places in a log, in ascending order, that give these events. */
  ghost predicate Picks(log: seq<Event>, at: seq<int>, events: seq<Event>) {
    && |at| == |events|
    && (forall k :: 0 <= k < |at| ==> 0 <= at[k] < |log| && events[k] == log[at[k]])
    && (forall j, k :: 0 <= j < k < |at| ==> at[j] < at[k])
  }

  lemma PicksSnoc(log: seq<Event>, at: seq<int>, events: seq<Event>, e: Event)
    requires Picks(log, at, events)
    ensures Picks(log + [e], at, events) && Picks(log + [e], at + [|log|], events + [e])
  {
  }

  lemma {:induction false} DroppedKeepsOrder(log: seq<Event>, key: string) returns (at: seq<int>)
    ensures Picks(log, at, Dropped(log, key))
    ensures forall i :: 0 <= i < |log| ==> (i in at <==> log[i].key != key && log[i].parent != key)
  {
    at := [];
    if log != [] {
      var n := |log| - 1;
      var front, e := log[..n], log[n];
      at := DroppedKeepsOrder(front, key);
      PicksSnoc(front, at, Dropped(front, key), e);
      assert log == front + [e] && n !in at;
      if e.key == key || e.parent == key {
        assert Dropped(front, key) + [] == Dropped(front, key);
      } else {
        at := at + [n];
      }
    }
  }

  // ---- the log's own shape ----

  /** Sequence numbers ascend, and no key occurs twice. */
  ghost predicate Wellformed(log: seq<Event>, last: nat) {
    && (forall i, j :: 0 <= i < j < |log| ==> log[i].seqNo < log[j].seqNo)
    && (forall i :: 0 <= i < |log| ==> log[i].seqNo <= last)
    && (forall i, j :: 0 <= i < j < |log| && log[i].key == log[j].key ==> log[i].key == "")
  }

  lemma {:induction false} DroppedIsSublist(log: seq<Event>, key: string)
    ensures forall e :: e in Dropped(log, key) <==> e in log && e.key != key && e.parent != key
  {
    if log != [] {
      DroppedIsSublist(log[..|log| - 1], key);
      assert log == log[..|log| - 1] + [log[|log| - 1]];
    }
  }

  lemma WellformedSnoc(log: seq<Event>, e: Event, n: nat)
    requires Wellformed(log, n) && e.seqNo <= n
    requires forall d :: d in log ==> d.seqNo < e.seqNo && (d.key == e.key ==> e.key == "")
    ensures Wellformed(log + [e], n)
  {
    forall i | 0 <= i < |log|
      ensures log[i] in log
    {
    }
  }

  lemma {:induction false} DroppedIsWellformed(log: seq<Event>, last: nat, key: string)
    requires Wellformed(log, last)
    ensures Wellformed(Dropped(log, key), last)
  {
    if log != [] {
      var front, e := log[..|log| - 1], log[|log| - 1];
      DroppedIsWellformed(front, last, key);
      if e.key != key && e.parent != key {
        DroppedIsSublist(front, key);
        forall d | d in Dropped(front, key)
          ensures d.seqNo < e.seqNo && (d.key == e.key ==> e.key == "")
        {
        }
        WellformedSnoc(Dropped(front, key), e, last);
      }
    }
  }

  lemma AppendKeepsWellformed(log: seq<Event>, last: nat, id: nat, key: string, parent: string)
    requires Wellformed(log, last)
    ensures Wellformed(Compacted(log, key) + [Event(last + 1, id, key, parent)], last + 1)
  {
    var kept := Compacted(log, key);
    if Supersedes(log, key) {
      DroppedIsWellformed(log, last, key);
      DroppedIsSublist(log, key);
    }
    forall d | d in kept
      ensures d.seqNo <= last && (d.key == key ==> key == "")
    {
      var i :| 0 <= i < |log| && log[i] == d;
    }
    WellformedSnoc(kept, Event(last + 1, id, key, parent), last + 1);
  }

  // ---- replay ----

  /** Dropping a key's events and those parented to it changes only the key's elements. */
  lemma {:induction false} DroppingTouchesOnlyTheGroup(page: Page, shown: seq<nat>, log: seq<Event>, key: string, x: Element)
    requires key != "" && x !in page.group(key) && forall e :: e in log ==> Behaves(page, e)
    ensures Replay(page, shown, Dropped(log, key), x) == Replay(page, shown, log, x)
  {
    if log != [] {
      var front, e := log[..|log| - 1], log[|log| - 1];
      DroppingTouchesOnlyTheGroup(page, shown, front, key, x);
      assert Behaves(page, e);
      assert Dropped(front, key) + [] == Dropped(front, key);
    }
  }

  /** Compacting for an event and then applying it is applying it to the whole log. */
  lemma CompactThenApply(page: Page, shown: seq<nat>, log: seq<Event>, e: Event, x: Element)
    requires Behaves(page, e) && forall d :: d in log ==> Behaves(page, d)
    ensures Replay(page, shown, Compacted(log, e.key) + [e], x) == Apply(page, Replay(page, shown, log, x), e, x)
  {
    if Supersedes(log, e.key) && x !in page.group(e.key) {
      DroppingTouchesOnlyTheGroup(page, shown, log, e.key, x);
    }
  }

  /** What is in the log after every event of a history has been appended. */
  function Retained(history: seq<Event>): seq<Event> {
    if history == [] then []
    else Compacted(Retained(history[..|history| - 1]), history[|history| - 1].key) + [history[|history| - 1]]
  }

  lemma {:induction false} RetainedIsFromHistory(history: seq<Event>)
    ensures forall e :: e in Retained(history) ==> e in history
  {
    if history != [] {
      var front, e := history[..|history| - 1], history[|history| - 1];
      RetainedIsFromHistory(front);
      DroppedIsSublist(Retained(front), e.key);
      assert history == front + [e];
    }
  }

  /** Compaction preserves replay: a page that replays the retained log shows, in every element, what a page
      that saw every event ever appended shows. */
  lemma {:induction false} CompactionPreservesReplay(page: Page, shown: seq<nat>, history: seq<Event>, x: Element)
    requires forall e :: e in history ==> Behaves(page, e)
    ensures Replay(page, shown, Retained(history), x) == Replay(page, shown, history, x)
  {
    if history != [] {
      var front, e := history[..|history| - 1], history[|history| - 1];
      assert history == front + [e];
      RetainedIsFromHistory(front);
      CompactionPreservesReplay(page, shown, front, x);
      CompactThenApply(page, shown, Retained(front), e, x);
    }
  }

  // ---- when content is lost ----

  predicate Names(log: seq<Event>, id: nat) {
    exists i :: 0 <= i < |log| && log[i].id == id
  }

  /** Nothing overwrites x after the event named id. */
  predicate Lasts(page: Page, log: seq<Event>, id: nat, x: Element) {
    log != [] ==>
      && Lasts(page, log[..|log| - 1], id, x)
      && (page.effect(log[|log| - 1].id, x).Overwritten? ==> !Names(log[..|log| - 1], id))
  }

  /** What lasts is shown for as long as its event is in the log. */
  lemma {:induction false} LastingIsShown(page: Page, log: seq<Event>, id: nat, x: Element)
    requires Lasts(page, log, id, x) && page.effect(id, x) != Untouched
    ensures id in Replay(page, [], log, x) <==> Names(log, id)
  {
    if log != [] {
      var front, e := log[..|log| - 1], log[|log| - 1];
      LastingIsShown(page, front, id, x);
      assert Names(front, id) ==> Names(log, id) by {
        if i :| 0 <= i < |front| && front[i].id == id {
          assert log[i].id == id;
        }
      }
      if e.id != id && Names(log, id) {
        var i :| 0 <= i < |log| && log[i].id == id;
        assert front[i].id == id;
      }
    }
  }

  lemma DroppedNames(log: seq<Event>, key: string, id: nat)
    ensures Names(Dropped(log, key), id)
            <==> exists i :: 0 <= i < |log| && log[i].id == id && log[i].key != key && log[i].parent != key
  {
    DroppedIsSublist(log, key);
    var kept := Dropped(log, key);
    if i :| 0 <= i < |kept| && kept[i].id == id {
      assert kept[i] in log;
    }
    if i :| 0 <= i < |log| && log[i].id == id && log[i].key != key && log[i].parent != key {
      assert log[i] in kept;
    }
  }

  lemma {:induction false} DroppedLasts(page: Page, log: seq<Event>, key: string, id: nat, x: Element)
    requires Lasts(page, log, id, x)
    ensures Lasts(page, Dropped(log, key), id, x)
  {
    if log != [] {
      var front, e := log[..|log| - 1], log[|log| - 1];
      DroppedLasts(page, front, key, id, x);
      DroppedNames(front, key, id);
      assert Dropped(front, key) + [] == Dropped(front, key);
    }
  }

  lemma {:induction false} RetainedLasts(page: Page, history: seq<Event>, id: nat, x: Element)
    requires Lasts(page, history, id, x)
    ensures Lasts(page, Retained(history), id, x)
  {
    if history != [] {
      var front, e := history[..|history| - 1], history[|history| - 1];
      RetainedLasts(page, front, id, x);
      DroppedLasts(page, Retained(front), e.key, id, x);
      RetainedIsFromHistory(front);
      DroppedIsSublist(Retained(front), e.key);
      if Names(Compacted(Retained(front), e.key), id) {
        var i :| 0 <= i < |Compacted(Retained(front), e.key)| && Compacted(Retained(front), e.key)[i].id == id;
        assert Compacted(Retained(front), e.key)[i] in front;
      }
    }
  }

  /** An event appended after d replaces one that is in the log, under d's own key or under its parent's. */
  predicate Superseded(before: seq<Event>, d: Event, after: seq<Event>) {
    exists i ::
      && 0 <= i < |after|
      && after[i].key in {d.key, d.parent}
      && Supersedes(Retained(before + [d] + after[..i]), after[i].key)
  }

  lemma SupersededSnoc(before: seq<Event>, d: Event, after: seq<Event>, e: Event)
    ensures Superseded(before, d, after + [e])
            <==> (|| Superseded(before, d, after)
                  || (e.key in {d.key, d.parent} && Supersedes(Retained(before + [d] + after), e.key)))
  {
    var longer := after + [e];
    assert longer[..|after|] == after;
    forall i | 0 <= i < |after|
      ensures longer[i] == after[i] && longer[..i] == after[..i]
    {
    }
    if Superseded(before, d, after) {
      var i :|
        && 0 <= i < |after|
        && after[i].key in {d.key, d.parent}
        && Supersedes(Retained(before + [d] + after[..i]), after[i].key);
      assert longer[i].key in {d.key, d.parent};
    }
    if e.key in {d.key, d.parent} && Supersedes(Retained(before + [d] + after), e.key) {
      assert longer[|after|] == e;
    }
  }

  /** Compacting for key drops d if and only if it is d's own key or its parent's, and supersedes. */
  lemma CompactedNames(log: seq<Event>, key: string, d: Event)
    requires forall e :: e in log && e.id == d.id ==> e == d
    ensures Names(Compacted(log, key), d.id)
            <==> Names(log, d.id) && !(key in {d.key, d.parent} && Supersedes(log, key))
  {
    DroppedNames(log, key, d.id);
  }

  lemma NamesSnoc(log: seq<Event>, e: Event, id: nat)
    ensures Names(log + [e], id) <==> Names(log, id) || e.id == id
  {
    assert (log + [e])[|log|] == e;
    if i :| 0 <= i < |log| && log[i].id == id {
      assert (log + [e])[i].id == id;
    }
  }

  lemma {:induction false} KeptIffNotSuperseded(before: seq<Event>, d: Event, after: seq<Event>)
    requires !Names(before, d.id) && !Names(after, d.id)
    ensures Names(Retained(before + [d] + after), d.id) <==> !Superseded(before, d, after)
    decreases |after|
  {
    if after == [] {
      assert before + [d] + after == before + [d];
      assert (before + [d])[..|before|] == before;
      NamesSnoc(Compacted(Retained(before), d.key), d, d.id);
    } else {
      var rest, e := after[..|after| - 1], after[|after| - 1];
      var front := before + [d] + rest;
      assert after == rest + [e] && before + [d] + after == front + [e];
      NamesSnoc(rest, e, d.id);
      KeptIffNotSuperseded(before, d, rest);
      RetainedIsFromHistory(front);
      CompactedNames(Retained(front), e.key, d);
      NamesSnoc(Compacted(Retained(front), e.key), e, d.id);
      SupersededSnoc(before, d, rest, e);
    }
  }

  /** Compaction loses content exactly by superseding: of an event whose content lasts to the end of the
      history, a page that replays the retained log still shows that content if and only if nothing
      superseded the event after it was appended. */
  lemma LostIffSuperseded(page: Page, before: seq<Event>, d: Event, after: seq<Event>, x: Element)
    requires !Names(before, d.id) && !Names(after, d.id)
    requires page.effect(d.id, x) != Untouched && Lasts(page, before + [d] + after, d.id, x)
    ensures d.id in Replay(page, [], before + [d] + after, x)
    ensures d.id in Replay(page, [], Retained(before + [d] + after), x) <==> !Superseded(before, d, after)
  {
    var history := before + [d] + after;
    assert history[|before|].id == d.id;
    LastingIsShown(page, history, d.id, x);
    RetainedLasts(page, history, d.id, x);
    LastingIsShown(page, Retained(history), d.id, x);
    KeptIffNotSuperseded(before, d, after);
  }

  lemma {:induction false} NothingOverwrites(page: Page, log: seq<Event>, after: seq<Event>, id: nat, x: Element)
    requires Lasts(page, log, id, x) && forall e :: e in after ==> !page.effect(e.id, x).Overwritten?
    ensures Lasts(page, log + after, id, x)
    decreases |after|
  {
    if after == [] {
      assert log + after == log;
    } else {
      var rest, e := after[..|after| - 1], after[|after| - 1];
      NothingOverwrites(page, log, rest, id, x);
      assert log + after == log + rest + [e];
    }
  }

  lemma {:induction false} UnnamedLasts(page: Page, log: seq<Event>, id: nat, x: Element)
    requires !Names(log, id)
    ensures Lasts(page, log, id, x)
  {
    if log != [] {
      NamesSnoc(log[..|log| - 1], log[|log| - 1], id);
      assert log == log[..|log| - 1] + [log[|log| - 1]];
      UnnamedLasts(page, log[..|log| - 1], id, x);
    }
  }

  /** The condition on parented events is needed: one that touches an element outside its parent's group
      is lost to replay as soon as the parent's key is superseded, in any history that does not overwrite
      that element afterwards. */
  lemma StrayParentedEventIsLost(page: Page, before: seq<Event>, stray: Event, after: seq<Event>, j: nat, x: Element)
    requires !Names(before, stray.id) && !Names(after, stray.id)
    requires j < |after| && after[j].key == stray.parent
    requires Supersedes(Retained(before + [stray] + after[..j]), stray.parent)
    requires x !in page.group(stray.parent) && page.effect(stray.id, x) != Untouched
    requires forall e :: e in after ==> !page.effect(e.id, x).Overwritten?
    ensures !Behaves(page, stray)
    ensures stray.id in Replay(page, [], before + [stray] + after, x)
    ensures stray.id !in Replay(page, [], Retained(before + [stray] + after), x)
  {
    UnnamedLasts(page, before, stray.id, x);
    NothingOverwrites(page, before + [stray], after, stray.id, x);
    LostIffSuperseded(page, before, stray, after, x);
    assert after[j].key in {stray.key, stray.parent};
  }
}
