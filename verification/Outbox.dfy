/**
  Delivery of committed stream evidence to two sinks, an archive and a replay log. Each publication
  stays in the outbox until both of its targets are acknowledged; any call may fail, and a failed
  call may still have taken effect.
*/
module Outbox {
  import opened Basics

  datatype Publication = Publication(
    session: string,
    raw: seq<string>, display: seq<string>, snapshot: Option<string>, replay: seq<string>,
    archivePending: bool, replayPending: bool)

  datatype Entry =
    | RawEntry(id: string, item: string) | DisplayEntry(id: string, item: string)
    | SnapshotEntry(id: string, item: string) | ReplayEntry(id: string, item: string)

  datatype Target = Archive | Replay

  /** The calls that one flush makes for one publication; each is made at most once. */
  datatype Call =
    | AppendRaw | AppendDisplay | AppendSnapshot | AppendReplay(index: nat) | Acknowledge(target: Target)

  /** A failed append has stored the first `landed` items; a failed acknowledgement took effect
      when `landed` is positive. */
  datatype Outcome = Done | Fault(landed: nat)

  type Faults = (string, Call) -> Outcome

  datatype Sinks = Sinks(archive: bool, replay: bool)

  datatype State = State(outbox: map<string, Publication>, archive: seq<Entry>, replay: seq<Entry>)

  // ---------------------------------------------------------------- one publication

  function Stored(items: seq<Entry>, o: Outcome): seq<Entry> {
    if o.Done? || o.landed >= |items| then items else items[..o.landed]
  }

  function Entries(make: string -> Entry, items: seq<string>): (r: seq<Entry>)
    ensures |r| == |items|
  {
    seq(|items|, i requires 0 <= i < |items| => make(items[i]))
  }

  function RawItems(id: string, p: Publication): seq<Entry> { Entries(x => RawEntry(id, x), p.raw) }
  function DisplayItems(id: string, p: Publication): seq<Entry> { Entries(x => DisplayEntry(id, x), p.display) }
  function SnapshotItems(id: string, p: Publication): seq<Entry> {
    if p.snapshot.Some? then [SnapshotEntry(id, p.snapshot.value)] else []
  }
  function ReplayItems(id: string, p: Publication): seq<Entry> { Entries(x => ReplayEntry(id, x), p.replay) }

  /** Everything a target must receive. */
  function Items(id: string, p: Publication, t: Target): seq<Entry> {
    match t
    case Archive => RawItems(id, p) + DisplayItems(id, p) + SnapshotItems(id, p)
    case Replay => ReplayItems(id, p)
  }

  predicate Pending(p: Publication, t: Target) { if t.Archive? then p.archivePending else p.replayPending }

  function Cleared(p: Publication, t: Target): Publication {
    match t
    case Archive => p.(archivePending := false)
    case Replay => p.(replayPending := false)
  }

  function Acknowledged(outbox: map<string, Publication>, id: string, t: Target): map<string, Publication> {
    if id !in outbox then outbox
    else
      var p := Cleared(outbox[id], t);
      if !p.archivePending && !p.replayPending then outbox - {id} else outbox[id := p]
  }

  /** The acknowledgement call and whether the caller hears that it worked. */
  function Ack(s: State, id: string, t: Target, o: Outcome): (State, bool) {
    (if o.Done? || o.landed > 0 then s.(outbox := Acknowledged(s.outbox, id, t)) else s, o.Done?)
  }

  function PushArchive(s: State, id: string, p: Publication, f: Faults): (State, bool) {
    var s1 := s.(archive := s.archive + Stored(RawItems(id, p), f(id, AppendRaw)));
    if !f(id, AppendRaw).Done? then (s1, false) else
    var s2 := s1.(archive := s1.archive + Stored(DisplayItems(id, p), f(id, AppendDisplay)));
    if !f(id, AppendDisplay).Done? then (s2, false) else
    if p.snapshot.None? then Ack(s2, id, Archive, f(id, Acknowledge(Archive))) else
    var s3 := s2.(archive := s2.archive + Stored(SnapshotItems(id, p), f(id, AppendSnapshot)));
    if !f(id, AppendSnapshot).Done? then (s3, false) else
    Ack(s3, id, Archive, f(id, Acknowledge(Archive)))
  }

  /** Appends replay events one by one from index `k`, then acknowledges. */
  function PushReplay(s: State, id: string, p: Publication, f: Faults, k: nat): (State, bool)
    requires k <= |p.replay|
    decreases |p.replay| - k
  {
    if k == |p.replay| then Ack(s, id, Replay, f(id, Acknowledge(Replay)))
    else
      var o := f(id, AppendReplay(k));
      var s1 := s.(replay := s.replay + Stored([ReplayItems(id, p)[k]], o));
      if o.Done? then PushReplay(s1, id, p, f, k + 1) else (s1, false)
  }

  function Push(s: State, id: string, p: Publication, t: Target, f: Faults): (State, bool) {
    match t
    case Archive => PushArchive(s, id, p, f)
    case Replay => PushReplay(s, id, p, f, 0)
  }

  predicate Configured(c: Sinks, t: Target) { if t.Archive? then c.archive else c.replay }

  function Attempt(s: State, c: Sinks, id: string, p: Publication, t: Target, f: Faults): (State, bool) {
    if !Pending(p, t) then (s, true)
    else if !Configured(c, t) then (s, false)
    else Push(s, id, p, t, f)
  }

  /** Both targets are attempted, whatever the first one did. */
  function Publish(s: State, c: Sinks, id: string, p: Publication, f: Faults): (State, bool) {
    var (s1, archived) := Attempt(s, c, id, p, Archive, f);
    var (s2, replayed) := Attempt(s1, c, id, p, Replay, f);
    (s2, archived && replayed)
  }

  /** Publishes a listing taken at the start of the flush. */
  function PublishAll(s: State, c: Sinks, listing: seq<(string, Publication)>, f: Faults): (State, bool) {
    if listing == [] then (s, true)
    else
      var n := |listing| - 1;
      var (s1, ok1) := PublishAll(s, c, listing[..n], f);
      var (s2, ok2) := Publish(s1, c, listing[n].0, listing[n].1, f);
      (s2, ok1 && ok2)
  }

  /** The listing enumerates the session's publications once each, in any order. */
  ghost predicate Lists(s: State, session: string, listing: seq<(string, Publication)>) {
    && Distinct(s, listing)
    && (forall i :: 0 <= i < |listing| ==> listing[i].1.session == session)
    && (forall id :: id in s.outbox && s.outbox[id].session == session ==> Listed(listing, id))
  }

  ghost predicate Listed(listing: seq<(string, Publication)>, id: string) {
    exists i :: 0 <= i < |listing| && listing[i].0 == id
  }

  // ---------------------------------------------------------------- which calls decide what

  /** Every append that target `t` of this publication needs succeeds. */
  ghost predicate Delivers(id: string, p: Publication, t: Target, f: Faults) {
    match t
    case Archive =>
      && f(id, AppendRaw).Done? && f(id, AppendDisplay).Done?
      && (p.snapshot.Some? ==> f(id, AppendSnapshot).Done?)
    case Replay => forall k :: 0 <= k < |p.replay| ==> f(id, AppendReplay(k)).Done?
  }

  ghost predicate Succeeds(c: Sinks, id: string, p: Publication, t: Target, f: Faults) {
    !Pending(p, t) || (Configured(c, t) && Delivers(id, p, t, f) && f(id, Acknowledge(t)).Done?)
  }

  /** The target leaves the outbox: its own appends and its own acknowledgement took effect. */
  ghost predicate Clears(c: Sinks, id: string, p: Publication, t: Target, f: Faults) {
    && Pending(p, t) && Configured(c, t) && Delivers(id, p, t, f)
    && (f(id, Acknowledge(t)).Done? || f(id, Acknowledge(t)).landed > 0)
  }

  /** What remains of a publication after a flush. */
  ghost function Remaining(c: Sinks, id: string, p: Publication, f: Faults): Option<Publication> {
    var a, r := Clears(c, id, p, Archive, f), Clears(c, id, p, Replay, f);
    var q := p.(archivePending := p.archivePending && !a, replayPending := p.replayPending && !r);
    if (a || r) && !q.archivePending && !q.replayPending then None else Some(q)
  }

  ghost predicate Holds(outbox: map<string, Publication>, id: string, q: Option<Publication>) {
    if q.None? then id !in outbox else id in outbox && outbox[id] == q.value
  }

  /** Nothing but the outbox entry of `id` and the logs moved, and the logs only grew by items of `id`. */
  ghost predicate Confined(s: State, t: State, id: string, p: Publication) {
    && (forall other :: other != id ==> (other in s.outbox <==> other in t.outbox))
    && (forall other :: other != id && other in s.outbox && other in t.outbox ==> t.outbox[other] == s.outbox[other])
    && s.archive <= t.archive && s.replay <= t.replay
    && (forall e :: e in t.archive ==> e in s.archive || e in Items(id, p, Archive))
    && (forall e :: e in t.replay ==> e in s.replay || e in Items(id, p, Replay))
  }

  function Sink(s: State, t: Target): seq<Entry> { if t.Archive? then s.archive else s.replay }

  ghost predicate Has(log: seq<Entry>, items: seq<Entry>) { forall e :: e in items ==> e in log }

  // ---------------------------------------------------------------- one target

  lemma ArchiveEffect(s: State, id: string, p: Publication, f: Faults)
    ensures var (t, ok) := PushArchive(s, id, p, f);
      && s.archive <= t.archive && s.replay == t.replay
      && (forall e :: e in t.archive ==> e in s.archive || e in Items(id, p, Archive))
      && (ok <==> Delivers(id, p, Archive, f) && f(id, Acknowledge(Archive)).Done?)
      && (Delivers(id, p, Archive, f) ==> Has(t.archive, Items(id, p, Archive)))
      && t.outbox == if Delivers(id, p, Archive, f)
                        && (f(id, Acknowledge(Archive)).Done? || f(id, Acknowledge(Archive)).landed > 0)
                     then Acknowledged(s.outbox, id, Archive) else s.outbox
  {
  }

  lemma {:induction false} ReplayEffect(s: State, id: string, p: Publication, f: Faults, k: nat)
    requires k <= |p.replay|
    ensures var (t, ok) := PushReplay(s, id, p, f, k);
      var delivers := forall j :: k <= j < |p.replay| ==> f(id, AppendReplay(j)).Done?;
      && s.replay <= t.replay && s.archive == t.archive
      && (forall e :: e in t.replay ==> e in s.replay || e in ReplayItems(id, p)[k..])
      && (ok <==> delivers && f(id, Acknowledge(Replay)).Done?)
      && (delivers ==> Has(t.replay, ReplayItems(id, p)[k..]))
      && t.outbox == if delivers && (f(id, Acknowledge(Replay)).Done? || f(id, Acknowledge(Replay)).landed > 0)
                     then Acknowledged(s.outbox, id, Replay) else s.outbox
    decreases |p.replay| - k
  {
    if k < |p.replay| {
      var items := ReplayItems(id, p);
      assert items[k..] == [items[k]] + items[k + 1..];
      var o := f(id, AppendReplay(k));
      var s1 := s.(replay := s.replay + Stored([items[k]], o));
      if o.Done? {
        ReplayEffect(s1, id, p, f, k + 1);
        assert s1.replay[|s.replay|] == items[k];
        assert items[k] in PushReplay(s, id, p, f, k).0.replay;
      }
    }
  }

  /** One target: the outcome depends on that target's own calls, and on nothing else. */
  lemma AttemptEffect(s: State, c: Sinks, id: string, p: Publication, t: Target, f: Faults)
    ensures var (s1, ok) := Attempt(s, c, id, p, t, f);
      && Sink(s, t) <= Sink(s1, t)
      && Sink(s1, if t.Archive? then Replay else Archive) == Sink(s, if t.Archive? then Replay else Archive)
      && (forall e :: e in Sink(s1, t) ==> e in Sink(s, t) || e in Items(id, p, t))
      && (ok <==> Succeeds(c, id, p, t, f))
      && (Clears(c, id, p, t, f) ==> Has(Sink(s1, t), Items(id, p, t)))
      && s1.outbox == if Clears(c, id, p, t, f) then Acknowledged(s.outbox, id, t) else s.outbox
  {
    ArchiveEffect(s, id, p, f);
    ReplayEffect(s, id, p, f, 0);
    assert ReplayItems(id, p)[0..] == ReplayItems(id, p);
  }

  lemma PublishEffect(s: State, c: Sinks, id: string, p: Publication, f: Faults)
    requires id in s.outbox && s.outbox[id] == p
    ensures var (t, ok) := Publish(s, c, id, p, f);
      && Confined(s, t, id, p)
      && Holds(t.outbox, id, Remaining(c, id, p, f))
      && (ok <==> Succeeds(c, id, p, Archive, f) && Succeeds(c, id, p, Replay, f))
      && (Clears(c, id, p, Archive, f) ==> Has(t.archive, Items(id, p, Archive)))
      && (Clears(c, id, p, Replay, f) ==> Has(t.replay, Items(id, p, Replay)))
  {
    AttemptEffect(s, c, id, p, Archive, f);
    AttemptEffect(Attempt(s, c, id, p, Archive, f).0, c, id, p, Replay, f);
  }

  // ---------------------------------------------------------------- a whole flush

  ghost predicate Unchanged(s: State, t: State, id: string) {
    (id in s.outbox <==> id in t.outbox) && (id in s.outbox && id in t.outbox ==> t.outbox[id] == s.outbox[id])
  }

  /** What a flush did to one listed publication. */
  ghost predicate Flushed(t: State, c: Sinks, id: string, p: Publication, f: Faults) {
    && Holds(t.outbox, id, Remaining(c, id, p, f))
    && (Clears(c, id, p, Archive, f) ==> Has(t.archive, Items(id, p, Archive)))
    && (Clears(c, id, p, Replay, f) ==> Has(t.replay, Items(id, p, Replay)))
  }

  ghost predicate Distinct(s: State, listing: seq<(string, Publication)>) {
    && (forall i :: 0 <= i < |listing| ==> listing[i].0 in s.outbox && s.outbox[listing[i].0] == listing[i].1)
    && (forall i, j :: 0 <= i < j < |listing| ==> listing[i].0 != listing[j].0)
  }

  ghost predicate AllSucceed(c: Sinks, listing: seq<(string, Publication)>, f: Faults) {
    forall i :: 0 <= i < |listing| ==>
      Succeeds(c, listing[i].0, listing[i].1, Archive, f) && Succeeds(c, listing[i].0, listing[i].1, Replay, f)
  }

  /** Publications that are not listed keep their entries. */
  lemma {:induction false} UnlistedUntouched(s: State, c: Sinks, listing: seq<(string, Publication)>, f: Faults,
        id: string)
    requires Distinct(s, listing) && !Listed(listing, id)
    ensures Unchanged(s, PublishAll(s, c, listing, f).0, id)
  {
    if listing != [] {
      var n := |listing| - 1;
      var front := listing[..n];
      assert forall i :: 0 <= i < n ==> front[i] == listing[i];
      assert listing[n].0 != id;
      UnlistedUntouched(s, c, front, f, id);
      UnlistedUntouched(s, c, front, f, listing[n].0);
      PublishEffect(PublishAll(s, c, front, f).0, c, listing[n].0, listing[n].1, f);
    }
  }

  /** What a flush did to one publication stands when another one is published after it. */
  lemma FlushedStays(s: State, c: Sinks, other: string, q: Publication, f: Faults, id: string, p: Publication)
    requires Flushed(s, c, id, p, f) && other != id && other in s.outbox && s.outbox[other] == q
    ensures Flushed(Publish(s, c, other, q, f).0, c, id, p, f)
  {
    PublishEffect(s, c, other, q, f);
  }

  /** Each listed publication ends as its own calls decide, and the flush reports success exactly
      when every attempt of every listed publication succeeded. */
  lemma {:induction false} ListedFlushed(s: State, c: Sinks, listing: seq<(string, Publication)>, f: Faults)
    requires Distinct(s, listing)
    ensures var (t, ok) := PublishAll(s, c, listing, f);
      && s.archive <= t.archive && s.replay <= t.replay
      && (forall i :: 0 <= i < |listing| ==> Flushed(t, c, listing[i].0, listing[i].1, f))
      && (ok <==> AllSucceed(c, listing, f))
  {
    if listing != [] {
      var n := |listing| - 1;
      var front := listing[..n];
      assert forall i :: 0 <= i < n ==> front[i] == listing[i];
      ListedFlushed(s, c, front, f);
      UnlistedUntouched(s, c, front, f, listing[n].0);
      var s1 := PublishAll(s, c, front, f).0;
      PublishEffect(s1, c, listing[n].0, listing[n].1, f);
      var t := PublishAll(s, c, listing, f).0;
      forall i | 0 <= i < n ensures Flushed(t, c, listing[i].0, listing[i].1, f) {
        assert Flushed(s1, c, front[i].0, front[i].1, f);
        FlushedStays(s1, c, listing[n].0, listing[n].1, f, front[i].0, front[i].1);
      }
    }
  }

  /** Logs only ever receive items of listed publications. */
  lemma {:induction false} OnlyListedItems(s: State, c: Sinks, listing: seq<(string, Publication)>, f: Faults,
        e: Entry, t: Target)
    requires Distinct(s, listing) && e in Sink(PublishAll(s, c, listing, f).0, t) && e !in Sink(s, t)
    ensures exists i :: 0 <= i < |listing| && e in Items(listing[i].0, listing[i].1, t)
  {
    if listing != [] {
      var n := |listing| - 1;
      var front := listing[..n];
      assert forall i :: 0 <= i < n ==> front[i] == listing[i];
      var s1 := PublishAll(s, c, front, f).0;
      UnlistedUntouched(s, c, front, f, listing[n].0);
      PublishEffect(s1, c, listing[n].0, listing[n].1, f);
      if e in Sink(s1, t) {
        OnlyListedItems(s, c, front, f, e, t);
        var i :| 0 <= i < |front| && e in Items(front[i].0, front[i].1, t);
        assert e in Items(listing[i].0, listing[i].1, t);
      } else {
        assert e in Items(listing[n].0, listing[n].1, t);
      }
    }
  }

  // ---------------------------------------------------------------- the order in a sink

  /** What a target receives, in order: raw records, then display messages, then the snapshot; or the
      replay events. */
  lemma ItemOrder(id: string, p: Publication, k: nat)
    ensures |Items(id, p, Archive)| == |p.raw| + |p.display| + (if p.snapshot.Some? then 1 else 0)
    ensures |Items(id, p, Replay)| == |p.replay|
    ensures k < |p.raw| ==> Items(id, p, Archive)[k] == RawEntry(id, p.raw[k])
    ensures k < |p.display| ==> Items(id, p, Archive)[|p.raw| + k] == DisplayEntry(id, p.display[k])
    ensures p.snapshot.Some? ==>
      Items(id, p, Archive)[|p.raw| + |p.display|] == SnapshotEntry(id, p.snapshot.value)
    ensures k < |p.replay| ==> Items(id, p, Replay)[k] == ReplayEntry(id, p.replay[k])
  {
  }

  /** The sink grew by the first part of these items, or by all of them. */
  ghost predicate GrewBy(before: seq<Entry>, after: seq<Entry>, items: seq<Entry>, all: bool) {
    && before <= after && after[|before|..] <= items && (all ==> after == before + items)
  }

  lemma {:induction false} ReplayInOrder(s: State, id: string, p: Publication, f: Faults, k: nat)
    requires k <= |p.replay|
    ensures
      var t := PushReplay(s, id, p, f, k).0;
      var delivers := forall j :: k <= j < |p.replay| ==> f(id, AppendReplay(j)).Done?;
      GrewBy(s.replay, t.replay, ReplayItems(id, p)[k..], delivers)
    decreases |p.replay| - k
  {
    if k < |p.replay| {
      var items := ReplayItems(id, p);
      var o := f(id, AppendReplay(k));
      var s1 := s.(replay := s.replay + Stored([items[k]], o));
      assert items[k..] == [items[k]] + items[k + 1..];
      if o.Done? {
        ReplayInOrder(s1, id, p, f, k + 1);
        GrowsOn(s.replay, items[k], PushReplay(s, id, p, f, k).0.replay, items[k + 1..]);
      }
    }
  }

  lemma GrowsOn(before: seq<Entry>, item: Entry, after: seq<Entry>, rest: seq<Entry>)
    requires before + [item] <= after && after[|before| + 1..] <= rest
    ensures before <= after && after[|before|..] == [item] + after[|before| + 1..] && after[|before|..] <= [item] + rest
    ensures after == before + [item] + rest ==> after == before + ([item] + rest)
  {
    assert after[|before|] == (before + [item])[|before|] == item;
  }

  lemma ArchiveInOrder(s: State, id: string, p: Publication, f: Faults)
    ensures GrewBy(s.archive, PushArchive(s, id, p, f).0.archive, Items(id, p, Archive), Delivers(id, p, Archive, f))
  {
    var raw, display, last := RawItems(id, p), DisplayItems(id, p), SnapshotItems(id, p);
    var items := Items(id, p, Archive);
    assert items == raw + display + last;
    var a := Stored(raw, f(id, AppendRaw));
    assert a <= raw <= items;
    if f(id, AppendRaw).Done? {
      var b := Stored(display, f(id, AppendDisplay));
      assert raw + b <= raw + display <= items;
      assert s.archive + raw + b == s.archive + (raw + b);
      if f(id, AppendDisplay).Done? {
        var c := Stored(last, f(id, AppendSnapshot));
        assert raw + display + c <= items;
        assert s.archive + raw + display + c == s.archive + (raw + display + c);
      }
    }
  }

  /** However a push fails, its target's sink grows in order: by the first items of the publication, and
      by all of them exactly as listed when every append succeeds. */
  lemma SinksGrowInOrder(s: State, c: Sinks, id: string, p: Publication, t: Target, f: Faults)
    requires Pending(p, t) && Configured(c, t)
    ensures GrewBy(Sink(s, t), Sink(Attempt(s, c, id, p, t, f).0, t), Items(id, p, t), Delivers(id, p, t, f))
  {
    if t.Archive? {
      ArchiveInOrder(s, id, p, f);
    } else {
      ReplayInOrder(s, id, p, f, 0);
      assert ReplayItems(id, p)[0..] == ReplayItems(id, p);
    }
  }
}
