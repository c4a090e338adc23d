/** Any mix of commits and flushes, with arbitrary faults in every flush. */
module OutboxHistory {
  import opened Outbox

  /** `committed` remembers every publication as it was first committed. */
  datatype World = World(state: State, committed: map<string, Publication>)

  datatype Event =
    | Commit(id: string, publication: Publication)
    | Flush(sinks: Sinks, session: string, listing: seq<(string, Publication)>, faults: Faults)
    | FlushUnlisted  // reading the outbox itself failed

  const Empty: World := World(State(map[], [], []), map[])

  /** A publication id is used once; a flush works on what the outbox lists at its start. */
  ghost predicate Enabled(w: World, e: Event) {
    match e
    case Commit(id, p) => id !in w.committed
    case Flush(_, session, listing, _) => Lists(w.state, session, listing)
    case FlushUnlisted => true
  }

  ghost function Step(w: World, e: Event): World
    requires Enabled(w, e)
  {
    match e
    case Commit(id, p) =>
      World(w.state.(outbox := w.state.outbox[id := p]), w.committed[id := p])
    case Flush(sinks, _, listing, faults) => w.(state := PublishAll(w.state, sinks, listing, faults).0)
    case FlushUnlisted => w
  }

  ghost predicate Run(ws: seq<World>, es: seq<Event>) {
    && |ws| == |es| + 1 && ws[0] == Empty
    && forall i :: 0 <= i < |es| ==> Enabled(ws[i], es[i]) && ws[i + 1] == Step(ws[i], es[i])
  }

  ghost predicate SameContent(p: Publication, q: Publication) {
    p == q.(archivePending := p.archivePending, replayPending := p.replayPending)
  }

  ghost predicate Waits(w: World, id: string, t: Target) { id in w.state.outbox && Pending(w.state.outbox[id], t) }

  /** A target is either still pending, with its content intact, or fully delivered. */
  ghost predicate Accounted(w: World, id: string)
    requires id in w.committed
  {
    && (id in w.state.outbox ==> SameContent(w.state.outbox[id], w.committed[id]))
    && forall t ::
         && (Waits(w, id, t) ==> Pending(w.committed[id], t))
         && (Pending(w.committed[id], t) && !Waits(w, id, t) ==> Has(Sink(w.state, t), Items(id, w.committed[id], t)))
  }

  ghost predicate Genuine(w: World, t: Target, e: Entry) {
    exists id :: id in w.committed && e in Items(id, w.committed[id], t)
  }

  ghost predicate Inv(w: World) {
    && w.state.outbox.Keys <= w.committed.Keys
    && (forall id :: id in w.committed ==> Accounted(w, id))
    && (forall t, e :: e in Sink(w.state, t) ==> Genuine(w, t, e))
  }

  lemma SameItems(id: string, p: Publication, q: Publication, t: Target)
    requires SameContent(p, q)
    ensures Items(id, p, t) == Items(id, q, t)
  {
  }

  lemma HasMore(log: seq<Entry>, more: seq<Entry>, items: seq<Entry>)
    requires Has(log, items) && log <= more
    ensures Has(more, items)
  {
    assert forall e :: e in log ==> e in more;
  }

  lemma CommitKeeps(w: World, e: Event)
    requires Inv(w) && e.Commit? && Enabled(w, e)
    ensures Inv(Step(w, e))
  {
    var w' := Step(w, e);
    forall id | id in w'.committed ensures Accounted(w', id) {
      if id != e.id { assert Accounted(w, id); }
    }
    forall t, x | x in Sink(w'.state, t) ensures Genuine(w', t, x) {
      assert Genuine(w, t, x);
      var id :| id in w.committed && x in Items(id, w.committed[id], t);
      assert id in w'.committed && x in Items(id, w'.committed[id], t);
    }
  }

  lemma FlushKeepsUnlisted(w: World, e: Event, id: string)
    requires Inv(w) && e.Flush? && Enabled(w, e) && id in w.committed && !Listed(e.listing, id)
    ensures Accounted(Step(w, e), id)
  {
    UnlistedUntouched(w.state, e.sinks, e.listing, e.faults, id);
    ListedFlushed(w.state, e.sinks, e.listing, e.faults);
    assert Accounted(w, id);
    var w' := Step(w, e);
    forall t
      ensures Pending(w.committed[id], t) && !Waits(w', id, t) ==> Has(Sink(w'.state, t), Items(id, w.committed[id], t))
    {
      if Pending(w.committed[id], t) && !Waits(w', id, t) {
        HasMore(Sink(w.state, t), Sink(w'.state, t), Items(id, w.committed[id], t));
      }
    }
  }

  lemma FlushKeepsListed(w: World, e: Event, i: nat)
    requires Inv(w) && e.Flush? && Enabled(w, e) && i < |e.listing|
    ensures e.listing[i].0 in w.committed && Accounted(Step(w, e), e.listing[i].0)
  {
    ListedFlushed(w.state, e.sinks, e.listing, e.faults);
    var (id, p) := e.listing[i];
    assert Accounted(w, id);
    var w' := Step(w, e);
    assert Flushed(w'.state, e.sinks, id, p, e.faults);
    forall t ensures (Waits(w', id, t) ==> Pending(w.committed[id], t))
      && (Pending(w.committed[id], t) && !Waits(w', id, t) ==> Has(Sink(w'.state, t), Items(id, w.committed[id], t)))
    {
      SameItems(id, p, w.committed[id], t);
      if Pending(w.committed[id], t) && !Waits(w', id, t) && !Waits(w, id, t) {
        HasMore(Sink(w.state, t), Sink(w'.state, t), Items(id, w.committed[id], t));
      }
    }
  }

  lemma FlushKeepsKeys(w: World, e: Event, id: string)
    requires Inv(w) && e.Flush? && Enabled(w, e) && id in Step(w, e).state.outbox
    ensures id in w.committed
  {
    if !Listed(e.listing, id) {
      UnlistedUntouched(w.state, e.sinks, e.listing, e.faults, id);
    }
  }

  lemma FlushKeepsGenuine(w: World, e: Event, t: Target, x: Entry)
    requires Inv(w) && e.Flush? && Enabled(w, e) && x in Sink(Step(w, e).state, t)
    ensures Genuine(Step(w, e), t, x)
  {
    if x in Sink(w.state, t) {
      assert Genuine(w, t, x);
    } else {
      OnlyListedItems(w.state, e.sinks, e.listing, e.faults, x, t);
      var i :| 0 <= i < |e.listing| && x in Items(e.listing[i].0, e.listing[i].1, t);
      var id := e.listing[i].0;
      assert Accounted(w, id);
      SameItems(id, e.listing[i].1, w.committed[id], t);
    }
  }

  lemma FlushKeeps(w: World, e: Event)
    requires Inv(w) && e.Flush? && Enabled(w, e)
    ensures Inv(Step(w, e))
  {
    var w' := Step(w, e);
    forall id | id in w'.state.outbox ensures id in w'.committed { FlushKeepsKeys(w, e, id); }
    forall id | id in w'.committed ensures Accounted(w', id) {
      if Listed(e.listing, id) {
        var i :| 0 <= i < |e.listing| && e.listing[i].0 == id;
        FlushKeepsListed(w, e, i);
      } else {
        FlushKeepsUnlisted(w, e, id);
      }
    }
    forall t, x | x in Sink(w'.state, t) ensures Genuine(w', t, x) { FlushKeepsGenuine(w, e, t, x); }
  }

  lemma {:induction false} AlwaysAccounted(ws: seq<World>, es: seq<Event>, i: nat)
    requires Run(ws, es) && i < |ws|
    ensures Inv(ws[i])
  {
    if i > 0 {
      AlwaysAccounted(ws, es, i - 1);
      match es[i - 1]
      case Commit(_, _) => CommitKeeps(ws[i - 1], es[i - 1]);
      case Flush(_, _, _, _) => FlushKeeps(ws[i - 1], es[i - 1]);
      case FlushUnlisted =>
    }
  }

  /** In every run, a target that was committed as pending and no longer is has received every item
      of its publication, and no sink holds an item that was not committed. */
  lemma NeverAcknowledgedUndelivered(ws: seq<World>, es: seq<Event>, i: nat, id: string, t: Target)
    requires Run(ws, es) && i < |ws| && id in ws[i].committed && Pending(ws[i].committed[id], t)
    ensures Waits(ws[i], id, t) || Has(Sink(ws[i].state, t), Items(id, ws[i].committed[id], t))
    ensures forall e :: e in Sink(ws[i].state, t) ==> Genuine(ws[i], t, e)
  {
    AlwaysAccounted(ws, es, i);
    assert Accounted(ws[i], id);
  }

  /** No failure blocks another delivery: whether a waiting target is cleared by a flush is decided
      by its own sink, its own appends and its own acknowledgement. */
  lemma FailuresAreIndependent(ws: seq<World>, es: seq<Event>, i: nat, id: string, t: Target)
    requires Run(ws, es) && i < |es| && es[i].Flush?
    requires Waits(ws[i], id, t) && ws[i].state.outbox[id].session == es[i].session
    ensures Waits(ws[i + 1], id, t) <==> !Clears(es[i].sinks, id, ws[i].state.outbox[id], t, es[i].faults)
  {
    var e := es[i];
    assert Listed(e.listing, id);
    var k :| 0 <= k < |e.listing| && e.listing[k].0 == id;
    ListedFlushed(ws[i].state, e.sinks, e.listing, e.faults);
    assert Flushed(ws[i + 1].state, e.sinks, id, e.listing[k].1, e.faults);
  }

  ghost predicate NoFaults(f: Faults) { forall id, call :: f(id, call).Done? }

  /** A failure-free flush with both sinks leaves nothing of the session pending: every item ever
      committed for it as pending is in its sink. */
  lemma CleanFlushDelivers(ws: seq<World>, es: seq<Event>, i: nat, id: string, t: Target)
    requires Run(ws, es) && i < |es| && es[i].Flush? && es[i].sinks == Sinks(true, true) && NoFaults(es[i].faults)
    requires id in ws[i].committed && ws[i].committed[id].session == es[i].session && Pending(ws[i].committed[id], t)
    ensures !Waits(ws[i + 1], id, t)
    ensures Has(Sink(ws[i + 1].state, t), Items(id, ws[i].committed[id], t))
    ensures PublishAll(ws[i].state, es[i].sinks, es[i].listing, es[i].faults).1
  {
    AlwaysAccounted(ws, es, i);
    AlwaysAccounted(ws, es, i + 1);
    assert Accounted(ws[i], id) && Accounted(ws[i + 1], id);
    var e := es[i];
    if Waits(ws[i], id, t) {
      FailuresAreIndependent(ws, es, i, id, t);
    } else if Waits(ws[i + 1], id, t) {
      StaysCleared(ws, es, i, id, t);
    }
    ListedFlushed(ws[i].state, e.sinks, e.listing, e.faults);
    assert AllSucceed(e.sinks, e.listing, e.faults);
  }

  /** A cleared target never waits again. */
  lemma StaysCleared(ws: seq<World>, es: seq<Event>, i: nat, id: string, t: Target)
    requires Run(ws, es) && i < |es| && id in ws[i].committed && !Waits(ws[i], id, t)
    ensures !Waits(ws[i + 1], id, t)
  {
    var e := es[i];
    if e.Flush? {
      if Listed(e.listing, id) {
        var k :| 0 <= k < |e.listing| && e.listing[k].0 == id;
        ListedFlushed(ws[i].state, e.sinks, e.listing, e.faults);
        assert Flushed(ws[i + 1].state, e.sinks, id, e.listing[k].1, e.faults);
      } else {
        UnlistedUntouched(ws[i].state, e.sinks, e.listing, e.faults, id);
      }
    }
  }
}
