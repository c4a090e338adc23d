/**
  Any number of flushes under way at once, of the same session or not: every append and every
  acknowledgement is a step of its own, between which anything else may happen.
*/
module OutboxInterleaved {
  import opened Outbox
  import History = OutboxHistory

  /** A flush under way: what it listed at its start, and which call it makes next. */
  datatype Flusher = Flusher(sinks: Sinks, listing: seq<(string, Publication)>, at: nat, target: Target, stage: nat) {
    predicate Busy() { at < |listing| }

    /** It is through with this target of this publication, for better or worse. */
    predicate Past(k: nat, t: Target) { k < at || (k == at && t.Archive? && target.Replay?) }

    predicate StandsAt(k: nat, t: Target) { Busy() && k == at && t == target }
  }

  datatype World = World(base: History.World, flushers: map<nat, Flusher>)

  datatype Event =
    | Commit(id: string, publication: Publication)
    | Start(f: nat, sinks: Sinks, session: string, listing: seq<(string, Publication)>)
    | Advance(f: nat, outcome: Outcome)
    | Stop(f: nat)  // the flush returns, or its process dies

  const Empty: World := World(History.Empty, map[])

  /** What each append call of a target carries. */
  function Batches(id: string, p: Publication, t: Target): seq<seq<Entry>> {
    match t
    case Archive => [RawItems(id, p), DisplayItems(id, p)] + (if p.snapshot.Some? then [SnapshotItems(id, p)] else [])
    case Replay => seq(|p.replay|, i requires 0 <= i < |p.replay| => [ReplayItems(id, p)[i]])
  }

  function Appended(s: State, t: Target, items: seq<Entry>): State {
    match t
    case Archive => s.(archive := s.archive + items)
    case Replay => s.(replay := s.replay + items)
  }

  function Moved(f: Flusher): Flusher {
    if f.target.Archive? then f.(target := Replay, stage := 0) else f.(at := f.at + 1, target := Archive, stage := 0)
  }

  /** The next call of a flush: it works on what it listed, whatever others have done since. */
  function Called(s: State, f: Flusher, o: Outcome): (State, Flusher)
    requires f.Busy()
  {
    var (id, p) := f.listing[f.at];
    var batches := Batches(id, p, f.target);
    if !Pending(p, f.target) || !Configured(f.sinks, f.target) then (s, Moved(f))
    else if f.stage < |batches| then
      (Appended(s, f.target, Stored(batches[f.stage], o)), if o.Done? then f.(stage := f.stage + 1) else Moved(f))
    else (Ack(s, id, f.target, o).0, Moved(f))
  }

  ghost predicate Enabled(w: World, e: Event) {
    match e
    case Commit(id, _) => id !in w.base.committed
    case Start(f, _, session, listing) => f !in w.flushers && Lists(w.base.state, session, listing)
    case Advance(f, _) => f in w.flushers && w.flushers[f].Busy()
    case Stop(_) => true
  }

  ghost function Step(w: World, e: Event): World
    requires Enabled(w, e)
  {
    match e
    case Commit(id, p) => w.(base := History.Step(w.base, History.Commit(id, p)))
    case Start(f, sinks, _, listing) => w.(flushers := w.flushers[f := Flusher(sinks, listing, 0, Archive, 0)])
    case Advance(f, o) =>
      var (s, next) := Called(w.base.state, w.flushers[f], o);
      World(w.base.(state := s), w.flushers[f := next])
    case Stop(f) => w.(flushers := w.flushers - {f})
  }

  ghost predicate Follows(w: World, e: Event, next: World) { Enabled(w, e) && next == Step(w, e) }

  ghost predicate Run(ws: seq<World>, es: seq<Event>) {
    && |ws| == |es| + 1 && ws[0] == Empty
    && forall i :: 0 <= i < |es| ==> Follows(ws[i], es[i], ws[i + 1])
  }

  // ---------------------------------------------------------------- batches and items

  lemma BatchIsGenuine(id: string, p: Publication, t: Target, k: nat)
    requires k < |Batches(id, p, t)|
    ensures forall e :: e in Batches(id, p, t)[k] ==> e in Items(id, p, t)
  {
  }

  lemma AllBatchesAreAllItems(log: seq<Entry>, id: string, p: Publication, t: Target)
    requires forall k :: 0 <= k < |Batches(id, p, t)| ==> Has(log, Batches(id, p, t)[k])
    ensures Has(log, Items(id, p, t))
  {
    var batches := Batches(id, p, t);
    if t.Archive? {
      assert Has(log, batches[0]) && Has(log, batches[1]);
      if p.snapshot.Some? { assert Has(log, batches[2]); }
    } else {
      var items := ReplayItems(id, p);
      forall e | e in items ensures e in log {
        var i :| 0 <= i < |items| && items[i] == e;
        assert Has(log, batches[i]) && e in batches[i];
      }
    }
  }

  // ---------------------------------------------------------------- the invariant

  /** A listed publication is a committed one; targets may have been cleared since it was listed. */
  ghost predicate Stems(b: History.World, id: string, p: Publication) {
    && id in b.committed && History.SameContent(p, b.committed[id])
    && forall t :: Pending(p, t) ==> Pending(b.committed[id], t)
  }

  /** Everything the flush has appended for the target it stands at is in the sink. */
  ghost predicate Reached(s: State, f: Flusher)
    requires f.Busy()
  {
    var batches := Batches(f.listing[f.at].0, f.listing[f.at].1, f.target);
    f.stage <= |batches| && forall k :: 0 <= k < f.stage ==> Has(Sink(s, f.target), batches[k])
  }

  ghost predicate FlusherOk(b: History.World, f: Flusher) {
    && (forall i :: 0 <= i < |f.listing| ==> Stems(b, f.listing[i].0, f.listing[i].1))
    && (f.Busy() ==> Reached(b.state, f))
  }

  ghost predicate Inv(w: World) {
    History.Inv(w.base) && forall f :: f in w.flushers ==> FlusherOk(w.base, w.flushers[f])
  }

  /** Sinks and the record of commits only grow. */
  ghost predicate Grows(a: History.World, b: History.World) {
    && (forall id :: id in a.committed ==> id in b.committed && b.committed[id] == a.committed[id])
    && a.state.archive <= b.state.archive && a.state.replay <= b.state.replay
  }

  lemma GrowthKeepsFlusher(a: History.World, b: History.World, f: Flusher)
    requires FlusherOk(a, f) && Grows(a, b)
    ensures FlusherOk(b, f)
  {
    forall i | 0 <= i < |f.listing| ensures Stems(b, f.listing[i].0, f.listing[i].1) {
      assert Stems(a, f.listing[i].0, f.listing[i].1);
    }
    if f.Busy() {
      var batches := Batches(f.listing[f.at].0, f.listing[f.at].1, f.target);
      forall k | 0 <= k < f.stage ensures Has(Sink(b.state, f.target), batches[k]) {
        History.HasMore(Sink(a.state, f.target), Sink(b.state, f.target), batches[k]);
      }
    }
  }

  lemma AppendKeeps(b: History.World, id: string, p: Publication, t: Target, items: seq<Entry>)
    requires History.Inv(b) && Stems(b, id, p) && (forall e :: e in items ==> e in Items(id, p, t))
    ensures
      var b' := b.(state := Appended(b.state, t, items));
      History.Inv(b') && Grows(b, b')
  {
    var b' := b.(state := Appended(b.state, t, items));
    History.SameItems(id, p, b.committed[id], t);
    forall other | other in b'.committed ensures History.Accounted(b', other) {
      assert History.Accounted(b, other);
      forall u: Target
        ensures Pending(b.committed[other], u) && !History.Waits(b', other, u) ==>
          Has(Sink(b'.state, u), Items(other, b.committed[other], u))
      {
        if Pending(b.committed[other], u) && !History.Waits(b', other, u) {
          History.HasMore(Sink(b.state, u), Sink(b'.state, u), Items(other, b.committed[other], u));
        }
      }
    }
    forall u, e | e in Sink(b'.state, u) ensures History.Genuine(b', u, e) {
      if e in Sink(b.state, u) {
        assert History.Genuine(b, u, e);
        var from :| from in b.committed && e in Items(from, b.committed[from], u);
        assert from in b'.committed && e in Items(from, b'.committed[from], u);
      } else {
        assert id in b'.committed && e in Items(id, b'.committed[id], u);
      }
    }
  }

  lemma AckKeeps(b: History.World, id: string, t: Target, o: Outcome)
    requires History.Inv(b) && id in b.committed && Has(Sink(b.state, t), Items(id, b.committed[id], t))
    ensures
      var b' := b.(state := Ack(b.state, id, t, o).0);
      History.Inv(b') && Grows(b, b')
  {
    var b' := b.(state := Ack(b.state, id, t, o).0);
    forall other | other in b'.committed ensures History.Accounted(b', other) { assert History.Accounted(b, other); }
    forall u, e | e in Sink(b'.state, u) ensures History.Genuine(b', u, e) {
      assert History.Genuine(b, u, e);
      var from :| from in b.committed && e in Items(from, b.committed[from], u);
      assert from in b'.committed && e in Items(from, b'.committed[from], u);
    }
  }

  lemma MovedIsOk(b: History.World, f: Flusher)
    requires forall i :: 0 <= i < |f.listing| ==> Stems(b, f.listing[i].0, f.listing[i].1)
    ensures FlusherOk(b, Moved(f))
  {
  }

  lemma AppendCallKeeps(b: History.World, f: Flusher, o: Outcome)
    requires History.Inv(b) && FlusherOk(b, f) && f.Busy()
    requires f.stage < |Batches(f.listing[f.at].0, f.listing[f.at].1, f.target)|
    ensures
      var (id, p) := f.listing[f.at];
      var batch := Batches(id, p, f.target)[f.stage];
      var b' := b.(state := Appended(b.state, f.target, Stored(batch, o)));
      && History.Inv(b') && Grows(b, b')
      && (o.Done? ==> FlusherOk(b', f.(stage := f.stage + 1)))
  {
    var (id, p) := f.listing[f.at];
    var batch := Batches(id, p, f.target)[f.stage];
    var b' := b.(state := Appended(b.state, f.target, Stored(batch, o)));
    assert Stems(b, id, p);
    BatchIsGenuine(id, p, f.target, f.stage);
    AppendKeeps(b, id, p, f.target, Stored(batch, o));
    GrowthKeepsFlusher(b, b', f);
    if o.Done? { assert Has(Sink(b'.state, f.target), batch); }
  }

  lemma AckCallKeeps(b: History.World, f: Flusher, o: Outcome)
    requires History.Inv(b) && FlusherOk(b, f) && f.Busy()
    requires f.stage == |Batches(f.listing[f.at].0, f.listing[f.at].1, f.target)|
    ensures
      var b' := b.(state := Ack(b.state, f.listing[f.at].0, f.target, o).0);
      History.Inv(b') && Grows(b, b')
  {
    var (id, p) := f.listing[f.at];
    assert Stems(b, id, p);
    AllBatchesAreAllItems(Sink(b.state, f.target), id, p, f.target);
    History.SameItems(id, p, b.committed[id], f.target);
    AckKeeps(b, id, f.target, o);
  }

  lemma CallKeeps(b: History.World, f: Flusher, o: Outcome)
    requires History.Inv(b) && FlusherOk(b, f) && f.Busy()
    ensures
      var (s, next) := Called(b.state, f, o);
      var b' := b.(state := s);
      History.Inv(b') && Grows(b, b') && FlusherOk(b', next)
  {
    var (id, p) := f.listing[f.at];
    var (s, next) := Called(b.state, f, o);
    var b' := b.(state := s);
    if !Pending(p, f.target) || !Configured(f.sinks, f.target) {
      assert b' == b;
    } else if f.stage < |Batches(id, p, f.target)| {
      AppendCallKeeps(b, f, o);
    } else {
      AckCallKeeps(b, f, o);
    }
    GrowthKeepsFlusher(b, b', f);
    MovedIsOk(b', f);
  }

  lemma StartIsOk(b: History.World, session: string, listing: seq<(string, Publication)>, sinks: Sinks)
    requires History.Inv(b) && Lists(b.state, session, listing)
    ensures FlusherOk(b, Flusher(sinks, listing, 0, Archive, 0))
  {
    forall i | 0 <= i < |listing| ensures Stems(b, listing[i].0, listing[i].1) {
      var (id, p) := listing[i];
      assert History.Accounted(b, id);
      forall t | Pending(p, t) ensures Pending(b.committed[id], t) { assert History.Waits(b, id, t); }
    }
  }

  lemma StepKeeps(w: World, e: Event)
    requires Inv(w) && Enabled(w, e)
    ensures Inv(Step(w, e)) && Grows(w.base, Step(w, e).base)
  {
    var next := Step(w, e);
    match e {
      case Commit(id, p) => History.CommitKeeps(w.base, History.Commit(id, p));
      case Start(_, sinks, session, listing) => StartIsOk(w.base, session, listing, sinks);
      case Advance(f, o) => CallKeeps(w.base, w.flushers[f], o);
      case Stop(_) =>
    }
    forall g | g in next.flushers ensures FlusherOk(next.base, next.flushers[g]) {
      if g in w.flushers && next.flushers[g] == w.flushers[g] { GrowthKeepsFlusher(w.base, next.base, w.flushers[g]); }
    }
  }

  lemma {:induction false} AlwaysInv(ws: seq<World>, es: seq<Event>, i: nat)
    requires Run(ws, es) && i < |ws|
    ensures Inv(ws[i])
  {
    if i > 0 {
      AlwaysInv(ws, es, i - 1);
      assert Follows(ws[i - 1], es[i - 1], ws[i - 1 + 1]);
      StepKeeps(ws[i - 1], es[i - 1]);
    }
  }

  /** However flushes overlap and fail: a target that was committed as pending and no longer is has
      received every item of its publication, and no sink holds an item that was not committed. */
  lemma NeverClearedUndelivered(ws: seq<World>, es: seq<Event>, i: nat, id: string, t: Target)
    requires Run(ws, es) && i < |ws| && id in ws[i].base.committed && Pending(ws[i].base.committed[id], t)
    ensures History.Waits(ws[i].base, id, t) || Has(Sink(ws[i].base.state, t), Items(id, ws[i].base.committed[id], t))
    ensures forall e :: e in Sink(ws[i].base.state, t) ==> History.Genuine(ws[i].base, t, e)
  {
    AlwaysInv(ws, es, i);
    assert History.Accounted(ws[i].base, id);
  }

  // ---------------------------------------------------------------- one flush among others

  /** Flush `f` is under way from `i` to `j`. */
  ghost predicate UnderWay(ws: seq<World>, f: nat, i: nat, j: nat) {
    forall m :: i <= m <= j < |ws| ==> f in ws[m].flushers
  }

  /** The event is a call of flush `f` for this target of this publication. */
  predicate ByAt(w: World, e: Event, f: nat, k: nat, t: Target) {
    e.Advance? && e.f == f && f in w.flushers && w.flushers[f].StandsAt(k, t)
  }

  /** None of its own calls for this target of this publication fails. */
  ghost predicate Unharmed(ws: seq<World>, es: seq<Event>, f: nat, i: nat, j: nat, k: nat, t: Target)
    requires |ws| == |es| + 1
  {
    forall m :: i <= m < j < |ws| && ByAt(ws[m], es[m], f, k, t) ==> es[m].outcome.Done?
  }

  lemma ClearedForGood(w: World, e: Event, id: string, t: Target)
    requires Enabled(w, e) && id in w.base.committed && !History.Waits(w.base, id, t)
    ensures !History.Waits(Step(w, e).base, id, t)
  {
  }

  /** The call with which a flush gets past an unharmed target is the one that clears it. */
  lemma PassingClears(s: State, f: Flusher, o: Outcome)
    requires f.Busy() && o.Done?
    requires Pending(f.listing[f.at].1, f.target) && Configured(f.sinks, f.target)
    ensures
      var (next, f') := Called(s, f, o);
      var id := f.listing[f.at].0;
      f' == Moved(f) ==> !(id in next.outbox && Pending(next.outbox[id], f.target))
  {
  }

  /** Flush `f` still works on what it listed as `start`, and has cleared the target if it is past it. */
  ghost predicate Clearing(w: World, f: nat, start: Flusher, k: nat, t: Target)
    requires k < |start.listing|
  {
    && f in w.flushers && w.flushers[f].listing == start.listing && w.flushers[f].sinks == start.sinks
    && (w.flushers[f].Past(k, t) ==> !History.Waits(w.base, start.listing[k].0, t))
  }

  lemma OneStepOn(w: World, e: Event, f: nat, start: Flusher, k: nat, t: Target)
    requires Inv(w) && Enabled(w, e) && k < |start.listing| && Clearing(w, f, start, k, t) && f in Step(w, e).flushers
    requires Pending(start.listing[k].1, t) && Configured(start.sinks, t)
    requires ByAt(w, e, f, k, t) ==> e.outcome.Done?
    ensures Clearing(Step(w, e), f, start, k, t)
  {
    var fl := w.flushers[f];
    assert FlusherOk(w.base, fl) && Stems(w.base, fl.listing[k].0, fl.listing[k].1);
    if fl.Past(k, t) {
      ClearedForGood(w, e, fl.listing[k].0, t);
    } else if ByAt(w, e, f, k, t) {
      PassingClears(w.base.state, fl, e.outcome);
    }
  }

  lemma LastStep(ws: seq<World>, es: seq<Event>, f: nat, i: nat, j: nat, k: nat, t: Target)
    requires Run(ws, es) && i < j < |ws| && UnderWay(ws, f, i, j) && Unharmed(ws, es, f, i, j, k, t)
    ensures UnderWay(ws, f, i, j - 1) && Unharmed(ws, es, f, i, j - 1, k, t)
    ensures f in ws[j - 1].flushers && f in ws[j].flushers && Follows(ws[j - 1], es[j - 1], ws[j])
    ensures ByAt(ws[j - 1], es[j - 1], f, k, t) ==> es[j - 1].outcome.Done?
  {
    assert Follows(ws[j - 1], es[j - 1], ws[j - 1 + 1]);
  }

  lemma {:induction false} UnharmedTargetIsCleared(
      ws: seq<World>, es: seq<Event>, f: nat, i: nat, j: nat, start: Flusher, k: nat, t: Target)
    requires Run(ws, es) && i <= j < |ws| && UnderWay(ws, f, i, j) && Unharmed(ws, es, f, i, j, k, t)
    requires k < |start.listing| && Clearing(ws[i], f, start, k, t)
    requires Pending(start.listing[k].1, t) && Configured(start.sinks, t)
    ensures Clearing(ws[j], f, start, k, t)
    decreases j
  {
    if i < j {
      LastStep(ws, es, f, i, j, k, t);
      UnharmedTargetIsCleared(ws, es, f, i, j - 1, start, k, t);
      AlwaysInv(ws, es, j - 1);
      OneStepOn(ws[j - 1], es[j - 1], f, start, k, t);
    }
  }

  lemma ClearedMeansDelivered(w: World, f: nat, k: nat, t: Target)
    requires Inv(w) && f in w.flushers && k < |w.flushers[f].listing| && Pending(w.flushers[f].listing[k].1, t)
    requires !History.Waits(w.base, w.flushers[f].listing[k].0, t)
    ensures var (id, p) := w.flushers[f].listing[k]; Has(Sink(w.base.state, t), Items(id, p, t))
  {
    var (id, p) := w.flushers[f].listing[k];
    assert FlusherOk(w.base, w.flushers[f]) && Stems(w.base, id, p);
    assert History.Accounted(w.base, id);
    History.SameItems(id, p, w.base.committed[id], t);
  }

  /** No failure blocks another delivery: whatever other flushes do, and however this one fails
      elsewhere, once it is past a target whose own calls all succeeded, that target is cleared and
      every item of it is in its sink. */
  lemma UnharmedTargetIsDelivered(
      ws: seq<World>, es: seq<Event>, f: nat, i: nat, j: nat, k: nat, t: Target)
    requires Run(ws, es) && i <= j < |ws| && UnderWay(ws, f, i, j) && Unharmed(ws, es, f, i, j, k, t)
    requires k < |ws[i].flushers[f].listing| && !ws[i].flushers[f].Past(k, t)
    requires Pending(ws[i].flushers[f].listing[k].1, t) && Configured(ws[i].flushers[f].sinks, t)
    requires ws[j].flushers[f].Past(k, t)
    ensures
      var (id, p) := ws[i].flushers[f].listing[k];
      !History.Waits(ws[j].base, id, t) && Has(Sink(ws[j].base.state, t), Items(id, p, t))
  {
    UnharmedTargetIsCleared(ws, es, f, i, j, ws[i].flushers[f], k, t);
    AlwaysInv(ws, es, j);
    ClearedMeansDelivered(ws[j], f, k, t);
  }

  lemma {:induction false} StaysCleared(ws: seq<World>, es: seq<Event>, i: nat, j: nat, id: string, t: Target)
    requires Run(ws, es) && i <= j < |ws| && id in ws[i].base.committed && !History.Waits(ws[i].base, id, t)
    ensures id in ws[j].base.committed && ws[j].base.committed[id] == ws[i].base.committed[id]
    ensures !History.Waits(ws[j].base, id, t)
    decreases j
  {
    if i < j {
      StaysCleared(ws, es, i, j - 1, id, t);
      AlwaysInv(ws, es, j - 1);
      assert Follows(ws[j - 1], es[j - 1], ws[j - 1 + 1]);
      StepKeeps(ws[j - 1], es[j - 1]);
      ClearedForGood(ws[j - 1], es[j - 1], id, t);
    }
  }

  /** None of its calls fails. */
  ghost predicate Clean(ws: seq<World>, es: seq<Event>, f: nat, i: nat, j: nat)
    requires |ws| == |es| + 1
  {
    forall m :: i <= m < j < |ws| && es[m].Advance? && es[m].f == f ==> es[m].outcome.Done?
  }

  lemma CommittedWaitsAsListed(w: World, session: string, listing: seq<(string, Publication)>, id: string, t: Target)
      returns (k: nat)
    requires Inv(w) && Lists(w.base.state, session, listing)
    requires id in w.base.committed && w.base.committed[id].session == session && History.Waits(w.base, id, t)
    ensures k < |listing| && listing[k].0 == id && Pending(listing[k].1, t)
    ensures History.SameContent(listing[k].1, w.base.committed[id])
  {
    assert History.Accounted(w.base, id);
    assert Listed(listing, id);
    k :| 0 <= k < |listing| && listing[k].0 == id;
  }

  /** A flush with both sinks that gets through without a fault of its own delivers every item that was
      committed for its session before it started, whatever other flushes do in the meantime. */
  lemma CleanFlushDelivers(ws: seq<World>, es: seq<Event>, i: nat, j: nat, id: string, t: Target)
    requires Run(ws, es) && i < j < |ws| && es[i].Start? && es[i].sinks == Sinks(true, true)
    requires UnderWay(ws, es[i].f, i + 1, j) && Clean(ws, es, es[i].f, i + 1, j) && !ws[j].flushers[es[i].f].Busy()
    requires id in ws[i].base.committed && ws[i].base.committed[id].session == es[i].session
    requires Pending(ws[i].base.committed[id], t)
    ensures !History.Waits(ws[j].base, id, t)
    ensures Has(Sink(ws[j].base.state, t), Items(id, ws[i].base.committed[id], t))
  {
    var f := es[i].f;
    AlwaysInv(ws, es, i);
    assert Follows(ws[i], es[i], ws[i + 1]);
    if History.Waits(ws[i].base, id, t) {
      var k := CommittedWaitsAsListed(ws[i], es[i].session, es[i].listing, id, t);
      History.SameItems(id, es[i].listing[k].1, ws[i].base.committed[id], t);
      UnharmedTargetIsCleared(ws, es, f, i + 1, j, ws[i + 1].flushers[f], k, t);
      UnharmedTargetIsDelivered(ws, es, f, i + 1, j, k, t);
    } else {
      StaysCleared(ws, es, i, j, id, t);
      NeverClearedUndelivered(ws, es, j, id, t);
    }
  }

  // ---------------------------------------------------------------- a flush on its own

  /** The call that a flush makes at a stage of a target. */
  function CallAt(p: Publication, t: Target, stage: nat): Call {
    match t
    case Archive =>
      if stage == 0 then AppendRaw
      else if stage == 1 then AppendDisplay
      else if stage == 2 && p.snapshot.Some? then AppendSnapshot
      else Acknowledge(Archive)
    case Replay => if stage < |p.replay| then AppendReplay(stage) else Acknowledge(Replay)
  }

  function Answer(f: Flusher, faults: Faults): Outcome
    requires f.Busy()
  {
    faults(f.listing[f.at].0, CallAt(f.listing[f.at].1, f.target, f.stage))
  }

  /** The rest of the current target, with nobody else about. */
  function TargetAlone(s: State, f: Flusher, faults: Faults): State
    requires f.Busy() && f.stage <= |Batches(f.listing[f.at].0, f.listing[f.at].1, f.target)|
    decreases |Batches(f.listing[f.at].0, f.listing[f.at].1, f.target)| - f.stage
  {
    var (next, f') := Called(s, f, Answer(f, faults));
    if f' == Moved(f) then next else TargetAlone(next, f', faults)
  }

  /** The rest of the flush, with nobody else about. */
  function Alone(s: State, f: Flusher, faults: Faults): State
    requires f.stage == 0
    decreases |f.listing| - f.at, if f.target.Archive? then 1 else 0
  {
    if !f.Busy() then s else Alone(TargetAlone(s, f, faults), Moved(f), faults)
  }

  lemma {:induction false} ReplayAlone(s: State, f: Flusher, faults: Faults)
    requires f.Busy() && f.target.Replay? && f.stage <= |f.listing[f.at].1.replay|
    requires f.listing[f.at].1.replayPending && f.sinks.replay
    ensures TargetAlone(s, f, faults) == PushReplay(s, f.listing[f.at].0, f.listing[f.at].1, faults, f.stage).0
    decreases |f.listing[f.at].1.replay| - f.stage
  {
    var (id, p) := f.listing[f.at];
    if f.stage < |p.replay| && Answer(f, faults).Done? {
      ReplayAlone(Called(s, f, Answer(f, faults)).0, f.(stage := f.stage + 1), faults);
    }
  }

  lemma ArchiveLast(s: State, f: Flusher, faults: Faults)
    requires f.Busy() && f.target.Archive? && f.stage == 2
    requires f.listing[f.at].1.archivePending && f.sinks.archive
    ensures
      var (id, p) := f.listing[f.at];
      var stored := s.(archive := s.archive + Stored(SnapshotItems(id, p), faults(id, AppendSnapshot)));
      TargetAlone(s, f, faults) ==
        if p.snapshot.None? then Ack(s, id, Archive, faults(id, Acknowledge(Archive))).0
        else if !faults(id, AppendSnapshot).Done? then stored
        else Ack(stored, id, Archive, faults(id, Acknowledge(Archive))).0
  {
  }

  lemma ArchiveAlone(s: State, f: Flusher, faults: Faults)
    requires f.Busy() && f.target.Archive? && f.stage == 0
    requires f.listing[f.at].1.archivePending && f.sinks.archive
    ensures TargetAlone(s, f, faults) == PushArchive(s, f.listing[f.at].0, f.listing[f.at].1, faults).0
  {
    var (id, p) := f.listing[f.at];
    if faults(id, AppendRaw).Done? {
      var s1 := s.(archive := s.archive + Stored(RawItems(id, p), Done));
      var f1 := f.(stage := 1);
      assert Called(s, f, Answer(f, faults)) == (s1, f1);
      if faults(id, AppendDisplay).Done? {
        var s2 := s1.(archive := s1.archive + Stored(DisplayItems(id, p), Done));
        assert Called(s1, f1, Answer(f1, faults)) == (s2, f.(stage := 2));
        ArchiveLast(s2, f.(stage := 2), faults);
      }
    }
  }

  lemma AttemptAlone(s: State, f: Flusher, faults: Faults)
    requires f.Busy() && f.stage == 0
    ensures TargetAlone(s, f, faults) == Attempt(s, f.sinks, f.listing[f.at].0, f.listing[f.at].1, f.target, faults).0
  {
    if Pending(f.listing[f.at].1, f.target) && Configured(f.sinks, f.target) {
      if f.target.Archive? { ArchiveAlone(s, f, faults); } else { ReplayAlone(s, f, faults); }
    }
  }

  lemma PublicationAlone(s: State, sinks: Sinks, listing: seq<(string, Publication)>, faults: Faults, at: nat)
    requires at < |listing|
    ensures Alone(PublishAll(s, sinks, listing[..at], faults).0, Flusher(sinks, listing, at, Archive, 0), faults)
         == Alone(PublishAll(s, sinks, listing[..at + 1], faults).0,
                  Flusher(sinks, listing, at + 1, Archive, 0), faults)
  {
    var s0 := PublishAll(s, sinks, listing[..at], faults).0;
    var f := Flusher(sinks, listing, at, Archive, 0);
    AttemptAlone(s0, f, faults);
    AttemptAlone(TargetAlone(s0, f, faults), Moved(f), faults);
    assert listing[..at + 1][..at] == listing[..at];
  }

  lemma {:induction false} AloneFrom(s: State, sinks: Sinks, listing: seq<(string, Publication)>, faults: Faults,
        at: nat)
    requires at <= |listing|
    ensures Alone(PublishAll(s, sinks, listing[..at], faults).0, Flusher(sinks, listing, at, Archive, 0), faults)
         == PublishAll(s, sinks, listing, faults).0
    decreases |listing| - at
  {
    if at == |listing| {
      assert listing[..at] == listing;
    } else {
      PublicationAlone(s, sinks, listing, faults, at);
      AloneFrom(s, sinks, listing, faults, at + 1);
    }
  }

  /** With nobody else about, the single calls amount to one whole flush. */
  lemma AloneIsOneFlush(s: State, sinks: Sinks, listing: seq<(string, Publication)>, faults: Faults)
    ensures Alone(s, Flusher(sinks, listing, 0, Archive, 0), faults) == PublishAll(s, sinks, listing, faults).0
  {
    AloneFrom(s, sinks, listing, faults, 0);
    assert listing[..0] == [];
  }
}
