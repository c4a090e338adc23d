/** The flush loops, as they update the outbox and the sinks in place. */
module Publisher {
  import opened Basics
  import opened Outbox

  datatype Failure = Failure(id: string, target: Target)

  /** The flush goes well up to this publication and not past it. */
  ghost predicate FailsAt(s: State, c: Sinks, listing: seq<(string, Publication)>, f: Faults, i: nat) {
    i < |listing| && PublishAll(s, c, listing[..i], f).1 && !PublishAll(s, c, listing[..i + 1], f).1
  }

  ghost predicate FirstToFail(s: State, c: Sinks, listing: seq<(string, Publication)>, f: Faults, id: string) {
    exists i :: 0 <= i < |listing| && FailsAt(s, c, listing, f, i) && listing[i].0 == id
  }

  /** Publications of other sessions stay as they are. */
  lemma OthersKept(s: State, c: Sinks, session: string, listing: seq<(string, Publication)>, f: Faults)
    requires Lists(s, session, listing)
    ensures forall id :: id in s.outbox && s.outbox[id].session != session ==>
      Unchanged(s, PublishAll(s, c, listing, f).0, id)
  {
    forall id | id in s.outbox && s.outbox[id].session != session
      ensures Unchanged(s, PublishAll(s, c, listing, f).0, id)
    {
      UnlistedUntouched(s, c, listing, f, id);
    }
  }

  class StreamPublisher {
    const sinks: Sinks
    var outbox: map<string, Publication>
    var archive: seq<Entry>
    var replay: seq<Entry>

    constructor (sinks: Sinks)
      ensures this.sinks == sinks && Now() == State(map[], [], [])
    {
      this.sinks := sinks;
      outbox, archive, replay := map[], [], [];
    }

    function Now(): State reads this { State(outbox, archive, replay) }

    method AcknowledgeStreamPublication(id: string, t: Target, o: Outcome) returns (ok: bool)
      modifies this`outbox
      ensures (Now(), ok) == Ack(old(Now()), id, t, o)
    {
      if (o.Done? || o.landed > 0) && id in outbox {
        var p := Cleared(outbox[id], t);
        if !p.archivePending && !p.replayPending {
          outbox := outbox - {id};
        } else {
          outbox := outbox[id := p];
        }
      }
      ok := o.Done?;
    }

    method AppendToArchive(items: seq<Entry>, o: Outcome) returns (ok: bool)
      modifies this`archive
      ensures archive == old(archive) + Stored(items, o) && ok == o.Done?
    {
      archive := archive + Stored(items, o);
      ok := o.Done?;
    }

    method DeliverArchive(id: string, p: Publication, f: Faults) returns (ok: bool)
      modifies this
      ensures (Now(), ok) == PushArchive(old(Now()), id, p, f)
    {
      ok := AppendToArchive(RawItems(id, p), f(id, AppendRaw));
      if !ok {
        return;
      }
      ok := AppendToArchive(DisplayItems(id, p), f(id, AppendDisplay));
      if !ok {
        return;
      }
      if p.snapshot.Some? {
        ok := AppendToArchive(SnapshotItems(id, p), f(id, AppendSnapshot));
        if !ok {
          return;
        }
      }
      ok := AcknowledgeStreamPublication(id, Archive, f(id, Acknowledge(Archive)));
    }

    method DeliverReplay(id: string, p: Publication, f: Faults) returns (ok: bool)
      modifies this
      ensures (Now(), ok) == PushReplay(old(Now()), id, p, f, 0)
    {
      var items := ReplayItems(id, p);
      var k := 0;
      while k < |items|
        invariant 0 <= k <= |items|
        invariant PushReplay(Now(), id, p, f, k) == PushReplay(old(Now()), id, p, f, 0)
      {
        var o := f(id, AppendReplay(k));
        replay := replay + Stored([items[k]], o);
        if !o.Done? {
          return false;
        }
        k := k + 1;
      }
      ok := AcknowledgeStreamPublication(id, Replay, f(id, Acknowledge(Replay)));
    }

    method PublishStreamPublication(id: string, p: Publication, f: Faults) returns (firstError: Option<Failure>)
      modifies this
      ensures (Now(), firstError.None?) == Publish(old(Now()), sinks, id, p, f)
      ensures firstError.Some? ==>
        firstError.value == Failure(id, if Attempt(old(Now()), sinks, id, p, Archive, f).1 then Replay else Archive)
    {
      firstError := None;
      if p.archivePending {
        var ok := false;
        if sinks.archive {
          ok := DeliverArchive(id, p, f);
        }
        if !ok {
          firstError := Some(Failure(id, Archive));
        }
      }
      if p.replayPending {
        var ok := false;
        if sinks.replay {
          ok := DeliverReplay(id, p, f);
        }
        if !ok && firstError.None? {
          firstError := Some(Failure(id, Replay));
        }
      }
    }

    method PendingStreamPublications(session: string) returns (listing: seq<(string, Publication)>)
      ensures Lists(Now(), session, listing)
    {
      listing := [];
      var rest := outbox.Keys;
      while rest != {}
        invariant rest <= outbox.Keys
        invariant Distinct(Now(), listing)
        invariant forall i :: 0 <= i < |listing| ==> listing[i].1.session == session && listing[i].0 !in rest
        invariant forall id :: id in outbox && id !in rest && outbox[id].session == session ==> Listed(listing, id)
        decreases |rest|
      {
        var id :| id in rest;
        rest := rest - {id};
        if outbox[id].session == session {
          ghost var before := listing;
          listing := listing + [(id, outbox[id])];
          forall other | Listed(before, other) ensures Listed(listing, other) {
            var i :| 0 <= i < |before| && before[i].0 == other;
            assert listing[i].0 == other;
          }
          assert listing[|before|].0 == id;
        }
      }
    }

    /** `readable` is false when reading the outbox fails; nothing is attempted then. */
    method FlushPendingStreamPublications(session: string, readable: bool, f: Faults)
      returns (ok: bool, firstError: Option<Failure>, ghost listing: seq<(string, Publication)>)
      modifies this
      ensures !readable ==> !ok && Now() == old(Now())
      ensures readable ==> Lists(old(Now()), session, listing)
      ensures readable ==> (Now(), ok) == PublishAll(old(Now()), sinks, listing, f) && (ok <==> firstError.None?)
      ensures firstError.Some? ==> FirstToFail(old(Now()), sinks, listing, f, firstError.value.id)
      ensures forall id :: id in old(outbox) && old(outbox)[id].session != session ==>
        id in outbox && outbox[id] == old(outbox)[id]
    {
      listing, firstError := [], None;
      if !readable {
        return false, firstError, listing;
      }
      var publications := PendingStreamPublications(session);
      listing := publications;
      var i := 0;
      while i < |publications|
        invariant 0 <= i <= |publications|
        invariant (Now(), firstError.None?) == PublishAll(old(Now()), sinks, publications[..i], f)
        invariant firstError.Some? ==> FirstToFail(old(Now()), sinks, publications, f, firstError.value.id)
      {
        assert publications[..i + 1][..i] == publications[..i];
        var error := PublishStreamPublication(publications[i].0, publications[i].1, f);
        if error.Some? && firstError.None? {
          assert FailsAt(old(Now()), sinks, publications, f, i);
          firstError := error;
        }
        i := i + 1;
      }
      assert publications[..i] == publications;
      OthersKept(old(Now()), sinks, session, listing, f);
      ok := firstError.None?;
    }
  }
}
