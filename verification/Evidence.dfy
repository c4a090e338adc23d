/**
  Numbering of a run's stream evidence: display messages renumbered in place, replay events
  numbered from 0 or from the host's counter, one terminal marker at the end, and the cursors
  stored beside them.
*/
module Evidence {
  import opened Basics
  import opened Resolver

  datatype Message = Message(sequence: nat, body: string, terminal: bool)

  datatype Marker = RunCompleted | RunFailed | RunCancelled

  datatype Event =
    | Display(sequence: nat, message: Message)
    | Terminal(sequence: nat, marker: Marker)

  /** Which sinks are configured, and whether terminal evidence is retained without a replay log. */
  datatype Config = Config(archive: bool, replayLog: bool, retainTerminal: bool) {
    predicate Replays() { replayLog || retainTerminal }
    predicate Records() { archive || Replays() }
  }

  /** The host's counter is read twice, and another writer may move it in between. */
  datatype Counter = Counter(first: nat, second: nat) {
    predicate InRange() { first <= MAX && second <= MAX }
  }

  function TerminalMarker(status: Status): Option<Marker> {
    match status
    case Completed => Some(RunCompleted)
    case Failed => Some(RunFailed)
    case Cancelled => Some(RunCancelled)
    case _ => None
  }

  // ---------------------------------------------------------------- reference definitions

  function Flatten(parts: seq<seq<Message>>): seq<Message> {
    if parts == [] then [] else Flatten(parts[..|parts| - 1]) + parts[|parts| - 1]
  }

  function Renumbered(ms: seq<Message>): (r: seq<Message>)
    ensures |r| == |ms|
  {
    seq(|ms|, i requires 0 <= i < |ms| => ms[i].(sequence := i))
  }

  function TerminalOnly(ms: seq<Message>): (r: seq<Message>)
    ensures |r| <= |ms|
  {
    if ms == [] then []
    else TerminalOnly(ms[..|ms| - 1]) + (if ms[|ms| - 1].terminal then [ms[|ms| - 1]] else [])
  }

  /** Messages at consecutive numbers from `base`, stuck at the largest number once reached. */
  function Numbered(ms: seq<Message>, base: nat): (r: seq<Event>)
    ensures |r| == |ms|
  {
    seq(|ms|, i requires 0 <= i < |ms| => Display(Saturating(base, i), ms[i]))
  }

  function CounterOr(counter: Option<Counter>, display: seq<Message>): Counter {
    if counter.Some? then counter.value else Counter(|display|, |display|)
  }

  function Body(c: Config, counter: Option<Counter>, display: seq<Message>): seq<Event> {
    if c.replayLog then Numbered(display, 0)
    else if c.retainTerminal then Numbered(TerminalOnly(display), CounterOr(counter, display).first)
    else []
  }

  function Tail(c: Config, status: Status, counter: Option<Counter>, display: seq<Message>): seq<Event> {
    if !c.Replays() || TerminalMarker(status).None? then []
    else
      var at := if c.replayLog then |display|
                else Saturating(CounterOr(counter, display).second, |TerminalOnly(display)|);
      [Terminal(at, TerminalMarker(status).value)]
  }

  /** The replay evidence of a run whose renumbered display messages are `display`. */
  function Replay(c: Config, status: Status, counter: Option<Counter>, display: seq<Message>): seq<Event> {
    Body(c, counter, display) + Tail(c, status, counter, display)
  }

  // ---------------------------------------------------------------- the projection

  method Resequence(messages: array<Message>)
    modifies messages
    ensures messages[..] == Renumbered(old(messages[..]))
  {
    var i := 0;
    while i < messages.Length
      invariant 0 <= i <= messages.Length
      invariant forall k :: 0 <= k < i ==> messages[k] == old(messages[k]).(sequence := k)
      invariant forall k :: i <= k < messages.Length ==> messages[k] == old(messages[k])
    {
      messages[i] := messages[i].(sequence := i);
      i := i + 1;
    }
  }

  /** Message `j` of record `i` stands behind everything before it, under the number of its place. */
  ghost predicate InRecordOrder(display: seq<Message>, projected: seq<seq<Message>>) {
    && |display| == Before(projected, |projected|)
    && forall i, j :: 0 <= i < |projected| && 0 <= j < |projected[i]| ==>
         var at := Before(projected, i) + j;
         at < |display| && display[at] == projected[i][j].(sequence := at)
  }

  method ProjectMessages(projected: seq<seq<Message>>) returns (display: seq<Message>)
    ensures display == Renumbered(Flatten(projected)) && InRecordOrder(display, projected)
  {
    var messages := [];
    var i := 0;
    while i < |projected|
      invariant 0 <= i <= |projected|
      invariant messages == Flatten(projected[..i])
    {
      assert projected[..i + 1][..i] == projected[..i];
      messages := messages + projected[i];
      i := i + 1;
    }
    assert projected[..i] == projected;
    var buffer := new Message[|messages|](k requires 0 <= k < |messages| => messages[k]);
    assert buffer[..] == messages;
    Resequence(buffer);
    display := buffer[..];
    DisplayInOrder(projected);
  }

  lemma DisplayInOrder(projected: seq<seq<Message>>)
    ensures InRecordOrder(Renumbered(Flatten(projected)), projected)
  {
    FlattenLength(projected);
    var display := Renumbered(Flatten(projected));
    forall i, j | 0 <= i < |projected| && 0 <= j < |projected[i]|
      ensures var at := Before(projected, i) + j; at < |display| && display[at] == projected[i][j].(sequence := at)
    {
      DisplayKeepsOrder(projected, i, j);
    }
  }

  /** `projected` holds what the projector returned for each stream record. A vector never holds
      more than `MAX` items. */
  method ProjectStreamEvidence(c: Config, status: Status, projected: seq<seq<Message>>, counter: Option<Counter>)
    returns (display: seq<Message>, replay: seq<Event>)
    requires |Flatten(projected)| <= MAX
    requires counter.Some? ==> counter.value.InRange()
    ensures !c.Records() ==> display == [] && replay == []
    ensures c.Records() ==> display == Renumbered(Flatten(projected)) && replay == Replay(c, status, counter, display)
    ensures c.archive || c.replayLog || c.retainTerminal ==> InRecordOrder(display, projected)
  {
    if !c.archive && !c.replayLog && !c.retainTerminal {
      return [], [];
    }
    display := ProjectMessages(projected);
    replay := ReplayBody(c, counter, display);
    var tail := ReplayTail(c, status, counter, display);
    replay := replay + tail;
  }

  /** The terminal marker, if replay evidence is kept and the run has ended. */
  method ReplayTail(c: Config, status: Status, counter: Option<Counter>, display: seq<Message>)
      returns (tail: seq<Event>)
    requires display == Renumbered(display) && |display| <= MAX
    ensures tail == Tail(c, status, counter, display)
  {
    tail := [];
    if c.replayLog || c.retainTerminal {
      assert display != [] ==> Renumbered(display)[|display| - 1].sequence == |display| - 1;
      var next := if display == [] then 0 else Saturating(display[|display| - 1].sequence, 1);
      var at := next;
      if !c.replayLog {
        var count := CountTerminal(display);
        at := Saturating(if counter.Some? then counter.value.second else next, count);
      }
      var marker := TerminalMarker(status);
      if marker.Some? {
        tail := [Terminal(at, marker.value)];
      }
    }
  }

  method ReplayBody(c: Config, counter: Option<Counter>, display: seq<Message>) returns (events: seq<Event>)
    requires display == Renumbered(display) && |display| <= MAX
    ensures events == Body(c, counter, display)
  {
    events := [];
    var base := if counter.Some? then counter.value.first
                else if display == [] then 0 else Saturating(display[|display| - 1].sequence, 1);
    var offset := 0;
    for i := 0 to |display|
      invariant c.replayLog ==> events == Numbered(display[..i], 0)
      invariant !c.replayLog && c.retainTerminal ==>
        events == Numbered(TerminalOnly(display[..i]), base) && offset == |TerminalOnly(display[..i])|
      invariant !c.Replays() ==> events == []
    {
      assert display[..i + 1][..i] == display[..i];
      assert Renumbered(display)[i].sequence == i;
      if c.replayLog {
        events := events + [Display(display[i].sequence, display[i])];
      } else if c.retainTerminal && display[i].terminal {
        events := events + [Display(Saturating(base, offset), display[i])];
        offset := offset + 1;
      }
    }
    assert display[..|display|] == display;
  }

  method CountTerminal(display: seq<Message>) returns (n: nat)
    ensures n == |TerminalOnly(display)|
  {
    n := 0;
    for i := 0 to |display|
      invariant n == |TerminalOnly(display[..i])|
    {
      assert display[..i + 1][..i] == display[..i];
      if display[i].terminal {
        n := n + 1;
      }
    }
    assert display[..|display|] == display;
  }

  // ---------------------------------------------------------------- numbering

  /** Messages of the records before `i`. */
  function Before(projected: seq<seq<Message>>, i: nat): nat
    requires i <= |projected|
  {
    if i == 0 then 0 else Before(projected, i - 1) + |projected[i - 1]|
  }

  lemma {:induction false} BeforePrefix(a: seq<seq<Message>>, b: seq<seq<Message>>, i: nat)
    requires i <= |a| && a <= b
    ensures Before(a, i) == Before(b, i)
  {
    if i > 0 { BeforePrefix(a, b, i - 1); }
  }

  lemma {:induction false} RecordOrder(projected: seq<seq<Message>>, i: nat, j: nat)
    requires i < |projected| && j < |projected[i]|
    ensures |Flatten(projected)| == Before(projected, |projected|)
    ensures Before(projected, i) + j < |Flatten(projected)|
    ensures Flatten(projected)[Before(projected, i) + j] == projected[i][j]
    decreases |projected|
  {
    var n := |projected| - 1;
    var front := projected[..n];
    FlattenLength(projected);
    FlattenLength(front);
    BeforePrefix(front, projected, n);
    if i < n {
      BeforePrefix(front, projected, i);
      RecordOrder(front, i, j);
    }
  }

  lemma {:induction false} FlattenLength(projected: seq<seq<Message>>)
    ensures |Flatten(projected)| == Before(projected, |projected|)
    decreases |projected|
  {
    if projected != [] {
      var front := projected[..|projected| - 1];
      FlattenLength(front);
      BeforePrefix(front, projected, |front|);
    }
  }

  /** Display evidence keeps the order of the records and of the messages in them: message `j` of record
      `i` stands behind everything before it, under the number of its place, otherwise unchanged. */
  lemma DisplayKeepsOrder(projected: seq<seq<Message>>, i: nat, j: nat)
    requires i < |projected| && j < |projected[i]|
    ensures
      var display := Renumbered(Flatten(projected));
      var at := Before(projected, i) + j;
      && |display| == Before(projected, |projected|) && at < |display|
      && display[at] == Message(at, projected[i][j].body, projected[i][j].terminal)
  {
    RecordOrder(projected, i, j);
  }

  /** The k-th of the terminal messages is the one with k terminal messages before it. */
  lemma {:induction false} TerminalOrder(display: seq<Message>, i: nat)
    requires i < |display| && display[i].terminal
    ensures
      var k := |TerminalOnly(display[..i])|;
      k < |TerminalOnly(display)| && TerminalOnly(display)[k] == display[i]
    decreases |display|
  {
    var n := |display| - 1;
    if i < n {
      assert display[..n][..i] == display[..i];
      TerminalOrder(display[..n], i);
    }
  }

  lemma {:induction false} OnlyTerminal(display: seq<Message>, k: nat)
    requires k < |TerminalOnly(display)|
    ensures TerminalOnly(display)[k].terminal && TerminalOnly(display)[k] in display
  {
    var n := |display| - 1;
    if k < |TerminalOnly(display[..n])| {
      OnlyTerminal(display[..n], k);
      var i :| 0 <= i < n && display[..n][i] == TerminalOnly(display)[k];
      assert display[i] == TerminalOnly(display)[k];
    }
  }

  /** What the replay evidence shows: with a log every display message in order, without one the
      terminal messages in order, each as it is displayed. */
  lemma ReplayShows(c: Config, status: Status, counter: Option<Counter>, display: seq<Message>, i: nat)
    requires i < |display|
    ensures
      var events := Replay(c, status, counter, display);
      var k := |TerminalOnly(display[..i])|;
      && (c.replayLog ==> i < |events| && events[i].Display? && events[i].message == display[i])
      && (!c.replayLog && c.retainTerminal && display[i].terminal ==>
            k < |events| && events[k].Display? && events[k].message == display[i])
  {
    if display[i].terminal { TerminalOrder(display, i); }
  }

  /** And nothing else: how many events there are, and that retained ones are terminal messages. */
  lemma ReplayShowsNoMore(c: Config, status: Status, counter: Option<Counter>, display: seq<Message>, k: nat)
    requires k < |Replay(c, status, counter, display)|
    ensures
      var events := Replay(c, status, counter, display);
      var ended := status == Completed || status == Failed || status == Cancelled;
      && c.Replays()
      && |events| == (if c.replayLog then |display| else |TerminalOnly(display)|) + (if ended then 1 else 0)
      && (events[k].Display? ==>
            events[k].message in display && (c.replayLog || events[k].message.terminal))
  {
    if !c.replayLog && k < |TerminalOnly(display)| { OnlyTerminal(display, k); }
  }

  /** The marker names how the run ended. */
  lemma MarkerNamesStatus(c: Config, status: Status, counter: Option<Counter>, display: seq<Message>)
    requires c.Replays()
    ensures
      var events := Replay(c, status, counter, display);
      var shows := (m: Marker) => events != [] && events[|events| - 1].Terminal? && events[|events| - 1].marker == m;
      && (shows(RunCompleted) <==> status == Completed) && (shows(RunFailed) <==> status == Failed)
      && (shows(RunCancelled) <==> status == Cancelled)
  {
  }

  /** Without a host counter retained evidence is numbered on from the display messages. */
  lemma WithoutCounter(c: Config, status: Status, display: seq<Message>, k: nat)
    requires !c.replayLog && c.retainTerminal && k < |Replay(c, status, None, display)|
    requires |display| + k <= MAX
    ensures Replay(c, status, None, display)[k].sequence == |display| + k
  {
  }

  /** Every event's number is one more than the one before it. */
  ghost predicate Consecutive(events: seq<Event>) {
    forall i :: 0 < i < |events| ==> events[i].sequence == events[i - 1].sequence + 1
  }

  lemma {:induction false} ConsecutiveFrom(events: seq<Event>, i: nat)
    requires Consecutive(events) && i < |events|
    ensures events[i].sequence == events[0].sequence + i
  {
    if i > 0 { ConsecutiveFrom(events, i - 1); }
  }

  lemma NumberedConsecutive(ms: seq<Message>, base: nat)
    requires base <= MAX
    ensures Consecutive(Numbered(ms, base)) <==> base + |ms| <= MAX + 1
  {
    var events := Numbered(ms, base);
    if Consecutive(events) && |ms| > 0 {
      ConsecutiveFrom(events, |ms| - 1);
    }
  }

  lemma ConsecutiveSnoc(events: seq<Event>, last: Event)
    ensures Consecutive(events + [last]) <==>
      Consecutive(events) && (events != [] ==> last.sequence == events[|events| - 1].sequence + 1)
  {
    var all := events + [last];
    if Consecutive(all) {
      forall i | 0 < i < |events| ensures events[i].sequence == events[i - 1].sequence + 1 {
        assert all[i].sequence == all[i - 1].sequence + 1;
      }
      assert events != [] ==> all[|events|].sequence == all[|events| - 1].sequence + 1;
    }
  }

  /** Room and stability the host counter needs for `n` terminal messages, with or without a marker. */
  predicate Roomy(n: nat, counter: Counter, marked: bool) {
    n == 0 ||
    if !marked then counter.first + n <= MAX + 1
    else
      && counter.first + n <= MAX
      && (counter.second == counter.first || (counter.first + n == MAX && counter.second > counter.first))
  }

  lemma MarkerFollows(n: nat, counter: Counter)
    requires counter.InRange() && n > 0
    ensures Roomy(n, counter, true) <==>
      counter.first + n <= MAX + 1 && Saturating(counter.second, n) == Saturating(counter.first, n - 1) + 1
  {
  }

  /** With a replay log the numbers are 0, 1, 2, ... whatever the host counter does. */
  lemma LogNumbersFromZero(c: Config, status: Status, counter: Option<Counter>, display: seq<Message>, i: nat)
    requires c.replayLog && |display| <= MAX
    requires i < |Replay(c, status, counter, display)|
    ensures Replay(c, status, counter, display)[i].sequence == i
  {
  }

  /** Retained terminal evidence is numbered consecutively exactly when the counter has room for it
      and does not move between its two reads; the one exception saturates onto the right number. */
  lemma RetainedNumbering(c: Config, status: Status, counter: Option<Counter>, display: seq<Message>)
    requires !c.replayLog && c.retainTerminal && |display| <= MAX
    requires counter.Some? ==> counter.value.InRange()
    ensures Consecutive(Replay(c, status, counter, display)) <==>
      Roomy(|TerminalOnly(display)|, CounterOr(counter, display), TerminalMarker(status).Some?)
    ensures var events := Replay(c, status, counter, display);
      TerminalOnly(display) != [] ==> events[0].sequence == CounterOr(counter, display).first
  {
    var body := Body(c, counter, display);
    var base := CounterOr(counter, display).first;
    NumberedConsecutive(TerminalOnly(display), base);
    var tail := Tail(c, status, counter, display);
    if tail != [] {
      ConsecutiveSnoc(body, tail[0]);
      if body != [] { MarkerFollows(|body|, CounterOr(counter, display)); }
    } else {
      assert Replay(c, status, counter, display) == body;
    }
  }

  /** A counter that moves between the two reads leaves a gap. */
  lemma MovingCounterLeavesGap()
    ensures var done := Message(0, "done", true);
      var events := Replay(Config(false, false, true), Completed, Some(Counter(7, 9)), [done]);
      events == [Display(7, done), Terminal(10, RunCompleted)] && !Consecutive(events)
  {
    var done := Message(0, "done", true);
    assert TerminalOnly([done]) == TerminalOnly([]) + [done];
    var events := Replay(Config(false, false, true), Completed, Some(Counter(7, 9)), [done]);
    assert events == [Display(7, done), Terminal(10, RunCompleted)];
    assert events[1].sequence != events[0].sequence + 1;
  }

  /** A marker is there exactly when the status is terminal and replay evidence is kept; it is the
      last event, and no other event is a marker. */
  lemma MarkerIsLastAndOnly(c: Config, status: Status, counter: Option<Counter>, display: seq<Message>)
    ensures var events := Replay(c, status, counter, display);
      && (forall i :: 0 <= i < |events| ==> (events[i].Terminal? <==>
           i == |events| - 1 && c.Replays() && (status == Completed || status == Failed || status == Cancelled)))
      && (c.Replays() && (status == Completed || status == Failed || status == Cancelled) ==> events != [])
  {
  }

  // ---------------------------------------------------------------- cursors

  datatype Cursor = RawCursor(at: nat) | DisplayCursor(at: nat) | ReplayCursor(at: nat)

  ghost predicate IsMax(xs: seq<nat>, m: nat) { m in xs && forall i :: 0 <= i < |xs| ==> xs[i] <= m }

  method MaxOf(xs: seq<nat>) returns (m: Option<nat>)
    ensures m.None? <==> xs == []
    ensures m.Some? ==> IsMax(xs, m.value)
  {
    m := None;
    for i := 0 to |xs|
      invariant m.None? <==> i == 0
      invariant m.Some? ==> IsMax(xs[..i], m.value)
    {
      if m.None? || m.value <= xs[i] {
        m := Some(xs[i]);
        assert xs[..i + 1][i] == xs[i];
      }
      assert xs[..i + 1] == xs[..i] + [xs[i]];
    }
    assert xs[..|xs|] == xs;
  }

  function Sequences<T>(xs: seq<T>, sequence: T -> nat): (r: seq<nat>)
    ensures |r| == |xs|
    ensures forall i :: 0 <= i < |xs| ==> r[i] == sequence(xs[i])
  {
    seq(|xs|, i requires 0 <= i < |xs| => sequence(xs[i]))
  }

  function DisplaySequences(ms: seq<Message>): seq<nat> { Sequences(ms, (m: Message) => m.sequence) }

  function ReplaySequences(events: seq<Event>): seq<nat> { Sequences(events, (e: Event) => e.sequence) }

  /** One cursor per non-empty family, at the largest number of that family. */
  method StreamCursors(records: seq<nat>, display: seq<Message>, replay: seq<Event>) returns (cursors: seq<Cursor>)
    ensures forall n :: RawCursor(n) in cursors <==> IsMax(records, n)
    ensures forall n :: DisplayCursor(n) in cursors <==> IsMax(DisplaySequences(display), n)
    ensures forall n :: ReplayCursor(n) in cursors <==> IsMax(ReplaySequences(replay), n)
    ensures forall i, j :: 0 <= i < j < |cursors| ==> cursors[i] != cursors[j]
  {
    cursors := [];
    var raw := MaxOf(records);
    if raw.Some? {
      cursors := cursors + [RawCursor(raw.value)];
    }
    var shown := MaxOf(DisplaySequences(display));
    if shown.Some? {
      cursors := cursors + [DisplayCursor(shown.value)];
    }
    var replayed := MaxOf(ReplaySequences(replay));
    if replayed.Some? {
      cursors := cursors + [ReplayCursor(replayed.value)];
    }
  }

  /** The replay cursor of a finished run points at its marker, provided the counter did not move
      back between its two reads. */
  lemma ReplayCursorIsMarker(c: Config, status: Status, counter: Option<Counter>, display: seq<Message>, n: nat)
    requires c.Replays() && TerminalMarker(status).Some? && |display| <= MAX
    requires counter.Some? ==> counter.value.InRange()
    requires c.replayLog || CounterOr(counter, display).first <= CounterOr(counter, display).second
    ensures var events := Replay(c, status, counter, display);
      IsMax(ReplaySequences(events), n) <==> n == events[|events| - 1].sequence
  {
    var events := Replay(c, status, counter, display);
    var xs := ReplaySequences(events);
    var last := |events| - 1;
    assert xs[last] == events[last].sequence;
    assert forall i :: 0 <= i < |events| ==> xs[i] <= xs[last];
  }
}
