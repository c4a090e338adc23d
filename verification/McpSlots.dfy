/**
  Run-scoped connection slots: a map from run keys to lockable cells that hold at most one live
  connection. Prepare, exit and removal interleave, any task may be cancelled at any await, and a
  released lock is handed to the first waiter.
*/
module McpSlots {
  import opened Basics
  import opened Order

  /** A lockable cell; `key` is the run it was created for. */
  datatype Cell = Cell(key: string, content: Option<nat>, holder: Option<nat>, queue: seq<nat>)

  datatype Phase =
    | Preparing(slot: nat)  // wants the lock, or holds it and has not looked yet
    | Prepared(slot: nat)   // holds the lock over a connection
    | Exiting(slot: nat)    // wants the lock, or holds it and has not closed yet
    | Removing(slot: nat)   // has dropped the lock and will try to drop the slot

  datatype State = State(
    slots: map<string, nat>,    // the current cell of each run key
    cells: map<nat, Cell>,      // every cell ever made
    tasks: map<nat, Phase>,     // tasks that are inside prepare or exit
    live: map<nat, nat>,        // open connections and the cell each was opened for
    nextCell: nat, nextConnection: nat)

  datatype Event =
    | Prepare(task: nat, key: string)
    | Connect(task: nat, ok: bool)
    | FinishPrepare(task: nat)
    | Exit(task: nat, key: string)
    | Close(task: nat, ok: bool)
    | Remove(task: nat)
    | Cancel(task: nat)

  const Initial: State := State(map[], map[], map[], map[], 0, 0)

  // ---------------------------------------------------------------- locks

  function Join(c: Cell, t: nat): Cell {
    if c.holder.None? then c.(holder := Some(t)) else c.(queue := c.queue + [t])
  }

  /** Hands the lock to the first waiter. */
  function Release(c: Cell): Cell {
    if c.queue == [] then c.(holder := None) else c.(holder := Some(c.queue[0]), queue := c.queue[1..])
  }

  function Without(q: seq<nat>, t: nat): seq<nat> {
    if q == [] then []
    else Without(q[..|q| - 1], t) + (if q[|q| - 1] == t then [] else [q[|q| - 1]])
  }

  /** A cancelled task gives up the lock, or its place in the queue. */
  function Leave(c: Cell, t: nat): Cell {
    if c.holder == Some(t) then Release(c) else c.(queue := Without(c.queue, t))
  }

  predicate InLine(c: Cell, t: nat) { c.holder == Some(t) || t in c.queue }

  // ---------------------------------------------------------------- steps

  function Put(s: State, id: nat, c: Cell, t: nat, phase: Option<Phase>): State {
    s.(cells := s.cells[id := c],
       tasks := if phase.Some? then s.tasks[t := phase.value] else s.tasks - {t})
  }

  predicate Holds(s: State, t: nat) {
    t in s.tasks && s.tasks[t].slot in s.cells && s.cells[s.tasks[t].slot].holder == Some(t)
  }

  predicate Enabled(s: State, e: Event) {
    match e
    case Prepare(t, _) => t !in s.tasks
    case Connect(t, _) => Holds(s, t) && s.tasks[t].Preparing?
    case FinishPrepare(t) => Holds(s, t) && s.tasks[t].Prepared?
    case Exit(t, _) => t !in s.tasks
    case Close(t, _) => Holds(s, t) && s.tasks[t].Exiting?
    case Remove(t) => t in s.tasks && s.tasks[t].Removing?
    case Cancel(t) => t in s.tasks
  }

  function Opened(s: State, key: string): State {
    if key in s.slots then s
    else
      s.(slots := s.slots[key := s.nextCell],
         cells := s.cells[s.nextCell := Cell(key, None, None, [])],
         nextCell := s.nextCell + 1)
  }

  /** Takes the lock of the run's current cell, or queues for it. */
  function Enter(s: State, t: nat, key: string, exiting: bool): State {
    if key !in s.slots || s.slots[key] !in s.cells then s
    else
      var id := s.slots[key];
      Put(s, id, Join(s.cells[id], t), t, Some(if exiting then Exiting(id) else Preparing(id)))
  }

  function AfterConnect(s: State, t: nat, ok: bool): State
    requires Enabled(s, Connect(t, ok))
  {
    var id := s.tasks[t].slot;
    var c := s.cells[id];
    if c.content.Some? then s.(tasks := s.tasks[t := Prepared(id)])
    else if !ok then Put(s, id, Release(c), t, None)
    else
      Put(s, id, c.(content := Some(s.nextConnection)), t, Some(Prepared(id)))
        .(live := s.live[s.nextConnection := id], nextConnection := s.nextConnection + 1)
  }

  function AfterClose(s: State, t: nat, ok: bool): State
    requires Enabled(s, Close(t, ok))
  {
    var id := s.tasks[t].slot;
    var c := s.cells[id];
    if c.content.None? then Put(s, id, Release(c), t, Some(Removing(id)))
    else if !ok then Put(s, id, Release(c), t, None)
    else Put(s, id, Release(c.(content := None)), t, Some(Removing(id))).(live := s.live - {c.content.value})
  }

  /** Drops the slot if it is still the run's current one, nobody holds it and it is empty. */
  function AfterRemove(s: State, t: nat): State
    requires Enabled(s, Remove(t))
  {
    var id := s.tasks[t].slot;
    var freed := s.(tasks := s.tasks - {t});
    if Current(s, id) && s.cells[id].holder.None? && s.cells[id].content.None?
    then freed.(slots := s.slots - {s.cells[id].key}) else freed
  }

  function AfterCancel(s: State, t: nat): State
    requires Enabled(s, Cancel(t))
  {
    var id := s.tasks[t].slot;
    if s.tasks[t].Removing? || id !in s.cells then s.(tasks := s.tasks - {t})
    else Put(s, id, Leave(s.cells[id], t), t, None)
  }

  function Step(s: State, e: Event): State
    requires Enabled(s, e)
  {
    match e
    case Prepare(t, key) => Enter(Opened(s, key), t, key, false)
    case Connect(t, ok) => AfterConnect(s, t, ok)
    case FinishPrepare(t) => Put(s, s.tasks[t].slot, Release(s.cells[s.tasks[t].slot]), t, None)
    case Exit(t, key) => Enter(s, t, key, true)
    case Close(t, ok) => AfterClose(s, t, ok)
    case Remove(t) => AfterRemove(s, t)
    case Cancel(t) => AfterCancel(s, t)
  }

  // ---------------------------------------------------------------- the invariant

  predicate Current(s: State, id: nat) {
    id in s.cells && s.cells[id].key in s.slots && s.slots[s.cells[id].key] == id
  }

  ghost predicate LineOk(c: Cell) {
    && (c.holder.None? ==> c.queue == [])
    && AllDistinct(c.queue)
    && (c.holder.Some? ==> c.holder.value !in c.queue)
  }

  /** Only tasks that work on a cell are in its line, and a cell that is used is its run's current one. */
  ghost predicate CellOk(s: State, id: nat)
    requires id in s.cells
  {
    var c := s.cells[id];
    && id < s.nextCell && LineOk(c)
    && (forall t :: InLine(c, t) ==> t in s.tasks && s.tasks[t].slot == id && !s.tasks[t].Removing?)
    && (c.content.Some? || c.holder.Some? ==> Current(s, id))
  }

  ghost predicate TaskOk(s: State, t: nat)
    requires t in s.tasks
  {
    var p := s.tasks[t];
    && p.slot in s.cells
    && (!p.Removing? ==> InLine(s.cells[p.slot], t))
    && (p.Prepared? ==> s.cells[p.slot].holder == Some(t) && s.cells[p.slot].content.Some?)
  }

  /** Open connections are exactly the contents of cells, one cell each. */
  ghost predicate LiveOk(s: State) {
    && (forall c :: c in s.live ==>
      c < s.nextConnection && s.live[c] in s.cells && s.cells[s.live[c]].content == Some(c))
    && (forall id :: id in s.cells && s.cells[id].content.Some? ==>
          s.cells[id].content.value in s.live && s.live[s.cells[id].content.value] == id)
  }

  ghost predicate Inv(s: State) {
    && (forall key :: key in s.slots ==> s.slots[key] in s.cells && s.cells[s.slots[key]].key == key)
    && (forall id :: id in s.cells ==> CellOk(s, id))
    && (forall t :: t in s.tasks ==> TaskOk(s, t))
    && LiveOk(s)
  }

  // ---------------------------------------------------------------- lock lemmas

  lemma {:induction false} WithoutEffect(q: seq<nat>, t: nat)
    ensures forall u :: u in Without(q, t) <==> u in q && u != t
    ensures AllDistinct(q) ==> AllDistinct(Without(q, t))
  {
    if q != [] {
      var n := |q| - 1;
      assert q == q[..n] + [q[n]];
      WithoutEffect(q[..n], t);
      var front := Without(q[..n], t);
      assert AllDistinct(q) ==> AllDistinct(q[..n]) && q[n] !in q[..n];
      assert forall i :: 0 <= i < |front| ==> front[i] in front;
    }
  }

  lemma JoinEffect(c: Cell, t: nat)
    requires LineOk(c) && !InLine(c, t)
    ensures LineOk(Join(c, t)) && InLine(Join(c, t), t) && Join(c, t).holder.Some?
    ensures forall u :: u != t ==> (InLine(Join(c, t), u) <==> InLine(c, u))
  {
  }

  lemma ReleaseEffect(c: Cell)
    requires LineOk(c) && c.holder.Some?
    ensures LineOk(Release(c)) && !InLine(Release(c), c.holder.value)
    ensures forall u :: u != c.holder.value ==> (InLine(Release(c), u) <==> InLine(c, u))
  {
    if c.queue != [] { assert c.queue == [c.queue[0]] + c.queue[1..]; }
  }

  lemma LeaveEffect(c: Cell, t: nat)
    requires LineOk(c) && InLine(c, t)
    ensures LineOk(Leave(c, t)) && !InLine(Leave(c, t), t)
    ensures forall u :: u != t ==> (InLine(Leave(c, t), u) <==> InLine(c, u))
    ensures c.holder != Some(t) ==> Leave(c, t).holder == c.holder
    ensures Leave(c, t).holder.Some? ==> c.holder.Some?
  {
    if c.holder == Some(t) { ReleaseEffect(c); } else { WithoutEffect(c.queue, t); }
  }

  // ---------------------------------------------------------------- every step keeps it

  /** One cell and one task that works on it change; the contents are left alone. */
  ghost predicate Puts(s: State, id: nat, c: Cell, t: nat, phase: Option<Phase>) {
    && id in s.cells && (t in s.tasks ==> s.tasks[t].slot == id)
    && c.key == s.cells[id].key && c.content == s.cells[id].content && LineOk(c)
    && (forall u :: u != t ==> (InLine(c, u) <==> InLine(s.cells[id], u)))
    && (phase.Some? ==> phase.value.slot == id && !phase.value.Prepared?)
    && (InLine(c, t) <==> phase.Some? && !phase.value.Removing?)
    && (forall u :: u in s.tasks && u != t && s.tasks[u] == Prepared(id) ==> c.holder == Some(u))
    && (c.holder.Some? ==> Current(s, id))
  }

  lemma PutKeepsCell(s: State, id: nat, c: Cell, t: nat, phase: Option<Phase>, i: nat)
    requires Inv(s) && Puts(s, id, c, t, phase) && i in s.cells
    ensures CellOk(Put(s, id, c, t, phase), i)
  {
    var s' := Put(s, id, c, t, phase);
    assert CellOk(s, i) && CellOk(s, id);
    forall u | InLine(s'.cells[i], u) ensures u in s'.tasks && s'.tasks[u].slot == i && !s'.tasks[u].Removing? {
      if i == id && u != t { assert InLine(s.cells[id], u); }
    }
    assert s'.cells[i].content == s.cells[i].content && s'.cells[i].key == s.cells[i].key;
    assert Current(s, i) ==> Current(s', i);
  }

  lemma PutKeepsTask(s: State, id: nat, c: Cell, t: nat, phase: Option<Phase>, u: nat)
    requires Inv(s) && Puts(s, id, c, t, phase) && u in Put(s, id, c, t, phase).tasks
    ensures TaskOk(Put(s, id, c, t, phase), u)
  {
    if u != t { assert TaskOk(s, u); }
  }

  lemma PutKeepsLive(s: State, id: nat, c: Cell, t: nat, phase: Option<Phase>)
    requires Inv(s) && Puts(s, id, c, t, phase)
    ensures LiveOk(Put(s, id, c, t, phase))
  {
    var s' := Put(s, id, c, t, phase);
    assert forall i :: i in s'.cells ==> i in s.cells && s'.cells[i].content == s.cells[i].content;
  }

  lemma PutKeeps(s: State, id: nat, c: Cell, t: nat, phase: Option<Phase>)
    requires Inv(s) && Puts(s, id, c, t, phase)
    ensures Inv(Put(s, id, c, t, phase))
  {
    var s' := Put(s, id, c, t, phase);
    forall i | i in s'.cells ensures CellOk(s', i) { PutKeepsCell(s, id, c, t, phase, i); }
    forall u | u in s'.tasks ensures TaskOk(s', u) { PutKeepsTask(s, id, c, t, phase, u); }
    PutKeepsLive(s, id, c, t, phase);
  }

  lemma HolderFacts(s: State, t: nat)
    requires Inv(s) && Holds(s, t)
    ensures CellOk(s, s.tasks[t].slot) && Current(s, s.tasks[t].slot)
    ensures forall u :: u in s.tasks && u != t ==> s.tasks[u] != Prepared(s.tasks[t].slot)
  {
    assert TaskOk(s, t);
    forall u | u in s.tasks && u != t ensures s.tasks[u] != Prepared(s.tasks[t].slot) { assert TaskOk(s, u); }
  }

  lemma FreshCell(s: State)
    requires Inv(s)
    ensures s.nextCell !in s.cells && forall u :: u in s.tasks ==> s.tasks[u].slot != s.nextCell
  {
    assert s.nextCell in s.cells ==> CellOk(s, s.nextCell);
    assert forall u :: u in s.tasks ==> TaskOk(s, u);
  }

  lemma OpenedKeepsCell(s: State, key: string, i: nat)
    requires Inv(s) && key !in s.slots && i in Opened(s, key).cells
    ensures CellOk(Opened(s, key), i)
  {
    FreshCell(s);
    if i != s.nextCell {
      assert CellOk(s, i);
      assert Current(s, i) ==> Current(Opened(s, key), i);
    }
  }

  lemma OpenedKeepsTask(s: State, key: string, u: nat)
    requires Inv(s) && key !in s.slots && u in s.tasks
    ensures TaskOk(Opened(s, key), u)
  {
    FreshCell(s);
    assert TaskOk(s, u);
  }

  lemma OpenedKeepsLive(s: State, key: string)
    requires Inv(s) && key !in s.slots
    ensures LiveOk(Opened(s, key))
    ensures forall k :: k in Opened(s, key).slots ==>
      Opened(s, key).slots[k] in Opened(s, key).cells && Opened(s, key).cells[Opened(s, key).slots[k]].key == k
  {
    FreshCell(s);
  }

  lemma OpenedKeeps(s: State, key: string)
    requires Inv(s)
    ensures Inv(Opened(s, key)) && key in Opened(s, key).slots
    ensures Opened(s, key).tasks == s.tasks
  {
    var s' := Opened(s, key);
    if key !in s.slots {
      OpenedKeepsLive(s, key);
      forall i | i in s'.cells ensures CellOk(s', i) { OpenedKeepsCell(s, key, i); }
      forall u | u in s'.tasks ensures TaskOk(s', u) { OpenedKeepsTask(s, key, u); }
    }
  }

  lemma EnterKeeps(s: State, t: nat, key: string, exiting: bool)
    requires Inv(s) && t !in s.tasks && key in s.slots
    ensures Inv(Enter(s, t, key, exiting))
  {
    var id := s.slots[key];
    var phase := if exiting then Exiting(id) else Preparing(id);
    assert CellOk(s, id);
    assert !InLine(s.cells[id], t);
    JoinEffect(s.cells[id], t);
    forall u | u in s.tasks && u != t && s.tasks[u] == Prepared(id) ensures Join(s.cells[id], t).holder == Some(u) {
      assert TaskOk(s, u);
    }
    PutKeeps(s, id, Join(s.cells[id], t), t, Some(phase));
  }

  lemma ReleaseKeeps(s: State, t: nat, phase: Option<Phase>)
    requires Inv(s) && Holds(s, t) && (phase.None? || phase == Some(Removing(s.tasks[t].slot)))
    ensures Inv(Put(s, s.tasks[t].slot, Release(s.cells[s.tasks[t].slot]), t, phase))
  {
    HolderFacts(s, t);
    var id := s.tasks[t].slot;
    ReleaseEffect(s.cells[id]);
    PutKeeps(s, id, Release(s.cells[id]), t, phase);
  }

  lemma ReuseKeeps(s: State, t: nat)
    requires Inv(s) && Enabled(s, Connect(t, true)) && s.cells[s.tasks[t].slot].content.Some?
    ensures Inv(s.(tasks := s.tasks[t := Prepared(s.tasks[t].slot)]))
  {
    HolderFacts(s, t);
    var s' := s.(tasks := s.tasks[t := Prepared(s.tasks[t].slot)]);
    forall i | i in s'.cells ensures CellOk(s', i) { assert CellOk(s, i); }
    forall u | u in s'.tasks ensures TaskOk(s', u) { assert TaskOk(s, u); }
  }

  lemma OpenKeepsCell(s: State, t: nat, i: nat)
    requires Inv(s) && Enabled(s, Connect(t, true)) && s.cells[s.tasks[t].slot].content.None? && i in s.cells
    ensures CellOk(AfterConnect(s, t, true), i)
  {
    HolderFacts(s, t);
    var s' := AfterConnect(s, t, true);
    assert CellOk(s, i);
    assert forall u :: InLine(s'.cells[i], u) <==> InLine(s.cells[i], u);
    assert Current(s, i) ==> Current(s', i);
  }

  lemma OpenKeepsTask(s: State, t: nat, u: nat)
    requires Inv(s) && Enabled(s, Connect(t, true)) && s.cells[s.tasks[t].slot].content.None? && u in s.tasks
    ensures TaskOk(AfterConnect(s, t, true), u)
  {
    var s' := AfterConnect(s, t, true);
    assert TaskOk(s, u);
    assert InLine(s'.cells[s.tasks[u].slot], u) <==> InLine(s.cells[s.tasks[u].slot], u);
  }

  lemma OpenKeepsLive(s: State, t: nat)
    requires LiveOk(s) && Enabled(s, Connect(t, true)) && s.cells[s.tasks[t].slot].content.None?
    ensures LiveOk(AfterConnect(s, t, true))
  {
    assert s.nextConnection !in s.live;
  }

  lemma OpenKeeps(s: State, t: nat)
    requires Inv(s) && Enabled(s, Connect(t, true)) && s.cells[s.tasks[t].slot].content.None?
    ensures Inv(AfterConnect(s, t, true))
  {
    var s' := AfterConnect(s, t, true);
    forall i | i in s'.cells ensures CellOk(s', i) { OpenKeepsCell(s, t, i); }
    forall u | u in s'.tasks ensures TaskOk(s', u) { OpenKeepsTask(s, t, u); }
    OpenKeepsLive(s, t);
  }

  /** Closing empties the cell while the lock is still held. */
  function Emptied(s: State, t: nat): State
    requires Holds(s, t) && s.cells[s.tasks[t].slot].content.Some?
  {
    var id := s.tasks[t].slot;
    s.(cells := s.cells[id := s.cells[id].(content := None)], live := s.live - {s.cells[id].content.value})
  }

  lemma EmptiedKeepsCell(s: State, t: nat, i: nat)
    requires Inv(s) && Holds(s, t) && s.cells[s.tasks[t].slot].content.Some? && i in s.cells
    ensures CellOk(Emptied(s, t), i)
  {
    var s' := Emptied(s, t);
    assert CellOk(s, i);
    assert forall u :: InLine(s'.cells[i], u) <==> InLine(s.cells[i], u);
  }

  lemma EmptiedKeepsTask(s: State, t: nat, u: nat)
    requires Inv(s) && Holds(s, t) && s.tasks[t].Exiting? && s.cells[s.tasks[t].slot].content.Some? && u in s.tasks
    ensures TaskOk(Emptied(s, t), u)
  {
    HolderFacts(s, t);
    var s' := Emptied(s, t);
    assert TaskOk(s, u);
    assert InLine(s'.cells[s.tasks[u].slot], u) <==> InLine(s.cells[s.tasks[u].slot], u);
  }

  lemma EmptiedKeeps(s: State, t: nat)
    requires Inv(s) && Holds(s, t) && s.tasks[t].Exiting? && s.cells[s.tasks[t].slot].content.Some?
    ensures Inv(Emptied(s, t)) && Holds(Emptied(s, t), t)
  {
    HolderFacts(s, t);
    var s' := Emptied(s, t);
    forall i | i in s'.cells ensures CellOk(s', i) { EmptiedKeepsCell(s, t, i); }
    forall u | u in s'.tasks ensures TaskOk(s', u) { EmptiedKeepsTask(s, t, u); }
  }

  lemma CloseIsEmptyThenRelease(s: State, t: nat)
    requires Enabled(s, Close(t, true)) && s.cells[s.tasks[t].slot].content.Some?
    ensures var id, e := s.tasks[t].slot, Emptied(s, t);
      AfterClose(s, t, true) == Put(e, id, Release(e.cells[id]), t, Some(Removing(id)))
  {
    var id, e := s.tasks[t].slot, Emptied(s, t);
    assert s.cells[id := Release(e.cells[id])] == e.cells[id := Release(e.cells[id])];
  }

  lemma CloseKeeps(s: State, t: nat, ok: bool)
    requires Inv(s) && Enabled(s, Close(t, ok))
    ensures Inv(AfterClose(s, t, ok))
  {
    var id := s.tasks[t].slot;
    if s.cells[id].content.None? {
      ReleaseKeeps(s, t, Some(Removing(id)));
    } else if !ok {
      ReleaseKeeps(s, t, None);
    } else {
      EmptiedKeeps(s, t);
      ReleaseKeeps(Emptied(s, t), t, Some(Removing(id)));
      CloseIsEmptyThenRelease(s, t);
    }
  }

  lemma RemoveKeeps(s: State, t: nat)
    requires Inv(s) && Enabled(s, Remove(t))
    ensures Inv(AfterRemove(s, t))
  {
    var s' := AfterRemove(s, t);
    assert TaskOk(s, t);
    forall i | i in s'.cells ensures CellOk(s', i) {
      assert CellOk(s, i);
      if s.cells[i].content.Some? || s.cells[i].holder.Some? {
        assert Current(s, i);
      }
    }
    forall u | u in s'.tasks ensures TaskOk(s', u) { assert TaskOk(s, u); }
  }

  lemma CancelKeeps(s: State, t: nat)
    requires Inv(s) && Enabled(s, Cancel(t))
    ensures Inv(AfterCancel(s, t))
  {
    assert TaskOk(s, t);
    var id := s.tasks[t].slot;
    assert CellOk(s, id);
    if s.tasks[t].Removing? {
      var s' := AfterCancel(s, t);
      forall i | i in s'.cells ensures CellOk(s', i) { assert CellOk(s, i); }
      forall u | u in s'.tasks ensures TaskOk(s', u) { assert TaskOk(s, u); }
    } else {
      var c := Leave(s.cells[id], t);
      LeaveEffect(s.cells[id], t);
      forall u | u in s.tasks && u != t && s.tasks[u] == Prepared(id) ensures c.holder == Some(u) {
        assert TaskOk(s, u);
      }
      PutKeeps(s, id, c, t, None);
    }
  }

  lemma StepKeeps(s: State, e: Event)
    requires Inv(s) && Enabled(s, e)
    ensures Inv(Step(s, e))
  {
    match e
    case Prepare(t, key) =>
      OpenedKeeps(s, key);
      EnterKeeps(Opened(s, key), t, key, false);
    case Connect(t, ok) =>
      if s.cells[s.tasks[t].slot].content.Some? { ReuseKeeps(s, t); }
      else if ok { OpenKeeps(s, t); }
      else { ReleaseKeeps(s, t, None); }
    case FinishPrepare(t) => ReleaseKeeps(s, t, None);
    case Exit(t, key) => if key in s.slots { EnterKeeps(s, t, key, true); }
    case Close(t, ok) => CloseKeeps(s, t, ok);
    case Remove(t) => RemoveKeeps(s, t);
    case Cancel(t) => CancelKeeps(s, t);
  }

  // ---------------------------------------------------------------- whole runs

  ghost predicate Run(ss: seq<State>, es: seq<Event>) {
    && |ss| == |es| + 1 && ss[0] == Initial
    && forall i :: 0 <= i < |es| ==> Enabled(ss[i], es[i]) && ss[i + 1] == Step(ss[i], es[i])
  }

  lemma {:induction false} AlwaysInv(ss: seq<State>, es: seq<Event>, i: nat)
    requires Run(ss, es) && i < |ss|
    ensures Inv(ss[i])
  {
    if i > 0 {
      AlwaysInv(ss, es, i - 1);
      StepKeeps(ss[i - 1], es[i - 1]);
    }
  }

  /** In every reachable state each open connection sits in the current slot of its run, and a run
      has at most one. */
  lemma ConnectionsAreReachable(ss: seq<State>, es: seq<Event>, i: nat, c: nat)
    requires Run(ss, es) && i < |ss| && c in ss[i].live
    ensures var s := ss[i]; Current(s, s.live[c]) && s.cells[s.live[c]].content == Some(c)
    ensures var s := ss[i]; forall d :: d in s.live && d != c ==>
      s.live[d] in s.cells && s.live[c] in s.cells && s.cells[s.live[d]].key != s.cells[s.live[c]].key
  {
    AlwaysInv(ss, es, i);
    var s := ss[i];
    assert CellOk(s, s.live[c]);
    forall d | d in s.live && d != c ensures s.cells[s.live[d]].key != s.cells[s.live[c]].key {
      assert CellOk(s, s.live[d]);
    }
  }

  lemma OnlyRemoveDrops(s: State, e: Event)
    requires Enabled(s, e) && !e.Remove?
    ensures s.slots.Keys <= Step(s, e).slots.Keys
  {
  }

  lemma RemoveDropsUnused(s: State, t: nat, key: string)
    requires Inv(s) && Enabled(s, Remove(t)) && key in s.slots && key !in AfterRemove(s, t).slots
    ensures s.cells[s.slots[key]].content.None? && s.cells[s.slots[key]].holder.None?
  {
  }

  /** A slot is dropped only when nobody holds it, nobody waits for it and it holds no connection. */
  lemma RemovalIsSafe(ss: seq<State>, es: seq<Event>, i: nat, key: string)
    requires Run(ss, es) && i < |es| && key in ss[i].slots && key !in ss[i + 1].slots
    ensures var s := ss[i];
      && s.slots[key] in s.cells
      && s.cells[s.slots[key]].content.None? && s.cells[s.slots[key]].holder.None? && s.cells[s.slots[key]].queue == []
      && forall t :: t in s.tasks && s.tasks[t].slot == s.slots[key] ==> s.tasks[t].Removing?
  {
    var s := ss[i];
    AlwaysInv(ss, es, i);
    if !es[i].Remove? { OnlyRemoveDrops(s, es[i]); }
    RemoveDropsUnused(s, es[i].task, key);
    var id := s.slots[key];
    assert CellOk(s, id);
    forall t | t in s.tasks && s.tasks[t].slot == id ensures s.tasks[t].Removing? { assert TaskOk(s, t); }
  }

  /** Connections close only in a successful exit of their own run; a failed or cancelled one leaves
      the connection where the next exit finds it. */
  lemma OnlyExitCloses(ss: seq<State>, es: seq<Event>, i: nat, c: nat)
    requires Run(ss, es) && i < |es| && c in ss[i].live
    ensures c in ss[i + 1].live <==>
      !(es[i].Close? && es[i].ok && es[i].task in ss[i].tasks && ss[i].tasks[es[i].task].slot == ss[i].live[c])
    ensures c in ss[i + 1].live ==> ss[i + 1].live[c] == ss[i].live[c]
  {
    AlwaysInv(ss, es, i);
    var s := ss[i];
    var e := es[i];
    if e.Close? {
      var id := s.tasks[e.task].slot;
      assert s.cells[s.live[c]].content == Some(c);
    }
  }

  // ---------------------------------------------------------------- what each step does

  /** Nothing but cell `id` and task `t` differ, apart from slots and open connections. */
  ghost predicate OnlyCell(a: State, b: State, id: nat, t: nat) {
    && a.cells.Keys == b.cells.Keys
    && (forall i :: i in a.cells && i != id ==> b.cells[i] == a.cells[i])
    && (forall u :: u != t ==> (u in a.tasks <==> u in b.tasks))
    && (forall u :: u != t && u in a.tasks && u in b.tasks ==> b.tasks[u] == a.tasks[u])
  }

  /** The lock went from its holder to the first waiter, if anybody waits. */
  predicate HandedOn(a: Cell, b: Cell) {
    && b.key == a.key
    && (a.queue == [] ==> b.holder == None && b.queue == [])
    && (a.queue != [] ==> b.holder == Some(a.queue[0]) && a.queue == [a.queue[0]] + b.queue)
  }

  /** A newcomer has the lock of a free cell, and is last in line otherwise. */
  predicate Joined(a: Cell, b: Cell, t: nat) {
    && b.key == a.key && b.content == a.content
    && (a.holder.None? ==> b.holder == Some(t) && b.queue == a.queue)
    && (a.holder.Some? ==> b.holder == a.holder && b.queue == a.queue + [t])
  }

  /** A run that has no slot gets an empty one; the caller enters the run's current cell. */
  lemma PrepareEnters(s: State, t: nat, key: string)
    requires Inv(s) && Enabled(s, Prepare(t, key))
    ensures
      var next := Step(s, Prepare(t, key));
      && key in next.slots && next.live == s.live
      && (forall k :: k in s.slots ==> k in next.slots && next.slots[k] == s.slots[k])
      && (forall k :: k in next.slots && k != key ==> k in s.slots)
      && t in next.tasks && next.tasks[t] == Preparing(next.slots[key]) && next.slots[key] in next.cells
      && (key in s.slots ==>
            OnlyCell(s, next, s.slots[key], t) && Joined(s.cells[s.slots[key]], next.cells[s.slots[key]], t))
      && (key !in s.slots ==>
            && next.slots[key] !in s.cells && next.cells[next.slots[key]] == Cell(key, None, Some(t), [])
            && forall i :: i in s.cells ==> i in next.cells && next.cells[i] == s.cells[i])
  {
    FreshCell(s);
  }

  /** An exit enters the run's current cell, and has nothing to do where there is none. */
  lemma ExitEnters(s: State, t: nat, key: string)
    requires Inv(s) && Enabled(s, Exit(t, key))
    ensures
      var next := Step(s, Exit(t, key));
      && next.live == s.live && next.slots == s.slots
      && (key !in s.slots ==> next == s)
      && (key in s.slots ==>
            && t in next.tasks && next.tasks[t] == Exiting(s.slots[key]) && OnlyCell(s, next, s.slots[key], t)
            && Joined(s.cells[s.slots[key]], next.cells[s.slots[key]], t))
  {
  }

  /** A prepare that holds the lock: a connection that is there is used again; otherwise a successful
      connect opens exactly one new connection, in the run's current cell; a failed one opens nothing
      and hands the lock on. */
  ghost predicate Connects(s: State, next: State, t: nat, ok: bool) {
    && t in s.tasks && s.tasks[t].slot in s.cells && s.tasks[t].slot in next.cells
    && var id := s.tasks[t].slot;
    var before, cell := s.cells[id], next.cells[id];
    && OnlyCell(s, next, id, t) && next.slots == s.slots && Current(next, id)
    && (before.content.Some? ==>
          next.live == s.live && cell == before && t in next.tasks && next.tasks[t] == Prepared(id))
    && (before.content.None? && ok ==>
          && cell.content.Some? && cell.content.value !in s.live && next.live == s.live[cell.content.value := id]
          && cell.(content := None) == before && t in next.tasks && next.tasks[t] == Prepared(id))
    && (before.content.None? && !ok ==>
          next.live == s.live && HandedOn(before, cell) && cell.content == None && t !in next.tasks)
  }

  /** In every run each connect does just that. */
  lemma ConnectionsAreOpened(ss: seq<State>, es: seq<Event>, i: nat)
    requires Run(ss, es) && i < |es| && es[i].Connect?
    ensures Connects(ss[i], ss[i + 1], es[i].task, es[i].ok)
  {
    AlwaysInv(ss, es, i);
    ConnectOpens(ss[i], es[i].task, es[i].ok);
  }

  lemma ConnectOpens(s: State, t: nat, ok: bool)
    requires Inv(s) && Enabled(s, Connect(t, ok))
    ensures Connects(s, Step(s, Connect(t, ok)), t, ok)
  {
    HolderFacts(s, t);
    ReleaseHands(s.cells[s.tasks[t].slot], None);
    var id := s.tasks[t].slot;
    var next := AfterConnect(s, t, ok);
    var phase := if t in next.tasks then Some(next.tasks[t]) else None;
    PutTouches(s, id, next.cells[id], t, phase);
    assert s.cells[id := s.cells[id]] == s.cells;
    SameCellsAndTasks(s, Put(s, id, next.cells[id], t, phase), next, id, t);
  }

  /** A finished prepare keeps the connection where it is and hands the lock on. */
  lemma FinishedPrepareKeeps(s: State, t: nat)
    requires Inv(s) && Enabled(s, FinishPrepare(t))
    ensures
      var id := s.tasks[t].slot;
      var next := Step(s, FinishPrepare(t));
      && OnlyCell(s, next, id, t) && next.slots == s.slots && next.live == s.live && t !in next.tasks
      && HandedOn(s.cells[id], next.cells[id]) && next.cells[id].content == s.cells[id].content
      && next.cells[id].content.Some?
  {
    assert TaskOk(s, t);
    ReleaseHands(s.cells[s.tasks[t].slot], s.cells[s.tasks[t].slot].content);
  }

  lemma ReleaseHands(c: Cell, content: Option<nat>)
    ensures HandedOn(c, Release(c.(content := content)))
  {
    if c.queue != [] { assert c.queue == [c.queue[0]] + c.queue[1..]; }
  }

  lemma PutTouches(s: State, id: nat, c: Cell, t: nat, phase: Option<Phase>)
    requires id in s.cells
    ensures OnlyCell(s, Put(s, id, c, t, phase), id, t)
  {
  }

  lemma SameCellsAndTasks(a: State, b: State, c: State, id: nat, t: nat)
    requires OnlyCell(a, b, id, t) && c.cells == b.cells && c.tasks == b.tasks
    ensures OnlyCell(a, c, id, t)
  {
  }

  lemma CloseHandsOn(s: State, t: nat, ok: bool)
    requires Inv(s) && Enabled(s, Close(t, ok))
    ensures HandedOn(s.cells[s.tasks[t].slot], AfterClose(s, t, ok).cells[s.tasks[t].slot])
  {
    ReleaseHands(s.cells[s.tasks[t].slot], None);
    ReleaseHands(s.cells[s.tasks[t].slot], s.cells[s.tasks[t].slot].content);
  }

  lemma CloseTouches(s: State, t: nat, ok: bool)
    requires Inv(s) && Enabled(s, Close(t, ok))
    ensures OnlyCell(s, AfterClose(s, t, ok), s.tasks[t].slot, t) && AfterClose(s, t, ok).slots == s.slots
  {
    var id := s.tasks[t].slot;
    var next := AfterClose(s, t, ok);
    var phase := if t in next.tasks then Some(next.tasks[t]) else None;
    PutTouches(s, id, next.cells[id], t, phase);
    SameCellsAndTasks(s, Put(s, id, next.cells[id], t, phase), next, id, t);
  }

  /** An exit that holds the lock hands it on. A successful close takes exactly the cell's connection
      away; a failed one keeps it for a later exit. Only what is empty then goes on to be removed. */
  lemma CloseTakesOne(s: State, t: nat, ok: bool)
    requires Inv(s) && Enabled(s, Close(t, ok))
    ensures
      var id := s.tasks[t].slot;
      var next := Step(s, Close(t, ok));
      var before := s.cells[id].content;
      && OnlyCell(s, next, id, t) && next.slots == s.slots && HandedOn(s.cells[id], next.cells[id])
      && next.cells[id].content == (if ok then None else before)
      && next.live == (if ok && before.Some? then s.live - {before.value} else s.live)
      && (t in next.tasks <==> ok || before.None?) && (t in next.tasks ==> next.tasks[t] == Removing(id))
  {
    CloseTouches(s, t, ok);
    CloseHandsOn(s, t, ok);
  }

  /** Nobody but a task that is about to remove the cell works on it. */
  ghost predicate Unused(s: State, id: nat) {
    forall u :: u in s.tasks && s.tasks[u].slot == id ==> s.tasks[u].Removing?
  }

  lemma UnusedMeansFree(s: State, id: nat)
    requires Inv(s) && id in s.cells
    ensures Unused(s, id) <==> s.cells[id].holder.None?
  {
    assert CellOk(s, id);
    if s.cells[id].holder.None? {
      forall u | u in s.tasks && s.tasks[u].slot == id ensures s.tasks[u].Removing? { assert TaskOk(s, u); }
    } else {
      assert InLine(s.cells[id], s.cells[id].holder.value);
    }
  }

  /** A slot is dropped exactly when it is the run's current one, empty, free and awaited by nobody. */
  lemma RemovalIsExact(s: State, t: nat, key: string)
    requires Inv(s) && Enabled(s, Remove(t))
    ensures
      var next := Step(s, Remove(t));
      && next.cells == s.cells && next.live == s.live && next.tasks == s.tasks - {t}
      && (key in next.slots ==> key in s.slots && next.slots[key] == s.slots[key])
    ensures key in s.slots ==>
      var id := s.tasks[t].slot;
      (key !in Step(s, Remove(t)).slots <==>
         s.slots[key] == id && id in s.cells && s.cells[id].content.None? && Unused(s, id))
  {
    assert TaskOk(s, t);
    UnusedMeansFree(s, s.tasks[t].slot);
  }

  /** A cancelled task is gone: it hands the lock on or gives up its place in line, where the others keep
      their order; connections and slots stay. */
  lemma CancelLeaves(s: State, t: nat)
    requires Inv(s) && Enabled(s, Cancel(t))
    ensures
      var id := s.tasks[t].slot;
      var next := Step(s, Cancel(t));
      var before, cell := s.cells[id], next.cells[id];
      && id in s.cells && OnlyCell(s, next, id, t) && t !in next.tasks && next.slots == s.slots && next.live == s.live
      && cell.content == before.content
      && (before.holder == Some(t) ==> HandedOn(before, cell))
      && (before.holder != Some(t) ==> cell.holder == before.holder)
      && (before.holder != Some(t) && t in before.queue ==>
            exists k :: 0 <= k < |before.queue| && before.queue[k] == t
                        && cell.queue == before.queue[..k] + before.queue[k + 1..])
  {
    assert TaskOk(s, t);
    var id := s.tasks[t].slot;
    assert CellOk(s, id);
    var q := s.cells[id].queue;
    ReleaseHands(s.cells[id], s.cells[id].content);
    PutTouches(s, id, Leave(s.cells[id], t), t, None);
    if s.cells[id].holder != Some(t) && t in q {
      var k :| 0 <= k < |q| && q[k] == t;
      WithoutOne(q, t, k);
    }
  }

  lemma {:induction false} WithoutOne(q: seq<nat>, t: nat, k: nat)
    requires AllDistinct(q) && k < |q| && q[k] == t
    ensures Without(q, t) == q[..k] + q[k + 1..]
  {
    var n := |q| - 1;
    var front := q[..n];
    if k == n {
      WithoutNone(front, t);
    } else {
      WithoutOne(front, t, k);
      assert q[k + 1..] == front[k + 1..] + [q[n]] && q[..k] == front[..k];
      assert front[..k] + front[k + 1..] + [q[n]] == front[..k] + (front[k + 1..] + [q[n]]);
    }
  }

  lemma {:induction false} WithoutNone(q: seq<nat>, t: nat)
    requires t !in q
    ensures Without(q, t) == q
  {
    if q != [] {
      WithoutNone(q[..|q| - 1], t);
      assert q == q[..|q| - 1] + [q[|q| - 1]];
    }
  }
}
