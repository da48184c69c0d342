/**
 The life of the connections of a `TcpServer`, across the base loop that accepts and keeps
 the table and any number of io loops that handle events. Each pending functor is kept in a
 bag, so every order in which the loops can take them is covered.
 */
module ServerLifecycle {
  import opened Wrappers
  import opened Registration
  import opened ConnectionSpec

  type Id = nat    // nextConnId_, which the connection name is injective in
  type LoopId = nat

  /** The loop that owns the server. A connection may share it or live in another. */
  const BASE: LoopId := 0

  /** What the user's connection callback sees: `connected()` or not. */
  datatype Notice = Up | Down

  /** `reading` is `reading_`, which only `startRead` and `stopRead` change. */
  datatype Life = Life(loop: LoopId, state: ConnState, mask: Mask, index: Index, reading: bool, notices: seq<Notice>) {
    predicate Open() { state.Connected? || state.Disconnecting? }
  }

  /** Functors in the io loops' queues. */
  datatype IoTask = Established(id: Id) | ForceClosing(id: Id) | Destroyed(id: Id)

  /** Reported events, and what the read and the write will find. */
  datatype Event = Event(readable: bool, writable: bool, hup: bool, eof: bool, drained: bool)

  datatype Server = Server(
    nextId: Id,
    conns: map<Id, Life>,
    table: set<Id>,             // connections_
    io: multiset<IoTask>,
    base: multiset<Id>,         // queued removeConnectionInLoop
    active: map<Id, Event>,     // polled and not yet handled
    rearmed: set<Id>,           // history: closed, and put into the kernel's list all the same
    ok: bool)                   // every assert met so far has held

  datatype Action =
    | Accept(loop: LoopId)
    | RunIo(task: IoTask)
    | RunBase(id: Id)
    | Report(id: Id, ev: Event)
    | Handle(id: Id)
    | StartWriting(id: Id)
    | Shutdown(id: Id)
    | ForceClose(id: Id)
    | StopRead(id: Id)
    | StartRead(id: Id)

  // ---- Operations ---------------------------------------------------------------------

  function SetMask(l: Life, m: Mask): Life {
    l.(mask := m, index := Updated(l.index, m))
  }

  function Put(s: Server, id: Id, l: Life): Server {
    s.(conns := s.conns[id := l])
  }

  function Check(s: Server, held: bool): Server {
    s.(ok := s.ok && held)
  }

  /** `newConnection`; `runInLoop` runs `connectEstablished` at once in the base loop. */
  function NewConnection(s: Server, loop: LoopId): Server {
    var id := s.nextId;
    var s' := Put(s, id, Life(loop, Connecting, Mask(false, false), New, true, []))
              .(nextId := id + 1, table := s.table + {id});
    if loop == BASE then Establish(s', id) else s'.(io := s.io + multiset{Established(id)})
  }

  function Establish(s: Server, id: Id): Server
    requires id in s.conns
  {
    var l := s.conns[id];
    var l' := SetMask(l.(state := Connected), l.mask.(read := true));
    Put(Check(s, l.state.Connecting?), id, l'.(notices := l.notices + [Up]))
  }

  function CloseLife(l: Life): Life {
    SetMask(l.(state := Disconnected), Mask(false, false)).(notices := l.notices + [Down])
  }

  /** Records whether a closed connection was just put back. */
  function Rearm(s: Server, id: Id, again: bool): Server {
    if again then s.(rearmed := s.rearmed + {id}) else s
  }

  /** `handleClose`, ending in the close callback. Emptying an empty mask puts the channel back. */
  function Close(s: Server, id: Id): Server
    requires id in s.conns
  {
    var l := s.conns[id];
    RemoveConnection(Rearm(Put(Check(s, l.Open()), id, CloseLife(l)), id, l.mask.None()), id)
  }

  /** `removeConnection`: `runInLoop` of the base loop. */
  function RemoveConnection(s: Server, id: Id): Server
    requires id in s.conns
  {
    if s.conns[id].loop == BASE then RemoveInLoop(s, id) else s.(base := s.base + multiset{id})
  }

  /** `removeConnectionInLoop`. */
  function RemoveInLoop(s: Server, id: Id): Server {
    Check(s, id in s.table).(table := s.table - {id}, io := s.io + multiset{Destroyed(id)})
  }

  /** `connectDestroyed`. */
  function Destroy(s: Server, id: Id): Server
    requires id in s.conns
  {
    var l := if s.conns[id].state.Connected? then CloseLife(s.conns[id]) else s.conns[id];
    Put(Check(s, l.mask.None() && !l.index.New? && id !in s.active), id, l.(index := New))
  }

  /** `handleEvent`: close on a bare hang-up, then read, then write. */
  function Dispatch(s: Server, id: Id, ev: Event): Server
    requires id in s.conns
  {
    var s1 := if ev.hup && !ev.readable then Close(s, id) else s;
    var s2 := if ev.readable && ev.eof then Close(s1, id) else s1;
    var l := s2.conns[id];
    if ev.writable && l.mask.write && ev.drained then Put(s2, id, SetMask(l, l.mask.(write := false))) else s2
  }

  /** `stopReadInLoop` and `startReadInLoop`: neither looks at the state of the connection. */
  function SetReading(s: Server, id: Id, on: bool): Server
    requires id in s.conns
  {
    var l := s.conns[id];
    if if on then l.reading && l.mask.read else !l.reading && !l.mask.read then s
    else Rearm(Put(s, id, SetMask(l, l.mask.(read := on)).(reading := on)), id, !l.Open())
  }

  /** No connection of the loop has a polled event waiting, so the loop runs functors. */
  ghost predicate Quiet(s: Server, loop: LoopId) {
    forall i :: i in s.active && i in s.conns ==> s.conns[i].loop != loop
  }

  ghost predicate Enabled(s: Server, a: Action) {
    match a
    case Accept(_) => true
    case RunIo(t) => t in s.io && t.id in s.conns && Quiet(s, s.conns[t.id].loop)
    case RunBase(id) => id in s.base
    case Report(id, ev) =>
      && id in s.conns && s.conns[id].index.Added? && id !in s.active
      && (ev.readable ==> s.conns[id].mask.read) && (ev.writable ==> s.conns[id].mask.write)
    case Handle(id) => id in s.active && id in s.conns
    case StartWriting(id) => id in s.conns && s.conns[id].Open()
    case Shutdown(id) => id in s.conns && s.conns[id].state.Connected?
    case ForceClose(id) => id in s.conns && s.conns[id].Open()
    // The user learns of a connection through its first notice.
    case StopRead(id) => id in s.conns && s.conns[id].notices != []
    case StartRead(id) => id in s.conns && s.conns[id].notices != []
  }

  ghost function Apply(s: Server, a: Action): Server
    requires Enabled(s, a)
  {
    match a
    case Accept(loop) => NewConnection(s, loop)
    case RunIo(t) => RunTask(s.(io := s.io - multiset{t}), t)
    case RunBase(id) => RemoveInLoop(s.(base := s.base - multiset{id}), id)
    case Report(id, ev) => s.(active := s.active[id := ev])
    case Handle(id) => Dispatch(s.(active := s.active - {id}), id, s.active[id])
    case StartWriting(id) => Put(s, id, SetMask(s.conns[id], s.conns[id].mask.(write := true)))
    case Shutdown(id) => Put(s, id, s.conns[id].(state := Disconnecting))
    case ForceClose(id) =>
      Put(s, id, s.conns[id].(state := Disconnecting)).(io := s.io + multiset{ForceClosing(id)})
    case StopRead(id) => SetReading(s, id, false)
    case StartRead(id) => SetReading(s, id, true)
  }

  function RunTask(s: Server, t: IoTask): Server
    requires t.id in s.conns
  {
    match t
    case Established(id) => Establish(s, id)
    case ForceClosing(id) => if s.conns[id].Open() then Close(s, id) else s
    case Destroyed(id) => Destroy(s, id)
  }

  ghost function Step(s: Server, a: Action): Server {
    if Enabled(s, a) then Apply(s, a) else s
  }

  ghost function Exec(acts: seq<Action>): Server {
    if acts == [] then Server(1, map[], {}, multiset{}, multiset{}, map[], {}, true)
    else Step(Exec(acts[..|acts| - 1]), acts[|acts| - 1])
  }

  // ---- The invariant --------------------------------------------------------------------

  /** Where a connection stands, told by its record and by the functors that mention it. */
  ghost predicate Waiting(s: Server, id: Id, established: nat, removals: nat, destroyed: nat) {
    s.io[Established(id)] == established && s.base[id] == removals && s.io[Destroyed(id)] == destroyed
  }

  ghost predicate Consistent(s: Server, id: Id)
    requires id in s.conns
  {
    var l := s.conns[id];
    match l.state
    case Connecting =>
      && l.mask.None() && l.index.New? && l.reading && l.notices == [] && l.loop != BASE
      && Waiting(s, id, 1, 0, 0) && id in s.table && id !in s.active && s.io[ForceClosing(id)] == 0
    case Disconnected =>
      && l.mask.None() && l.notices == [Up, Down] && id !in s.active
      && (|| (l.index.Deleted? && Waiting(s, id, 0, 1, 0) && id in s.table)
          || (l.index.Deleted? && Waiting(s, id, 0, 0, 1) && id !in s.table)
          || (l.index.New? && Waiting(s, id, 0, 0, 0) && id !in s.table))
    case _ =>
      && l.reading == l.mask.read && !l.index.New? && (l.index.Deleted? <==> l.mask.None()) && l.notices == [Up]
      && Waiting(s, id, 0, 0, 0) && id in s.table
  }

  ghost predicate Unborn(s: Server, id: Id) {
    Waiting(s, id, 0, 0, 0) && id !in s.table && id !in s.active && s.io[ForceClosing(id)] == 0
  }

  /** Nothing is promised of a connection once it is closed and yet in the kernel's list. */
  ghost predicate InvAt(s: Server, id: Id) {
    if id in s.conns then id < s.nextId && (id !in s.rearmed ==> Consistent(s, id))
    else Unborn(s, id) && id !in s.rearmed
  }

  ghost predicate Inv(s: Server) {
    (s.rearmed == {} ==> s.ok) && forall id :: InvAt(s, id)
  }

  // ---- Preservation ---------------------------------------------------------------------

  /** Nothing that mentions `id` changes. */
  ghost predicate SameAt(s: Server, s': Server, id: Id) {
    && (id in s.conns <==> id in s'.conns)
    && (id in s.conns ==> s.conns[id] == s'.conns[id])
    && (id in s.table <==> id in s'.table) && (id in s.active <==> id in s'.active)
    && (id in s.rearmed <==> id in s'.rearmed)
    && s.base[id] == s'.base[id] && s.io[Established(id)] == s'.io[Established(id)]
    && s.io[Destroyed(id)] == s'.io[Destroyed(id)] && s.io[ForceClosing(id)] == s'.io[ForceClosing(id)]
    && s.nextId <= s'.nextId
  }

  function Subject(s: Server, a: Action): Id {
    match a
    case Accept(_) => s.nextId
    case RunIo(t) => t.id
    case RunBase(id) => id
    case Report(id, _) => id
    case Handle(id) => id
    case StartWriting(id) => id
    case Shutdown(id) => id
    case ForceClose(id) => id
    case StopRead(id) => id
    case StartRead(id) => id
  }

  // A step touches one connection only.

  lemma RemoveOther(s: Server, x: Id, id: Id)
    requires id != x
    ensures SameAt(s, RemoveInLoop(s, x), id)
  {
  }

  lemma EstablishOther(s: Server, x: Id, id: Id)
    requires id != x && x in s.conns
    ensures SameAt(s, Establish(s, x), id)
  {
  }

  lemma DestroyOther(s: Server, x: Id, id: Id)
    requires id != x && x in s.conns
    ensures SameAt(s, Destroy(s, x), id)
  {
  }

  lemma CloseOther(s: Server, x: Id, id: Id)
    requires id != x && x in s.conns
    ensures SameAt(s, Close(s, x), id) && x in Close(s, x).conns
  {
  }

  lemma DispatchOther(s: Server, x: Id, ev: Event, id: Id)
    requires id != x && x in s.conns
    ensures SameAt(s, Dispatch(s, x, ev), id)
  {
    CloseOther(s, x, id);
    var s1 := if ev.hup && !ev.readable then Close(s, x) else s;
    CloseOther(s1, x, id);
  }

  lemma AcceptOther(s: Server, loop: LoopId, id: Id)
    requires id != s.nextId
    ensures SameAt(s, NewConnection(s, loop), id)
  {
  }

  lemma TaskOther(s: Server, t: IoTask, id: Id)
    requires id != t.id && t.id in s.conns
    ensures SameAt(s, RunTask(s, t), id)
  {
    match t
    case Established(x) => EstablishOther(s, x, id);
    case ForceClosing(x) => if s.conns[x].Open() { CloseOther(s, x, id); }
    case Destroyed(x) => DestroyOther(s, x, id);
  }

  lemma ReadingOther(s: Server, x: Id, on: bool, id: Id)
    requires id != x && x in s.conns
    ensures SameAt(s, SetReading(s, x, on), id)
  {
  }

  lemma RunIoOther(s: Server, t: IoTask, id: Id)
    requires id != t.id && t.id in s.conns
    ensures SameAt(s, RunTask(s.(io := s.io - multiset{t}), t), id)
  {
    TaskOther(s.(io := s.io - multiset{t}), t, id);
  }

  lemma RunBaseOther(s: Server, x: Id, id: Id)
    requires id != x
    ensures SameAt(s, RemoveInLoop(s.(base := s.base - multiset{x}), x), id)
  {
    RemoveOther(s.(base := s.base - multiset{x}), x, id);
  }

  lemma OthersSame(s: Server, a: Action, id: Id)
    requires Enabled(s, a) && id != Subject(s, a)
    ensures SameAt(s, Apply(s, a), id)
  {
    match a
    case Accept(loop) => AcceptOther(s, loop, id);
    case RunIo(t) => RunIoOther(s, t, id);
    case RunBase(x) => RunBaseOther(s, x, id);
    case Handle(x) => DispatchOther(s.(active := s.active - {x}), x, s.active[x], id);
    case StopRead(x) => ReadingOther(s, x, false, id);
    case StartRead(x) => ReadingOther(s, x, true, id);
    case _ =>
  }

  // The connection a step is about stays consistent, and no assert on the way fails.

  ghost predicate Kept(s: Server, s': Server, id: Id) {
    (s.ok ==> s'.ok) && InvAt(s', id) && s'.rearmed <= s.rearmed + {id}
  }

  lemma EstablishKept(s: Server, id: Id)
    requires id in s.conns && id < s.nextId && s.conns[id].state.Connecting? && s.conns[id].reading
    requires s.conns[id].mask.None() && s.conns[id].index.New? && s.conns[id].notices == []
    requires Waiting(s, id, 0, 0, 0) && id in s.table
    ensures Kept(s, Establish(s, id), id)
  {
  }

  lemma CloseKept(s: Server, id: Id)
    requires InvAt(s, id) && id in s.conns && id !in s.rearmed && s.conns[id].Open() && id !in s.active
    ensures Kept(s, Close(s, id), id) && Close(s, id).conns[id].mask.None()
    ensures id in Close(s, id).rearmed <==> s.conns[id].mask.None()
    ensures id in Close(s, id).rearmed <==> Close(s, id).conns[id].index.Added?
  {
    assert [Up] + [Down] == [Up, Down];
    RemovalQueued(Rearm(Put(Check(s, s.conns[id].Open()), id, CloseLife(s.conns[id])), id, s.conns[id].mask.None()), id);
  }

  /** The removal is queued in the base loop, or runs at once and queues the destruction. */
  lemma RemovalQueued(s: Server, id: Id)
    requires id in s.conns && Waiting(s, id, 0, 0, 0) && id in s.table
    ensures var s', now := RemoveConnection(s, id), s.conns[id].loop == BASE;
            && (id in s'.table <==> !now) && Waiting(s', id, 0, Unit(!now), Unit(now))
            && s'.conns == s.conns && s'.active == s.active && s'.nextId == s.nextId
            && s'.rearmed == s.rearmed && s'.ok == s.ok
  {
  }

  lemma DestroyKept(s: Server, id: Id)
    requires id in s.conns && id < s.nextId && s.conns[id].state.Disconnected?
    requires s.conns[id].mask.None() && s.conns[id].index.Deleted? && s.conns[id].notices == [Up, Down]
    requires Waiting(s, id, 0, 0, 0) && id !in s.table && id !in s.active
    ensures Kept(s, Destroy(s, id), id)
  {
  }

  lemma TaskKept(s: Server, t: IoTask)
    requires Enabled(s, RunIo(t)) && InvAt(s, t.id) && t.id !in s.rearmed
    ensures Kept(s, Apply(s, RunIo(t)), t.id)
  {
    var s0, id := s.(io := s.io - multiset{t}), t.id;
    assert id !in s.active;
    match t
    case Established(_) => EstablishKept(s0, id);
    case ForceClosing(_) => if s.conns[id].Open() { CloseKept(s0, id); }
    case Destroyed(_) => DestroyKept(s0, id);
  }

  lemma DispatchKept(s: Server, id: Id, ev: Event)
    requires InvAt(s, id) && id in s.conns && id !in s.rearmed && s.conns[id].Open() && id !in s.active
    ensures Kept(s, Dispatch(s, id, ev), id)
  {
    CloseKept(s, id);
  }

  lemma AcceptKept(s: Server, loop: LoopId)
    requires InvAt(s, s.nextId) && s.nextId !in s.conns
    ensures Kept(s, NewConnection(s, loop), s.nextId)
  {
  }

  lemma ReadingKept(s: Server, id: Id, on: bool)
    requires InvAt(s, id) && id in s.conns && id !in s.rearmed && s.conns[id].notices != []
    ensures Kept(s, SetReading(s, id, on), id)
  {
  }

  lemma SubjectKept(s: Server, a: Action)
    requires Enabled(s, a) && InvAt(s, Subject(s, a)) && Subject(s, a) !in s.rearmed
    requires a.Accept? ==> s.nextId !in s.conns
    ensures Kept(s, Apply(s, a), Subject(s, a))
  {
    match a
    case Accept(loop) => AcceptKept(s, loop);
    case RunIo(t) => TaskKept(s, t);
    case Handle(id) => DispatchKept(s.(active := s.active - {id}), id, s.active[id]);
    case StopRead(id) => ReadingKept(s, id, false);
    case StartRead(id) => ReadingKept(s, id, true);
    case _ =>
  }

  /** No connection is forgotten. */
  ghost predicate Grows(s: Server, s': Server) {
    s.rearmed <= s'.rearmed && s.nextId <= s'.nextId && s.conns.Keys <= s'.conns.Keys
  }

  lemma CloseGrows(s: Server, id: Id)
    requires id in s.conns
    ensures Grows(s, Close(s, id))
  {
  }

  lemma DispatchGrows(s: Server, id: Id, ev: Event)
    requires id in s.conns
    ensures Grows(s, Dispatch(s, id, ev))
  {
    CloseGrows(s, id);
    var s1 := if ev.hup && !ev.readable then Close(s, id) else s;
    CloseGrows(s1, id);
  }

  lemma TaskGrows(s: Server, t: IoTask)
    requires t.id in s.conns
    ensures Grows(s, RunTask(s, t))
  {
    CloseGrows(s, t.id);
  }

  lemma OnlyGrows(s: Server, a: Action)
    requires Enabled(s, a)
    ensures Grows(s, Apply(s, a))
  {
    match a
    case RunIo(t) => TaskGrows(s.(io := s.io - multiset{t}), t);
    case Handle(id) => DispatchGrows(s.(active := s.active - {id}), id, s.active[id]);
    case _ =>
  }

  lemma StepKept(s: Server, a: Action, id: Id)
    requires Enabled(s, a) && Inv(s)
    ensures InvAt(Apply(s, a), id) && (s.rearmed == {} ==> Apply(s, a).ok)
  {
    assert InvAt(s, Subject(s, a)) && InvAt(s, s.nextId) && InvAt(s, id);
    OnlyGrows(s, a);
    if Subject(s, a) !in s.rearmed { SubjectKept(s, a); }
    if id != Subject(s, a) { OthersSame(s, a, id); }
  }

  lemma {:induction false} Runs(acts: seq<Action>)
    ensures Inv(Exec(acts))
  {
    if acts != [] {
      var s, a := Exec(acts[..|acts| - 1]), acts[|acts| - 1];
      Runs(acts[..|acts| - 1]);
      if Enabled(s, a) {
        OnlyGrows(s, a);
        StepKept(s, a, 0);
        forall id ensures InvAt(Apply(s, a), id) { StepKept(s, a, id); }
      }
    }
  }

  // ---- The theorems -----------------------------------------------------------------------

  /**
   In every run that puts no closed connection back into the kernel's list, no assertion fails,
   and of every connection: the callback sees Up then Down and nothing else; it is in the table
   until its one removal; while a polled event of it waits it is open; and once closed it is out
   of the kernel's list with an empty mask, and its removal or its destruction is queued, or it
   is destroyed. While it is open it is in that list exactly when it reads or writes.
   */
  lemma LifecycleSafeUnlessRearmed(acts: seq<Action>, id: Id)
    requires Exec(acts).rearmed == {} && id in Exec(acts).conns
    ensures var s := Exec(acts); var l := s.conns[id];
            && s.ok
            && l.notices == (if l.state.Connecting? then [] else if l.state.Disconnected? then [Up, Down] else [Up])
            && (id in s.table <==> !l.state.Disconnected? || id in s.base)
            && s.io[Established(id)] == Unit(l.state.Connecting?)
            && s.base[id] + s.io[Destroyed(id)] + Unit(l.index.New?) == Unit(!l.Open())
            && (id in s.active ==> l.Open())
            && (l.Open() ==> !l.index.New? && (l.index.Added? <==> !l.mask.None()))
            && (l.state.Disconnected? ==> l.mask.None() && !l.index.Added?)
  {
    Runs(acts);
    assert InvAt(Exec(acts), id);
  }

  /** The user never stops reading. */
  ghost predicate Plain(acts: seq<Action>) {
    forall i :: 0 <= i < |acts| ==> !acts[i].StopRead? && !acts[i].StartRead?
  }

  ghost predicate ReadsAt(s: Server, id: Id) {
    id !in s.rearmed && (id in s.conns ==> s.conns[id].reading)
  }

  lemma CloseReads(s: Server, id: Id)
    requires InvAt(s, id) && ReadsAt(s, id) && id in s.conns && s.conns[id].Open() && id !in s.active
    ensures ReadsAt(Close(s, id), id)
  {
  }

  lemma SubjectReads(s: Server, a: Action)
    requires Enabled(s, a) && InvAt(s, Subject(s, a)) && ReadsAt(s, Subject(s, a)) && !a.StopRead? && !a.StartRead?
    ensures ReadsAt(Apply(s, a), Subject(s, a))
  {
    match a
    case RunIo(t) => TaskReads(s, t);
    case Handle(id) => DispatchReads(s.(active := s.active - {id}), id, s.active[id]);
    case _ =>
  }

  lemma TaskReads(s: Server, t: IoTask)
    requires Enabled(s, RunIo(t)) && InvAt(s, t.id) && ReadsAt(s, t.id)
    ensures ReadsAt(Apply(s, RunIo(t)), t.id)
  {
    assert t.id !in s.active;
    if t.ForceClosing? && s.conns[t.id].Open() { CloseReads(s.(io := s.io - multiset{t}), t.id); }
  }

  lemma DispatchReads(s: Server, id: Id, ev: Event)
    requires InvAt(s, id) && ReadsAt(s, id) && id in s.conns && s.conns[id].Open() && id !in s.active
    ensures ReadsAt(Dispatch(s, id, ev), id)
  {
    CloseReads(s, id);
  }

  lemma {:induction false} PlainRuns(acts: seq<Action>, id: Id)
    requires Plain(acts)
    ensures ReadsAt(Exec(acts), id)
  {
    if acts != [] {
      var s, a := Exec(acts[..|acts| - 1]), acts[|acts| - 1];
      PlainRuns(acts[..|acts| - 1], id);
      Runs(acts[..|acts| - 1]);
      assert InvAt(s, id);
      if Enabled(s, a) {
        if id == Subject(s, a) { SubjectReads(s, a); } else { OthersSame(s, a, id); }
      }
    }
  }

  /** When nobody stops reading that is every run, and a polled event implies registration too. */
  lemma LifecycleSafe(acts: seq<Action>, id: Id)
    requires Plain(acts) && id in Exec(acts).conns
    ensures var s := Exec(acts); var l := s.conns[id];
            && s.ok
            && l.notices == (if l.state.Connecting? then [] else if l.state.Disconnected? then [Up, Down] else [Up])
            && (id in s.table <==> !l.state.Disconnected? || id in s.base)
            && s.io[Established(id)] + s.base[id] + s.io[Destroyed(id)] <= 1
            && (id in s.active ==> l.Open() && l.index.Added?)
            && (l.state.Disconnected? ==> l.mask.None() && !l.index.Added?)
  {
    forall k ensures k !in Exec(acts).rearmed { PlainRuns(acts, k); }
    assert Exec(acts).rearmed == {};
    LifecycleSafeUnlessRearmed(acts, id);
    PlainRuns(acts, id);
    Runs(acts);
    assert InvAt(Exec(acts), id);
  }

  // ---- Closing twice ------------------------------------------------------------------------

  const HANGUP := Event(false, false, true, false, false)

  /** A bare hang-up of `id` is polled and handled, as far as the kernel's list allows it. */
  ghost function HangUp(s: Server, id: Id): Server {
    Step(Step(s, Report(id, HANGUP)), Handle(id))
  }

  /** A consistent connection can be handled whatever was polled. */
  lemma HandleSafe(s: Server, id: Id, ev: Event)
    requires s.ok && InvAt(s, id) && id !in s.rearmed
    ensures Step(Step(s, Report(id, ev)), Handle(id)).ok
  {
    var s1 := Step(s, Report(id, ev));
    if Enabled(s, Report(id, ev)) { SubjectKept(s, Report(id, ev)); }
    if Enabled(s1, Handle(id)) { SubjectKept(s1, Handle(id)); }
  }

  /** A closed connection in the kernel's list fails the assert of `handleClose` at the next hang-up. */
  lemma HangUpFails(s: Server, id: Id)
    requires id in s.conns && !s.conns[id].Open() && s.conns[id].index.Added? && id !in s.active
    ensures !HangUp(s, id).ok
  {
  }

  /**
   A close can be followed by a second `handleClose` exactly when the mask was empty at the
   close: neither reading nor writing, so that emptying it adds the channel instead of taking it out.
   */
  lemma SecondCloseIff(acts: seq<Action>, id: Id)
    requires Exec(acts).rearmed == {} && id in Exec(acts).conns
    requires Exec(acts).conns[id].Open() && id !in Exec(acts).active
    ensures var s := Exec(acts);
            (exists ev :: !Step(Step(Close(s, id), Report(id, ev)), Handle(id)).ok) <==> s.conns[id].mask.None()
  {
    Runs(acts);
    var s := Exec(acts);
    assert InvAt(s, id);
    CloseKept(s, id);
    if s.conns[id].mask.None() {
      HangUpFails(Close(s, id), id);
    } else {
      forall ev ensures Step(Step(Close(s, id), Report(id, ev)), Handle(id)).ok { HandleSafe(Close(s, id), id, ev); }
    }
  }

  lemma RearmedIsListed(s: Server, a: Action, id: Id)
    requires Enabled(s, a) && Inv(s) && s.rearmed == {} && id in Apply(s, a).rearmed
    ensures var s' := Apply(s, a);
            id in s'.conns && !s'.conns[id].Open() && s'.conns[id].index.Added? && id !in s'.active
  {
    if id != Subject(s, a) { OthersSame(s, a, id); }
    assert InvAt(s, id);
    match a
    case Handle(_) => RearmedByDispatch(s.(active := s.active - {id}), id, s.active[id]);
    case RunIo(t) => RearmedByTask(s, t);
    case StopRead(_) =>
    case StartRead(_) =>
    case _ => assert false;
  }

  lemma RearmedByTask(s: Server, t: IoTask)
    requires Enabled(s, RunIo(t)) && InvAt(s, t.id) && t.id !in s.rearmed && t.id in Apply(s, RunIo(t)).rearmed
    ensures var s' := Apply(s, RunIo(t)); !s'.conns[t.id].Open() && s'.conns[t.id].index.Added? && t.id !in s'.active
  {
    assert t.id !in s.active;
    if t.ForceClosing? && s.conns[t.id].Open() { CloseKept(s.(io := s.io - multiset{t}), t.id); }
  }

  lemma RearmedByDispatch(s: Server, id: Id, ev: Event)
    requires InvAt(s, id) && id in s.conns && id !in s.rearmed && s.conns[id].Open() && id !in s.active
    requires id in Dispatch(s, id, ev).rearmed
    ensures var s' := Dispatch(s, id, ev); !s'.conns[id].Open() && s'.conns[id].index.Added? && id !in s'.active
  {
    CloseKept(s, id);
  }

  lemma UnsafeIffRearmed(acts: seq<Action>, a: Action, id: Id)
    requires Exec(acts).rearmed == {}
    ensures !Exec(acts + [a] + [Report(id, HANGUP)] + [Handle(id)]).ok <==> id in Exec(acts + [a]).rearmed
  {
    var s, s' := Exec(acts), Exec(acts + [a]);
    Runs(acts);
    Runs(acts + [a]);
    assert (acts + [a])[..|acts|] == acts && s' == Step(s, a);
    ExecHangUp(acts + [a], id);
    if Enabled(s, a) { StepKept(s, a, id); }
    assert InvAt(s', id);
    if id in s'.rearmed {
      RearmedIsListed(s, a, id);
      HangUpFails(s', id);
    } else {
      HandleSafe(s', id, HANGUP);
    }
  }

  /** The event ends in `handleClose`. */
  predicate Closes(ev: Event) {
    (ev.hup && !ev.readable) || (ev.readable && ev.eof)
  }

  /**
   What puts a closed connection into the kernel's list, told before the step: a close over an
   empty mask, or after the close `startRead`, or `stopRead` while `reading_` is still set.
   */
  ghost predicate PutsBack(s: Server, a: Action, id: Id) {
    && Enabled(s, a) && Subject(s, a) == id
    && match a
       case Handle(_) => Closes(s.active[id]) && s.conns[id].mask.None()
       case RunIo(t) => t.ForceClosing? && s.conns[id].Open() && s.conns[id].mask.None()
       case StopRead(_) => !s.conns[id].Open() && s.conns[id].reading
       case StartRead(_) => !s.conns[id].Open()
       case _ => false
  }

  lemma PutsBackIff(s: Server, a: Action, id: Id)
    requires Inv(s) && s.rearmed == {} && Enabled(s, a)
    ensures id in Apply(s, a).rearmed <==> PutsBack(s, a, id)
  {
    assert InvAt(s, id);
    if id != Subject(s, a) {
      OthersSame(s, a, id);
    } else {
      match a
      case Handle(_) => CloseKept(s.(active := s.active - {id}), id);
      case RunIo(t) => TaskPutsBackIff(s, t);
      case _ =>
    }
  }

  lemma TaskPutsBackIff(s: Server, t: IoTask)
    requires Enabled(s, RunIo(t)) && InvAt(s, t.id) && t.id !in s.rearmed
    ensures t.id in Apply(s, RunIo(t)).rearmed
            <==> t.ForceClosing? && s.conns[t.id].Open() && s.conns[t.id].mask.None()
  {
    assert t.id !in s.active;
    if t.ForceClosing? && s.conns[t.id].Open() { CloseKept(s.(io := s.io - multiset{t}), t.id); }
  }

  lemma RearmedStep(s: Server, a: Action)
    requires Inv(s)
    ensures Step(s, a).rearmed == {} <==> s.rearmed == {} && forall id :: !PutsBack(s, a, id)
  {
    if Enabled(s, a) {
      OnlyGrows(s, a);
      if s.rearmed == {} {
        forall id ensures id in Apply(s, a).rearmed <==> PutsBack(s, a, id) { PutsBackIff(s, a, id); }
      }
    }
  }

  /** No step of the run puts a closed connection back. */
  ghost predicate NeverPutsBack(acts: seq<Action>) {
    acts != [] ==>
      var n := |acts| - 1;
      NeverPutsBack(acts[..n]) && forall id :: !PutsBack(Exec(acts[..n]), acts[n], id)
  }

  /** What `rearmed == {}` means for a run. */
  lemma {:induction false} NothingRearmedIff(acts: seq<Action>)
    ensures Exec(acts).rearmed == {} <==> NeverPutsBack(acts)
  {
    if acts != [] {
      var n := |acts| - 1;
      NothingRearmedIff(acts[..n]);
      Runs(acts[..n]);
      RearmedStep(Exec(acts[..n]), acts[n]);
    }
  }

  /** And that is the only way, over all runs and steps, to a hang-up that fails the assert. */
  lemma UnsafeIffPutsBack(acts: seq<Action>, a: Action, id: Id)
    requires Exec(acts).rearmed == {}
    ensures !Exec(acts + [a] + [Report(id, HANGUP)] + [Handle(id)]).ok <==> PutsBack(Exec(acts), a, id)
  {
    Runs(acts);
    Next(acts, a);
    UnsafeIffRearmed(acts, a, id);
    if Enabled(Exec(acts), a) { PutsBackIff(Exec(acts), a, id); }
  }

  /**
   `connectDestroyed` asserts an empty mask. Of all steps only `startRead` after the close makes
   that fail, with no hang-up at all.
   */
  lemma DestroyFailsIff(acts: seq<Action>, a: Action, id: Id)
    requires Exec(acts).rearmed == {} && Enabled(Exec(acts + [a]), RunIo(Destroyed(id)))
    ensures !Exec(acts + [a] + [RunIo(Destroyed(id))]).ok
            <==> a == StartRead(id) && id in Exec(acts).conns && !Exec(acts).conns[id].Open()
  {
    var s, s' := Exec(acts), Exec(acts + [a]);
    Runs(acts);
    Next(acts, a);
    Next(acts + [a], RunIo(Destroyed(id)));
    assert InvAt(s, id);
    if !Enabled(s, a) {
      TaskKept(s, Destroyed(id));
    } else {
      StepKept(s, a, id);
      PutsBackIff(s, a, id);
      if PutsBack(s, a, id) { PutBackDestroyed(s, a, id); } else { TaskKept(s', Destroyed(id)); }
    }
  }

  lemma PutBackDestroyed(s: Server, a: Action, id: Id)
    requires Inv(s) && s.rearmed == {} && PutsBack(s, a, id) && Apply(s, a).ok
    requires Enabled(Apply(s, a), RunIo(Destroyed(id)))
    ensures Apply(Apply(s, a), RunIo(Destroyed(id))).ok <==> !a.StartRead?
  {
    var s' := Apply(s, a);
    PutsBackIff(s, a, id);
    RearmedIsListed(s, a, id);
    PutBackMask(s, a, id);
  }

  lemma PutBackMask(s: Server, a: Action, id: Id)
    requires Inv(s) && s.rearmed == {} && PutsBack(s, a, id)
    ensures id in Apply(s, a).conns && (Apply(s, a).conns[id].mask.None() <==> !a.StartRead?)
  {
    assert InvAt(s, id);
    match a
    case Handle(_) => CloseKept(s.(active := s.active - {id}), id);
    case RunIo(t) =>
      assert t.id !in s.active;
      CloseKept(s.(io := s.io - multiset{t}), id);
    case _ =>
  }

  lemma ExecHangUp(acts: seq<Action>, id: Id)
    ensures Exec(acts + [Report(id, HANGUP)] + [Handle(id)]) == HangUp(Exec(acts), id)
  {
    var more := acts + [Report(id, HANGUP)];
    assert more[..|acts|] == acts && (more + [Handle(id)])[..|more|] == more;
  }

  /** A server of the one connection 1, with nothing polled and no assert failed. */
  ghost predicate Only(s: Server, l: Life, io: multiset<IoTask>) {
    s.conns == map[1 := l] && s.io == io && s.active == map[] && s.rearmed == {} && s.ok
  }

  lemma Next(acts: seq<Action>, a: Action)
    ensures Exec(acts + [a]) == Step(Exec(acts), a)
  {
    assert (acts + [a])[..|acts|] == acts;
  }

  lemma OneAccepted(s: Server)
    requires s == Exec([])
    ensures Only(Step(s, Accept(1)), Life(1, Connecting, Mask(false, false), New, true, []), multiset{Established(1)})
  {
  }

  lemma OneEstablished(s: Server)
    requires Only(s, Life(1, Connecting, Mask(false, false), New, true, []), multiset{Established(1)})
    ensures Only(Step(s, RunIo(Established(1))), Life(1, Connected, Mask(true, false), Added, true, [Up]), multiset{})
  {
    assert multiset{Established(1)} - multiset{Established(1)} == multiset{};
    assert [] + [Up] == [Up];
  }

  lemma OneStopped(s: Server)
    requires Only(s, Life(1, Connected, Mask(true, false), Added, true, [Up]), multiset{})
    ensures Only(Step(s, StopRead(1)), Life(1, Connected, Mask(false, false), Deleted, false, [Up]), multiset{})
  {
  }

  lemma OneForced(s: Server)
    requires Only(s, Life(1, Connected, Mask(false, false), Deleted, false, [Up]), multiset{})
    ensures Only(Step(s, ForceClose(1)), Life(1, Disconnecting, Mask(false, false), Deleted, false, [Up]),
                 multiset{ForceClosing(1)})
  {
  }

  lemma OneClosed(s: Server)
    requires Only(s, Life(1, Disconnecting, Mask(false, false), Deleted, false, [Up]), multiset{ForceClosing(1)})
    ensures var s' := Step(s, RunIo(ForceClosing(1)));
            s'.ok && 1 in s'.conns && !s'.conns[1].Open() && s'.conns[1].index.Added? && 1 !in s'.active
  {
  }

  /** The shortest such run: accept, establish, stop reading, force the close, and the peer hangs up. */
  lemma StopReadThenForceClose()
    ensures var before := [Accept(1)] + [RunIo(Established(1))] + [StopRead(1)] + [ForceClose(1)];
            var closed := before + [RunIo(ForceClosing(1))];
            && Exec(before).rearmed == {} && Exec(closed).ok
            && !Exec(closed + [Report(1, HANGUP)] + [Handle(1)]).ok
  {
    var a1 := [Accept(1)];
    var a2 := a1 + [RunIo(Established(1))];
    var a3 := a2 + [StopRead(1)];
    var a4 := a3 + [ForceClose(1)];
    var a5 := a4 + [RunIo(ForceClosing(1))];
    Next([], Accept(1));
    Next(a1, RunIo(Established(1)));
    Next(a2, StopRead(1));
    Next(a3, ForceClose(1));
    Next(a4, RunIo(ForceClosing(1)));
    OneAccepted(Exec([]));
    assert [] + [Accept(1)] == a1;
    OneEstablished(Exec(a1));
    OneStopped(Exec(a2));
    OneForced(Exec(a3));
    OneClosed(Exec(a4));
    HangUpFails(Exec(a5), 1);
    ExecHangUp(a5, 1);
  }
}
