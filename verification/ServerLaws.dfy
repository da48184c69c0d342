/**
 What the steps of a run of `ServerLifecycle` bring about for a connection: what the user has
 been told, whether it is in the table and watched, and what is queued for it.
 */
module ServerLaws {
  import opened Wrappers
  import opened Registration
  import opened ConnectionSpec
  import opened ServerLifecycle

  /** How many connections were accepted. */
  ghost function Accepts(acts: seq<Action>): nat {
    if acts == [] then 0 else Accepts(acts[..|acts| - 1]) + Unit(acts[|acts| - 1].Accept?)
  }

  /** No connection comes or goes. */
  ghost predicate SameKnown(s: Server, s': Server) {
    s'.nextId == s.nextId && s'.conns.Keys == s.conns.Keys
  }

  lemma PutKnown(s: Server, id: Id, l: Life)
    requires id in s.conns
    ensures SameKnown(s, Put(s, id, l))
  {
    assert s.conns[id := l].Keys == s.conns.Keys + {id} == s.conns.Keys;
  }

  lemma CloseKnown(s: Server, id: Id)
    requires id in s.conns
    ensures SameKnown(s, Close(s, id))
  {
    PutKnown(Check(s, s.conns[id].Open()), id, CloseLife(s.conns[id]));
  }

  lemma DispatchKnown(s: Server, id: Id, ev: Event)
    requires id in s.conns
    ensures SameKnown(s, Dispatch(s, id, ev))
  {
    CloseKnown(s, id);
    var s1 := if ev.hup && !ev.readable then Close(s, id) else s;
    CloseKnown(s1, id);
    var s2 := if ev.readable && ev.eof then Close(s1, id) else s1;
    PutKnown(s2, id, SetMask(s2.conns[id], s2.conns[id].mask.(write := false)));
  }

  lemma TaskKnown(s: Server, t: IoTask)
    requires t.id in s.conns
    ensures SameKnown(s, RunTask(s, t))
  {
    match t
    case Established(id) => EstablishKnown(s, id);
    case ForceClosing(id) => CloseKnown(s, id);
    case Destroyed(id) => DestroyKnown(s, id);
  }

  lemma EstablishKnown(s: Server, id: Id)
    requires id in s.conns
    ensures SameKnown(s, Establish(s, id))
  {
    var l := s.conns[id];
    var l' := SetMask(l.(state := Connected), l.mask.(read := true));
    PutKnown(Check(s, l.state.Connecting?), id, l'.(notices := l.notices + [Up]));
  }

  lemma DestroyKnown(s: Server, id: Id)
    requires id in s.conns
    ensures SameKnown(s, Destroy(s, id))
  {
    var l := if s.conns[id].state.Connected? then CloseLife(s.conns[id]) else s.conns[id];
    PutKnown(Check(s, l.mask.None() && !l.index.New? && id !in s.active), id, l.(index := New));
  }

  lemma AcceptKnown(s: Server, loop: LoopId)
    ensures var s' := NewConnection(s, loop); s'.nextId == s.nextId + 1 && s'.conns.Keys == s.conns.Keys + {s.nextId}
  {
    var l := Life(loop, Connecting, Mask(false, false), New, true, []);
    var s1 := Put(s, s.nextId, l).(nextId := s.nextId + 1, table := s.table + {s.nextId});
    assert s1.conns.Keys == s.conns.Keys + {s.nextId};
    EstablishKnown(s1, s.nextId);
  }

  lemma KnownStep(s: Server, a: Action)
    requires Enabled(s, a)
    ensures var s' := Apply(s, a);
            if a.Accept? then s'.nextId == s.nextId + 1 && s'.conns.Keys == s.conns.Keys + {s.nextId} else SameKnown(s, s')
  {
    match a
    case Accept(loop) => AcceptKnown(s, loop);
    case RunIo(t) => TaskKnown(s.(io := s.io - multiset{t}), t);
    case Handle(id) => DispatchKnown(s.(active := s.active - {id}), id, s.active[id]);
    case StartWriting(id) => PutKnown(s, id, SetMask(s.conns[id], s.conns[id].mask.(write := true)));
    case Shutdown(id) => PutKnown(s, id, s.conns[id].(state := Disconnecting));
    case ForceClose(id) => PutKnown(s, id, s.conns[id].(state := Disconnecting));
    case StopRead(id) => ReadingKnown(s, id, false);
    case StartRead(id) => ReadingKnown(s, id, true);
    case _ =>
  }

  lemma ReadingKnown(s: Server, id: Id, on: bool)
    requires id in s.conns
    ensures SameKnown(s, SetReading(s, id, on))
  {
    var l := s.conns[id];
    PutKnown(s, id, SetMask(l, l.mask.(read := on)).(reading := on));
  }

  /** In every run the connections are those accepted, numbered from 1. */
  lemma {:induction false} AcceptedAreKnown(acts: seq<Action>, id: Id)
    ensures Exec(acts).nextId == Accepts(acts) + 1
    ensures id in Exec(acts).conns <==> 1 <= id <= Accepts(acts)
  {
    if acts != [] {
      var s, a := Exec(acts[..|acts| - 1]), acts[|acts| - 1];
      AcceptedAreKnown(acts[..|acts| - 1], id);
      if Enabled(s, a) { KnownStep(s, a); }
    }
  }

  /** Up, told, reading and watched. */
  ghost predicate IsUp(l: Life) {
    l.state.Connected? && l.notices == [Up] && l.mask.read && l.index.Added?
  }

  /** Down, told, unwatched; its removal is queued in the base loop, or done and its end queued. */
  ghost predicate IsDown(s: Server, id: Id) {
    && id in s.conns && s.conns[id].state.Disconnected? && s.conns[id].notices == [Up, Down] && s.conns[id].mask.None()
    && (if s.conns[id].loop == BASE then id !in s.table && Destroyed(id) in s.io else id in s.table && id in s.base)
  }

  /** The rest of the connection's record is as it was. */
  ghost predicate OnlyMask(l: Life, l': Life) {
    l' == l.(mask := l'.mask, index := l'.index, reading := l'.reading)
  }

  /** What the step shows of its subject. */
  ghost predicate Shows(s: Server, s': Server, a: Action)
    requires Enabled(s, a)
  {
    var id := Subject(s, a);
    && id in s'.conns && (a.Accept? || id in s.conns)
    && match a
       case Accept(loop) =>
         && id in s'.table && s'.conns[id].loop == loop
         && (if loop == BASE then IsUp(s'.conns[id]) else s'.conns[id].state.Connecting? && Established(id) in s'.io)
       case RunIo(t) =>
         (match t
          case Established(_) => IsUp(s'.conns[id]) && id in s'.table
          case ForceClosing(_) => if s.conns[id].Open() then IsDown(s', id) else s'.conns[id] == s.conns[id]
          case Destroyed(_) => s'.conns[id] == s.conns[id].(index := New))
       case RunBase(_) => id !in s'.table && Destroyed(id) in s'.io && s'.conns[id] == s.conns[id]
       case Report(_, ev) => id in s'.active && s'.active[id] == ev && s'.conns[id] == s.conns[id]
       case Handle(_) =>
         && id !in s'.active
         && (if Closes(s.active[id]) then IsDown(s', id) else HandledOpen(s.conns[id], s'.conns[id], s.active[id]))
       case StartWriting(_) => OnlyMask(s.conns[id], s'.conns[id]) && s'.conns[id].mask == s.conns[id].mask.(write := true)
       case Shutdown(_) => s'.conns[id] == s.conns[id].(state := Disconnecting)
       case ForceClose(_) => s'.conns[id] == s.conns[id].(state := Disconnecting) && ForceClosing(id) in s'.io
       case StopRead(_) =>
         s.conns[id].Open() ==> OnlyMask(s.conns[id], s'.conns[id]) && s'.conns[id].mask == s.conns[id].mask.(read := false)
       case StartRead(_) =>
         s.conns[id].Open() ==> OnlyMask(s.conns[id], s'.conns[id]) && s'.conns[id].mask == s.conns[id].mask.(read := true)
  }

  /** An event that does not close leaves all but the mask, which loses writing when the queue is drained. */
  ghost predicate HandledOpen(l: Life, l': Life, ev: Event) {
    OnlyMask(l, l') && l'.mask == (if ev.writable && ev.drained then l.mask.(write := false) else l.mask)
  }

  lemma CloseShows(s: Server, id: Id)
    requires InvAt(s, id) && id in s.conns && id !in s.rearmed && s.conns[id].Open() && id !in s.active
    ensures IsDown(Close(s, id), id) && id !in Close(s, id).active
  {
    CloseKept(s, id);
    assert [Up] + [Down] == [Up, Down];
  }

  lemma DispatchShows(s: Server, id: Id, ev: Event)
    requires InvAt(s, id) && id in s.conns && id !in s.rearmed && s.conns[id].Open() && id !in s.active
    ensures var s' := Dispatch(s, id, ev);
            && id in s'.conns && id !in s'.active
            && (if Closes(ev) then IsDown(s', id) else HandledOpen(s.conns[id], s'.conns[id], ev))
  {
    if Closes(ev) { CloseShows(s, id); }
  }

  lemma TaskShows(s: Server, t: IoTask)
    requires Enabled(s, RunIo(t)) && InvAt(s, t.id) && t.id !in s.rearmed
    ensures Shows(s, Apply(s, RunIo(t)), RunIo(t))
  {
    var s0 := s.(io := s.io - multiset{t});
    assert t.id !in s.active;
    if t.ForceClosing? && s.conns[t.id].Open() { CloseShows(s0, t.id); }
    if t.Established? { assert [] + [Up] == [Up]; }
  }

  lemma AcceptShows(s: Server, loop: LoopId)
    requires InvAt(s, s.nextId) && s.nextId !in s.conns
    ensures Shows(s, NewConnection(s, loop), Accept(loop))
  {
    assert [] + [Up] == [Up];
  }

  lemma MaskShows(s: Server, a: Action)
    requires Enabled(s, a) && InvAt(s, Subject(s, a)) && Subject(s, a) !in s.rearmed
    requires a.StartWriting? || a.StopRead? || a.StartRead? || a.Shutdown? || a.ForceClose? || a.Report? || a.RunBase?
    ensures Shows(s, Apply(s, a), a)
  {
  }

  /** In every run each step shows its effect, on any connection that no earlier step put back after its close. */
  lemma StepShows(acts: seq<Action>, a: Action)
    requires Enabled(Exec(acts), a) && Subject(Exec(acts), a) !in Exec(acts).rearmed
    ensures Shows(Exec(acts), Exec(acts + [a]), a)
  {
    var s := Exec(acts);
    Runs(acts);
    Next(acts, a);
    assert InvAt(s, Subject(s, a)) && InvAt(s, s.nextId);
    match a
    case Accept(loop) => AcceptShows(s, loop);
    case RunIo(t) => TaskShows(s, t);
    case Handle(id) => DispatchShows(s.(active := s.active - {id}), id, s.active[id]);
    case _ => MaskShows(s, a);
  }
}
