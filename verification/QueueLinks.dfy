// Group commit against its surroundings: the leader's code takes the queue's steps, making room is
// what the engine's loop does, and a group's commit is the engine's write.
module QueueLinks {
  import opened InternalKeys
  import opened WriteQueue
  import opened WriteQueueRuns
  import E = Engine
  import C = EngineCode
  import L = EngineLinks

  // ---------- LeadGroup takes the steps of the queue ----------

  // The object stands for the state.
  ghost predicate StandsFor(db: Database, s: State)
    reads db
  {
    Known(s) && Requests(db.writers) == Waiting(s) && db.lastSequence == s.last && db.tmpBatch == [] && s.tmp == []
  }

  ghost predicate Path(states: seq<State>, events: seq<Event>) {
    |states| == |events| + 1 && forall i :: 0 <= i < |events| ==> Step(states[i], events[i], states[i + 1])
  }

  function Arrivals(rs: seq<Request>): (events: seq<Event>)
    ensures |events| == |rs|
  {
    seq(|rs|, i requires 0 <= i < |rs| => Arrive(rs[i]))
  }

  function ArriveOne(s: State, r: Request): State {
    s.(arrived := s.arrived + [r], queue := s.queue + [|s.arrived|],
       asleep := if s.queue == [] then s.asleep else s.asleep + {|s.arrived|})
  }

  lemma Joined(a: seq<State>, es: seq<Event>, b: seq<State>, fs: seq<Event>)
    requires Path(a, es) && Path(b, fs) && a[|a| - 1] == b[0]
    ensures Path(a + b[1..], es + fs)
  {
    var ss, gs := a + b[1..], es + fs;
    forall i | 0 <= i < |gs| ensures Step(ss[i], gs[i], ss[i + 1]) {
      if i < |es| {
        assert Step(a[i], es[i], a[i + 1]);
      } else {
        assert Step(b[i - |es|], fs[i - |es|], b[i - |es| + 1]);
      }
    }
  }

  lemma Enclosed(s: State, first: Event, mid: seq<State>, es: seq<Event>, last: Event, t: State)
    requires Path(mid, es) && Step(s, first, mid[0]) && Step(mid[|es|], last, t)
    ensures Path([s] + mid + [t], [first] + es + [last])
  {
    var ss, gs := [s] + mid + [t], [first] + es + [last];
    hide Step;
    forall i | 0 <= i < |gs| ensures Step(ss[i], gs[i], ss[i + 1]) {
      if 0 < i <= |es| { assert Step(mid[i - 1], es[i - 1], mid[i]); }
    }
  }

  // Writers arrive one after the other while the leader has the lock released.
  lemma {:induction false} AllArrive(s: State, rs: seq<Request>) returns (path: seq<State>)
    requires Known(s)
    ensures Path(path, Arrivals(rs)) && path[0] == s
    ensures var t := path[|rs|];
      && Known(t) && Waiting(t) == Waiting(s) + rs && s.queue <= t.queue && s.arrived <= t.arrived
      && t == s.(arrived := t.arrived, queue := t.queue, asleep := t.asleep)
  {
    if rs == [] {
      path := [s];
    } else {
      var front, r := rs[..|rs| - 1], rs[|rs| - 1];
      path := AllArrive(s, front);
      var t := path[|front|];
      var t' := ArriveOne(t, r);
      assert Step(t, Arrive(r), t');
      assert Waiting(t') == Waiting(t) + [r];
      hide Step, Waiting, Known;
      assert Path([t, t'], [Arrive(r)]);
      Joined(path, Arrivals(front), [t, t'], [Arrive(r)]);
      assert Arrivals(front) + [Arrive(r)] == Arrivals(rs);
      path := path + [t, t'][1..];
    }
  }

  // What a completed group leaves waiting.
  lemma CompleteWaiting(s: State, n: nat, status: Status, ops: seq<Operation>, room: Made)
    requires Known(s) && n <= |s.queue|
    ensures var t := Complete(s, n, status, ops, room); Known(t) && Waiting(t) == Waiting(s)[n..]
  {
  }

  lemma RequestsSplit(a: seq<Writer>, b: seq<Writer>, n: nat)
    requires n <= |a + b|
    ensures Requests(a + b) == Requests(a) + Requests(b) && Requests((a + b)[n..]) == Requests(a + b)[n..]
  {
  }

  lemma GroupForms(s: State, n: nat, switches: nat) returns (t: State)
    requires Known(s) && s.leading.MakingRoom? && s.queue != [] && s.tmp == []
    requires Waiting(s)[0].Batch? && IsGroup(Waiting(s), n)
    ensures t == s.(leading := Committing(n, Combined(Waiting(s), n), Made(false, switches)))
    ensures Step(s, Room(Ok, n, switches), t) && Known(t) && Waiting(t) == Waiting(s) && n <= |s.queue|
  {
    t := s.(leading := Committing(n, Combined(Waiting(s), n), Made(false, switches)));
    assert Waiting(t) == Waiting(s);
    hide Combined;
  }

  lemma GroupCommits(s: State, n: nat, status: Status, ops: seq<Operation>, room: Made) returns (t: State)
    requires Known(s) && s.leading == Committing(n, ops, room) && n <= |s.queue|
    ensures Step(s, Commit(status), t) && Known(t) && Waiting(t) == Waiting(s)[n..]
    ensures t.tmp == [] && t.leading.Nobody? && t.last == s.last + |ops|
    ensures forall i :: 0 <= i < n ==> s.queue[i] in t.told && t.told[s.queue[i]] == status
  {
    t := Complete(s, n, status, ops, room);
    CompleteWaiting(s, n, status, ops, room);
    Finished(s, n, status, ops, room);
  }

  // A leader with a batch and room: choose the group, let others arrive, commit.
  lemma CommitPath(s: State, n: nat, switches: nat, status: Status, rs: seq<Request>) returns (path: seq<State>)
    requires Known(s) && s.leading.MakingRoom? && s.queue != [] && s.tmp == []
    requires Waiting(s)[0].Batch? && IsGroup(Waiting(s), n)
    ensures Path(path, [Room(Ok, n, switches)] + Arrivals(rs) + [Commit(status)]) && path[0] == s
    ensures var t := path[|rs| + 2];
      && Known(t) && Waiting(t) == (Waiting(s) + rs)[n..] && t.tmp == [] && t.leading.Nobody?
      && t.last == s.last + |Combined(Waiting(s), n)|
      && forall i :: 0 <= i < n ==> s.queue[i] in t.told && t.told[s.queue[i]] == status
  {
    var ops, room := Combined(Waiting(s), n), Made(false, switches);
    var s1 := GroupForms(s, n, switches);
    hide Step, Waiting, Known, IsGroup, Joins, Combined, Complete;
    var mid := AllArrive(s1, rs);
    var s2 := mid[|rs|];
    var s3 := GroupCommits(s2, n, status, ops, room);
    assert s.queue <= s2.queue;
    Enclosed(s, Room(Ok, n, switches), mid, Arrivals(rs), Commit(status), s3);
    hide Path;
    path := [s] + mid + [s3];
  }

  lemma Finished(s: State, n: nat, status: Status, ops: seq<Operation>, room: Made)
    requires n <= |s.queue|
    ensures var t := Complete(s, n, status, ops, room);
      forall i :: 0 <= i < n ==> s.queue[i] in t.told && t.told[s.queue[i]] == status
  {
    forall i | 0 <= i < n ensures s.queue[i] in s.queue[..n] { assert s.queue[..n][i] == s.queue[i]; }
  }

  // A leader that was refused, or only asked for a switch: others arrive, it completes alone.
  lemma AlonePath(s: State, status: Status, switches: nat, rs: seq<Request>) returns (path: seq<State>)
    requires Known(s) && s.leading.MakingRoom? && s.queue != [] && s.tmp == []
    requires status.Failed? || Waiting(s)[0].NullBatch?
    requires MadeRoom(status, Made(Waiting(s)[0].NullBatch?, switches))
    ensures Path(path, Arrivals(rs) + [Room(status, 1, switches)]) && path[0] == s
    ensures var t := path[|rs| + 1];
      && Known(t) && Waiting(t) == (Waiting(s) + rs)[1..] && t.tmp == [] && t.leading.Nobody?
      && t.last == s.last && s.queue[0] in t.told && t.told[s.queue[0]] == status
  {
    var front := AllArrive(s, rs);
    var s1 := front[|rs|];
    var room := Made(Waiting(s)[0].NullBatch?, switches);
    assert s1.queue[0] == s.queue[0] && s1.arrived[s.queue[0]] == s.arrived[s.queue[0]];
    var s2 := Complete(s1, 1, status, [], room);
    assert Step(s1, Room(status, 1, switches), s2);
    CompleteWaiting(s1, 1, status, [], room);
    Finished(s1, 1, status, [], room);
    hide Step, Waiting, Known, Complete;
    assert Path([s1, s2], [Room(status, 1, switches)]);
    Joined(front, Arrivals(rs), [s1, s2], [Room(status, 1, switches)]);
    path := front + [s1, s2][1..];
  }

  // The leader's code is a path of the queue's steps, from a state the object stands for to a state
  // it stands for, on which every member of its group is told what the code returns.
  method LeadGroupSteps(db: Database, w: Writer, room: Status, outcome: Outcome, arrivals: seq<Writer>,
                        ghost s: State, ghost switches: nat)
    returns (status: Status, n: nat, ghost path: seq<State>, ghost events: seq<Event>)
    requires StandsFor(db, s) && s.leading.MakingRoom?
    requires db.writers != [] && db.writers[0] == w && !w.done && Distinct(db.writers + arrivals)
    requires MadeRoom(room, Made(w.request.NullBatch?, switches))
    modifies db, db.writers, arrivals
    ensures 0 < n <= |s.queue| && Path(path, events) && path[0] == s
    ensures events == if room.Ok? && w.request.Batch?
                      then [Room(Ok, n, switches)] + Arrivals(Requests(arrivals)) + [Commit(status)]
                      else Arrivals(Requests(arrivals)) + [Room(room, 1, switches)]
    ensures var t := path[|events|];
      && StandsFor(db, t) && t.leading.Nobody?
      && forall i :: 0 <= i < n ==> s.queue[i] in t.told && t.told[s.queue[i]] == status
  {
    ghost var before, rs := db.writers, Requests(arrivals);
    assert Waiting(s)[0] == w.request && |s.queue| == |before|;
    status, n := db.LeadGroup(w, room, outcome, arrivals);
    RequestsSplit(before, arrivals, n);
    hide Known, Waiting, IsGroup, Combined, Distinct, Told, Path;
    if room.Ok? && w.request.Batch? {
      path := CommitPath(s, n, switches, status, rs);
      events := [Room(Ok, n, switches)] + Arrivals(rs) + [Commit(status)];
    } else {
      path := AlonePath(s, status, switches, rs);
      events := Arrivals(rs) + [Room(room, 1, switches)];
    }
  }

  // ---------- MakeRoomForWrite is what the queue's Room event needs ----------

  function RoomStatus(outcome: C.Outcome): Status {
    if outcome.HasRoom? then Ok else Failed("")
  }

  // Forced by a switch request, the engine's loop either fails or has switched; and when it has
  // room, the engine is ready for the group's write.
  method LeaderMakesRoom(start: E.State, r: Request, found: seq<E.State>)
    returns (outcome: C.Outcome, e: E.State, ghost switches: seq<(E.State, E.State)>)
    requires C.AtFront(start) && forall i :: 0 <= i < |found| ==> C.AtFront(found[i])
    ensures MadeRoom(RoomStatus(outcome), Made(r.NullBatch?, |switches|))
    ensures forall i :: 0 <= i < |switches| ==> C.Switched(switches[i].0, switches[i].1)
    ensures outcome.HasRoom? ==> C.AtFront(e) && !e.phase.m.bgError
  {
    ghost var waited;
    outcome, e, switches, waited := C.MakeRoomForWrite(start, r.NullBatch?, found);
  }

  // ---------- A group's commit is the engine's write ----------

  // Both sides agree on the last sequence number and on the write in progress.
  ghost predicate Coupled(s: State, e: E.State) {
    && Known(s) && e.phase.Up? && e.phase.m.lastSequence == s.last
    && (s.leading.Committing? <==> e.phase.m.leader.Writing?)
    && (s.leading.Committing? ==>
          && s.queue != []
          && var l := e.phase.m.leader;
             && l.batch == L.Stamped(Record(s.last + 1, s.leading.ops)) && l.count == |s.leading.ops|
             && l.sync == s.arrived[s.queue[0]].sync)
  }

  // Forming a group is BeginWrite of its stamped records; a refusal or a switch request leaves the
  // engine alone.
  lemma RoomBeginsWrite(s: State, n: nat, status: Status, switches: nat, s': State, e: E.State)
    returns (batch: set<Entry>, e': E.State)
    requires Coupled(s, e) && Step(s, Room(status, n, switches), s')
    requires status.Ok? ==> C.AtFront(e) && !e.phase.m.bgError
    ensures Coupled(s', e')
    ensures if s'.leading.Committing? then E.BeginWriteStep(e, batch, |s'.leading.ops|, s.arrived[s.queue[0]].sync, e')
            else e' == e
  {
    if s'.leading.Committing? {
      var ops := s'.leading.ops;
      batch := L.Stamped(Record(s.last + 1, ops));
      L.GroupIsBatch(s.last, ops);
      e' := e.(phase := E.Up(e.phase.m.(leader := E.Writing(batch, |ops|, s.arrived[s.queue[0]].sync, E.Start))),
               issued := e.issued + batch);
      hide L.Stamped, IsGroup, Combined;
    } else {
      batch, e' := {}, e;
      CompleteWaiting(s, 1, status, [], Made(s.arrived[s.queue[0]].NullBatch?, switches));
    }
  }

  // Completing the group is EndWrite: LastSequence moves by the same amount on both sides, and a
  // sync group told Ok is acknowledged.
  lemma CommitEndsWrite(s: State, status: Status, s': State, e: E.State, e': E.State)
    requires Coupled(s, e) && Step(s, Commit(status), s') && E.EndWriteStep(e, e')
    requires status.Ok? <==> e.phase.m.leader.stage.ok
    ensures Coupled(s', e')
    ensures status.Ok? && s.arrived[s.queue[0]].sync ==>
              L.Stamped(Record(s.last + 1, s.leading.ops)) <= e'.acked
  {
    CompleteWaiting(s, s.leading.n, status, s.leading.ops, s.leading.room);
    hide L.Stamped;
  }
}
