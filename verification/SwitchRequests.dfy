// A Write with a null batch asks for a memtable switch.  When does a caller who was told Ok get
// one?  Only the leader of a group can force it, so the answer depends on who was waiting.
module SwitchRequests {
  import opened InternalKeys
  import opened WriteQueue
  import opened WriteQueueRuns

  // Writer id's group forced MakeRoomForWrite to switch, and it did.
  ghost predicate SwitchForced(s: State, id: nat) {
    exists g: nat :: HandledBy(s, id, g) && s.groups[g].room.forced && s.groups[g].room.switches > 0
  }

  // A switch was made for writer id's group, forced or not.
  ghost predicate Switched(s: State, id: nat) {
    exists g: nat :: HandledBy(s, id, g) && s.groups[g].room.switches > 0
  }

  // Writer id's group was formed without any switch.
  ghost predicate NoSwitch(s: State, id: nat) {
    exists g: nat :: HandledBy(s, id, g) && !s.groups[g].room.forced && s.groups[g].room.switches == 0
  }

  ghost predicate LedGroup(s: State, id: nat) {
    exists g: nat :: HandledBy(s, id, g) && s.groups[g].members[0] == id
  }

  // ---------- In one state: the leader, and only the leader, gets its switch ----------

  // A switch request told Ok had a switch forced for it exactly when it led its group.
  lemma ForcedIffLeads(states: seq<State>, events: seq<Event>, i: nat, id: nat)
    requires Run(states, events) && i < |states| && id in states[i].told && states[i].told[id].Ok?
    requires id < |states[i].arrived| && states[i].arrived[id].NullBatch?
    ensures SwitchForced(states[i], id) <==> LedGroup(states[i], id)
  {
    hide SwitchForced, LedGroup, Run;
    var s := states[i];
    var g := OneGroupEach(states, events, i, id);
    ForcedByLeader(s, id, g);
  }

  lemma ForcedByLeader(s: State, id: nat, g: nat)
    requires HandledBy(s, id, g) && GroupOk(s.arrived, s.groups[g]) && forall h: nat :: HandledBy(s, id, h) ==> h == g
    requires id < |s.arrived| && s.arrived[id].NullBatch? && s.groups[g].status.Ok?
    ensures SwitchForced(s, id) <==> LedGroup(s, id)
  {
    var m := s.groups[g].members;
    var q := Asked(s.arrived, m[0], |m|);
    assert RoomOk(q, s.groups[g].status, s.groups[g].room);
    if m[0] == id {
      assert q[0] == s.arrived[id];
      assert HandledBy(s, id, g);
    }
  }

  // The request that gets none: it arrives behind a write, joins that write's group and is told
  // Ok, and nobody switched the memtable.
  function JoinedState(k: nat): State
    requires k <= 5
  {
    var s0 := Initial();
    var s1 := s0.(arrived := [Batch([], false)], queue := [0]);
    var s2 := s1.(arrived := [Batch([], false), NullBatch(false)], queue := [0, 1], asleep := {1});
    var s3 := s2.(leading := MakingRoom);
    var s4 := s3.(leading := Committing(2, [], Made(false, 0)));
    if k == 0 then s0 else if k == 1 then s1 else if k == 2 then s2 else if k == 3 then s3
    else if k == 4 then s4 else Complete(s4, 2, Ok, [], Made(false, 0))
  }

  lemma JoinedStep(k: nat, ev: Event)
    requires k < 5
    requires ev == [Arrive(Batch([], false)), Arrive(NullBatch(false)), Lead, Room(Ok, 2, 0), Commit(Ok)][k]
    ensures Step(JoinedState(k), ev, JoinedState(k + 1))
  {
    if k == 3 { GroupOfTwo(JoinedState(3), JoinedState(4)); }
  }

  lemma JoinedWithoutSwitch() returns (states: seq<State>, events: seq<Event>)
    ensures events == [Arrive(Batch([], false)), Arrive(NullBatch(false)), Lead, Room(Ok, 2, 0), Commit(Ok)]
    ensures Run(states, events)
    ensures var s := states[5];
      && |s.arrived| == 2 && s.arrived[1] == NullBatch(false) && 1 in s.told && s.told[1] == Ok
      && NoSwitch(s, 1) && !Switched(s, 1)
  {
    events := [Arrive(Batch([], false)), Arrive(NullBatch(false)), Lead, Room(Ok, 2, 0), Commit(Ok)];
    states := seq(6, k requires 0 <= k < 6 => JoinedState(k));
    JoinedUnforced(JoinedState(4), JoinedState(5));
    assert states[0] == Initial() && |JoinedState(5).arrived| == 2 && JoinedState(5).arrived[1] == NullBatch(false);
    hide Step, JoinedState, NoSwitch, Switched;
    forall k | 0 <= k < 5 ensures Step(states[k], events[k], states[k + 1]) { JoinedStep(k, events[k]); }
  }

  lemma GroupOfTwo(s: State, s': State)
    requires s.arrived == [Batch([], false), NullBatch(false)] && s.queue == [0, 1] && s.leading.MakingRoom?
    requires s' == s.(leading := Committing(2, [], Made(false, 0))) && s.tmp == []
    ensures Step(s, Room(Ok, 2, 0), s')
  {
    var q := Waiting(s);
    assert TotalSize(q, 2) == TotalSize(q, 1) + Size(q[1]);
    assert IsGroup(q, 2);
    assert Combined(q, 2) == Combined(q, 1) + Records(q[1]) && Combined(q, 1) == Combined(q, 0) + Records(q[0]);
  }

  lemma JoinedUnforced(s: State, s': State)
    requires s.queue == [0, 1] && s.groups == [] && s' == Complete(s, 2, Ok, [], Made(false, 0))
    ensures 1 in s'.told && s'.told[1] == Ok && NoSwitch(s', 1) && !Switched(s', 1)
  {
    assert s.queue[..2][1] == 1;
    assert s'.groups[0].members == [0, 1];
    assert HandledBy(s', 1, 0);
    forall g: nat | HandledBy(s', 1, g) ensures s'.groups[g].room.switches == 0 {}
  }

  // ---------- What the caller can check before the call ----------

  // The first writer not yet in a group: the running group, once formed, is closed.
  ghost function FirstFree(s: State): nat {
    |Served(s.groups)| + if s.leading.Committing? then s.leading.n else 0
  }

  // A group led by writer j reaches as far as writer id.
  ghost predicate Reaches(arrived: seq<Request>, j: nat, id: nat)
    requires j < id < |arrived|
  {
    arrived[j].Batch? && AllJoin(Asked(arrived, j, id - j + 1))
  }

  ghost predicate AllJoin(q: seq<Request>) {
    forall i :: 0 < i < |q| ==> Joins(q, i)
  }

  // Some write that waits and is in no group yet could take request r, arriving now, into its
  // group.
  ghost predicate CouldJoin(s: State, r: Request) {
    exists j :: FirstFree(s) <= j < |s.arrived| && Reaches(s.arrived + [r], j, |s.arrived|)
  }

  // With an empty queue, or behind the running group alone, nobody could.
  lemma NobodyAhead(s: State, r: Request)
    requires FirstFree(s) >= |s.arrived|
    ensures !CouldJoin(s, r)
  {
  }

  // For requests without sync, the only ones the database itself makes, the condition is plain:
  // some write waits that is in no group yet.
  lemma PlainCondition(s: State)
    requires forall i :: 0 <= i < |s.arrived| && s.arrived[i].NullBatch? ==> !s.arrived[i].sync
    ensures CouldJoin(s, NullBatch(false)) <==> exists j :: FirstFree(s) <= j < |s.arrived| && s.arrived[j].Batch?
  {
    var all, id := s.arrived + [NullBatch(false)], |s.arrived|;
    if CouldJoin(s, NullBatch(false)) {
      var j :| FirstFree(s) <= j < id && Reaches(all, j, id);
      assert s.arrived[j].Batch?;
    }
    if exists j :: FirstFree(s) <= j < id && s.arrived[j].Batch? {
      var j :| FirstFree(s) <= j < id && s.arrived[j].Batch?;
      j := LastBatch(s.arrived, j);
      var q := Asked(all, j, id - j + 1);
      forall i | 0 < i <= id - j ensures Joins(q, i) {
        assert q[i] == all[j + i] && q[i].NullBatch? && !q[i].sync;
      }
      assert Reaches(all, j, id);
    }
  }

  lemma {:induction false} LastBatch(arrived: seq<Request>, j: nat) returns (last: nat)
    requires j < |arrived| && arrived[j].Batch?
    ensures j <= last < |arrived| && arrived[last].Batch?
    ensures forall i :: last < i < |arrived| ==> arrived[i].NullBatch?
    decreases |arrived| - j
  {
    if i :| j < i < |arrived| && arrived[i].Batch? { last := LastBatch(arrived, i); } else { last := j; }
  }

  // ---------- If nobody could take it, it leads and is served ----------

  // No group formed or forming runs across position u.
  ghost predicate Split(s: State, u: nat) {
    && (forall g :: 0 <= g < |s.groups| && s.groups[g].members != [] && s.groups[g].members[0] < u ==>
          s.groups[g].members[0] + |s.groups[g].members| <= u)
    && (|Served(s.groups)| >= u || (s.leading.Committing? && FirstFree(s) == u))
  }

  lemma SplitNow(s: State)
    requires Inv(s)
    ensures Split(s, FirstFree(s))
  {
    forall g | 0 <= g < |s.groups| ensures s.groups[g].members[0] + |s.groups[g].members| <= FirstFree(s) {
      var m := s.groups[g].members;
      assert GroupOk(s.arrived, s.groups[g]);
      var last := m[|m| - 1];
      assert last in m && last in s.told;
    }
  }

  lemma SplitStays(s: State, ev: Event, s': State, u: nat)
    requires Inv(s) && Split(s, u) && Step(s, ev, s')
    ensures Split(s', u)
  {
    if s'.groups == s.groups {
      SplitGroupsSame(s, ev, s', u);
    } else {
      QueueNumbers(s);
      hide Ranges, ToldOk, HeadAwake, GroupOk, Joins, Combined, IsGroup, Split, Complete;
      if ev.Commit? {
        SplitComplete(s, s.leading.n, ev.status, s.leading.ops, s.leading.room, s', u);
      } else if ev.Room? {
        SplitComplete(s, 1, ev.status, [], Made(s.arrived[s.queue[0]].NullBatch?, ev.switches), s', u);
      }
    }
  }

  lemma SplitGroupsSame(s: State, ev: Event, s': State, u: nat)
    requires Split(s, u) && Step(s, ev, s') && s'.groups == s.groups
    ensures Split(s', u)
  {
    hide Joins, Combined, IsGroup, Served, Waiting;
  }

  lemma SplitComplete(s: State, n: nat, status: Status, ops: seq<Operation>, room: Made, s': State, u: nat)
    requires Fifo(s) && Split(s, u) && 0 < n <= |s.queue| && s' == Complete(s, n, status, ops, room)
    requires s.leading.Committing? ==> n == s.leading.n
    ensures Split(s', u)
  {
    assert s'.groups[..|s.groups|] == s.groups;
    assert Served(s'.groups) == Served(s.groups) + s.queue[..n];
  }

  lemma {:induction false} SplitLater(states: seq<State>, events: seq<Event>, k: nat, i: nat, u: nat)
    requires Run(states, events) && k <= i < |states| && Split(states[k], u)
    ensures Split(states[i], u)
  {
    hide Split, Inv, Step;
    if k < i {
      SplitLater(states, events, k, i - 1, u);
      Reachable(states, events, i - 1);
      SplitStays(states[i - 1], events[i - 1], states[i], u);
    }
  }

  lemma {:induction false} ArrivedGrows(states: seq<State>, events: seq<Event>, k: nat, i: nat)
    requires Run(states, events) && k <= i < |states|
    ensures states[k].arrived <= states[i].arrived
  {
    hide Inv, Step;
    if k < i {
      ArrivedGrows(states, events, k, i - 1);
      Reachable(states, events, i - 1);
      StepGrows(states[i - 1], events[i - 1], states[i]);
    }
  }

  // Whatever happens afterwards, a request nobody could take in and that is told Ok has had its
  // switch.
  lemma SwitchSure(states: seq<State>, events: seq<Event>, k: nat, r: Request, i: nat)
    requires Run(states, events) && k < i < |states| && events[k] == Arrive(r) && r.NullBatch?
    requires !CouldJoin(states[k], r)
    requires var id := |states[k].arrived|; id in states[i].told && states[i].told[id].Ok?
    ensures SwitchForced(states[i], |states[k].arrived|)
  {
    var s, t, id := states[k], states[i], |states[k].arrived|;
    Reachable(states, events, k);
    SplitNow(s);
    SplitLater(states, events, k, i, FirstFree(s));
    RunStep(states, events, k);
    ArrivedGrows(states, events, k + 1, i);
    ForcedIffLeads(states, events, i, id);
    var g := OneGroupEach(states, events, i, id);
    Reachable(states, events, i);
    hide Run, CouldJoin;
    FreeBelowArrived(s);
    LeadsItself(s, t, r, g);
  }

  // In particular when only the running group, or nobody, is in the queue on arrival.
  lemma AloneGetsSwitch(states: seq<State>, events: seq<Event>, k: nat, r: Request, i: nat)
    requires Run(states, events) && k < i < |states| && events[k] == Arrive(r) && r.NullBatch?
    requires |states[k].queue| == if states[k].leading.Committing? then states[k].leading.n else 0
    requires var id := |states[k].arrived|; id in states[i].told && states[i].told[id].Ok?
    ensures SwitchForced(states[i], |states[k].arrived|)
  {
    Reachable(states, events, k);
    assert FirstFree(states[k]) == |states[k].arrived|;
    hide Run, Inv, CouldJoin, SwitchForced, FirstFree;
    NobodyAhead(states[k], r);
    SwitchSure(states, events, k, r, i);
  }

  lemma RunStep(states: seq<State>, events: seq<Event>, i: nat)
    requires Run(states, events) && i < |events|
    ensures Step(states[i], events[i], states[i + 1])
  {
  }

  lemma FreeBelowArrived(s: State)
    requires Inv(s)
    ensures FirstFree(s) <= |s.arrived|
  {
  }

  lemma LeadsItself(s: State, t: State, r: Request, g: nat)
    requires r.NullBatch? && !CouldJoin(s, r) && s.arrived + [r] <= t.arrived && FirstFree(s) <= |s.arrived|
    requires HandledBy(t, |s.arrived|, g) && GroupOk(t.arrived, t.groups[g]) && Split(t, FirstFree(s))
    ensures t.groups[g].members[0] == |s.arrived|
  {
    assert FirstFree(s) <= t.groups[g].members[0];
    if t.groups[g].members[0] < |s.arrived| { FollowerReached(s, t, r, g); }
  }

  // A leader whose group took writer |s.arrived| in reached as far as it.
  lemma FollowerReached(s: State, t: State, r: Request, g: nat)
    requires s.arrived + [r] <= t.arrived && HandledBy(t, |s.arrived|, g) && GroupOk(t.arrived, t.groups[g])
    requires t.groups[g].members[0] < |s.arrived|
    ensures Reaches(s.arrived + [r], t.groups[g].members[0], |s.arrived|)
  {
    var id, m := |s.arrived|, t.groups[g].members;
    var j := m[0];
    var p, q := Asked(t.arrived, j, |m|), Asked(s.arrived + [r], j, id - j + 1);
    assert RoomOk(p, t.groups[g].status, t.groups[g].room);
    assert forall i :: 0 <= i <= id - j ==> q[i] == p[i];
    hide Joins;
    forall i | 0 < i <= id - j ensures Joins(q, i) { JoinsAlike(p, q, i); }
  }

  // ---------- If somebody could, it can be told Ok without a switch ----------

  // A run can go on with one more step.
  lemma Extend(states: seq<State>, events: seq<Event>, ev: Event, s': State)
    requires Run(states, events) && Step(states[|states| - 1], ev, s')
    ensures Run(states + [s'], events + [ev])
  {
    var ss, es := states + [s'], events + [ev];
    forall i | 0 <= i < |es| ensures Step(ss[i], es[i], ss[i + 1]) {
      if i < |events| { assert Step(states[i], events[i], states[i + 1]); }
    }
  }

  function Last(states: seq<State>): State {
    if states == [] then Initial() else states[|states| - 1]
  }

  // One run goes on as the other.
  ghost predicate Continues(states: seq<State>, events: seq<Event>, ss: seq<State>, es: seq<Event>) {
    Run(ss, es) && states <= ss && events <= es
  }

  // The head of the queue starts to lead, if it has not yet.
  lemma TakeLead(states: seq<State>, events: seq<Event>) returns (ss: seq<State>, es: seq<Event>)
    requires Run(states, events) && Last(states).queue != [] && !Last(states).leading.Committing?
    ensures Continues(states, events, ss, es) && Last(ss) == Last(states).(leading := MakingRoom)
  {
    var s := Last(states);
    Reachable(states, events, |states| - 1);
    assert s.queue[0] !in s.asleep;
    hide Run, Fifo, Ranges, ToldOk, HeadAwake, LeaderOk;
    ss, es := states, events;
    if s.leading.Nobody? {
      Extend(states, events, Lead, s.(leading := MakingRoom));
      ss, es := states + [s.(leading := MakingRoom)], events + [Lead];
    }
  }

  // The head of the queue is refused and leaves.
  lemma Refuse(states: seq<State>, events: seq<Event>) returns (ss: seq<State>, es: seq<Event>)
    requires Run(states, events) && Last(states).queue != [] && !Last(states).leading.Committing?
    ensures Continues(states, events, ss, es)
    ensures var s, s' := Last(states), Last(ss);
      && s'.arrived == s.arrived && s'.queue == s.queue[1..] && s'.leading.Nobody?
  {
    var s := Last(states);
    Reachable(states, events, |states| - 1);
    assert Known(s) && s.queue[0] !in s.asleep;
    hide Run, Fifo, Ranges, ToldOk, HeadAwake, LeaderOk;
    ss, es := TakeLead(states, events);
    var t := Last(ss);
    var room := Made(t.arrived[t.queue[0]].NullBatch?, 0);
    var t' := Complete(t, 1, Failed(""), [], room);
    assert Step(t, Room(Failed(""), 1, 0), t');
    Extend(ss, es, Room(Failed(""), 1, 0), t');
    ss, es := ss + [t'], es + [Room(Failed(""), 1, 0)];
  }

  // The running group, if any, finishes.
  lemma Finish(states: seq<State>, events: seq<Event>) returns (ss: seq<State>, es: seq<Event>)
    requires Run(states, events)
    ensures Continues(states, events, ss, es)
    ensures var s, s' := Last(states), Last(ss);
      && s'.arrived == s.arrived && !s'.leading.Committing? && FirstFree(s) == |Served(s'.groups)|
  {
    var s := Last(states);
    Reachable(states, events, |states| - 1);
    hide Run, Fifo, Ranges, ToldOk, HeadAwake;
    ss, es := states, events;
    if s.leading.Committing? {
      var t := Complete(s, s.leading.n, Ok, s.leading.ops, s.leading.room);
      assert Step(s, Commit(Ok), t);
      Extend(ss, es, Commit(Ok), t);
      ss, es := ss + [t], es + [Commit(Ok)];
      assert t.groups[..|s.groups|] == s.groups;
    }
  }

  lemma Waiters(states: seq<State>, events: seq<Event>)
    requires Run(states, events)
    ensures states != [] && |Served(Last(states).groups)| + |Last(states).queue| == |Last(states).arrived|
  {
    Reachable(states, events, |states| - 1);
  }

  // Everyone ahead of writer j is refused.
  lemma {:induction false} RefuseUpTo(states: seq<State>, events: seq<Event>, j: nat)
    returns (ss: seq<State>, es: seq<Event>)
    requires Run(states, events) && !Last(states).leading.Committing?
    requires |Served(Last(states).groups)| <= j < |Last(states).arrived|
    ensures Continues(states, events, ss, es)
    ensures var s := Last(ss);
      s.arrived == Last(states).arrived && !s.leading.Committing? && |Served(s.groups)| == j
    decreases j - |Served(Last(states).groups)|
  {
    hide Run, Served;
    Waiters(states, events);
    if |Served(Last(states).groups)| == j {
      ss, es := states, events;
    } else {
      var ss1, es1 := Refuse(states, events);
      Waiters(ss1, es1);
      ss, es := RefuseUpTo(ss1, es1, j);
    }
  }

  // The head of the queue leads everyone behind it into one group, without a switch.
  lemma CommitAll(states: seq<State>, events: seq<Event>) returns (ss: seq<State>, es: seq<Event>)
    requires Run(states, events) && !Last(states).leading.Committing? && Last(states).queue != []
    requires var s := Last(states); Known(s) && Waiting(s)[0].Batch? && IsGroup(Waiting(s), |s.queue|)
    ensures Continues(states, events, ss, es)
    ensures var s, s' := Last(states), Last(ss);
      forall id :: id in s.queue ==> id in s'.told && s'.told[id].Ok? && NoSwitch(s', id)
  {
    hide Run, Step, NoSwitch, IsGroup, Waiting, Known;
    ss, es := TakeLead(states, events);
    var t := Last(ss);
    var t1, ops, t2 := RoomAndCommit(Last(states), t);
    Extend(ss, es, Room(Ok, |t.queue|, 0), t1);
    Extend(ss + [t1], es + [Room(Ok, |t.queue|, 0)], Commit(Ok), t2);
    ss, es := ss + [t1] + [t2], es + [Room(Ok, |t.queue|, 0)] + [Commit(Ok)];
    AllTold(t1, ops, t2);
  }

  lemma RoomAndCommit(s: State, t: State) returns (t1: State, ops: seq<Operation>, t2: State)
    requires s.queue != [] && Known(s) && Waiting(s)[0].Batch? && IsGroup(Waiting(s), |s.queue|)
    requires t == s.(leading := MakingRoom)
    ensures t1 == t.(leading := t1.leading, tmp := t1.tmp) && Step(t, Room(Ok, |t.queue|, 0), t1)
    ensures t2 == Complete(t1, |t1.queue|, Ok, ops, Made(false, 0)) && Step(t1, Commit(Ok), t2)
  {
    assert Waiting(t) == Waiting(s);
    var n := |t.queue|;
    ops := Combined(Waiting(t), n);
    t1 := t.(leading := Committing(n, ops, Made(false, 0)), tmp := ops);
    t2 := Complete(t1, n, Ok, ops, Made(false, 0));
    hide Combined, IsGroup, Complete;
  }

  lemma AllTold(s: State, ops: seq<Operation>, s': State)
    requires s' == Complete(s, |s.queue|, Ok, ops, Made(false, 0))
    ensures forall id :: id in s.queue ==> id in s'.told && s'.told[id].Ok? && NoSwitch(s', id)
  {
    assert s.queue[..|s.queue|] == s.queue;
    forall id | id in s.queue ensures id in s'.told && s'.told[id].Ok? && NoSwitch(s', id) {
      assert HandledBy(s', id, |s.groups|);
    }
  }

  lemma Arriving(states: seq<State>, events: seq<Event>, r: Request) returns (s': State)
    requires Run(states, events)
    ensures Run(states + [s'], events + [Arrive(r)])
    ensures s'.arrived == Last(states).arrived + [r] && FirstFree(s') == FirstFree(Last(states))
  {
    var s := Last(states);
    s' := s.(arrived := s.arrived + [r], queue := s.queue + [|s.arrived|],
             asleep := if s.queue == [] then s.asleep else s.asleep + {|s.arrived|});
    Extend(states, events, Arrive(r), s');
  }

  // Some continuation tells it Ok with no switch made.
  lemma SwitchMissed(states: seq<State>, events: seq<Event>, r: Request)
    returns (ss: seq<State>, es: seq<Event>)
    requires Run(states, events) && r.NullBatch? && CouldJoin(Last(states), r)
    ensures Continues(states, events + [Arrive(r)], ss, es)
    ensures var id := |Last(states).arrived|;
      id in Last(ss).told && Last(ss).told[id].Ok? && NoSwitch(Last(ss), id)
  {
    hide Run, NoSwitch, Inv, FirstFree, Reaches;
    var s, id := Last(states), |Last(states).arrived|;
    var j :| FirstFree(s) <= j < id && Reaches(s.arrived + [r], j, id);
    var s' := Arriving(states, events, r);
    ss, es := Finish(states + [s'], events + [Arrive(r)]);
    ss, es := RefuseUpTo(ss, es, j);
    Reachable(ss, es, |ss| - 1);
    var t := Last(ss);
    WholeQueue(t, j, id);
    ss, es := CommitAll(ss, es);
  }

  lemma WholeQueue(t: State, j: nat, id: nat)
    requires Inv(t) && |Served(t.groups)| == j < id && |t.arrived| == id + 1 && Reaches(t.arrived, j, id)
    ensures Known(t) && t.queue != [] && id in t.queue
    ensures Waiting(t)[0].Batch? && IsGroup(Waiting(t), |t.queue|)
  {
    assert t.queue[id - j] == id;
    assert Waiting(t) == Asked(t.arrived, j, id - j + 1);
  }

  // ---------- The exact condition ----------

  // However the run goes on after request r arrives, being told Ok means a switch was made.
  ghost predicate SwitchPromised(states: seq<State>, events: seq<Event>, r: Request) {
    forall ss, es :: Continues(states, events + [Arrive(r)], ss, es) ==>
      var id := |Last(states).arrived|;
      id in Last(ss).told && Last(ss).told[id].Ok? ==> Switched(Last(ss), id)
  }

  // A switch request told Ok is certain to have had its switch if and only if, when it arrives,
  // no waiting write that is in no group yet could take it into its own.
  lemma SwitchPromisedIff(states: seq<State>, events: seq<Event>, r: Request)
    requires Run(states, events) && r.NullBatch?
    ensures SwitchPromised(states, events, r) <==> !CouldJoin(Last(states), r)
  {
    var id := |Last(states).arrived|;
    if CouldJoin(Last(states), r) {
      var ss, es := SwitchMissed(states, events, r);
      NotBoth(ss, es, id);
    } else {
      forall ss, es | Continues(states, events + [Arrive(r)], ss, es) && id in Last(ss).told && Last(ss).told[id].Ok?
        ensures Switched(Last(ss), id)
      {
        var k := |states| - 1;
        assert es[k] == (events + [Arrive(r)])[k] && ss[k] == states[k];
        SwitchSure(ss, es, k, r, |ss| - 1);
      }
    }
  }

  lemma NotBoth(states: seq<State>, events: seq<Event>, id: nat)
    requires Run(states, events) && id in Last(states).told && NoSwitch(Last(states), id)
    ensures !Switched(Last(states), id)
  {
    var g := OneGroupEach(states, events, |states| - 1, id);
    var s := Last(states);
    var h: nat :| HandledBy(s, id, h) && s.groups[h].room.switches == 0;
    assert h == g;
  }
}
