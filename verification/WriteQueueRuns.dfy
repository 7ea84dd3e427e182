// Every interleaving of concurrent Writes: arrivals, sleeping and waking, leading and
// committing.  Each event is what one thread does between taking and giving up the mutex.
module WriteQueueRuns {
  import opened InternalKeys
  import opened WriteQueue

  // room tells how the leader's MakeRoomForWrite went.
  datatype Group = Group(members: seq<nat>, status: Status, first: Sequence, ops: seq<Operation>, room: Made)

  // Whether MakeRoomForWrite was told to switch memtables, and how often it did.
  datatype Made = Made(forced: bool, switches: nat)

  datatype Leading = Nobody | MakingRoom | Committing(n: nat, ops: seq<Operation>, room: Made)

  // Writers are numbered in order of arrival.  asleep holds those waiting without a signal;
  // told maps each finished one to the status its Write returned.
  datatype State = State(arrived: seq<Request>, queue: seq<nat>, asleep: set<nat>, told: map<nat, Status>,
                         leading: Leading, tmp: seq<Operation>, last: Sequence, groups: seq<Group>)

  datatype Event =
    | Arrive(r: Request)
    | Wake(id: nat)             // signalled, or woken for no reason
    | WaitAgain(id: nat)        // neither done nor at the front
    | Lead
    | Room(status: Status, n: nat, switches: nat)
    | Commit(status: Status)

  // The requests of writers first .. first + n.
  function Asked(arrived: seq<Request>, first: nat, n: nat): (r: seq<Request>)
    requires first + n <= |arrived|
    ensures |r| == n && forall i :: 0 <= i < n ==> r[i] == arrived[first + i]
  {
    arrived[first..first + n]
  }

  // The loop at the end of Write: pop the group, set its members' status, signal the new head.
  function Complete(s: State, n: nat, status: Status, ops: seq<Operation>, room: Made): State
    requires n <= |s.queue|
  {
    var group := s.queue[..n];
    var told := map id | id in s.told.Keys + (set i | i in group) :: if id in group then status else s.told[id];
    s.(queue := s.queue[n..],
       told := told,
       asleep := s.asleep - (set i | i in group) - (if n < |s.queue| then {s.queue[n]} else {}),
       leading := Nobody, tmp := [],
       last := s.last + |ops|,
       groups := s.groups + [Group(group, status, s.last + 1, ops, room)])
  }

  // What MakeRoomForWrite promises: success after being forced means a switch.
  predicate MadeRoom(status: Status, room: Made) {
    status.Ok? && room.forced ==> room.switches > 0
  }

  ghost predicate Known(s: State) {
    forall i :: 0 <= i < |s.queue| ==> s.queue[i] < |s.arrived|
  }

  ghost function Waiting(s: State): (r: seq<Request>)
    requires Known(s)
    ensures |r| == |s.queue| && forall i :: 0 <= i < |r| ==> r[i] == s.arrived[s.queue[i]]
  {
    seq(|s.queue|, i requires 0 <= i < |s.queue| => s.arrived[s.queue[i]])
  }

  ghost predicate Step(s: State, ev: Event, s': State) {
    match ev
    case Arrive(r) =>
      s' == s.(arrived := s.arrived + [r], queue := s.queue + [|s.arrived|],
               asleep := if s.queue == [] then s.asleep else s.asleep + {|s.arrived|})
    case Wake(id) =>
      id in s.asleep && s' == s.(asleep := s.asleep - {id})
    case WaitAgain(id) =>
      s.queue != [] && id in s.queue[1..] && id !in s.asleep && s' == s.(asleep := s.asleep + {id})
    case Lead =>
      s.queue != [] && s.queue[0] !in s.asleep && s.leading.Nobody? && s' == s.(leading := MakingRoom)
    case Room(status, n, switches) =>
      && Known(s) && s.leading.MakingRoom? && s.queue != []
      && var room := Made(s.arrived[s.queue[0]].NullBatch?, switches);
         && MadeRoom(status, room)
         && if status.Ok? && !room.forced then
              && IsGroup(Waiting(s), n)
              && var ops := Combined(Waiting(s), n);
                 && s' == s.(leading := Committing(n, ops, room), tmp := s'.tmp)
                 && (s'.tmp == ops || s'.tmp == [])
            else s' == Complete(s, 1, status, [], room)
    case Commit(status) =>
      && s.leading.Committing? && s.leading.n <= |s.queue|
      && s' == Complete(s, s.leading.n, status, s.leading.ops, s.leading.room)
  }

  function Initial(): State {
    State([], [], {}, map[], Nobody, [], 0, [])
  }

  ghost predicate Run(states: seq<State>, events: seq<Event>) {
    && |states| == |events| + 1 && states[0] == Initial()
    && forall i :: 0 <= i < |events| ==> Step(states[i], events[i], states[i + 1])
  }

  // ---------- What every reachable state satisfies ----------

  // All members of all groups so far, in order.
  function Served(gs: seq<Group>): seq<nat> {
    if gs == [] then [] else Served(gs[..|gs| - 1]) + gs[|gs| - 1].members
  }

  // Writers leave in order of arrival, each exactly once: those served, then those waiting, are
  // all that ever arrived.
  ghost predicate Fifo(s: State) {
    && |Served(s.groups)| + |s.queue| == |s.arrived|
    && (forall i :: 0 <= i < |Served(s.groups)| ==> Served(s.groups)[i] == i)
    && (forall i :: 0 <= i < |s.queue| ==> s.queue[i] == |Served(s.groups)| + i)
  }

  // Sequence numbers: each group's range starts where the previous one ended.
  ghost predicate Ranges(s: State) {
    && (forall g :: 0 <= g < |s.groups| ==>
          s.groups[g].first == (if g == 0 then 1 else s.groups[g - 1].first + |s.groups[g - 1].ops|))
    && s.last + 1 == if s.groups == [] then 1 else s.groups[|s.groups| - 1].first + |s.groups[|s.groups| - 1].ops|
  }

  // A group is a run of consecutive writers; its batch is theirs joined in order, unless its
  // leader was refused; sync members have a sync leader; its size is bounded.  MakeRoomForWrite
  // was forced for it exactly when its leader asked for a switch.
  ghost predicate GroupOk(arrived: seq<Request>, g: Group) {
    && g.members != [] && g.members[0] + |g.members| <= |arrived|
    && (forall i :: 0 <= i < |g.members| ==> g.members[i] == g.members[0] + i)
    && var q := Asked(arrived, g.members[0], |g.members|);
       && (forall i :: 0 < i < |q| ==> Joins(q, i))
       && (g.ops == Combined(q, |q|) || (g.ops == [] && |q| == 1 && g.status.Failed?))
       && RoomOk(q, g.status, g.room)
  }

  ghost predicate RoomOk(q: seq<Request>, status: Status, room: Made)
    requires q != []
  {
    (room.forced <==> q[0].NullBatch?) && (room.forced ==> |q| == 1) && MadeRoom(status, room)
  }

  ghost predicate ToldOk(s: State) {
    && (forall id: nat :: id in s.told <==> id < |Served(s.groups)|)
    && forall g, id :: 0 <= g < |s.groups| && id in s.groups[g].members ==>
         id in s.told && s.told[id] == s.groups[g].status
  }

  // The head of the queue is never asleep without a signal, nor is anyone already told.
  ghost predicate HeadAwake(s: State) {
    && (s.queue != [] ==> s.queue[0] !in s.asleep)
    && (forall id :: id in s.asleep ==> id in s.queue)
    && (!s.leading.Nobody? ==> s.queue != [])
  }

  ghost predicate LeaderOk(s: State) {
    && (s.leading.Committing? ==>
          && Known(s) && 0 < s.leading.n <= |s.queue|
          && (forall i :: 0 < i < s.leading.n ==> Joins(Waiting(s), i))
          && s.leading.ops == Combined(Waiting(s), s.leading.n)
          && !s.leading.room.forced && Waiting(s)[0].Batch?)
    && (!s.leading.Committing? ==> s.tmp == [])
  }

  ghost predicate Inv(s: State) {
    && Fifo(s) && Ranges(s) && ToldOk(s) && HeadAwake(s) && LeaderOk(s)
    && forall g :: 0 <= g < |s.groups| ==> GroupOk(s.arrived, s.groups[g])
  }

  // ---------- Steps keep it ----------

  lemma {:induction false} SamePrefix(p: seq<Request>, q: seq<Request>, n: nat)
    requires n <= |p| && n <= |q| && forall i :: 0 <= i < n ==> p[i] == q[i]
    ensures TotalSize(p, n) == TotalSize(q, n) && Combined(p, n) == Combined(q, n)
  {
    if n > 0 { SamePrefix(p, q, n - 1); }
  }

  lemma JoinsAlike(p: seq<Request>, q: seq<Request>, i: nat)
    requires 0 < i < |p| && i < |q| && forall j :: 0 <= j <= i ==> p[j] == q[j]
    ensures Joins(p, i) == Joins(q, i)
  {
    SamePrefix(p, q, i + 1);
  }

  lemma GroupsKept(s: State, r: Request)
    requires forall g :: 0 <= g < |s.groups| ==> GroupOk(s.arrived, s.groups[g])
    ensures forall g :: 0 <= g < |s.groups| ==> GroupOk(s.arrived + [r], s.groups[g])
  {
    forall g | 0 <= g < |s.groups| ensures GroupOk(s.arrived + [r], s.groups[g]) {
      var m := s.groups[g].members;
      assert GroupOk(s.arrived, s.groups[g]);
      assert Asked(s.arrived + [r], m[0], |m|) == Asked(s.arrived, m[0], |m|);
    }
  }

  lemma ArriveKeeps(s: State, r: Request, s': State)
    requires Inv(s) && Step(s, Arrive(r), s')
    ensures Inv(s')
  {
    GroupsKept(s, r);
    ArriveQueue(s, r, s');
    ArriveLeader(s, s');
    hide Fifo, Ranges, HeadAwake, LeaderOk, ToldOk;
    SameServed(s, s');
  }

  lemma SameServed(s: State, s': State)
    requires Ranges(s) && ToldOk(s) && s'.groups == s.groups && s'.last == s.last && s'.told == s.told
    ensures Ranges(s') && ToldOk(s')
  {
  }

  lemma ArriveQueue(s: State, r: Request, s': State)
    requires Fifo(s) && HeadAwake(s)
    requires s' == s.(arrived := s.arrived + [r], queue := s.queue + [|s.arrived|],
                      asleep := if s.queue == [] then s.asleep else s.asleep + {|s.arrived|})
    ensures Fifo(s') && HeadAwake(s')
  {
    forall id | id in s'.asleep ensures id in s'.queue {
      if id !in s.asleep { assert s'.queue[|s.queue|] == id; }
    }
  }

  lemma ArriveLeader(s: State, s': State)
    requires LeaderOk(s) && Known(s) && Known(s') && s.arrived <= s'.arrived && s.queue <= s'.queue
    requires s'.leading == s.leading && s'.tmp == s.tmp
    ensures LeaderOk(s')
  {
    if s.leading.Committing? {
      var p, q := Waiting(s), Waiting(s');
      forall i | 0 < i < s.leading.n ensures Joins(q, i) { JoinsAlike(p, q, i); }
      SamePrefix(p, q, s.leading.n);
    }
  }

  lemma RoomKeeps(s: State, status: Status, n: nat, switches: nat, s': State)
    requires Inv(s) && Step(s, Room(status, n, switches), s')
    ensures Inv(s')
  {
    QueueNumbers(s);
    hide Fifo, Ranges, HeadAwake, LeaderOk, ToldOk, GroupOk, IsGroup, Joins, Combined, Complete;
    if status.Ok? && s.arrived[s.queue[0]].Batch? {
      RoomLeader(s, n, switches, s');
      RoomQueue(s, s');
      SameServed(s, s');
    } else {
      RefusedAlone(s);
      CompleteKeeps(s, 1, status, [], Made(s.arrived[s.queue[0]].NullBatch?, switches), s');
    }
  }

  lemma QueueNumbers(s: State)
    requires Fifo(s)
    ensures Known(s) && (s.queue != [] ==> s.queue[0] + |s.queue| <= |s.arrived|)
  {
  }

  lemma RoomQueue(s: State, s': State)
    requires Fifo(s) && HeadAwake(s) && s.queue != []
    requires s' == s.(leading := s'.leading, tmp := s'.tmp)
    ensures Fifo(s') && HeadAwake(s')
  {
  }

  // A switch request has no records.
  lemma RefusedAlone(s: State)
    requires Known(s) && s.queue != [] && s.queue[0] + 1 <= |s.arrived|
    ensures s.arrived[s.queue[0]].NullBatch? ==> Combined(Asked(s.arrived, s.queue[0], 1), 1) == []
  {
    var q := Asked(s.arrived, s.queue[0], 1);
    assert Combined(q, 1) == Combined(q, 0) + Records(q[0]);
  }

  lemma RoomLeader(s: State, n: nat, switches: nat, s': State)
    requires Known(s) && IsGroup(Waiting(s), n) && Waiting(s)[0].Batch?
    requires s' == s.(leading := Committing(n, Combined(Waiting(s), n), Made(false, switches)), tmp := s'.tmp)
    ensures LeaderOk(s')
  {
    assert Waiting(s') == Waiting(s);
  }

  lemma CommitKeeps(s: State, status: Status, s': State)
    requires Inv(s) && Step(s, Commit(status), s')
    ensures Inv(s')
  {
    QueueNumbers(s);
    CommitBatch(s);
    hide Fifo, Ranges, HeadAwake, LeaderOk, ToldOk, GroupOk, Joins, Combined, Complete;
    CompleteKeeps(s, s.leading.n, status, s.leading.ops, s.leading.room, s');
  }

  // The group chosen before the lock was released is still the front of the queue.
  lemma CommitBatch(s: State)
    requires Fifo(s) && LeaderOk(s) && s.leading.Committing?
    ensures 0 < s.leading.n <= |s.queue| && s.queue[0] + s.leading.n <= |s.arrived|
    ensures var q := Asked(s.arrived, s.queue[0], s.leading.n);
      && (forall i :: 0 < i < s.leading.n ==> Joins(q, i)) && s.leading.ops == Combined(q, s.leading.n)
      && !s.leading.room.forced && q[0].Batch?
  {
    var n := s.leading.n;
    var p, q := Waiting(s), Asked(s.arrived, s.queue[0], n);
    assert forall i :: 0 <= i < n ==> p[i] == q[i];
    hide Joins, Combined, Fifo;
    forall i | 0 < i < n ensures Joins(q, i) { JoinsAlike(p, q, i); }
    SamePrefix(p, q, n);
  }

  lemma CompleteKeeps(s: State, n: nat, status: Status, ops: seq<Operation>, room: Made, s': State)
    requires Fifo(s) && Ranges(s) && ToldOk(s) && HeadAwake(s)
    requires forall g :: 0 <= g < |s.groups| ==> GroupOk(s.arrived, s.groups[g])
    requires 0 < n <= |s.queue| && s' == Complete(s, n, status, ops, room) && s.queue[0] + n <= |s.arrived|
    requires var q := Asked(s.arrived, s.queue[0], n);
      && (forall i :: 0 < i < n ==> Joins(q, i))
      && (ops == Combined(q, n) || (ops == [] && n == 1 && status.Failed?)) && RoomOk(q, status, room)
    ensures Inv(s')
  {
    CompleteFifo(s, n, status, ops, room, s');
    CompleteRanges(s, n, status, ops, room, s');
    CompleteGroups(s, n, status, ops, room, s');
    hide Fifo, Ranges, ToldOk, HeadAwake, GroupOk;
  }

  lemma CompleteRanges(s: State, n: nat, status: Status, ops: seq<Operation>, room: Made, s': State)
    requires Ranges(s) && 0 < n <= |s.queue| && s' == Complete(s, n, status, ops, room)
    ensures Ranges(s')
  {
  }

  lemma CompleteGroups(s: State, n: nat, status: Status, ops: seq<Operation>, room: Made, s': State)
    requires Fifo(s) && forall g :: 0 <= g < |s.groups| ==> GroupOk(s.arrived, s.groups[g])
    requires 0 < n <= |s.queue| && s' == Complete(s, n, status, ops, room) && s.queue[0] + n <= |s.arrived|
    requires var q := Asked(s.arrived, s.queue[0], n);
      && (forall i :: 0 < i < n ==> Joins(q, i))
      && (ops == Combined(q, n) || (ops == [] && n == 1 && status.Failed?)) && RoomOk(q, status, room)
    ensures forall g :: 0 <= g < |s'.groups| ==> GroupOk(s'.arrived, s'.groups[g])
  {
    var g := Group(s.queue[..n], status, s.last + 1, ops, room);
    assert forall i :: 0 <= i < n ==> g.members[i] == s.queue[i] == s.queue[0] + i;
    assert GroupOk(s.arrived, g);
    hide GroupOk;
  }

  lemma CompleteFifo(s: State, n: nat, status: Status, ops: seq<Operation>, room: Made, s': State)
    requires Fifo(s) && ToldOk(s) && HeadAwake(s)
    requires 0 < n <= |s.queue| && s' == Complete(s, n, status, ops, room)
    ensures Fifo(s') && ToldOk(s') && HeadAwake(s')
  {
    assert s'.groups[..|s.groups|] == s.groups;
    assert Served(s'.groups) == Served(s.groups) + s.queue[..n];
    forall g, id | 0 <= g < |s.groups| && id in s.groups[g].members ensures id < |Served(s.groups)| {
      assert id in s.told;
    }
    forall id ensures id in s.queue[..n] <==> |Served(s.groups)| <= id < |Served(s.groups)| + n {
      if |Served(s.groups)| <= id < |Served(s.groups)| + n { assert s.queue[..n][id - |Served(s.groups)|] == id; }
    }
    forall i | n <= i < |s.queue| ensures s.queue[i] in s'.queue {
      assert s'.queue[i - n] == s.queue[i];
    }
    forall i | 0 <= i < n ensures s.queue[i] in s.queue[..n] {
      assert s.queue[..n][i] == s.queue[i];
    }
  }

  lemma StepKeeps(s: State, ev: Event, s': State)
    requires Inv(s) && Step(s, ev, s')
    ensures Inv(s')
  {
    match ev {
      case Arrive(r) => ArriveKeeps(s, r, s');
      case Room(status, n, switches) => RoomKeeps(s, status, n, switches, s');
      case Commit(status) => CommitKeeps(s, status, s');
      case Wake(id) => SleepersKeep(s, s');
      case WaitAgain(id) => WaitAgainKeeps(s, id, s');
      case Lead => SleepersKeep(s, s');
    }
  }

  lemma WaitAgainKeeps(s: State, id: nat, s': State)
    requires Inv(s) && Step(s, WaitAgain(id), s')
    ensures Inv(s')
  {
    var i :| 0 <= i < |s.queue| - 1 && s.queue[1..][i] == id;
    assert s.queue[i + 1] == id;
    SleepersKeep(s, s');
  }

  lemma SleepersKeep(s: State, s': State)
    requires s'.leading == s.leading || (s.leading.Nobody? && s'.leading.MakingRoom?)
    requires Inv(s) && s' == s.(asleep := s'.asleep, leading := s'.leading) && HeadAwake(s')
    ensures Inv(s')
  {
    hide Ranges, ToldOk, HeadAwake, GroupOk;
    SameServed(s, s');
    LeaderStays(s, s');
    hide LeaderOk;
  }

  lemma LeaderStays(s: State, s': State)
    requires LeaderOk(s) && s' == s.(asleep := s'.asleep, leading := s'.leading)
    requires s'.leading == s.leading || (s.leading.Nobody? && s'.leading.MakingRoom?)
    ensures LeaderOk(s')
  {
    if s.leading.Committing? { assert Waiting(s') == Waiting(s); }
  }

  lemma {:induction false} Reachable(states: seq<State>, events: seq<Event>, i: nat)
    requires Run(states, events) && i < |states|
    ensures Inv(states[i])
  {
    if i > 0 {
      Reachable(states, events, i - 1);
      StepKeeps(states[i - 1], events[i - 1], states[i]);
    }
  }

  // ---------- What a caller of Write can count on ----------

  // Groups are never revised and a status once returned never changes.
  lemma StepGrows(s: State, ev: Event, s': State)
    requires Inv(s) && Step(s, ev, s')
    ensures s.groups <= s'.groups && s.last <= s'.last && s.arrived <= s'.arrived
    ensures forall id :: id in s.told ==> id in s'.told && s'.told[id] == s.told[id]
  {
    forall i | 0 <= i < |s.queue| ensures s.queue[i] !in s.told {
      assert s.queue[i] == |Served(s.groups)| + i;
    }
  }

  // Group g handled writer id.
  ghost predicate HandledBy(s: State, id: nat, g: nat) {
    g < |s.groups| && id in s.groups[g].members
  }

  // The group's batch holds every member's own operations at the place its turn in the queue gives
  // them, and nothing else.
  ghost predicate LoggedWhole(s: State, g: Group)
    requires GroupOk(s.arrived, g)
  {
    HoldsBatches(Asked(s.arrived, g.members[0], |g.members|), |g.members|, g.ops)
  }

  // Each finished Write was handled by one group only, and got that group's status.  When it was
  // told Ok, the group logged its whole batch, in the place its turn in the queue gives it.
  lemma OneGroupEach(states: seq<State>, events: seq<Event>, i: nat, id: nat) returns (g: nat)
    requires Run(states, events) && i < |states| && id in states[i].told
    ensures var s := states[i];
      && HandledBy(s, id, g) && s.told[id] == s.groups[g].status
      && (forall h: nat :: HandledBy(s, id, h) ==> h == g)
      && id < |s.arrived| && GroupOk(s.arrived, s.groups[g])
      && (s.told[id].Ok? ==> LoggedWhole(s, s.groups[g]) && id - s.groups[g].members[0] < |s.groups[g].members|)
  {
    Reachable(states, events, i);
    hide Run, Inv, GroupOk, LoggedWhole, Served, Records;
    var s := states[i];
    var gs := s.groups;
    ServedInOrder(s, id);
    g := FindGroup(gs, id);
    GroupStatus(s, id, g);
    MemberRecords(s, id, gs[g]);
    forall h: nat | HandledBy(s, id, h) ensures h == g {
      if h < g { Disjoint(gs, h, g, id); } else if g < h { Disjoint(gs, g, h, id); }
    }
  }

  lemma ServedInOrder(s: State, id: nat)
    requires Inv(s) && id in s.told
    ensures id in Served(s.groups) && forall i :: 0 <= i < |Served(s.groups)| ==> Served(s.groups)[i] == i
  {
    assert Served(s.groups)[id] == id;
  }

  lemma GroupStatus(s: State, id: nat, g: nat)
    requires Inv(s) && HandledBy(s, id, g)
    ensures id in s.told && s.told[id] == s.groups[g].status && GroupOk(s.arrived, s.groups[g])
  {
  }

  lemma MemberRecords(s: State, id: nat, g: Group)
    requires GroupOk(s.arrived, g) && id in g.members
    ensures id < |s.arrived| && 0 <= id - g.members[0] < |g.members|
    ensures g.status.Ok? ==> LoggedWhole(s, g)
  {
    hide Joins, Combined, Records, RoomOk, TotalSize, HoldsBatches;
    var q := Asked(s.arrived, g.members[0], |g.members|);
    CombinedHolds(q, |q|);
  }

  lemma {:induction false} FindGroup(gs: seq<Group>, id: nat) returns (g: nat)
    requires id in Served(gs)
    ensures g < |gs| && id in gs[g].members
  {
    var n := |gs| - 1;
    if id in gs[n].members { g := n; } else { g := FindGroup(gs[..n], id); }
  }

  lemma {:induction false} InServed(gs: seq<Group>, g: nat, id: nat) returns (i: nat)
    requires g < |gs| && id in gs[g].members
    ensures i < |Served(gs)| && Served(gs)[i] == id && (g < |gs| - 1 ==> i < |Served(gs[..|gs| - 1])|)
  {
    var n := |gs| - 1;
    if g == n {
      var k :| 0 <= k < |gs[n].members| && gs[n].members[k] == id;
      i := |Served(gs[..n])| + k;
    } else {
      i := InServed(gs[..n], g, id);
    }
  }

  lemma {:induction false} Disjoint(gs: seq<Group>, g: nat, h: nat, id: nat)
    requires g < h < |gs| && forall i :: 0 <= i < |Served(gs)| ==> Served(gs)[i] == i
    ensures !(id in gs[g].members && id in gs[h].members)
  {
    var n := |gs| - 1;
    if h < n {
      assert forall i :: 0 <= i < |Served(gs[..n])| ==> Served(gs[..n])[i] == Served(gs)[i];
      Disjoint(gs[..n], g, h, id);
    } else {
      var before := |Served(gs[..n])|;
      forall k | 0 <= k < |gs[n].members| ensures gs[n].members[k] == before + k {
        assert Served(gs)[before + k] == gs[n].members[k];
      }
      if id in gs[g].members { var i := InServed(gs, g, id); }
    }
  }

  // Sequence ranges of groups never meet, whether or not their log write succeeded.
  lemma {:induction false} RangesApart(s: State, g: nat, h: nat)
    requires Ranges(s) && g < h < |s.groups|
    ensures s.groups[g].first + |s.groups[g].ops| <= s.groups[h].first
  {
    if g + 1 < h { RangesApart(s, g, h - 1); }
  }

  // In any reachable state a waiting writer at the front is awake or signalled, so the queue
  // moves on; once no one is waiting, everyone who arrived has been told.
  lemma NobodyStuck(states: seq<State>, events: seq<Event>, i: nat)
    requires Run(states, events) && i < |states|
    ensures var s := states[i];
      && (s.queue != [] ==> s.queue[0] !in s.asleep)
      && (s.queue != [] && s.leading.Nobody? ==> exists s' :: Step(s, Lead, s'))
      && (forall id :: id in s.told ==> id !in s.asleep)
      && (s.queue == [] ==> forall id :: 0 <= id < |s.arrived| ==> id in s.told)
      && (!s.leading.Committing? ==> s.tmp == [])
  {
    Reachable(states, events, i);
    var s := states[i];
    if s.queue != [] && s.leading.Nobody? { assert Step(s, Lead, s.(leading := MakingRoom)); }
    forall id | id in s.asleep ensures id !in s.told {
      var k :| 0 <= k < |s.queue| && s.queue[k] == id;
    }
  }
}
