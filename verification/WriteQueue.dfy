// Group commit: the queue of writers, the batch a leader builds from it, and what each
// waiting Write is told.
module WriteQueue {
  import opened InternalKeys

  datatype Status = Ok | Failed(reason: string)

  // One record of a write batch; size is its encoded length.
  datatype Operation = Operation(key: UserKey, kind: ValueType, value: Value, size: nat)

  // What a queued Write asks for.  A null batch is a request to switch memtables.
  datatype Request = Batch(ops: seq<Operation>, sync: bool) | NullBatch(sync: bool)

  const HEADER := 12   // sequence number and count
  const SMALL := 0x2_0000
  const LARGE := 0x10_0000

  function Bytes(ops: seq<Operation>): nat {
    if ops == [] then 0 else Bytes(ops[..|ops| - 1]) + ops[|ops| - 1].size
  }

  function ByteSize(ops: seq<Operation>): nat {
    HEADER + Bytes(ops)
  }

  // ---------- Which writers form a group ----------

  function Records(r: Request): seq<Operation> {
    if r.Batch? then r.ops else []
  }

  function Size(r: Request): nat {
    if r.Batch? then ByteSize(r.ops) else 0
  }

  function TotalSize(q: seq<Request>, n: nat): nat
    requires n <= |q|
  {
    if n == 0 then 0 else TotalSize(q, n - 1) + Size(q[n - 1])
  }

  function MaxSize(first: nat): nat {
    if first <= SMALL then first + SMALL else LARGE
  }

  // The records of the first n writers, in queue order.
  function Combined(q: seq<Request>, n: nat): seq<Operation>
    requires n <= |q|
  {
    if n == 0 then [] else Combined(q, n - 1) + Records(q[n - 1])
  }

  // How many operations the batches of the first n writers have, a null batch none.
  function OpsBefore(q: seq<Request>, n: nat): nat
    requires n <= |q|
  {
    if n == 0 then 0
    else OpsBefore(q, n - 1) + match q[n - 1] { case Batch(ops, _) => |ops| case NullBatch(_) => 0 }
  }

  // The batch of the first n writers: every writer's own operations stand whole at the place its
  // turn gives them, and there are no others.
  ghost predicate HoldsBatches(q: seq<Request>, n: nat, all: seq<Operation>) {
    && n <= |q| && |all| == OpsBefore(q, n)
    && forall i :: 0 <= i < n && q[i].Batch? ==>
         OpsBefore(q, i) + |q[i].ops| <= |all| && all[OpsBefore(q, i)..OpsBefore(q, i) + |q[i].ops|] == q[i].ops
  }

  lemma FrontSlice<T>(a: seq<T>, b: seq<T>, from: nat, to: nat)
    requires from <= to <= |a|
    ensures (a + b)[from..to] == a[from..to]
  {
  }

  lemma {:induction false} CombinedLength(q: seq<Request>, n: nat)
    requires n <= |q|
    ensures |Combined(q, n)| == OpsBefore(q, n)
  {
    if n > 0 { CombinedLength(q, n - 1); }
  }

  lemma {:induction false} OwnPlace(q: seq<Request>, i: nat, n: nat)
    requires i < n <= |q| && q[i].Batch?
    ensures OpsBefore(q, i) + |q[i].ops| <= |Combined(q, n)|
    ensures Combined(q, n)[OpsBefore(q, i)..OpsBefore(q, i) + |q[i].ops|] == q[i].ops
  {
    CombinedLength(q, i);
    if i < n - 1 {
      OwnPlace(q, i, n - 1);
      FrontSlice(Combined(q, n - 1), Records(q[n - 1]), OpsBefore(q, i), OpsBefore(q, i) + |q[i].ops|);
    }
  }

  lemma CombinedHolds(q: seq<Request>, n: nat)
    requires n <= |q|
    ensures HoldsBatches(q, n, Combined(q, n))
  {
    hide Combined, OpsBefore;
    CombinedLength(q, n);
    forall i | 0 <= i < n && q[i].Batch?
      ensures OpsBefore(q, i) + |q[i].ops| <= |Combined(q, n)|
      ensures Combined(q, n)[OpsBefore(q, i)..OpsBefore(q, i) + |q[i].ops|] == q[i].ops
    {
      OwnPlace(q, i, n);
    }
  }

  // The bytes a writer adds: twelve of header and the encoded lengths of its operations, or none
  // for a null batch.
  lemma {:induction false} SizesAre(q: seq<Request>, n: nat)
    requires n < |q|
    ensures TotalSize(q, n + 1) == TotalSize(q, n) +
              match q[n] { case Batch(ops, _) => 12 + Bytes(ops) case NullBatch(_) => 0 }
    ensures TotalSize(q, 0) == 0 && Bytes([]) == 0
    ensures forall ops, op: Operation :: Bytes(ops + [op]) == Bytes(ops) + op.size
  {
    forall ops, op: Operation ensures Bytes(ops + [op]) == Bytes(ops) + op.size {
      assert (ops + [op])[..|ops|] == ops;
    }
  }

  // A group ends only at the end of the queue, before a sync write that a leader without sync may
  // not carry, or before a batch that would take it over the limit: 128 KB more than the leader's
  // own batch when that is at most 128 KB, and 1 MB otherwise.
  lemma WhyGroupsEnd(q: seq<Request>, n: nat)
    requires IsGroup(q, n)
    ensures 0 < n <= |q|
    ensures var first := TotalSize(q, 1);
      var limit := if first <= 131072 then first + 131072 else 1048576;
      && (n < |q| ==> (q[n].sync && !q[0].sync) || (q[n].Batch? && TotalSize(q, n + 1) > limit))
      && (forall i :: 0 < i < n ==> !(q[i].sync && !q[0].sync) && (q[i].Batch? ==> TotalSize(q, i + 1) <= limit))
  {
    LeaderSize(q);
    hide TotalSize, Size;
    forall i | 0 < i < n
      ensures !(q[i].sync && !q[0].sync)
      ensures q[i].Batch? ==> TotalSize(q, i + 1) <= MaxSize(Size(q[0]))
    {
      assert Joins(q, i);
    }
    if n < |q| { assert !Joins(q, n); }
  }

  lemma LeaderSize(q: seq<Request>)
    requires q != []
    ensures TotalSize(q, 1) == Size(q[0])
  {
    assert TotalSize(q, 1) == TotalSize(q, 0) + Size(q[0]);
  }

  // Writer i may join the group of the writers before it.
  predicate Joins(q: seq<Request>, i: nat)
    requires 0 < i < |q|
  {
    && (q[i].sync ==> q[0].sync)
    && (q[i].Batch? ==> TotalSize(q, i + 1) <= MaxSize(Size(q[0])))
  }

  // The longest prefix of the queue whose every writer may join.
  ghost predicate IsGroup(q: seq<Request>, n: nat) {
    && 0 < n <= |q|
    && (forall i :: 0 < i < n ==> Joins(q, i))
    && (n == |q| || !Joins(q, n))
  }

  // There is exactly one such prefix.
  lemma GroupIsUnique(q: seq<Request>, n: nat, m: nat)
    requires IsGroup(q, n) && IsGroup(q, m)
    ensures n == m
  {
  }

  // A group carries at most the leader's own bytes or the limit that follows from them, and a
  // sync write only travels with a sync leader.
  lemma {:induction false} GroupBounds(q: seq<Request>, n: nat)
    requires 0 < n <= |q| && forall i :: 0 < i < n ==> Joins(q, i)
    ensures TotalSize(q, n) <= if MaxSize(Size(q[0])) < Size(q[0]) then Size(q[0]) else MaxSize(Size(q[0]))
    ensures forall i :: 0 <= i < n && q[i].sync ==> q[0].sync
  {
    if n == 1 {
      assert TotalSize(q, 1) == TotalSize(q, 0) + Size(q[0]);
    } else {
      GroupBounds(q, n - 1);
      assert Joins(q, n - 1);
    }
  }

  // ---------- The code ----------

  class Writer {
    const request: Request
    var done: bool
    var status: Status
    var signalled: bool

    constructor (r: Request)
      ensures request == r && !done && !signalled
    {
      request := r;
      done := false;
      status := Ok;
      signalled := false;
    }
  }

  function Requests(ws: seq<Writer>): (r: seq<Request>)
    ensures |r| == |ws|
  {
    seq(|ws|, i requires 0 <= i < |ws| => ws[i].request)
  }

  // Outcome of the part of a write that runs without the lock.
  datatype Outcome = Written | NotAppended(reason: string) | NotSynced(reason: string)

  // A log record: a batch stamped with the sequence number of its first operation.
  datatype Record = Record(first: Sequence, ops: seq<Operation>)

  class Database {
    var writers: seq<Writer>
    var tmpBatch: seq<Operation>
    var log: seq<Record>
    var lastSequence: Sequence
    var bgError: Status

    constructor ()
      ensures writers == [] && tmpBatch == [] && log == [] && lastSequence == 0 && bgError == Ok
    {
      writers := [];
      tmpBatch := [];
      log := [];
      lastSequence := 0;
      bgError := Ok;
    }

    // The group's batch is the leader's own as long as it is alone, and the temporary batch
    // once a second one is appended.
    method BuildBatchGroup() returns (result: seq<Operation>, usesTmp: bool, n: nat)
      requires tmpBatch == [] && writers != [] && writers[0].request.Batch?
      modifies this`tmpBatch
      ensures IsGroup(Requests(writers), n)
      ensures result == Combined(Requests(writers), n)
      ensures HoldsBatches(Requests(writers), n, result)
      ensures tmpBatch == if usesTmp then result else []
    {
      hide ByteSize, Bytes;
      ghost var q := Requests(writers);
      var first := writers[0].request;
      var size := ByteSize(first.ops);
      var maxSize := LARGE;
      if size <= SMALL { maxSize := size + SMALL; }
      usesTmp := false;
      n := 1;
      assert TotalSize(q, 1) == TotalSize(q, 0) + Size(q[0]) && Combined(q, 1) == Combined(q, 0) + Records(q[0]);
      while n < |writers|
        invariant 1 <= n <= |writers|
        invariant forall j :: 0 < j < n ==> Joins(q, j)
        invariant size == TotalSize(q, n) && maxSize == MaxSize(Size(q[0]))
        invariant if usesTmp then tmpBatch == Combined(q, n) else tmpBatch == [] && first.ops == Combined(q, n)
      {
        var w := writers[n].request;
        if w.sync && !first.sync {
          break;
        }
        if w.Batch? {
          size := size + ByteSize(w.ops);
          if size > maxSize {
            break;
          }
          if !usesTmp {
            usesTmp := true;
            tmpBatch := first.ops;
          }
          tmpBatch := tmpBatch + w.ops;
          assert Joins(q, n);
        }
        n := n + 1;
      }
      result := if usesTmp then tmpBatch else first.ops;
      CombinedHolds(q, n);
    }

    // Takes the group off the queue, tells its waiting members the result, and signals the new
    // head.
    method CompleteGroup(w: Writer, lastWriter: Writer, status: Status, ghost n: nat)
      requires Distinct(writers) && 0 < n <= |writers| && writers[0] == w && lastWriter == writers[n - 1]
      modifies this`writers, writers
      ensures writers == old(writers)[n..]
      ensures forall i :: 0 < i < n ==> Told(old(writers)[i], status)
      ensures writers != [] ==> writers[0].signalled
      ensures w.done == old(w.done)
      ensures forall i :: n <= i < |old(writers)| ==> old(writers)[i].done == old(writers[i].done)
    {
      ghost var all := writers;
      ghost var i := 0;
      while true
        invariant 0 <= i < n && writers == all[i..]
        invariant forall j :: 0 < j < i ==> Told(all[j], status)
        invariant w.done == old(w.done)
        invariant forall j :: n <= j < |all| ==> all[j].done == old(all[j].done)
        decreases n - i
      {
        var ready := writers[0];
        assert ready == all[i];
        writers := writers[1..];
        if ready != w {
          ready.status := status;
          ready.done := true;
          ready.signalled := true;
        }
        i := i + 1;
        if ready == lastWriter { break; }
      }
      if writers != [] {
        writers[0].signalled := true;
      }
    }

    // Logs and applies the group of the head writer.  The lock is released meanwhile, and
    // writers that arrive join the back of the queue.
    method CommitGroup(outcome: Outcome, arrivals: seq<Writer>) returns (status: Status, n: nat)
      requires tmpBatch == [] && writers != [] && writers[0].request.Batch?
      modifies this
      ensures writers == old(writers) + arrivals && tmpBatch == []
      ensures IsGroup(Requests(old(writers)), n) && status == StatusOf(outcome)
      ensures lastSequence == old(lastSequence) + |Combined(Requests(old(writers)), n)|
      ensures log == old(log) + if outcome.NotAppended? then []
                                else [Record(old(lastSequence) + 1, Combined(Requests(old(writers)), n))]
      ensures log != old(log) ==> HoldsBatches(Requests(old(writers)), n, log[|log| - 1].ops)
      ensures status.Ok? <==> outcome.Written?
      ensures outcome.NotSynced? ==> bgError.Failed?
    {
      hide HoldsBatches, IsGroup, Combined;
      var updates, usesTmp;
      updates, usesTmp, n := BuildBatchGroup();
      var last := lastSequence + |updates|;
      writers := writers + arrivals;
      if !outcome.NotAppended? {
        log := log + [Record(lastSequence + 1, updates)];
      }
      status := StatusOf(outcome);
      if outcome.NotSynced? && bgError.Ok? {
        bgError := status;
      }
      if usesTmp { tmpBatch := []; }
      lastSequence := last;
    }

    // The part of Write that the head of the queue runs once MakeRoomForWrite has returned.
    method LeadGroup(w: Writer, room: Status, outcome: Outcome, arrivals: seq<Writer>)
      returns (status: Status, n: nat)
      requires tmpBatch == [] && writers != [] && writers[0] == w && !w.done && Distinct(writers + arrivals)
      modifies this, writers, arrivals
      ensures tmpBatch == []
      ensures 0 < n <= |old(writers)| && writers == (old(writers) + arrivals)[n..]
      ensures room.Ok? && w.request.Batch? ==>
                && IsGroup(Requests(old(writers)), n) && status == StatusOf(outcome)
                && lastSequence == old(lastSequence) + |Combined(Requests(old(writers)), n)|
                && log == old(log) + (if outcome.NotAppended? then []
                                      else [Record(old(lastSequence) + 1, Combined(Requests(old(writers)), n))])
      ensures room.Ok? && w.request.Batch? && !outcome.NotAppended? ==>
                log != [] && HoldsBatches(Requests(old(writers)), n, log[|log| - 1].ops)
      ensures room.Ok? && w.request.Batch? ==> (status.Ok? <==> outcome.Written?)
      ensures room.Failed? || w.request.NullBatch? ==>
                n == 1 && status == room && lastSequence == old(lastSequence) && log == old(log)
      ensures forall i :: 0 < i < n ==> Told(old(writers)[i], status)
      ensures !w.done && forall i :: n <= i < |old(writers)| ==> old(writers)[i].done == old(writers[i].done)
      ensures writers != [] ==> writers[0].signalled
      ensures room.Ok? && w.request.Batch? && outcome.NotSynced? ==> bgError.Failed?
    {
      ghost var all := writers + arrivals;
      assert forall i :: 0 <= i < |writers| ==> all[i] == writers[i];
      hide Requests, Combined, Joins, IsGroup, StatusOf, Distinct, Told, HoldsBatches;
      status := room;
      n := 1;
      if status.Ok? && w.request.Batch? {
        status, n := CommitGroup(outcome, arrivals);
      } else {
        writers := writers + arrivals;
      }
      assert |Requests(old(writers))| == |old(writers)|;
      CompleteGroup(w, writers[n - 1], status, n);
    }
  }

  function StatusOf(o: Outcome): Status {
    match o
    case Written => Ok
    case NotAppended(reason) => Failed(reason)
    case NotSynced(reason) => Failed(reason)
  }

  ghost predicate Distinct(ws: seq<Writer>) {
    forall i, j :: 0 <= i < j < |ws| ==> ws[i] != ws[j]
  }

  ghost predicate Told(w: Writer, status: Status)
    reads w
  {
    w.done && w.signalled && w.status == status
  }
}
