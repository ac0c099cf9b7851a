/**
 Which queue owns a request while it is migrated out the legacy way: the queues of
 llumnix/backends/vllm/scheduler.py, the two migration routines of
 llumnix/llumlet/migration_coordinator.py and their conclusion in
 llumnix/llumlet/llumlet.py:259-300. At every await the engines go on: they move
 other requests about, and the source may preempt, resume or finish the request.
 */
module Ownership {

  datatype RequestId = RequestId(name: string)

  datatype Request = Request(id: RequestId, arrival: real)

  datatype Override = RunningMigrating | WaitingMigrating

  datatype Status = Running | AbortedDst | AbortedSrc | Finished

  /** How many entries of the queue carry the id. */
  function Times(q: seq<Request>, id: RequestId): nat {
    if q == [] then 0 else Times(q[..|q| - 1], id) + if q[|q| - 1].id == id then 1 else 0
  }

  lemma {:induction false} TimesConcat(p: seq<Request>, q: seq<Request>, id: RequestId)
    ensures Times(p + q, id) == Times(p, id) + Times(q, id)
  {
    if q == [] {
      assert p + q == p;
    } else {
      var n := |q| - 1;
      assert (p + q)[..|p + q| - 1] == p + q[..n];
      TimesConcat(p, q[..n], id);
    }
  }

  function Without(q: seq<Request>, i: nat): seq<Request>
    requires i < |q|
  {
    q[..i] + q[i + 1..]
  }

  lemma TimesOne(r: Request, id: RequestId)
    ensures Times([r], id) == if r.id == id then 1 else 0
  {
  }

  lemma TimesWithout(q: seq<Request>, i: nat, id: RequestId)
    requires i < |q|
    ensures Times(q, id) == Times(Without(q, i), id) + if q[i].id == id then 1 else 0
  {
    assert q == q[..i] + ([q[i]] + q[i + 1..]);
    TimesConcat(q[..i], [q[i]] + q[i + 1..], id);
    TimesConcat([q[i]], q[i + 1..], id);
    TimesConcat(q[..i], q[i + 1..], id);
    TimesOne(q[i], id);
  }

  lemma TimesWith(q: seq<Request>, i: nat, r: Request, id: RequestId)
    requires i <= |q|
    ensures Times(q[..i] + [r] + q[i..], id) == Times(q, id) + if r.id == id then 1 else 0
  {
    var with := q[..i] + [r] + q[i..];
    assert Without(with, i) == q;
    TimesWithout(with, i, id);
  }

  lemma {:induction false} TimesZero(q: seq<Request>, id: RequestId)
    ensures Times(q, id) == 0 <==> forall i :: 0 <= i < |q| ==> q[i].id != id
  {
    if q == [] {
    } else {
      TimesZero(q[..|q| - 1], id);
    }
  }

  /** Binary search for the position behind every entry that arrived no later. */
  function Bisect(q: seq<Request>, arrival: real, lo: nat, hi: nat): (i: nat)
    requires lo <= hi <= |q|
    ensures lo <= i <= hi
    decreases hi - lo
  {
    if lo >= hi then lo
    else
      var mid := (lo + hi) / 2;
      if arrival < q[mid].arrival then Bisect(q, arrival, lo, mid) else Bisect(q, arrival, mid + 1, hi)
  }

  function Enqueue(q: seq<Request>, r: Request): seq<Request> {
    var i := Bisect(q, r.arrival, 0, |q|);
    q[..i] + [r] + q[i..]
  }

  predicate ByArrival(q: seq<Request>) {
    forall i, j :: 0 <= i < j < |q| ==> q[i].arrival <= q[j].arrival
  }

  lemma {:induction false} BisectSplits(q: seq<Request>, arrival: real, lo: nat, hi: nat)
    requires ByArrival(q) && lo <= hi <= |q|
    requires forall j :: 0 <= j < lo ==> q[j].arrival <= arrival
    requires forall j :: hi <= j < |q| ==> arrival < q[j].arrival
    ensures var i := Bisect(q, arrival, lo, hi);
            && (forall j :: 0 <= j < i ==> q[j].arrival <= arrival)
            && (forall j :: i <= j < |q| ==> arrival < q[j].arrival)
    decreases hi - lo
  {
    if lo < hi {
      var mid := (lo + hi) / 2;
      if arrival < q[mid].arrival {
        BisectSplits(q, arrival, lo, mid);
      } else {
        BisectSplits(q, arrival, mid + 1, hi);
      }
    }
  }

  lemma EnqueueKeepsOrder(q: seq<Request>, r: Request)
    requires ByArrival(q)
    ensures ByArrival(Enqueue(q, r))
  {
    BisectSplits(q, r.arrival, 0, |q|);
  }

  /**
   Taking a request out of an ordered queue and putting it back restores the queue
   exactly when no later request arrived at the same time, so always when arrival
   times differ.
   */
  lemma TakenAndPutBack(q: seq<Request>, i: nat)
    requires ByArrival(q) && i < |q| && (i + 1 < |q| ==> q[i] != q[i + 1])
    ensures Enqueue(Without(q, i), q[i]) == q <==> (i + 1 < |q| ==> q[i].arrival < q[i + 1].arrival)
  {
    var rest, r := Without(q, i), q[i];
    WithoutKeepsOrder(q, i);
    if i + 1 < |q| && q[i].arrival == q[i + 1].arrival {
      BisectSplits(rest, r.arrival, 0, |rest|);
    } else {
      PlaceOf(rest, r.arrival, i);
    }
    PutBack(q, i, Bisect(rest, r.arrival, 0, |rest|));
  }

  lemma PutBack(q: seq<Request>, i: nat, k: nat)
    requires i < |q| && k < |q|
    ensures var rest := Without(q, i);
            var again := rest[..k] + [q[i]] + rest[k..];
            (k == i ==> again == q) && (k > i ==> again[i] == q[i + 1])
  {
  }

  lemma WithoutKeepsOrder(q: seq<Request>, i: nat)
    requires ByArrival(q) && i < |q|
    ensures ByArrival(Without(q, i))
    ensures i > 0 ==> Without(q, i)[i - 1].arrival <= q[i].arrival
    ensures i + 1 < |q| ==> Without(q, i)[i] == q[i + 1]
  {
  }

  lemma PlaceOf(q: seq<Request>, arrival: real, i: nat)
    requires ByArrival(q) && i <= |q|
    requires i > 0 ==> q[i - 1].arrival <= arrival
    requires i < |q| ==> arrival < q[i].arrival
    ensures Bisect(q, arrival, 0, |q|) == i
  {
    BisectSplits(q, arrival, 0, |q|);
  }

  datatype Queues = Queues(running: seq<Request>, waiting: seq<Request>)

  /** What the source engine may do at an await; `Others` leaves the migrating request alone. */
  datatype Move = Others(queues: Queues) | Preempt | Resume | Finish(freed: bool)

  /** The request being migrated out, as the source sees it. */
  class Outgoing {
    const r: Request
    var preempted: bool
    var finished: bool

    constructor (r: Request)
      ensures this.r == r && !preempted && !finished
    {
      this.r, preempted, finished := r, false, false;
    }

    predicate ShouldAbort()
      reads this
    {
      finished || preempted
    }
  }

  /** The first entry with the id, or the length. */
  function FirstWith(q: seq<Request>, id: RequestId): (i: nat)
    ensures i <= |q| && (i < |q| ==> q[i].id == id)
    ensures forall j :: 0 <= j < i ==> q[j].id != id
  {
    if q == [] then 0 else if q[0].id == id then 0 else 1 + FirstWith(q[1..], id)
  }

  /** The last entry with the id, or the length. */
  function LastWith(q: seq<Request>, id: RequestId): (i: nat)
    ensures i <= |q| && (i < |q| ==> q[i].id == id)
    ensures forall j :: 0 <= j < |q| && (i < |q| ==> i < j) ==> q[j].id != id
  {
    if q == [] then 0
    else
      var n := |q| - 1;
      if q[n].id == id then n
      else
        var i := LastWith(q[..n], id);
        if i == n then |q| else i
  }

  /** The queue without its last entry for the id. */
  function Stopped(q: seq<Request>, id: RequestId): seq<Request> {
    var i := LastWith(q, id);
    if i < |q| then Without(q, i) else q
  }

  lemma StoppedTimes(q: seq<Request>, id: RequestId)
    ensures Times(q, id) == Times(Stopped(q, id), id) + if Times(q, id) > 0 then 1 else 0
    ensures Times(q, id) > 0 <==> LastWith(q, id) < |q|
  {
    TimesZero(q, id);
    var i := LastWith(q, id);
    if i < |q| {
      TimesWithout(q, i, id);
    }
  }

  /** The request arrived no later than the head of the queue. */
  predicate Welcome(r: Request, queue: seq<Request>) {
    queue == [] || r.arrival <= queue[0].arrival
  }

  class Engine {
    var running: seq<Request>
    var waiting: seq<Request>
    var lastStage: seq<Request>
    var preAlloc: set<RequestId>
    var overrides: map<RequestId, Override>

    /** How often the engine's queues hold the request. */
    ghost function Owned(id: RequestId): nat
      reads this
    {
      Times(running, id) + Times(waiting, id)
    }

    constructor (running: seq<Request>, waiting: seq<Request>)
      ensures this.running == running && this.waiting == waiting
      ensures lastStage == [] && preAlloc == {} && overrides == map[]
    {
      this.running, this.waiting := running, waiting;
      lastStage, preAlloc, overrides := [], {}, map[];
    }

    method RemoveRunning(id: RequestId) returns (found: bool)
      modifies this`running, this`overrides
      ensures found <==> old(Times(running, id)) > 0
      ensures running == Stopped(old(running), id)
      ensures overrides == if found then old(overrides)[id := RunningMigrating] else old(overrides)
    {
      StoppedTimes(running, id);
      var n := |running|;
      while n > 0
        invariant 0 <= n <= |running| && running == old(running) && overrides == old(overrides)
        invariant forall j :: n <= j < |running| ==> running[j].id != id
      {
        n := n - 1;
        if running[n].id == id {
          running := Without(running, n);
          overrides := overrides[id := RunningMigrating];
          return true;
        }
      }
      return false;
    }

    /** `fits` says whether the prompt is within the limit. */
    method RemoveWaiting(id: RequestId, fits: bool) returns (found: bool, ghost at: nat)
      modifies this`waiting, this`overrides
      ensures found <==> fits && old(Times(waiting, id)) > 0
      ensures old(Times(waiting, id)) == Times(waiting, id) + if found then 1 else 0
      ensures found ==> at < |old(waiting)| && old(waiting)[at].id == id && waiting == Without(old(waiting), at)
      ensures at == FirstWith(old(waiting), id)
      ensures !found ==> waiting == old(waiting)
      ensures overrides == if found then old(overrides)[id := WaitingMigrating] else old(overrides)
    {
      TimesZero(waiting, id);
      var n := FirstWith(waiting, id);
      at := n;
      if n == |waiting| || !fits {
        return false, at;
      }
      TimesWithout(waiting, n, id);
      waiting := Without(waiting, n);
      overrides := overrides[id := WaitingMigrating];
      return true, at;
    }

    method AddLastStage(r: Request)
      modifies this`lastStage
      ensures lastStage == old(lastStage) + [r] && Times(lastStage, r.id) == old(Times(lastStage, r.id)) + 1
    {
      lastStage := lastStage + [r];
      assert lastStage[..|lastStage| - 1] == old(lastStage);
    }

    method RemoveLastStage(id: RequestId)
      requires Times(lastStage, id) > 0
      modifies this`lastStage
      ensures Times(lastStage, id) == old(Times(lastStage, id)) - 1
      ensures var n := FirstWith(old(lastStage), id);
              n < |old(lastStage)| && lastStage == Without(old(lastStage), n)
    {
      TimesZero(lastStage, id);
      var n := FirstWith(lastStage, id);
      TimesWithout(lastStage, n, id);
      lastStage := Without(lastStage, n);
    }

    method AddRunning(r: Request)
      modifies this`running
      ensures running == old(running) + [r] && Times(running, r.id) == old(Times(running, r.id)) + 1
    {
      running := running + [r];
      assert running[..|running| - 1] == old(running);
    }

    method AddWaiting(r: Request)
      modifies this`waiting
      ensures waiting == Enqueue(old(waiting), r) && Times(waiting, r.id) == old(Times(waiting, r.id)) + 1
    {
      TimesWith(waiting, Bisect(waiting, r.arrival, 0, |waiting|), r, r.id);
      waiting := Enqueue(waiting, r);
    }

    /**
     Destination side: a waiting request is taken only if it arrived no later than the
     head of the waiting queue; `room` says whether the blocks could be allocated.
     A refusal leaves no pre-allocation behind.
     */
    method MigrateInPreAlloc(r: Request, isWaiting: bool, room: bool) returns (granted: bool)
      modifies this`preAlloc
      ensures granted <==> room && (isWaiting && waiting != [] ==> r.arrival <= waiting[0].arrival)
      ensures preAlloc == if granted then old(preAlloc) + {r.id} else old(preAlloc) - {r.id}
    {
      granted := room;
      if isWaiting && waiting != [] && r.arrival > waiting[0].arrival {
        granted := false;
      }
      preAlloc := if granted then preAlloc + {r.id} else preAlloc - {r.id};
    }

    method FreePreAlloc(id: RequestId)
      modifies this`preAlloc
      ensures preAlloc == old(preAlloc) - {id}
    {
      preAlloc := preAlloc - {id};
    }

    /** Destination side of a finished migration. */
    method CommitDst(r: Request, status: Override)
      requires r.id in preAlloc
      modifies this`preAlloc, this`running, this`waiting
      ensures preAlloc == old(preAlloc) - {r.id} && Owned(r.id) == old(Owned(r.id)) + 1
      ensures status == WaitingMigrating ==> running == old(running) && waiting == Enqueue(old(waiting), r)
      ensures status == RunningMigrating ==> waiting == old(waiting) && running == old(running) + [r]
    {
      preAlloc := preAlloc - {r.id};
      if status == WaitingMigrating {
        AddWaiting(r);
      } else {
        AddRunning(r);
      }
    }

    /** Other requests come, go and change queues. */
    method MoveOthers(id: RequestId, queues: Queues)
      modifies this`running, this`waiting
      ensures Times(running, id) == old(Times(running, id)) && Times(waiting, id) == old(Times(waiting, id))
    {
      if CountedAlike(running, queues.running, id) && CountedAlike(waiting, queues.waiting, id) {
        running, waiting := queues.running, queues.waiting;
      }
    }
  }

  predicate CountedAlike(p: seq<Request>, q: seq<Request>, id: RequestId) {
    Times(p, id) == Times(q, id)
  }

  /** The source's queues and the two flags of the migrating request. */
  datatype View = View(running: seq<Request>, waiting: seq<Request>, preempted: bool, finished: bool)

  function After(v: View, id: RequestId, move: Move): View {
    match move
    case Others(queues) =>
      if CountedAlike(v.running, queues.running, id) && CountedAlike(v.waiting, queues.waiting, id)
      then v.(running := queues.running, waiting := queues.waiting) else v
    case Preempt =>
      var n := FirstWith(v.running, id);
      if n < |v.running|
      then View(Without(v.running, n), [v.running[n]] + v.waiting, true, v.finished) else v
    case Resume =>
      var n := FirstWith(v.waiting, id);
      if n < |v.waiting|
      then v.(running := v.running + [v.waiting[n]], waiting := Without(v.waiting, n)) else v
    case Finish(freed) =>
      var n := FirstWith(v.running, id);
      if freed && n < |v.running|
      then v.(running := Without(v.running, n), finished := true) else v.(finished := true)
  }

  /**
   What the moves of the source engine can do to the migrating request: preemption
   puts it at the head of the waiting queue and is remembered, resumption puts it at the
   end of the running queue, and finishing is remembered, with or without taking it out.
   */
  lemma MoveMeaning(v: View, id: RequestId, n: nat)
    requires n < |v.running| && v.running[n].id == id && forall j :: 0 <= j < n ==> v.running[j].id != id
    ensures var w := After(v, id, Preempt);
            && w == View(Without(v.running, n), [v.running[n]] + v.waiting, true, v.finished)
            && After(w, id, Resume) == View(Without(v.running, n) + [v.running[n]], v.waiting, true, v.finished)
    ensures After(v, id, Finish(true)) == v.(running := Without(v.running, n), finished := true)
    ensures After(v, id, Finish(false)) == v.(finished := true)
    ensures forall q: Queues | Times(q.running, id) == Times(v.running, id)
            && Times(q.waiting, id) == Times(v.waiting, id) ::
              After(v, id, Others(q)) == v.(running := q.running, waiting := q.waiting)
  {
    var w := After(v, id, Preempt);
    assert FirstWith(v.running, id) == n;
    assert FirstWith(w.waiting, id) == 0;
    assert Without(w.waiting, 0) == v.waiting;
  }

  function AfterAll(v: View, id: RequestId, moves: seq<Move>): View {
    if moves == [] then v else After(AfterAll(v, id, moves[..|moves| - 1]), id, moves[|moves| - 1])
  }

  ghost function OwnedIn(v: View, id: RequestId): nat {
    Times(v.running, id) + Times(v.waiting, id)
  }

  /** Only finishing takes the request out of the queues. */
  lemma AfterKeepsOwner(v: View, id: RequestId, move: Move)
    ensures OwnedIn(After(v, id, move), id) <= OwnedIn(v, id)
    ensures !After(v, id, move).finished ==> OwnedIn(After(v, id, move), id) == OwnedIn(v, id) && !v.finished
  {
    match move
    case Others(_) =>
    case Resume => ResumeKeepsOwner(v, id);
    case Preempt => PreemptKeepsOwner(v, id);
    case Finish(freed) => FinishTakesOwner(v, id, freed);
  }

  lemma ResumeKeepsOwner(v: View, id: RequestId)
    ensures OwnedIn(After(v, id, Resume), id) == OwnedIn(v, id) && After(v, id, Resume).finished == v.finished
  {
    var m := FirstWith(v.waiting, id);
    if m < |v.waiting| {
      TimesWithout(v.waiting, m, id);
      TimesConcat(v.running, [v.waiting[m]], id);
      TimesOne(v.waiting[m], id);
    }
  }

  lemma PreemptKeepsOwner(v: View, id: RequestId)
    ensures OwnedIn(After(v, id, Preempt), id) == OwnedIn(v, id) && After(v, id, Preempt).finished == v.finished
  {
    var n := FirstWith(v.running, id);
    if n < |v.running| {
      TimesWithout(v.running, n, id);
      TimesConcat([v.running[n]], v.waiting, id);
      TimesOne(v.running[n], id);
    }
  }

  lemma FinishTakesOwner(v: View, id: RequestId, freed: bool)
    ensures OwnedIn(After(v, id, Finish(freed)), id) <= OwnedIn(v, id) && After(v, id, Finish(freed)).finished
  {
    var n := FirstWith(v.running, id);
    if n < |v.running| {
      TimesWithout(v.running, n, id);
    }
  }

  lemma {:induction false} AfterAllKeepsOwner(v: View, id: RequestId, moves: seq<Move>)
    ensures OwnedIn(AfterAll(v, id, moves), id) <= OwnedIn(v, id)
    ensures !AfterAll(v, id, moves).finished ==> OwnedIn(AfterAll(v, id, moves), id) == OwnedIn(v, id) && !v.finished
  {
    if moves == [] {
    } else {
      var n := |moves| - 1;
      AfterAllKeepsOwner(v, id, moves[..n]);
      AfterKeepsOwner(AfterAll(v, id, moves[..n]), id, moves[n]);
    }
  }

  ghost function ViewOf(src: Engine, out: Outgoing): View
    reads src, out
  {
    View(src.running, src.waiting, out.preempted, out.finished)
  }

  /** One move of the source engine. */
  method MoveSource(src: Engine, out: Outgoing, move: Move)
    modifies src`running, src`waiting, out
    ensures ViewOf(src, out) == After(old(ViewOf(src, out)), out.r.id, move)
  {
    var v := After(View(src.running, src.waiting, out.preempted, out.finished), out.r.id, move);
    src.running, src.waiting, out.preempted, out.finished := v.running, v.waiting, v.preempted, v.finished;
  }

  method MoveSourceAll(src: Engine, out: Outgoing, moves: seq<Move>)
    modifies src`running, src`waiting, out
    ensures ViewOf(src, out) == AfterAll(old(ViewOf(src, out)), out.r.id, moves)
    ensures src.Owned(out.r.id) <= old(src.Owned(out.r.id))
    ensures !out.finished ==> src.Owned(out.r.id) == old(src.Owned(out.r.id)) && !old(out.finished)
  {
    for n := 0 to |moves|
      invariant ViewOf(src, out) == AfterAll(old(ViewOf(src, out)), out.r.id, moves[..n])
    {
      assert moves[..n + 1][..n] == moves[..n];
      MoveSource(src, out, moves[n]);
    }
    assert moves[..|moves|] == moves;
    AfterAllKeepsOwner(old(ViewOf(src, out)), out.r.id, moves);
  }

  method MoveDestination(dst: Engine, id: RequestId, others: seq<Queues>)
    modifies dst`running, dst`waiting
    ensures dst.Owned(id) == old(dst.Owned(id))
    ensures others == [] ==> dst.waiting == old(dst.waiting)
  {
    for n := 0 to |others|
      invariant dst.Owned(id) == old(dst.Owned(id))
      invariant n == 0 ==> dst.waiting == old(dst.waiting)
    {
      dst.MoveOthers(id, others[n]);
    }
  }

  /** The source owns the request, unless it has finished. */
  ghost predicate AtSource(src: Engine, dst: Engine, out: Outgoing)
    reads src, dst, out
  {
    && src.Owned(out.r.id) <= 1 && (!out.finished ==> src.Owned(out.r.id) == 1)
    && Times(src.lastStage, out.r.id) == 0 && dst.Owned(out.r.id) == 0
  }

  /** No queue owns the request; only the source's last-stage list remembers it. */
  ghost predicate InTransit(src: Engine, dst: Engine, out: Outgoing)
    reads src, dst
  {
    src.Owned(out.r.id) == 0 && Times(src.lastStage, out.r.id) == 1 && dst.Owned(out.r.id) == 0
  }

  /** What happens during one stage: moves at each await, and whether the destination has room. */
  datatype Stage = Stage(last: bool, stopping: seq<Move>, draining: seq<Move>, allocating: seq<Move>,
                         others: seq<Queues>, room: bool, sending: seq<Move>)

  predicate Aborts(v: View) {
    v.finished || v.preempted
  }

  /** The source when the request has been stopped and the last step's output is processed. */
  function AtStop(v: View, id: RequestId, stage: Stage): View {
    var w := AfterAll(v, id, stage.stopping);
    AfterAll(w.(running := Stopped(w.running, id)), id, stage.draining)
  }

  /** A last stage stops the request if it is still running then, and does not turn out finished. */
  predicate Stops(v: View, id: RequestId, stage: Stage) {
    Times(AfterAll(v, id, stage.stopping).running, id) > 0 && !AtStop(v, id, stage).finished
  }

  /** The source when the destination's reply is back. */
  function AtReply(v: View, id: RequestId, stage: Stage): View {
    AfterAll(if stage.last then AtStop(v, id, stage) else v, id, stage.allocating)
  }

  /** The source when an early stage has sent its blocks. */
  function AtSent(v: View, id: RequestId, stage: Stage): View {
    AfterAll(AtReply(v, id, stage).(preempted := false), id, stage.sending)
  }

  function StageStatus(v: View, id: RequestId, stage: Stage): Status {
    if Aborts(v) || (stage.last && !Stops(v, id, stage)) then AbortedSrc
    else if !stage.room then AbortedDst
    else if Aborts(AtReply(v, id, stage)) then AbortedSrc
    else if stage.last then Finished
    else if Aborts(AtSent(v, id, stage)) then AbortedSrc
    else Running
  }

  /**
   The last stage loses the request: it was stopped, the destination granted the
   blocks, and only then it is noticed that the request was preempted or has finished.
   */
  predicate LosesAt(v: View, id: RequestId, stage: Stage) {
    !Aborts(v) && stage.last && Stops(v, id, stage) && stage.room && Aborts(AtReply(v, id, stage))
  }

  /** One stage after the other. */
  function StatusOf(v: View, id: RequestId, script: seq<Stage>): Status
    decreases |script|
  {
    if script == [] then AbortedSrc
    else if StageStatus(v, id, script[0]) == Running then StatusOf(AtSent(v, id, script[0]), id, script[1..])
    else StageStatus(v, id, script[0])
  }

  /** Some last stage that is reached loses the request. */
  predicate LosesIn(v: View, id: RequestId, script: seq<Stage>)
    decreases |script|
  {
    script != [] &&
    (LosesAt(v, id, script[0]) ||
     (StageStatus(v, id, script[0]) == Running && LosesIn(AtSent(v, id, script[0]), id, script[1..])))
  }

  /**
   What a status says about the request: one that goes on was alive when its blocks had
   been sent, one that finished was stopped, and alive when the room was granted.
   */
  lemma StatusMeaning(v: View, id: RequestId, stage: Stage)
    ensures StageStatus(v, id, stage) == Running ==> !stage.last && stage.room && !Aborts(AtSent(v, id, stage))
    ensures StageStatus(v, id, stage) == Finished <==>
              && stage.last && stage.room && !Aborts(v) && Stops(v, id, stage) && !Aborts(AtReply(v, id, stage))
    ensures StageStatus(v, id, stage) == AbortedDst ==> !stage.room && !Aborts(v)
    ensures Aborts(v) ==> StageStatus(v, id, stage) == AbortedSrc
  {
  }

  /** Neither preempted nor finished. */
  predicate Calm(moves: seq<Move>) {
    forall i :: 0 <= i < |moves| ==> !moves[i].Preempt? && !moves[i].Finish?
  }

  lemma {:induction false} CalmKeepsFlags(v: View, id: RequestId, moves: seq<Move>)
    requires Calm(moves)
    ensures AfterAll(v, id, moves).preempted == v.preempted && AfterAll(v, id, moves).finished == v.finished
  {
    if moves == [] {
    } else {
      CalmKeepsFlags(v, id, moves[..|moves| - 1]);
    }
  }

  /** Neither preempted nor finished between the start of the stage and the destination's reply. */
  predicate CalmStage(stage: Stage) {
    Calm(stage.stopping) && Calm(stage.draining) && Calm(stage.allocating)
  }

  lemma CalmStageKeeps(v: View, id: RequestId, stage: Stage)
    requires CalmStage(stage)
    ensures !LosesAt(v, id, stage)
  {
    var w := AfterAll(v, id, stage.stopping);
    CalmKeepsFlags(v, id, stage.stopping);
    CalmKeepsFlags(w.(running := Stopped(w.running, id)), id, stage.draining);
    CalmKeepsFlags(AtStop(v, id, stage), id, stage.allocating);
  }

  /** A request that is neither preempted nor finished during its last stage is not lost. */
  lemma {:induction false} CalmLastStagesKeep(v: View, id: RequestId, script: seq<Stage>)
    requires forall i :: 0 <= i < |script| && script[i].last ==> CalmStage(script[i])
    ensures !LosesIn(v, id, script)
    decreases |script|
  {
    if script == [] {
    } else {
      if script[0].last {
        CalmStageKeeps(v, id, script[0]);
      }
      CalmLastStagesKeep(AtSent(v, id, script[0]), id, script[1..]);
    }
  }

  /** Waits for the end of a step, takes the request out of the running queue, and waits for the step's output. */
  method Halt(src: Engine, out: Outgoing, stage: Stage) returns (found: bool)
    modifies src`running, src`waiting, src`overrides, out
    ensures ViewOf(src, out) == AtStop(old(ViewOf(src, out)), out.r.id, stage)
    ensures found <==> Times(AfterAll(old(ViewOf(src, out)), out.r.id, stage.stopping).running, out.r.id) > 0
    ensures src.Owned(out.r.id) + (if found then 1 else 0) <= old(src.Owned(out.r.id))
    ensures !out.finished ==>
              src.Owned(out.r.id) + (if found then 1 else 0) == old(src.Owned(out.r.id)) && !old(out.finished)
    ensures src.overrides == if found then old(src.overrides)[out.r.id := RunningMigrating] else old(src.overrides)
  {
    MoveSourceAll(src, out, stage.stopping);
    StoppedTimes(src.running, out.r.id);
    found := src.RemoveRunning(out.r.id);
    MoveSourceAll(src, out, stage.draining);
  }

  /** Stops the request at the end of a step; finished requests are let go. */
  method StopRunning(src: Engine, dst: Engine, out: Outgoing, stage: Stage) returns (stopped: bool)
    requires src != dst && AtSource(src, dst, out)
    modifies src`running, src`waiting, src`lastStage, src`overrides, out
    ensures if stopped then InTransit(src, dst, out) else AtSource(src, dst, out)
    ensures stopped ==> src.overrides == old(src.overrides)[out.r.id := RunningMigrating]
    ensures src.overrides - {out.r.id} == old(src.overrides) - {out.r.id}
    ensures src.lastStage == if stopped then old(src.lastStage) + [out.r] else old(src.lastStage)
    ensures stopped == Stops(old(ViewOf(src, out)), out.r.id, stage)
    ensures ViewOf(src, out) == AtStop(old(ViewOf(src, out)), out.r.id, stage)
  {
    var found := Halt(src, out, stage);
    KeptByUpdate(old(src.overrides), out.r.id, RunningMigrating);
    if !found || out.finished {
      return false;
    }
    EnterTransit(src, dst, out);
    return true;
  }

  lemma KeptByUpdate(marks: map<RequestId, Override>, id: RequestId, mark: Override)
    ensures marks[id := mark] - {id} == marks - {id}
  {
  }

  method Reserve(src: Engine, dst: Engine, out: Outgoing, isWaiting: bool, moves: seq<Move>, others: seq<Queues>,
                 room: bool)
    returns (granted: bool)
    requires src != dst
    modifies src`running, src`waiting, out, dst`running, dst`waiting, dst`preAlloc
    ensures old(AtSource(src, dst, out)) ==> AtSource(src, dst, out)
    ensures old(InTransit(src, dst, out)) ==> InTransit(src, dst, out)
    ensures dst.preAlloc == if granted then old(dst.preAlloc) + {out.r.id} else old(dst.preAlloc) - {out.r.id}
    ensures !isWaiting ==> (granted <==> room)
    ensures isWaiting && others == [] ==> (granted <==> room && Welcome(out.r, old(dst.waiting)))
    ensures ViewOf(src, out) == AfterAll(old(ViewOf(src, out)), out.r.id, moves)
  {
    MoveSourceAll(src, out, moves);
    MoveDestination(dst, out.r.id, others);
    granted := dst.MigrateInPreAlloc(out.r, isWaiting, room);
  }

  /** A request that is preempted and resumed while it is being stopped is found running, and marked preempted. */
  lemma PreemptedAndResumed(v: View, id: RequestId)
    requires Times(v.running, id) > 0
    ensures var w := AfterAll(v, id, [Preempt, Resume]);
            Times(w.running, id) > 0 && w.preempted && w.finished == v.finished
  {
    TimesZero(v.running, id);
    var x := After(v, id, Preempt);
    var w := After(x, id, Resume);
    assert [Preempt, Resume][..1] == [Preempt] && [Preempt][..0] == [];
    assert AfterAll(v, id, [Preempt]) == x;
    assert AfterAll(v, id, [Preempt, Resume]) == w;
    assert x.waiting[0].id == id && FirstWith(x.waiting, id) == 0;
    TimesConcat(x.running, [x.waiting[0]], id);
    TimesOne(x.waiting[0], id);
  }

  /**
   The failing family: preempted and resumed while it is being stopped, and otherwise
   left alone, a request is lost.
   */
  lemma ResumedIsLost(v: View, id: RequestId, stage: Stage)
    requires Times(v.running, id) > 0 && !Aborts(v)
    requires stage.last && stage.room && stage.stopping == [Preempt, Resume] && Calm(stage.draining)
             && Calm(stage.allocating)
    ensures LosesAt(v, id, stage) && LosesIn(v, id, [stage])
  {
    PreemptedAndResumed(v, id);
    var w := AfterAll(v, id, stage.stopping);
    CalmKeepsFlags(w.(running := Stopped(w.running, id)), id, stage.draining);
    CalmKeepsFlags(AtStop(v, id, stage), id, stage.allocating);
  }

  lemma OneMove(v: View, id: RequestId, move: Move)
    ensures AfterAll(v, id, [move]) == After(v, id, move)
  {
    assert [move][..0] == [];
  }

  /**
   What finishing, and being preempted, at each await of a stage leads to: the end of the
   step and its output are waited for, so a request that finishes there is let go; one
   that finishes while the blocks are reserved for its last stage is lost; one that is
   preempted while an early stage sends is given up.
   */
  lemma InterruptedStage(v: View, id: RequestId, stage: Stage, freed: bool)
    requires Times(v.running, id) > 0 && !Aborts(v) && stage.room
    ensures stage.last && stage.stopping == [Finish(freed)] && Calm(stage.draining) ==>
              StageStatus(v, id, stage) == AbortedSrc && !LosesAt(v, id, stage)
    ensures stage.last && stage.stopping == [] && stage.draining == [Finish(freed)] ==>
              StageStatus(v, id, stage) == AbortedSrc && !LosesAt(v, id, stage)
    ensures stage.last && Calm(stage.stopping) && Calm(stage.draining) && stage.allocating == [Finish(freed)] ==>
              LosesAt(v, id, stage)
    ensures !stage.last && stage.allocating == [] && stage.sending == [Preempt] ==>
              StageStatus(v, id, stage) == AbortedSrc
  {
    OneMove(v, id, Finish(freed));
    var w := AfterAll(v, id, stage.stopping);
    if stage.last && stage.stopping == [Finish(freed)] && Calm(stage.draining) {
      CalmKeepsFlags(w.(running := Stopped(w.running, id)), id, stage.draining);
    }
    OneMove(w.(running := Stopped(w.running, id)), id, Finish(freed));
    if stage.last && Calm(stage.stopping) && Calm(stage.draining) && stage.allocating == [Finish(freed)] {
      CalmKeepsFlags(v, id, stage.stopping);
      CalmKeepsRunning(v, id, stage.stopping);
      CalmKeepsFlags(w.(running := Stopped(w.running, id)), id, stage.draining);
      OneMove(AtStop(v, id, stage), id, Finish(freed));
    }
    TimesZero(v.running, id);
    OneMove(v.(preempted := false), id, Preempt);
  }

  lemma {:induction false} CalmKeepsRunning(v: View, id: RequestId, moves: seq<Move>)
    requires Calm(moves)
    ensures Times(AfterAll(v, id, moves).running, id) >= Times(v.running, id)
  {
    if moves == [] {
    } else {
      var n := |moves| - 1;
      CalmKeepsRunning(v, id, moves[..n]);
      var w := AfterAll(v, id, moves[..n]);
      var m := FirstWith(w.waiting, id);
      if moves[n].Resume? && m < |w.waiting| {
        TimesConcat(w.running, [w.waiting[m]], id);
      }
    }
  }

  /** With nothing but calm and room, the first last stage finishes the migration. */
  lemma {:induction false} CalmMigrationFinishes(v: View, id: RequestId, script: seq<Stage>, k: nat)
    requires Times(v.running, id) > 0 && !Aborts(v) && k < |script| && script[k].last
    requires forall i :: 0 <= i <= k ==> CalmStage(script[i]) && Calm(script[i].sending) && script[i].room
    ensures StatusOf(v, id, script) == Finished
    decreases k
  {
    var stage := script[0];
    CalmStep(v, id, stage);
    if !stage.last {
      CalmMigrationFinishes(AtSent(v, id, stage), id, script[1..], k - 1);
    }
  }

  lemma CalmStep(v: View, id: RequestId, stage: Stage)
    requires Times(v.running, id) > 0 && !Aborts(v) && CalmStage(stage) && Calm(stage.sending) && stage.room
    ensures StageStatus(v, id, stage) == if stage.last then Finished else Running
    ensures !stage.last ==> Times(AtSent(v, id, stage).running, id) > 0 && !Aborts(AtSent(v, id, stage))
  {
    if stage.last {
      var w := AfterAll(v, id, stage.stopping);
      CalmKeepsFlags(v, id, stage.stopping);
      CalmKeepsRunning(v, id, stage.stopping);
      CalmKeepsFlags(w.(running := Stopped(w.running, id)), id, stage.draining);
      CalmKeepsFlags(AtStop(v, id, stage), id, stage.allocating);
    } else {
      CalmKeepsFlags(v, id, stage.allocating);
      CalmKeepsRunning(v, id, stage.allocating);
      CalmKeepsFlags(AtReply(v, id, stage).(preempted := false), id, stage.sending);
      CalmKeepsRunning(AtReply(v, id, stage).(preempted := false), id, stage.sending);
    }
  }

  /** Where the request is when a stage, or all stages, have ended. */
  ghost predicate Placed(src: Engine, dst: Engine, out: Outgoing, status: Status, lost: bool)
    reads src, dst, out
  {
    && (lost ==> status == AbortedSrc && InTransit(src, dst, out))
    && (status == Finished ==> InTransit(src, dst, out) && out.r.id in dst.preAlloc)
    && (status == Finished ==> out.r.id in src.overrides && src.overrides[out.r.id] == RunningMigrating)
    && (status == AbortedDst ==> out.r.id !in dst.preAlloc)
    && (status != Finished && !lost ==> AtSource(src, dst, out))
  }

  /** A refused last stage puts the request at the end of the running queue; a refused early one changes nothing. */
  predicate RefusedAt(v: View, r: Request, stage: Stage, running: seq<Request>, waiting: seq<Request>) {
    var w := AtReply(v, r.id, stage);
    running == (if stage.last then w.running + [r] else w.running) && waiting == w.waiting
  }

  /** The source when a stage has ended, in every case. */
  function StageView(v: View, r: Request, stage: Stage): View {
    if Aborts(v) then v
    else if stage.last && !Stops(v, r.id, stage) then AtStop(v, r.id, stage)
    else
      var w := AtReply(v, r.id, stage);
      if !stage.room then (if stage.last then w.(running := w.running + [r]) else w)
      else if Aborts(w) then w
      else AtSent(v, r.id, stage)
  }

  /** A stage leaves the request in the last-stage list. */
  predicate Listed(v: View, id: RequestId, stage: Stage) {
    StageStatus(v, id, stage) == Finished || LosesAt(v, id, stage)
  }

  lemma NotInList(q: seq<Request>, r: Request)
    ensures Times(q, r.id) == 0 ==>
              FirstWith(q + [r], r.id) == |q| && Without(q + [r], FirstWith(q + [r], r.id)) == q
  {
    TimesZero(q, r.id);
    assert (q + [r])[|q|].id == r.id;
    if Times(q, r.id) == 0 {
      assert forall j :: 0 <= j < |q| ==> (q + [r])[j].id != r.id;
    }
  }

  /** The source's marks and the destination's pre-allocations change for this request alone. */
  predicate OthersKept(id: RequestId, marks: map<RequestId, Override>, marks': map<RequestId, Override>,
                       preAlloc: set<RequestId>, preAlloc': set<RequestId>) {
    marks - {id} == marks' - {id} && preAlloc - {id} == preAlloc' - {id}
  }

  method PutBackRunning(src: Engine, dst: Engine, out: Outgoing, ghost before: seq<Request>)
    requires src != dst && InTransit(src, dst, out) && src.lastStage == before + [out.r] && Times(before, out.r.id) == 0
    modifies src`running, src`lastStage
    ensures AtSource(src, dst, out) && src.running == old(src.running) + [out.r] && src.lastStage == before
  {
    NotInList(before, out.r);
    src.AddRunning(out.r);
    src.RemoveLastStage(out.r.id);
  }

  /**
   How a stage ends, in a source that was `v` with the list `before` when it began: its
   status, where the request is, the whole queues, and the last-stage list.
   */
  ghost predicate StageOver(src: Engine, dst: Engine, out: Outgoing, status: Status, v: View, before: seq<Request>,
                            stage: Stage)
    reads src, dst, out
  {
    && status == StageStatus(v, out.r.id, stage)
    && Placed(src, dst, out, status, LosesAt(v, out.r.id, stage))
    && ViewOf(src, out) == StageView(v, out.r, stage)
    && src.lastStage == (if Listed(v, out.r.id, stage) then before + [out.r] else before)
    && (status == AbortedDst ==> RefusedAt(v, out.r, stage, src.running, src.waiting))
  }

  lemma NothingHappens(v: View, r: Request, stage: Stage)
    requires Aborts(v)
    ensures StageStatus(v, r.id, stage) == AbortedSrc && !LosesAt(v, r.id, stage) && StageView(v, r, stage) == v
  {
  }

  lemma NotStopped(v: View, r: Request, stage: Stage)
    requires !Aborts(v) && stage.last && !Stops(v, r.id, stage)
    ensures StageStatus(v, r.id, stage) == AbortedSrc && !LosesAt(v, r.id, stage)
    ensures StageView(v, r, stage) == AtStop(v, r.id, stage)
  {
  }

  /** A stage from the request for room on, in a source that was `v` with the list `before` when the stage began. */
  method AskAndSend(src: Engine, dst: Engine, out: Outgoing, stage: Stage, ghost v: View, ghost before: seq<Request>)
    returns (status: Status)
    requires src != dst && !Aborts(v) && (stage.last ==> Stops(v, out.r.id, stage)) && Times(before, out.r.id) == 0
    requires ViewOf(src, out) == if stage.last then AtStop(v, out.r.id, stage) else v
    requires if stage.last then InTransit(src, dst, out) else AtSource(src, dst, out)
    requires src.lastStage == if stage.last then before + [out.r] else before
    requires stage.last ==> out.r.id in src.overrides && src.overrides[out.r.id] == RunningMigrating
    modifies src`running, src`waiting, src`lastStage, dst`running, dst`waiting, dst`preAlloc, out
    ensures StageOver(src, dst, out, status, v, before, stage)
    ensures dst.preAlloc - {out.r.id} == old(dst.preAlloc) - {out.r.id}
  {
    var granted := Reserve(src, dst, out, false, stage.allocating, stage.others, stage.room);
    KeptPreAlloc(old(dst.preAlloc), out.r.id);
    if !granted {
      Refuse(src, dst, out, stage, v, before);
      return AbortedDst;
    }
    if out.ShouldAbort() {
      return AbortedSrc;
    }
    status := Send(src, dst, out, stage, v, before);
  }

  lemma KeptPreAlloc(preAlloc: set<RequestId>, id: RequestId)
    ensures preAlloc + {id} - {id} == preAlloc - {id} && preAlloc - {id} - {id} == preAlloc - {id}
  {
  }

  method Refuse(src: Engine, dst: Engine, out: Outgoing, stage: Stage, ghost v: View, ghost before: seq<Request>)
    requires src != dst && !Aborts(v) && (stage.last ==> Stops(v, out.r.id, stage)) && !stage.room
    requires ViewOf(src, out) == AtReply(v, out.r.id, stage) && out.r.id !in dst.preAlloc
             && Times(before, out.r.id) == 0
    requires if stage.last then InTransit(src, dst, out) else AtSource(src, dst, out)
    requires src.lastStage == if stage.last then before + [out.r] else before
    modifies src`running, src`lastStage
    ensures StageOver(src, dst, out, AbortedDst, v, before, stage)
  {
    if stage.last {
      PutBackRunning(src, dst, out, before);
    }
  }

  method Send(src: Engine, dst: Engine, out: Outgoing, stage: Stage, ghost v: View, ghost before: seq<Request>)
    returns (status: Status)
    requires src != dst && !Aborts(v) && (stage.last ==> Stops(v, out.r.id, stage)) && stage.room
    requires ViewOf(src, out) == AtReply(v, out.r.id, stage) && !out.ShouldAbort() && out.r.id in dst.preAlloc
    requires if stage.last then InTransit(src, dst, out) else AtSource(src, dst, out)
    requires src.lastStage == if stage.last then before + [out.r] else before
    requires stage.last ==> out.r.id in src.overrides && src.overrides[out.r.id] == RunningMigrating
    modifies src`running, src`waiting, out
    ensures StageOver(src, dst, out, status, v, before, stage)
  {
    out.preempted := false;
    MoveSourceAll(src, out, stage.sending);
    if !stage.last && out.ShouldAbort() {
      return AbortedSrc;
    }
    return if stage.last then Finished else Running;
  }

  /** One stage: its status and whether it loses the request, by what happens during it. */
  method MigrateOutOneStage(src: Engine, dst: Engine, out: Outgoing, stage: Stage) returns (status: Status)
    requires src != dst && AtSource(src, dst, out)
    modifies src`running, src`waiting, src`lastStage, src`overrides, dst`running, dst`waiting, dst`preAlloc, out
    ensures StageOver(src, dst, out, status, old(ViewOf(src, out)), old(src.lastStage), stage)
    ensures OthersKept(out.r.id, old(src.overrides), src.overrides, old(dst.preAlloc), dst.preAlloc)
  {
    if out.ShouldAbort() {
      NothingHappens(ViewOf(src, out), out.r, stage);
      return AbortedSrc;
    }
    if stage.last {
      var stopped := StopRunning(src, dst, out, stage);
      if !stopped {
        NotStopped(old(ViewOf(src, out)), out.r, stage);
        return AbortedSrc;
      }
    }
    status := AskAndSend(src, dst, out, stage, old(ViewOf(src, out)), old(src.lastStage));
  }

  /** The source when all stages have ended. */
  function ScriptView(v: View, r: Request, script: seq<Stage>): View
    decreases |script|
  {
    if script == [] then v
    else if StageStatus(v, r.id, script[0]) == Running then ScriptView(StageView(v, r, script[0]), r, script[1..])
    else StageView(v, r, script[0])
  }

  /** Calm throughout, the time of sending included. */
  predicate CalmScript(script: seq<Stage>) {
    forall i :: 0 <= i < |script| ==> CalmStage(script[i]) && Calm(script[i].sending)
  }

  /** A running request that is refused in calm is still in the running queue. */
  lemma {:induction false} CalmRefusalRuns(v: View, r: Request, script: seq<Stage>)
    requires CalmScript(script) && Times(v.running, r.id) > 0 && StatusOf(v, r.id, script) == AbortedDst
    ensures Times(ScriptView(v, r, script).running, r.id) > 0
    decreases |script|
  {
    if script == [] {
    } else {
      var stage := script[0];
      CalmStageRuns(v, r, stage);
      if StageStatus(v, r.id, stage) == Running {
        CalmRefusalRuns(StageView(v, r, stage), r, script[1..]);
      }
    }
  }

  lemma CalmStageRuns(v: View, r: Request, stage: Stage)
    requires CalmStage(stage) && Calm(stage.sending) && Times(v.running, r.id) > 0
    ensures StageStatus(v, r.id, stage) == AbortedDst || StageStatus(v, r.id, stage) == Running ==>
              Times(StageView(v, r, stage).running, r.id) > 0
  {
    CalmKeepsRunning(v, r.id, stage.allocating);
    CalmKeepsRunning(AtReply(v, r.id, stage).(preempted := false), r.id, stage.sending);
    var w := AtReply(v, r.id, stage);
    TimesConcat(w.running, [r], r.id);
    TimesOne(r, r.id);
  }

  method MigrateOutMultistage(src: Engine, dst: Engine, out: Outgoing, script: seq<Stage>) returns (status: Status)
    requires src != dst && AtSource(src, dst, out)
    modifies src`running, src`waiting, src`lastStage, src`overrides, dst`running, dst`waiting, dst`preAlloc, out
    ensures status != Running && status == StatusOf(old(ViewOf(src, out)), out.r.id, script)
    ensures Placed(src, dst, out, status, LosesIn(old(ViewOf(src, out)), out.r.id, script))
    ensures ViewOf(src, out) == ScriptView(old(ViewOf(src, out)), out.r, script)
    ensures OthersKept(out.r.id, old(src.overrides), src.overrides, old(dst.preAlloc), dst.preAlloc)
    ensures status == AbortedDst ==> src.lastStage == old(src.lastStage)
  {
    ghost var v, id := ViewOf(src, out), out.r.id;
    assert script[0..] == script;
    for count := 0 to |script|
      invariant AtSource(src, dst, out) && src.lastStage == old(src.lastStage)
      invariant OthersKept(id, old(src.overrides), src.overrides, old(dst.preAlloc), dst.preAlloc)
      invariant ScriptView(v, out.r, script) == ScriptView(ViewOf(src, out), out.r, script[count..])
      invariant StatusOf(v, id, script) == StatusOf(ViewOf(src, out), id, script[count..])
      invariant LosesIn(v, id, script) == LosesIn(ViewOf(src, out), id, script[count..])
    {
      ghost var rest := script[count..];
      assert rest[0] == script[count] && rest[1..] == script[count + 1..];
      status := MigrateOutOneStage(src, dst, out, script[count]);
      if status != Running {
        return;
      }
    }
    return AbortedSrc;
  }

  /** Commits to the destination, or resets the request and frees what the destination still holds. */
  method Conclude(src: Engine, dst: Engine, out: Outgoing, status: Status)
    requires src != dst && status != Running
    requires status == Finished ==> InTransit(src, dst, out) && out.r.id in dst.preAlloc && out.r.id in src.overrides
    requires status == AbortedDst ==> out.r.id !in dst.preAlloc
    modifies src`lastStage, src`overrides, dst, out`preempted
    ensures out.r.id !in dst.preAlloc
    ensures status == Finished ==> dst.Owned(out.r.id) == 1 && Times(src.lastStage, out.r.id) == 0
    ensures status == Finished && old(src.overrides[out.r.id]) == WaitingMigrating ==>
              dst.running == old(dst.running) && dst.waiting == Enqueue(old(dst.waiting), out.r)
    ensures status == Finished && old(src.overrides[out.r.id]) == RunningMigrating ==>
              dst.waiting == old(dst.waiting) && dst.running == old(dst.running) + [out.r]
    ensures status == Finished ==>
              var n := FirstWith(old(src.lastStage), out.r.id);
              n < |old(src.lastStage)| && src.lastStage == Without(old(src.lastStage), n)
    ensures dst.preAlloc == old(dst.preAlloc) - {out.r.id}
    ensures src.overrides == if status == Finished then old(src.overrides) else old(src.overrides) - {out.r.id}
    ensures status != Finished ==> src.lastStage == old(src.lastStage) && !out.preempted
    ensures status != Finished ==> dst.running == old(dst.running) && dst.waiting == old(dst.waiting)
  {
    if status == Finished {
      dst.CommitDst(out.r, src.overrides[out.r.id]);
      src.RemoveLastStage(out.r.id);
    } else {
      out.preempted := false;
      src.overrides := src.overrides - {out.r.id};
      if status == AbortedSrc {
        dst.FreePreAlloc(out.r.id);
      }
    }
  }

  /** In how many queues of the two instances the request is. */
  ghost function Owners(src: Engine, dst: Engine, out: Outgoing): nat
    reads src, dst
  {
    src.Owned(out.r.id) + dst.Owned(out.r.id)
  }

  /**
   Every outcome for a running request. The destination keeps no pre-allocation. The
   request, unless it has finished at the source, is in exactly one queue of exactly
   one instance if and only if no last stage loses it; a lost one is left in the
   last-stage list alone. So it has one owner if it is neither preempted nor finished
   during its last stage.
   */
  method MigrateRunning(src: Engine, dst: Engine, out: Outgoing, script: seq<Stage>) returns (status: Status)
    requires src != dst && AtSource(src, dst, out)
    modifies src, dst, out
    ensures status == StatusOf(old(ViewOf(src, out)), out.r.id, script)
    ensures out.r.id !in dst.preAlloc
    ensures var lost := LosesIn(old(ViewOf(src, out)), out.r.id, script);
            && Times(src.lastStage, out.r.id) == (if lost then 1 else 0)
            && (lost ==> Owners(src, dst, out) == 0)
            && (!out.finished || status == Finished ==> (Owners(src, dst, out) == 1 <==> !lost))
    ensures (forall i :: 0 <= i < |script| && script[i].last ==> CalmStage(script[i]))
            && (!out.finished || status == Finished) ==>
              Owners(src, dst, out) == 1
    ensures status == Finished ==> out.r in dst.running && src.Owned(out.r.id) == 0
    ensures status != Finished ==> dst.Owned(out.r.id) == 0
    ensures src.running == ScriptView(old(ViewOf(src, out)), out.r, script).running
    ensures src.waiting == ScriptView(old(ViewOf(src, out)), out.r, script).waiting
    ensures status == AbortedDst && CalmScript(script) && old(Times(src.running, out.r.id)) > 0 ==>
              Times(src.running, out.r.id) == 1 && Times(src.waiting, out.r.id) == 0
  {
    if CalmScript(script) && Times(src.running, out.r.id) > 0
       && StatusOf(ViewOf(src, out), out.r.id, script) == AbortedDst {
      CalmRefusalRuns(ViewOf(src, out), out.r, script);
    }
    if forall i :: 0 <= i < |script| && script[i].last ==> CalmStage(script[i]) {
      CalmLastStagesKeep(ViewOf(src, out), out.r.id, script);
    }
    status := MigrateOutMultistage(src, dst, out, script);
    Conclude(src, dst, out, status);
    assert status == Finished ==> dst.running[|dst.running| - 1] == out.r;
  }

  /** Arrival times differ, and the queue's entry for the id, if any, is this request. */
  predicate Orderly(q: seq<Request>, r: Request) {
    && (forall i, j :: 0 <= i < j < |q| ==> q[i].arrival < q[j].arrival)
    && (forall i :: 0 <= i < |q| ==> (q[i].id == r.id ==> q[i] == r))
  }

  lemma Restored(q: seq<Request>, i: nat, r: Request)
    requires i < |q| && q[i].id == r.id
    ensures Orderly(q, r) ==> Enqueue(Without(q, i), r) == q
  {
    if Orderly(q, r) {
      TakenAndPutBack(q, i);
    }
  }

  method StopWaiting(src: Engine, dst: Engine, out: Outgoing, fits: bool) returns (stopped: bool, ghost at: nat)
    requires src != dst && AtSource(src, dst, out)
    modifies src
    ensures if stopped then InTransit(src, dst, out) else AtSource(src, dst, out)
    ensures stopped ==> src.overrides == old(src.overrides)[out.r.id := WaitingMigrating]
    ensures stopped <==> fits && old(Times(src.waiting, out.r.id)) > 0
    ensures stopped ==>
              && at < |old(src.waiting)| && old(src.waiting)[at].id == out.r.id
              && src.waiting == Without(old(src.waiting), at)
    ensures ViewOf(src, out) == if stopped then Taken(old(ViewOf(src, out)), out.r.id) else old(ViewOf(src, out))
  {
    stopped, at := src.RemoveWaiting(out.r.id, fits);
    assert ViewOf(src, out) == if stopped then Taken(old(ViewOf(src, out)), out.r.id) else old(ViewOf(src, out));
    if stopped {
      EnterTransit(src, dst, out);
    }
  }

  /** A request that has just been taken out of its queue goes to the last-stage list. */
  method EnterTransit(src: Engine, dst: Engine, out: Outgoing)
    requires src != dst && src.Owned(out.r.id) == 0 && dst.Owned(out.r.id) == 0 && Times(src.lastStage, out.r.id) == 0
    modifies src`lastStage
    ensures InTransit(src, dst, out) && src.lastStage == old(src.lastStage) + [out.r]
  {
    src.AddLastStage(out.r);
  }

  method PutBackWaiting(src: Engine, dst: Engine, out: Outgoing)
    requires src != dst && InTransit(src, dst, out)
    modifies src`waiting, src`lastStage
    ensures AtSource(src, dst, out) && src.waiting == Enqueue(old(src.waiting), out.r)
  {
    src.AddWaiting(out.r);
    src.RemoveLastStage(out.r.id);
  }

  /** The source without its first waiting entry for the id. */
  function Taken(v: View, id: RequestId): View {
    var n := FirstWith(v.waiting, id);
    if n < |v.waiting| then v.(waiting := Without(v.waiting, n)) else v
  }

  method MigrateOutWaiting(src: Engine, dst: Engine, out: Outgoing, fits: bool, moves: seq<Move>, others: seq<Queues>,
                           room: bool)
    returns (status: Status)
    requires src != dst && AtSource(src, dst, out)
    modifies src, dst, out
    ensures status != Running
    ensures status == Finished ==> InTransit(src, dst, out) && out.r.id in dst.preAlloc
    ensures status == Finished ==> out.r.id in src.overrides && src.overrides[out.r.id] == WaitingMigrating
    ensures status == AbortedDst ==> out.r.id !in dst.preAlloc
    ensures status != Finished ==> AtSource(src, dst, out)
    ensures status == AbortedSrc <==> !(fits && old(Times(src.waiting, out.r.id)) > 0)
    ensures others == [] && status != AbortedSrc ==> (status == Finished <==> room && Welcome(out.r, old(dst.waiting)))
    ensures status == AbortedDst && moves == [] && Orderly(old(src.waiting), out.r) ==> src.waiting == old(src.waiting)
    ensures status == AbortedSrc ==> ViewOf(src, out) == old(ViewOf(src, out))
    ensures status != AbortedSrc ==>
              var w := AfterAll(Taken(old(ViewOf(src, out)), out.r.id), out.r.id, moves);
              src.running == w.running
              && src.waiting == if status == AbortedDst then Enqueue(w.waiting, out.r) else w.waiting
  {
    var stopped, at := StopWaiting(src, dst, out, fits);
    if !stopped {
      return AbortedSrc;
    }
    var granted := Reserve(src, dst, out, true, moves, others, room);
    if !granted {
      Restored(old(src.waiting), at, out.r);
      PutBackWaiting(src, dst, out);
      return AbortedDst;
    }
    return Finished;
  }

  /**
   Every outcome for a waiting request: one owner, nothing left behind. A refusal
   with no other move restores a strictly arrival-ordered waiting queue exactly.
   */
  method MigrateWaiting(src: Engine, dst: Engine, out: Outgoing, fits: bool, moves: seq<Move>, others: seq<Queues>,
                        room: bool)
    returns (status: Status)
    requires src != dst && AtSource(src, dst, out)
    modifies src, dst, out
    ensures status != Running
    ensures out.r.id !in dst.preAlloc && Times(src.lastStage, out.r.id) == 0
    ensures Owners(src, dst, out) <= 1 && (!out.finished ==> Owners(src, dst, out) == 1)
    ensures status == Finished ==> src.Owned(out.r.id) == 0
    ensures status != Finished ==> dst.Owned(out.r.id) == 0
    ensures status == AbortedSrc <==> !(fits && old(Times(src.waiting, out.r.id)) > 0)
    ensures others == [] && status != AbortedSrc ==> (status == Finished <==> room && Welcome(out.r, old(dst.waiting)))
    ensures status == AbortedDst && moves == [] && Orderly(old(src.waiting), out.r) ==> src.waiting == old(src.waiting)
    ensures status == AbortedSrc ==> src.running == old(src.running) && src.waiting == old(src.waiting)
    ensures status == AbortedDst ==>
              var w := AfterAll(Taken(old(ViewOf(src, out)), out.r.id), out.r.id, moves);
              src.running == w.running && src.waiting == Enqueue(w.waiting, out.r)
    ensures status == Finished ==> Times(dst.waiting, out.r.id) == 1 && Times(dst.running, out.r.id) == 0
  {
    status := MigrateOutWaiting(src, dst, out, fits, moves, others, room);
    ghost var waiting := dst.waiting;
    Conclude(src, dst, out, status);
    if status == Finished {
      TimesWith(waiting, Bisect(waiting, out.r.arrival, 0, |waiting|), out.r, out.r.id);
    }
  }

  /** The first request of the list that is no longer marked as migrating. */
  function FirstUnmarked(q: seq<Request>, overrides: map<RequestId, Override>): (n: nat)
    ensures n <= |q| && (n < |q| ==> q[n].id !in overrides)
    ensures forall j :: 0 <= j < n ==> q[j].id in overrides
  {
    if q == [] then 0 else if q[0].id !in overrides then 0 else 1 + FirstUnmarked(q[1..], overrides)
  }

  predicate Marked(r: Request, overrides: map<RequestId, Override>, mark: Override) {
    r.id in overrides && overrides[r.id] == mark
  }

  /** The requests of the list with this mark, in order. */
  function WithMark(q: seq<Request>, overrides: map<RequestId, Override>, mark: Override): seq<Request> {
    if q == [] then []
    else
      var front, r := WithMark(q[..|q| - 1], overrides, mark), q[|q| - 1];
      if Marked(r, overrides, mark) then front + [r] else front
  }

  function EnqueueAll(q: seq<Request>, more: seq<Request>): seq<Request> {
    if more == [] then q else Enqueue(EnqueueAll(q, more[..|more| - 1]), more[|more| - 1])
  }

  /** A request is among them as often as it was, if it has the mark, and otherwise not at all. */
  lemma {:induction false} WithMarkTimes(q: seq<Request>, overrides: map<RequestId, Override>, mark: Override,
                                         id: RequestId)
    ensures Times(WithMark(q, overrides, mark), id) ==
            if id in overrides && overrides[id] == mark then Times(q, id) else 0
  {
    if q == [] {
    } else {
      var n := |q| - 1;
      WithMarkTimes(q[..n], overrides, mark, id);
      TimesConcat(WithMark(q[..n], overrides, mark), [q[n]], id);
      TimesOne(q[n], id);
    }
  }

  /** Whatever is enqueued joins what was there. */
  lemma {:induction false} EnqueueAllTimes(q: seq<Request>, more: seq<Request>, id: RequestId)
    ensures Times(EnqueueAll(q, more), id) == Times(q, id) + Times(more, id)
  {
    if more == [] {
    } else {
      var n := |more| - 1;
      EnqueueAllTimes(q, more[..n], id);
      var before := EnqueueAll(q, more[..n]);
      TimesWith(before, Bisect(before, more[n].arrival, 0, |before|), more[n], id);
    }
  }

  /**
   The source's recovery when the destination dies: the last-stage list is emptied and
   its requests return to their queues, up to the first one whose migrating mark is
   gone. So all of them return exactly when all are still marked; a lost request is
   not, and those behind it are dropped with it.
   */
  method ClearMigrationStates(src: Engine) returns (ok: bool)
    modifies src
    ensures src.lastStage == [] && src.overrides == old(src.overrides)
    ensures ok <==> old(FirstUnmarked(src.lastStage, src.overrides) == |src.lastStage|)
    ensures var back := old(src.lastStage[..FirstUnmarked(src.lastStage, src.overrides)]);
            && src.running == old(src.running) + WithMark(back, src.overrides, RunningMigrating)
            && src.waiting == EnqueueAll(old(src.waiting), WithMark(back, src.overrides, WaitingMigrating))
            && forall id :: src.Owned(id) == old(src.Owned(id)) + Times(back, id)
  {
    var popped := src.lastStage;
    src.lastStage := [];
    for n := 0 to |popped|
      invariant src.lastStage == [] && src.overrides == old(src.overrides)
      invariant n <= FirstUnmarked(popped, src.overrides)
      invariant src.running == old(src.running) + WithMark(popped[..n], src.overrides, RunningMigrating)
      invariant src.waiting == EnqueueAll(old(src.waiting), WithMark(popped[..n], src.overrides, WaitingMigrating))
    {
      if popped[n].id !in src.overrides {
        AllBack(src, old(src.running), old(src.waiting), popped[..n]);
        return false;
      }
      PutBackOne(src, popped, n, old(src.running), old(src.waiting));
    }
    assert popped[..|popped|] == popped;
    AllBack(src, old(src.running), old(src.waiting), popped);
    return true;
  }

  method PutBackOne(src: Engine, popped: seq<Request>, n: nat, ghost running: seq<Request>, ghost waiting: seq<Request>)
    requires n < |popped| && popped[n].id in src.overrides
    requires src.running == running + WithMark(popped[..n], src.overrides, RunningMigrating)
    requires src.waiting == EnqueueAll(waiting, WithMark(popped[..n], src.overrides, WaitingMigrating))
    modifies src`running, src`waiting
    ensures src.running == running + WithMark(popped[..n + 1], src.overrides, RunningMigrating)
    ensures src.waiting == EnqueueAll(waiting, WithMark(popped[..n + 1], src.overrides, WaitingMigrating))
  {
    assert popped[..n + 1][..n] == popped[..n];
    if src.overrides[popped[n].id] == RunningMigrating {
      src.AddRunning(popped[n]);
    } else {
      EnqueuedLast(waiting, WithMark(popped[..n], src.overrides, WaitingMigrating), popped[n]);
      src.AddWaiting(popped[n]);
    }
  }

  lemma EnqueuedLast(q: seq<Request>, more: seq<Request>, r: Request)
    ensures EnqueueAll(q, more + [r]) == Enqueue(EnqueueAll(q, more), r)
  {
    assert (more + [r])[..|more|] == more;
  }

  /** Every request put back is in exactly one queue more. */
  lemma AllBack(src: Engine, running: seq<Request>, waiting: seq<Request>, back: seq<Request>)
    requires forall i :: 0 <= i < |back| ==> back[i].id in src.overrides
    requires src.running == running + WithMark(back, src.overrides, RunningMigrating)
    requires src.waiting == EnqueueAll(waiting, WithMark(back, src.overrides, WaitingMigrating))
    ensures forall id :: src.Owned(id) == Times(running, id) + Times(waiting, id) + Times(back, id)
  {
    forall id
      ensures src.Owned(id) == Times(running, id) + Times(waiting, id) + Times(back, id)
    {
      WithMarkTimes(back, src.overrides, RunningMigrating, id);
      WithMarkTimes(back, src.overrides, WaitingMigrating, id);
      TimesConcat(running, WithMark(back, src.overrides, RunningMigrating), id);
      EnqueueAllTimes(waiting, WithMark(back, src.overrides, WaitingMigrating), id);
      TimesZero(back, id);
    }
  }
}
