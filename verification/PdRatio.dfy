/**
 Which kind of instance to launch next when prefill and decode are disaggregated
 (llumnix/launcher.py:188-222), and the in-flight counters that feed the decision
 (llumnix/launcher.py:96-129). Counts are taken against a ratio of `a` prefill
 instances to `b` decode instances.
 */
module PdRatio {
  import opened Prelude
  import opened Names

  /** What is launched when prefill and decode are disaggregated. */
  type Role = t: InstanceType | t != NoConstraints witness Prefill

  datatype Counts = Counts(prefill: int, decode: int) {
    function Plus(kind: Role): Counts {
      if kind == Prefill then Counts(prefill + 1, decode) else Counts(prefill, decode + 1)
    }

    function Minus(kind: Role): Counts {
      if kind == Prefill then Counts(prefill - 1, decode) else Counts(prefill, decode - 1)
    }

    function Of(kind: Role): int {
      if kind == Prefill then prefill else decode
    }
  }

  function NextType(c: Counts, a: nat, b: nat): Role
    requires a > 0 && b > 0
  {
    if c.prefill == 0 then Prefill
    else if c.decode == 0 then Decode
    else
      var base := Min(c.prefill / a, c.decode / b);
      var p, d := c.prefill - base * a, c.decode - base * b;
      if p + d == 0 then Prefill
      else if Abs(p + 1 - d - (a - b)) <= Abs(p - (d + 1) - (a - b)) then Prefill
      else Decode
  }

  function Step(c: Counts, a: nat, b: nat): Counts
    requires a > 0 && b > 0
  {
    c.Plus(NextType(c, a, b))
  }

  /** The counts after n launches. */
  function After(c: Counts, a: nat, b: nat, n: nat): Counts
    requires a > 0 && b > 0
  {
    if n == 0 then c else Step(After(c, a, b, n - 1), a, b)
  }

  /** Between k and k + 1 whole rounds of the ratio. */
  predicate InBox(c: Counts, a: nat, b: nat, k: nat) {
    k * a <= c.prefill <= k * a + a && k * b <= c.decode <= k * b + b
  }

  predicate AtCorner(c: Counts, a: nat, b: nat, k: nat) {
    c.prefill == k * a + a && c.decode == k * b + b
  }

  /** The number of whole rounds both counts have completed. */
  function Rounds(c: Counts, a: nat, b: nat): int
    requires a > 0 && b > 0
  {
    Min(c.prefill / a, c.decode / b)
  }

  /** In some box; RoundsIsTheBox below shows that no other box needs to be tried. */
  predicate Balanced(c: Counts, a: nat, b: nat)
    requires a > 0 && b > 0
  {
    c.prefill >= 0 && c.decode >= 0 && InBox(c, a, b, Rounds(c, a, b))
  }

  lemma Quotient(x: int, m: nat, k: int)
    requires m > 0 && k * m <= x < k * m + m
    ensures x / m == k
  {
    UniqueQuotient(k, x - k * m, x / m, x % m, m);
  }

  /** A side that has not finished its round decides the number of whole rounds. */
  lemma BoxRounds(c: Counts, a: nat, b: nat, k: nat)
    requires a > 0 && b > 0 && InBox(c, a, b, k)
    ensures Rounds(c, a, b) == if AtCorner(c, a, b, k) then k + 1 else k
  {
    if c.prefill == k * a + a {
      Quotient(c.prefill, a, k + 1);
    } else {
      Quotient(c.prefill, a, k);
    }
    if c.decode == k * b + b {
      Quotient(c.decode, b, k + 1);
    } else {
      Quotient(c.decode, b, k);
    }
  }

  lemma RoundsIsTheBox(c: Counts, a: nat, b: nat, k: nat)
    requires a > 0 && b > 0 && InBox(c, a, b, k)
    ensures Balanced(c, a, b)
  {
    BoxRounds(c, a, b, k);
  }

  /** The comparison of the two gaps compares how far each side is from finishing the round. */
  lemma NextTypeMeaning(c: Counts, a: nat, b: nat)
    requires a > 0 && b > 0 && c.prefill != 0 && c.decode != 0
    ensures var k := Rounds(c, a, b);
            var p, d := c.prefill - k * a, c.decode - k * b;
            NextType(c, a, b) == if p + d == 0 || a - p >= b - d then Prefill else Decode
  {
  }

  /** A launch inside a box that is not full stays inside it. */
  lemma StepInBox(c: Counts, a: nat, b: nat, k: nat)
    requires a > 0 && b > 0 && InBox(c, a, b, k) && !AtCorner(c, a, b, k)
    ensures InBox(Step(c, a, b), a, b, k)
  {
    BoxRounds(c, a, b, k);
    if c.prefill != 0 && c.decode != 0 {
      NextTypeMeaning(c, a, b);
    } else if k > 0 {
      MulGap(0, k, a);
      MulGap(0, k, b);
    }
  }

  lemma CornerIsNextBox(c: Counts, a: nat, b: nat, k: nat)
    requires AtCorner(c, a, b, k)
    ensures InBox(c, a, b, k + 1) && (a > 0 && b > 0 ==> !AtCorner(c, a, b, k + 1))
  {
  }

  /** Whoever is missing comes first, and prefill before decode: two launches from nothing give one of each. */
  lemma MissingComesFirst(c: Counts, a: nat, b: nat)
    requires a > 0 && b > 0 && (c.prefill == 0 || c.decode == 0)
    ensures NextType(c, a, b) == if c.prefill == 0 then Prefill else Decode
    ensures After(Counts(0, 0), a, b, 1) == Counts(1, 0) && After(Counts(0, 0), a, b, 2) == Counts(1, 1)
  {
    assert After(Counts(0, 0), a, b, 1) == Step(After(Counts(0, 0), a, b, 0), a, b);
  }

  /** At the end of a round the next one begins with prefill. */
  lemma RoundBeginsWithPrefill(a: nat, b: nat, k: nat)
    requires a > 0 && b > 0
    ensures NextType(Counts(k * a, k * b), a, b) == Prefill
  {
    if k > 0 {
      var c := Counts(k * a, k * b);
      Quotient(c.prefill, a, k);
      Quotient(c.decode, b, k);
      MulGap(0, k, a);
      MulGap(0, k, b);
    }
  }

  /** Once balanced, every launch keeps the counts balanced. */
  lemma StepStaysBalanced(c: Counts, a: nat, b: nat)
    requires a > 0 && b > 0 && Balanced(c, a, b)
    ensures Balanced(Step(c, a, b), a, b)
  {
    var k := Rounds(c, a, b);
    if AtCorner(c, a, b, k) {
      CornerIsNextBox(c, a, b, k);
      k := k + 1;
    }
    StepInBox(c, a, b, k);
    RoundsIsTheBox(Step(c, a, b), a, b, k);
  }

  /**
   Launching from nothing, after n launches both counts are between k and k + 1
   rounds of the ratio, with k = n / (a + b).
   */
  lemma {:induction false} LaunchingFromZero(a: nat, b: nat, n: nat)
    requires a > 0 && b > 0
    ensures var c := After(Counts(0, 0), a, b, n);
            c.prefill + c.decode == n && InBox(c, a, b, n / (a + b))
  {
    if n == 0 {
      Quotient(0, a + b, 0);
    } else {
      LaunchingFromZero(a, b, n - 1);
      StepFollowsSum(After(Counts(0, 0), a, b, n - 1), a, b);
    }
  }

  lemma StepFollowsSum(c: Counts, a: nat, b: nat)
    requires a > 0 && b > 0 && c.prefill + c.decode >= 0
    requires InBox(c, a, b, (c.prefill + c.decode) / (a + b))
    ensures var n := c.prefill + c.decode + 1;
            var next := Step(c, a, b);
            next.prefill + next.decode == n && InBox(next, a, b, n / (a + b))
  {
    var k := (c.prefill + c.decode) / (a + b);
    RoundNotFull(c, a, b, k);
    StepInBox(c, a, b, k);
    BoxOfSum(Step(c, a, b), a, b, k);
  }

  lemma RoundNotFull(c: Counts, a: nat, b: nat, k: nat)
    requires a > 0 && b > 0 && c.prefill + c.decode < k * (a + b) + (a + b)
    ensures !AtCorner(c, a, b, k)
  {
  }

  /** The sum of the counts tells the box. */
  lemma BoxOfSum(c: Counts, a: nat, b: nat, k: nat)
    requires a > 0 && b > 0 && InBox(c, a, b, k)
    ensures InBox(c, a, b, (c.prefill + c.decode) / (a + b))
  {
    var n := c.prefill + c.decode;
    assert k * (a + b) == k * a + k * b;
    if AtCorner(c, a, b, k) {
      CornerIsNextBox(c, a, b, k);
      Quotient(n, a + b, k + 1);
    } else {
      Quotient(n, a + b, k);
    }
  }

  /** How far the counts are from the ratio. */
  function Imbalance(c: Counts, a: nat, b: nat): nat {
    Abs(c.prefill * b - c.decode * a)
  }

  /** Inside a box the counts are off by at most one round. */
  lemma BalancedIsClose(c: Counts, a: nat, b: nat)
    requires a > 0 && b > 0 && Balanced(c, a, b)
    ensures Imbalance(c, a, b) <= a * b
  {
    var k := Rounds(c, a, b);
    Shifted(c, a, b, k);
    WithinOneRound(c.prefill - k * a, a, c.decode - k * b, b);
  }

  lemma WithinOneRound(p: int, a: nat, d: int, b: nat)
    requires 0 <= p <= a && 0 <= d <= b
    ensures -(a * b) <= p * b - d * a <= a * b
  {
  }

  lemma Shifted(c: Counts, a: nat, b: nat, k: int)
    ensures c.prefill * b - c.decode * a == (c.prefill - k * a) * b - (c.decode - k * b) * a
  {
  }

  /** Out of balance, exactly one side is more than a round ahead of the whole rounds. */
  lemma OutsideEveryBox(c: Counts, a: nat, b: nat)
    requires a > 0 && b > 0 && c.prefill >= 0 && c.decode >= 0 && !Balanced(c, a, b)
    ensures var k := Rounds(c, a, b);
            var p, d := c.prefill - k * a, c.decode - k * b;
            (p > a && 0 <= d < b) || (d > b && 0 <= p < a)
  {
    var q, r := c.prefill / a, c.decode / b;
    if q < r {
      MulGap(q, r, b);
    } else if r < q {
      MulGap(r, q, a);
    }
  }

  /** Out of balance, every launch brings the counts strictly closer to the ratio. */
  lemma StepCloser(c: Counts, a: nat, b: nat)
    requires a > 0 && b > 0 && c.prefill >= 0 && c.decode >= 0 && !Balanced(c, a, b)
    ensures Imbalance(Step(c, a, b), a, b) < Imbalance(c, a, b)
  {
    OutsideEveryBox(c, a, b);
    var k := Rounds(c, a, b);
    var p, d := c.prefill - k * a, c.decode - k * b;
    var next := Step(c, a, b);
    Shifted(c, a, b, k);
    Shifted(next, a, b, k);
    if p > a {
      AheadLaunchesOther(c, a, b);
      MoreThan(p, a, d, b);
    } else {
      AheadLaunchesOther(c, a, b);
      MoreThan(d, b, p, a);
    }
  }

  /** The side that is ahead waits. */
  lemma AheadLaunchesOther(c: Counts, a: nat, b: nat)
    requires a > 0 && b > 0 && c.prefill >= 0 && c.decode >= 0
    ensures c.prefill - Rounds(c, a, b) * a > a && c.decode - Rounds(c, a, b) * b < b ==> NextType(c, a, b) == Decode
    ensures c.decode - Rounds(c, a, b) * b > b && c.prefill - Rounds(c, a, b) * a < a ==> NextType(c, a, b) == Prefill
  {
  }

  /** One more of the side that is behind leaves the sign and shrinks the difference. */
  lemma MoreThan(x: int, m: nat, y: int, n: nat)
    requires m > 0 && x > m && y < n
    ensures 0 <= x * n - (y + 1) * m < x * n - y * m
  {
  }

  lemma {:induction false} AfterStep(c: Counts, a: nat, b: nat, n: nat)
    requires a > 0 && b > 0
    ensures After(c, a, b, n + 1) == After(Step(c, a, b), a, b, n)
  {
    if n == 0 {
      assert After(c, a, b, 1) == Step(After(c, a, b, 0), a, b);
    } else {
      AfterStep(c, a, b, n - 1);
    }
  }

  lemma {:induction false} StaysBalanced(c: Counts, a: nat, b: nat, n: nat)
    requires a > 0 && b > 0 && Balanced(c, a, b)
    ensures Balanced(After(c, a, b, n), a, b)
  {
    if n == 0 {
    } else {
      StaysBalanced(c, a, b, n - 1);
      StepStaysBalanced(After(c, a, b, n - 1), a, b);
    }
  }

  function Below(x: int): nat {
    if x < 0 then -x else 0
  }

  /** What is counted below zero, on both sides. */
  function Debt(c: Counts): nat {
    Below(c.prefill) + Below(c.decode)
  }

  /** The counts once a debt is paid. */
  function Paid(c: Counts): Counts {
    Counts(c.prefill + Below(c.prefill), c.decode + Below(c.decode))
  }

  /**
   Launches that suffice to reach balance: the imbalance, and before that the debt. A
   debt met by nothing on the other side costs one more, because a side that counts
   zero is served first.
   */
  function LaunchesNeeded(c: Counts, a: nat, b: nat): nat
    requires a > 0 && b > 0
  {
    Debt(c) + (if Debt(c) > 0 && c.prefill <= 0 && c.decode <= 0 then 1 else 0)
    + (if Balanced(Paid(c), a, b) then 0 else Imbalance(Paid(c), a, b))
  }

  /** A debt is paid by every launch, except that a side at zero is served once first. */
  lemma DebtIsPaid(c: Counts, a: nat, b: nat)
    requires a > 0 && b > 0 && Debt(c) > 0
    ensures var next := Step(c, a, b);
            || (Debt(next) == Debt(c) - 1 && Paid(next) == Paid(c))
            || (c.prefill == 0 && next == Counts(1, c.decode))
            || (c.decode == 0 && next == Counts(c.prefill, 1))
  {
    if c.prefill > 0 {
      DebtorIsNext(c.decode, b, c.prefill, a);
    } else if c.decode > 0 {
      DebtorIsNext(c.prefill, a, c.decode, b);
    }
  }

  /** A side in debt has completed fewer rounds, and lacks less to its next one than the other is beyond it. */
  lemma DebtorIsNext(x: int, m: nat, y: int, n: nat)
    requires m > 0 && n > 0 && x < 0 && y > 0
    ensures x / m < 0 <= y / n && 0 <= x - x / m * m < m && y - x / m * n > n
  {
    MulGap(x / m, 0, n);
  }

  lemma OneLaunchFewer(c: Counts, a: nat, b: nat)
    requires a > 0 && b > 0 && !Balanced(c, a, b)
    ensures LaunchesNeeded(Step(c, a, b), a, b) < LaunchesNeeded(c, a, b)
  {
    if Debt(c) > 0 {
      DebtIsPaid(c, a, b);
      FirstOnesBalanced(a, b);
      OneDebtFewer(c, Step(c, a, b), a, b);
    } else {
      StepCloser(c, a, b);
      assert Paid(c) == c && Paid(Step(c, a, b)) == Step(c, a, b);
    }
  }

  lemma FirstOnesBalanced(a: nat, b: nat)
    requires a > 0 && b > 0
    ensures Balanced(Counts(1, 0), a, b) && Balanced(Counts(0, 1), a, b)
  {
    RoundsIsTheBox(Counts(1, 0), a, b, 0);
    RoundsIsTheBox(Counts(0, 1), a, b, 0);
  }

  lemma OneDebtFewer(c: Counts, next: Counts, a: nat, b: nat)
    requires a > 0 && b > 0 && Debt(c) > 0 && Balanced(Counts(1, 0), a, b) && Balanced(Counts(0, 1), a, b)
    requires || (Debt(next) == Debt(c) - 1 && Paid(next) == Paid(c) && c.prefill <= next.prefill
                 && c.decode <= next.decode)
             || (c.prefill == 0 && next == Counts(1, c.decode))
             || (c.decode == 0 && next == Counts(c.prefill, 1))
    ensures LaunchesNeeded(next, a, b) < LaunchesNeeded(c, a, b)
  {
  }

  /**
   From any counts whatever, negative ones included, so many launches reach balance,
   and the counts stay balanced from then on.
   */
  lemma {:induction false} LaunchingRebalances(c: Counts, a: nat, b: nat, n: nat)
    requires a > 0 && b > 0 && n >= LaunchesNeeded(c, a, b)
    ensures Balanced(After(c, a, b, n), a, b)
    decreases n
  {
    if Balanced(c, a, b) {
      StaysBalanced(c, a, b, n);
    } else {
      OneLaunchFewer(c, a, b);
      LaunchingRebalances(Step(c, a, b), a, b, n - 1);
      AfterStep(c, a, b, n - 1);
    }
  }

  // ------------------------------------------------------------------
  // The launcher's counters

  /**
   How the wait for a launched instance ends. A callback raises after the in-flight
   count was decremented: the first one before the instance is registered, the second
   one after it.
   */
  datatype Outcome = Ready | NeverReady | InstanceCallbackRaised | ServerCallbackRaised

  datatype Event = Launch | Finish(kind: Role, outcome: Outcome)

  /** `tasks` are the launches still waiting for their instance, `current` the registered instances. */
  datatype Counters = Counters(inflight: Counts, current: Counts, tasks: Counts) {
    function Total(): Counts {
      Counts(inflight.prefill + current.prefill, inflight.decode + current.decode)
    }
  }

  predicate Registers(outcome: Outcome) {
    outcome == Ready || outcome == ServerCallbackRaised
  }

  predicate Raises(outcome: Outcome) {
    outcome == InstanceCallbackRaised || outcome == ServerCallbackRaised
  }

  function Launched(s: Counters, a: nat, b: nat): Counters
    requires a > 0 && b > 0
  {
    var kind := NextType(s.Total(), a, b);
    s.(inflight := s.inflight.Plus(kind), tasks := s.tasks.Plus(kind))
  }

  /** An exception inside a callback comes after the decrement and decrements again. */
  function Done(s: Counters, kind: Role, outcome: Outcome): Counters {
    var once := s.inflight.Minus(kind);
    Counters(if Raises(outcome) then once.Minus(kind) else once,
             if Registers(outcome) then s.current.Plus(kind) else s.current,
             s.tasks.Minus(kind))
  }

  /** A completion without a waiting task does not happen. */
  function Handled(s: Counters, a: nat, b: nat, e: Event): Counters
    requires a > 0 && b > 0
  {
    match e
    case Launch => Launched(s, a, b)
    case Finish(kind, outcome) => if s.tasks.Of(kind) > 0 then Done(s, kind, outcome) else s
  }

  function RunAll(s: Counters, a: nat, b: nat, schedule: seq<Event>): Counters
    requires a > 0 && b > 0
  {
    if schedule == [] then s
    else Handled(RunAll(s, a, b, schedule[..|schedule| - 1]), a, b, schedule[|schedule| - 1])
  }

  function LaunchesIn(schedule: seq<Event>): nat {
    if schedule == [] then 0
    else LaunchesIn(schedule[..|schedule| - 1]) + if schedule[|schedule| - 1].Launch? then 1 else 0
  }

  /** Nothing is counted below zero, and the in-flight counters are the waiting tasks. */
  predicate Exact(s: Counters) {
    && s.inflight == s.tasks
    && s.tasks.prefill >= 0 && s.tasks.decode >= 0 && s.current.prefill >= 0 && s.current.decode >= 0
  }

  /** A completion keeps the counters exact if and only if no callback raises. */
  lemma DoneKeepsExact(s: Counters, kind: Role, outcome: Outcome)
    requires Exact(s) && s.tasks.Of(kind) > 0
    ensures Exact(Done(s, kind, outcome)) <==> !Raises(outcome)
    ensures outcome == Ready <==> Done(s, kind, outcome).Total() == s.Total()
  {
  }

  /** What each outcome does to the total of its kind, and to the other kind. */
  lemma DoneMeaning(s: Counters, kind: Role, outcome: Outcome)
    ensures var off := match outcome
              case Ready => 0
              case NeverReady => 1
              case InstanceCallbackRaised => 2
              case ServerCallbackRaised => 1;
            var after := Done(s, kind, outcome);
            var other: Role := if kind == Prefill then Decode else Prefill;
            && after.Total().Of(kind) == s.Total().Of(kind) - off
            && after.Total().Of(other) == s.Total().Of(other)
            && after.current.Of(kind) ==
               s.current.Of(kind) + (if outcome == Ready || outcome == ServerCallbackRaised then 1 else 0)
            && after.tasks.Of(kind) == s.tasks.Of(kind) - 1
  {
  }

  lemma {:induction false} RunKeepsExact(s: Counters, a: nat, b: nat, schedule: seq<Event>)
    requires a > 0 && b > 0 && Exact(s)
    requires forall i :: 0 <= i < |schedule| && schedule[i].Finish? ==> !Raises(schedule[i].outcome)
    ensures Exact(RunAll(s, a, b, schedule))
  {
    if schedule == [] {
    } else {
      var n := |schedule| - 1;
      RunKeepsExact(s, a, b, schedule[..n]);
      var e := schedule[n];
      if e.Finish? && RunAll(s, a, b, schedule[..n]).tasks.Of(e.kind) > 0 {
        DoneKeepsExact(RunAll(s, a, b, schedule[..n]), e.kind, e.outcome);
      }
    }
  }

  /** The totals are those of n launches from `start`. */
  predicate Reached(start: Counts, s: Counters, a: nat, b: nat, n: nat)
    requires a > 0 && b > 0
  {
    s.Total() == After(start, a, b, n)
  }

  /** However launches and successful completions interleave, the totals are those of the launches alone. */
  lemma {:induction false} OnlyLaunchesCount(s: Counters, a: nat, b: nat, before: seq<Event>, after: seq<Event>)
    requires a > 0 && b > 0
    requires forall i :: 0 <= i < |after| && after[i].Finish? ==> after[i].outcome == Ready
    ensures Reached(RunAll(s, a, b, before).Total(), RunAll(s, a, b, before + after), a, b, LaunchesIn(after))
    decreases |after|
  {
    if after == [] {
      assert before + after == before;
    } else {
      var n := |after| - 1;
      OnlyLaunchesCount(s, a, b, before, after[..n]);
      LastEvent(s, a, b, before, after);
      OneEventTotal(RunAll(s, a, b, before + after[..n]), a, b, after[n], RunAll(s, a, b, before).Total(),
                    LaunchesIn(after[..n]));
    }
  }

  lemma LastEvent(s: Counters, a: nat, b: nat, before: seq<Event>, after: seq<Event>)
    requires a > 0 && b > 0 && after != []
    ensures var n := |after| - 1;
            RunAll(s, a, b, before + after) == Handled(RunAll(s, a, b, before + after[..n]), a, b, after[n])
  {
    assert (before + after)[..|before + after| - 1] == before + after[..|after| - 1];
  }

  lemma OneEventTotal(s: Counters, a: nat, b: nat, e: Event, start: Counts, n: nat)
    requires a > 0 && b > 0 && (e.Finish? ==> e.outcome == Ready) && Reached(start, s, a, b, n)
    ensures Reached(start, Handled(s, a, b, e), a, b, n + if e.Launch? then 1 else 0)
  {
    if e.Launch? {
      assert Launched(s, a, b).Total() == Step(s.Total(), a, b);
    }
  }

  /** Launching from nothing with every instance becoming ready. */
  lemma EveryScheduleFromZero(a: nat, b: nat, schedule: seq<Event>)
    requires a > 0 && b > 0
    requires forall i :: 0 <= i < |schedule| && schedule[i].Finish? ==> schedule[i].outcome == Ready
    ensures InBox(RunAll(NOTHING, a, b, schedule).Total(), a, b, LaunchesIn(schedule) / (a + b))
  {
    TotalFromZero(a, b, schedule);
    LaunchingFromZero(a, b, LaunchesIn(schedule));
  }

  lemma TotalFromZero(a: nat, b: nat, schedule: seq<Event>)
    requires a > 0 && b > 0
    requires forall i :: 0 <= i < |schedule| && schedule[i].Finish? ==> schedule[i].outcome == Ready
    ensures RunAll(NOTHING, a, b, schedule).Total() == After(Counts(0, 0), a, b, LaunchesIn(schedule))
  {
    OnlyLaunchesCount(NOTHING, a, b, [], schedule);
    assert [] + schedule == schedule;
  }

  const NOTHING := Counters(Counts(0, 0), Counts(0, 0), Counts(0, 0))

  /**
   Whatever failed before, raised callbacks included, once launches succeed again so
   many of them restore the ratio of the counters; without raised callbacks as many
   as the imbalance are enough.
   */
  lemma RebalancesAfterLastFailure(s: Counters, a: nat, b: nat, before: seq<Event>, after: seq<Event>)
    requires a > 0 && b > 0
    requires forall i :: 0 <= i < |after| && after[i].Finish? ==> after[i].outcome == Ready
    requires LaunchesIn(after) >= LaunchesNeeded(RunAll(s, a, b, before).Total(), a, b)
    ensures Balanced(RunAll(s, a, b, before + after).Total(), a, b)
    ensures Exact(s) && (forall i :: 0 <= i < |before| && before[i].Finish? ==> !Raises(before[i].outcome)) ==>
              var total := RunAll(s, a, b, before).Total();
              LaunchesNeeded(total, a, b) <= Imbalance(total, a, b)
  {
    OnlyLaunchesCount(s, a, b, before, after);
    LaunchingRebalances(RunAll(s, a, b, before).Total(), a, b, LaunchesIn(after));
    if Exact(s) && forall i :: 0 <= i < |before| && before[i].Finish? ==> !Raises(before[i].outcome) {
      RunKeepsExact(s, a, b, before);
    }
  }

  class Launcher {
    const a: nat
    const b: nat
    var inflight: Counts
    var current: Counts
    var tasks: Counts

    constructor (a: nat, b: nat)
      requires a > 0 && b > 0
      ensures this.a == a && this.b == b && View() == NOTHING
    {
      this.a, this.b := a, b;
      inflight, current, tasks := Counts(0, 0), Counts(0, 0), Counts(0, 0);
    }

    function View(): Counters
      reads this
    {
      Counters(inflight, current, tasks)
    }

    method InitServerAndInstance() returns (kind: Role)
      requires a > 0 && b > 0
      modifies this
      ensures View() == Launched(old(View()), a, b)
      ensures kind == NextType(old(View()).Total(), a, b) && View().Total() == old(View()).Total().Plus(kind)
    {
      kind := NextType(View().Total(), a, b);
      inflight := inflight.Plus(kind);
      tasks := tasks.Plus(kind);
    }

    method DoneScaleUp(kind: Role, outcome: Outcome)
      requires tasks.Of(kind) > 0
      modifies this
      ensures View() == Done(old(View()), kind, outcome)
    {
      tasks := tasks.Minus(kind);
      var raised := false;
      if outcome == NeverReady {
        raised := true;
      } else {
        inflight := inflight.Minus(kind);
        if outcome == InstanceCallbackRaised {
          raised := true;
        } else {
          current := current.Plus(kind);
          raised := outcome == ServerCallbackRaised;
        }
      }
      if raised {
        inflight := inflight.Minus(kind);
      }
    }

    method Run(schedule: seq<Event>)
      requires a > 0 && b > 0
      modifies this
      ensures View() == RunAll(old(View()), a, b, schedule)
    {
      for i := 0 to |schedule|
        invariant View() == RunAll(old(View()), a, b, schedule[..i])
      {
        assert schedule[..i + 1][..i] == schedule[..i];
        match schedule[i]
        case Launch =>
          var _ := InitServerAndInstance();
        case Finish(kind, outcome) =>
          if tasks.Of(kind) > 0 {
            DoneScaleUp(kind, outcome);
          }
      }
      assert schedule[..|schedule|] == schedule;
    }
  }
}
