/** How evenly BroadcastRoom spreads requests over the workers. */
module RoundRobin {
  import opened Arithmetic
  import opened Broadcast

  /** How many of the next n requests go to worker k. */
  function Assigned(counter: nat, n: nat, workers: nat, k: nat): nat
    requires workers > 0
    decreases n
  {
    if n == 0 then 0
    else (if Slot(counter, workers) == k then 1 else 0) + Assigned(Bump(counter), n - 1, workers, k)
  }

  /** floor(n / workers) or ceil(n / workers) */
  ghost predicate Fair(counter: nat, n: nat, workers: nat)
    requires workers > 0
  {
    forall k | 0 <= k < workers :: n / workers <= Assigned(counter, n, workers, k) <= (n + workers - 1) / workers
  }

  /** How far the next slot, r, is from k. */
  function Distance(r: nat, k: nat, workers: nat): nat
    requires r < workers && k < workers
  {
    if r <= k then k - r else k + workers - r
  }

  lemma {:induction false} AssignedCount(counter: nat, n: nat, workers: nat, k: nat)
    requires 0 < workers && k < workers && counter < COUNTER_RANGE
    requires counter + n < COUNTER_RANGE || COUNTER_RANGE % workers == 0
    ensures Assigned(counter, n, workers, k) ==
              (n + (workers - 1 - Distance(Slot(counter, workers), k, workers))) / workers
    decreases n
  {
    hide Slot, Bump;
    var r := Slot(counter, workers);
    var d := Distance(r, k, workers);
    assert r == k <==> d == 0;
    if n <= 1 {
      assert Assigned(counter, n, workers, k) == if n == 1 && d == 0 then 1 else 0 by {
        assert n == 1 ==> Assigned(Bump(counter), 0, workers, k) == 0;
      }
      OneRound(n, d, workers);
    } else {
      BumpSmall(counter, n);
      AssignedCount(Bump(counter), n - 1, workers, k);
      NextSlot(counter, workers);
      if d == 0 {
        AddOne(n - 1, workers);
      }
    }
  }

  lemma OneRound(n: nat, d: nat, workers: nat)
    requires d < workers && n <= 1
    ensures (n + (workers - 1 - d)) / workers == if n == 1 && d == 0 then 1 else 0
  {
    if n == 1 && d == 0 {
      Multiple(0, 1, workers);
    } else {
      Small(n + (workers - 1 - d), workers);
    }
  }

  lemma BumpSmall(counter: nat, n: nat)
    requires counter < COUNTER_RANGE && n >= 1
    ensures Bump(counter) < COUNTER_RANGE
    ensures counter + n < COUNTER_RANGE ==> Bump(counter) + (n - 1) < COUNTER_RANGE
  {
  }

  lemma NextSlot(counter: nat, workers: nat)
    requires 0 < workers && counter < COUNTER_RANGE
    requires counter + 2 <= COUNTER_RANGE - 1 || COUNTER_RANGE % workers == 0
    ensures Slot(Bump(counter), workers) ==
              if Slot(counter, workers) + 1 == workers then 0 else Slot(counter, workers) + 1
  {
    var b := Bump(counter);
    if b + 1 < COUNTER_RANGE {
      Successor(b, workers);
    } else {
      Successor(b, workers);
      assert b + 1 == COUNTER_RANGE;
    }
  }

  /** Any window in which the counter does not wrap, and any window at all when the number of workers
      divides 2^64, is fair. */
  lemma WindowIsFair(counter: nat, n: nat, workers: nat)
    requires 0 < workers && counter < COUNTER_RANGE
    requires counter + n < COUNTER_RANGE || COUNTER_RANGE % workers == 0
    ensures Fair(counter, n, workers)
  {
    forall k | 0 <= k < workers
      ensures n / workers <= Assigned(counter, n, workers, k) <= (n + workers - 1) / workers
    {
      AssignedCount(counter, n, workers, k);
      var d := Distance(Slot(counter, workers), k, workers);
      QuotientMonotone(n, n + (workers - 1 - d), workers);
      QuotientMonotone(n + (workers - 1 - d), n + workers - 1, workers);
    }
  }

  /** A window that ends with the wrap gives worker 0 its last request. */
  lemma {:induction false} WrapGoesToZero(counter: nat, n: nat, workers: nat)
    requires 0 < workers && 0 < n && counter + n == COUNTER_RANGE
    ensures Assigned(counter, n, workers, 0) >= 1
    decreases n
  {
    if n == 1 {
      Small(0, workers);
      Multiple(0, 0, workers);
    } else {
      WrapGoesToZero(Bump(counter), n - 1, workers);
    }
  }

  /** Fairness of every window, wrap included, is exactly divisibility of 2^64 by the number of workers. */
  lemma FairAcrossWrapExactlyForDivisors(workers: nat)
    requires 0 < workers <= COUNTER_RANGE
    ensures (forall counter: nat, n: nat | counter < COUNTER_RANGE :: Fair(counter, n, workers))
        <==> COUNTER_RANGE % workers == 0
  {
    if COUNTER_RANGE % workers == 0 {
      forall counter: nat, n: nat | counter < COUNTER_RANGE
        ensures Fair(counter, n, workers)
      {
        WindowIsFair(counter, n, workers);
      }
    } else {
      var m := COUNTER_RANGE % workers;
      var counter := COUNTER_RANGE - m - 1;
      var q := COUNTER_RANGE / workers;
      assert COUNTER_RANGE - m == q * workers;
      Multiple(0, q, workers);
      assert Slot(counter, workers) == 0;
      WrapGoesToZero(counter + 1, m, workers);
      assert Assigned(counter, m + 1, workers, 0) >= 2;
      QuotientMonotone(m + 1 + workers - 1, 2 * workers - 1, workers);
      Multiple(workers - 1, 1, workers);
      assert !Fair(counter, m + 1, workers);
    }
  }

  // ---------- whose turn it is, over whole runs ----------

  /** The requests given to BroadcastRoom in the first j steps, in order. */
  function Claims(steps: seq<Step>, j: nat): seq<Req>
    requires j <= |steps|
  {
    if j == 0 then [] else Claims(steps, j - 1) + if steps[j - 1].Claim? then [steps[j - 1].req] else []
  }

  /** Those of the requests whose turn is worker k's: the n-th one goes by the counter plus n. */
  function InTurn(reqs: seq<Req>, counter: nat, workers: nat, k: nat): multiset<Req>
    requires workers > 0
  {
    if reqs == [] then multiset{}
    else InTurn(reqs[..|reqs| - 1], counter, workers, k)
         + if (counter + |reqs|) % COUNTER_RANGE % workers == k then multiset{reqs[|reqs| - 1]} else multiset{}
  }

  lemma StepTakesTurn(cfg: Config, s: State, step: Step, k: nat)
    requires Enabled(cfg, s, step) && k < |s.lanes|
    ensures var s' := Next(cfg, s, step);
            && |s'.lanes| == |s.lanes|
            && s'.counter == (if step.Claim? then Bump(s.counter) else s.counter)
            && s'.lanes[k].submitted == s.lanes[k].submitted
                 + if step.Claim? && Slot(s.counter, |s.lanes|) == k then multiset{step.req} else multiset{}
  {
    hide Bump, Slot;
  }

  /** The state after the requests: each went to the worker of its turn, and to no other. */
  ghost predicate Turned(start: State, s: State, reqs: seq<Req>, k: nat)
    requires k < |start.lanes|
  {
    && |s.lanes| == |start.lanes|
    && s.counter == (start.counter + |reqs|) % COUNTER_RANGE
    && s.lanes[k].submitted == start.lanes[k].submitted + InTurn(reqs, start.counter, |start.lanes|, k)
  }

  /** In every schedule the n-th request given to BroadcastRoom goes to the worker of that turn, and to no other. */
  lemma {:induction false} RunTakesTurns(cfg: Config, states: seq<State>, steps: seq<Step>, j: nat, k: nat)
    requires IsRun(cfg, states, steps) && states[0].counter < COUNTER_RANGE
    requires j <= |steps| && k < |states[0].lanes|
    ensures Turned(states[0], states[j], Claims(steps, j), k)
  {
    hide Next, Enabled;
    if j == 0 {
      Small(states[0].counter, COUNTER_RANGE);
    } else {
      RunTakesTurns(cfg, states, steps, j - 1, k);
      ClaimsStep(steps, j);
      NextTurned(cfg, states[0], states[j - 1], steps[j - 1], Claims(steps, j - 1), k);
      hide Turned, Claims;
    }
  }

  lemma NextTurned(cfg: Config, start: State, s: State, step: Step, before: seq<Req>, k: nat)
    requires Enabled(cfg, s, step) && k < |start.lanes| && Turned(start, s, before, k)
    ensures Turned(start, Next(cfg, s, step), before + if step.Claim? then [step.req] else [], k)
  {
    hide Next, Enabled, Bump, Slot, InTurn;
    StepTakesTurn(cfg, s, step, k);
    var counter, workers := start.counter, |start.lanes|;
    NextTurn(start.lanes[k].submitted, before, step, counter, workers, k);
  }

  lemma ClaimsStep(steps: seq<Step>, j: nat)
    requires 0 < j <= |steps|
    ensures Claims(steps, j) == Claims(steps, j - 1) + if steps[j - 1].Claim? then [steps[j - 1].req] else []
  {
  }

  lemma NextTurn(given: multiset<Req>, before: seq<Req>, step: Step, counter: nat, workers: nat, k: nat)
    requires workers > 0
    ensures var now := (counter + |before|) % COUNTER_RANGE;
            var after := before + if step.Claim? then [step.req] else [];
            && (if step.Claim? then Bump(now) else now) == (counter + |after|) % COUNTER_RANGE
            && given + InTurn(after, counter, workers, k)
               == given + InTurn(before, counter, workers, k)
                  + if step.Claim? && Slot(now, workers) == k then multiset{step.req} else multiset{}
  {
    BumpAdds(counter, |before|);
    hide Bump;
    if step.Claim? {
      assert (before + [step.req])[..|before|] == before;
    } else {
      assert before + [] == before;
    }
  }

  lemma BumpAdds(counter: nat, n: nat)
    ensures Bump((counter + n) % COUNTER_RANGE) == (counter + n + 1) % COUNTER_RANGE
  {
    Successor(counter + n, COUNTER_RANGE);
    Successor((counter + n) % COUNTER_RANGE, COUNTER_RANGE);
    Small((counter + n) % COUNTER_RANGE, COUNTER_RANGE);
  }
}
