/** The `__main__` loops of the scripts: pull one id from every arm (`zip`),
    record it, then poll `check_measurement_finished` until every pulled
    measurement is finished before pulling the next cycle.

    Time is counted in sweeps: `finished(t, id)` is what the status check
    answers for `id` during sweep number t. The source polls forever; here a
    barrier gives up after `maxSweeps` sweeps and the run ends Stalled, which
    stands for the source still waiting. */
module Coordinator {
  import opened Common
  import opened External
  import opened Artifacts
  import opened Scheduler

  datatype Outcome = Completed | Stalled

  /** Every status check of sweep `t` says finished. */
  predicate AllFinished(finished: (nat, Uuid) -> bool, t: nat, ids: seq<Uuid>)
  {
    forall i :: 0 <= i < |ids| ==> finished(t, ids[i])
  }

  /** One sweep: every id is checked (all calls are made), then the answers are and-ed. */
  method Sweep(finished: (nat, Uuid) -> bool, t: nat, ids: seq<Uuid>) returns (all: bool)
    ensures all == AllFinished(finished, t, ids)
  {
    all := true;
    for i := 0 to |ids|
      invariant all == AllFinished(finished, t, ids[..i])
    {
      var check := finished(t, ids[i]);
      all := all && check;
    }
    assert ids[..|ids|] == ids;
  }

  /** The `while True` poll loop, from sweep `start`: it leaves at the first
      sweep in which every check is true, and not before. */
  method Barrier(finished: (nat, Uuid) -> bool, ids: seq<Uuid>, start: nat, maxSweeps: nat)
    returns (t: nat, cleared: bool)
    ensures start <= t <= start + maxSweeps
    ensures forall s :: start <= s < t ==> !AllFinished(finished, s, ids)
    ensures cleared ==> t < start + maxSweeps && AllFinished(finished, t, ids)
    ensures !cleared ==> t == start + maxSweeps
  {
    t := start;
    while t < start + maxSweeps
      invariant start <= t <= start + maxSweeps
      invariant forall s :: start <= s < t ==> !AllFinished(finished, s, ids)
    {
      var all := Sweep(finished, t, ids);
      if all {
        return t, true;
      }
      t := t + 1;  // time.sleep
    }
    cleared := false;
  }

  ghost function Elements(arms: seq<Arm>): set<object>
  {
    set j | 0 <= j < |arms| :: arms[j]
  }

  ghost predicate Distinct(arms: seq<Arm>)
  {
    forall i, j :: 0 <= i < j < |arms| ==> arms[i] != arms[j]
  }

  ghost predicate AllValid(arms: seq<Arm>)
    reads Elements(arms)
  {
    forall j :: 0 <= j < |arms| ==> arms[j].Valid()
  }

  /** Between the two states, `arm` ran one cycle, built from its previous
      id and submitted after `n` earlier measurements, that yielded `id` at
      sweep `now`. */
  twostate predicate Pulled(arm: Arm, id: Uuid, now: nat, n: nat)
    reads arm
  {
    && old(arm.cycle) < arm.cfg.nCycles
    && id == SubmittedId(arm.script, arm.cfg, arm.env)(old(arm.uuid), n)
    && arm.cycle == old(arm.cycle) + 1
    && arm.yielded == old(arm.yielded) + [id]
    && arm.submittedAt == old(arm.submittedAt) + [n]
    && arm.builtAt == old(arm.builtAt) + [now]
  }

  /** Round c of `zip` started after `rounds[c]` submissions, and arm j's
      cycle c was the j-th submission of that round. */
  ghost predicate InRounds(arms: seq<Arm>, rounds: seq<nat>)
    reads Elements(arms)
  {
    forall j :: 0 <= j < |arms| ==> OnRounds(arms[j].submittedAt, j, rounds)
  }

  /** The submissions `at` of the arm in place j: its cycle k was the j-th
      submission of round k. */
  ghost predicate OnRounds(at: seq<nat>, j: nat, rounds: seq<nat>)
  {
    && |at| <= |rounds|
    && forall k :: 0 <= k < |at| ==> at[k] == rounds[k] + j
  }

  /** The arm's next cycle, submitted as the j-th of the last round,
      keeps it on the rounds. */
  lemma OnRoundsAppend(at: seq<nat>, j: nat, rounds: seq<nat>)
    requires OnRounds(at, j, rounds) && |at| + 1 == |rounds|
    ensures OnRounds(at + [rounds[|at|] + j], j, rounds)
  {
    forall k | 0 <= k < |at| + 1
      ensures (at + [rounds[|at|] + j])[k] == rounds[k] + j
    {
      if k < |at| {
        assert (at + [rounds[|at|] + j])[k] == at[k];
      }
    }
  }

  /** Opening a new round keeps every arm on the rounds. */
  lemma OnRoundsOpen(at: seq<nat>, j: nat, rounds: seq<nat>, n: nat)
    requires OnRounds(at, j, rounds)
    ensures OnRounds(at, j, rounds + [n])
  {
    forall k | 0 <= k < |at|
      ensures at[k] == (rounds + [n])[k] + j
    {
      assert (rounds + [n])[k] == rounds[k];
    }
  }

  /** `next` on arm j of the tuple: its cycle, if any, is the submission
      after `store.submitted` earlier ones, built from its previous id. */
  method PullNext(arms: seq<Arm>, j: nat, store: Store, ghost now: nat, ghost rounds: seq<nat>)
    returns (id: Option<Uuid>)
    requires Distinct(arms) && AllValid(arms) && j < |arms| && arms[j].store == store
    requires InRounds(arms, rounds) && |rounds| > 0
    requires |arms[j].submittedAt| == |rounds| - 1 && store.submitted == rounds[|rounds| - 1] + j
    modifies arms[j], store
    ensures AllValid(arms) && InRounds(arms, rounds)
    ensures id == None ==> arms[j].cycle == arms[j].cfg.nCycles && unchanged(arms[j]) && unchanged(store)
    ensures id.Some? ==> Pulled(arms[j], id.value, now, old(store.submitted)) && store.submitted == old(store.submitted) + 1
    ensures SameLedgers(old(store.files), store.files)
  {
    id := arms[j].NextCycle(now);
    forall k | 0 <= k < |arms| && k != j
      ensures arms[k].Valid() && arms[k].submittedAt == old(arms[k].submittedAt)
    {
      assert arms[k] != arms[j];
    }
    if id.Some? {
      OnRoundsAppend(old(arms[j].submittedAt), j, rounds);
    }
  }

  /** One step of `zip(...)`: `next` on every arm in order. It stops at the
      first exhausted arm; the arms before it have then run one more cycle
      whose id is dropped. Arm j's cycle is the submission after
      `old(store.submitted) + j` earlier ones, and its pickles are written
      in turn. */
  method PullAll(arms: seq<Arm>, store: Store, ghost now: nat, ghost rounds: seq<nat>)
    returns (ids: seq<Uuid>)
    requires Distinct(arms) && AllValid(arms)
    requires forall j :: 0 <= j < |arms| ==> arms[j].store == store
    requires InRounds(arms, rounds) && forall j :: 0 <= j < |arms| ==> |arms[j].submittedAt| == |rounds|
    modifies Elements(arms), store
    ensures AllValid(arms)
    ensures |ids| <= |arms|
    ensures forall j :: 0 <= j < |ids| ==> Pulled(arms[j], ids[j], now, old(store.submitted) + j)
    ensures |ids| < |arms| ==> arms[|ids|].cycle == arms[|ids|].cfg.nCycles
    ensures forall j :: |ids| <= j < |arms| ==> unchanged(arms[j])
    ensures store.submitted == old(store.submitted) + |ids|
    ensures SameLedgers(old(store.files), store.files)
    ensures InRounds(arms, rounds + [old(store.submitted)])
  {
    ids := [];
    ghost var rounds' := rounds + [store.submitted];
    forall k | 0 <= k < |arms|
      ensures OnRounds(arms[k].submittedAt, k, rounds')
    {
      OnRoundsOpen(arms[k].submittedAt, k, rounds, store.submitted);
    }
    var j := 0;
    while j < |arms|
      invariant 0 <= j <= |arms| && |ids| == j
      invariant AllValid(arms)
      invariant forall k :: 0 <= k < j ==> Pulled(arms[k], ids[k], now, old(store.submitted) + k)
      invariant forall k :: j <= k < |arms| ==> unchanged(arms[k])
      invariant store.submitted == old(store.submitted) + j
      invariant SameLedgers(old(store.files), store.files)
      invariant InRounds(arms, rounds')
      invariant forall k :: j <= k < |arms| ==> |arms[k].submittedAt| == |rounds|
    {
      var id := PullNext(arms, j, store, now, rounds');
      if id.None? {
        return;
      }
      ids := ids + [id.value];
      j := j + 1;
    }
  }

  /** No cycle k > 0 of any arm was built before the barrier of cycle k - 1
      cleared (sweep `cleared[k - 1]`). */
  ghost predicate Causal(arms: seq<Arm>, cleared: seq<nat>)
    reads Elements(arms)
  {
    forall j, k :: 0 <= j < |arms| && 0 < k < |arms[j].builtAt| ==>
      k - 1 < |cleared| && cleared[k - 1] < arms[j].builtAt[k]
  }

  /** Barrier c cleared in sweep `cleared[c]`, in which the status check
      answered finished for every arm's cycle-c id. */
  ghost predicate Gated(histories: seq<seq<Uuid>>, cleared: seq<nat>, finished: (nat, Uuid) -> bool)
  {
    forall j, c :: 0 <= j < |histories| && 0 <= c < |cleared| ==>
      c < |histories[j]| && finished(cleared[c], histories[j][c])
  }

  /** Each history lists, in order, the first ids its arm yielded. */
  ghost predicate Recorded(arms: seq<Arm>, histories: seq<seq<Uuid>>)
    reads Elements(arms)
  {
    && |histories| == |arms|
    && forall j :: 0 <= j < |arms| ==>
         |histories[j]| <= |arms[j].yielded| && histories[j] == arms[j].yielded[..|histories[j]|]
  }

  /** After `|cleared|` barriers, with `extra` more cycles pulled since the
      last one: every arm is at the same cycle and its history is exactly what
      it yielded. */
  ghost predicate InStep(arms: seq<Arm>, histories: seq<seq<Uuid>>, cleared: seq<nat>, extra: nat)
    reads Elements(arms)
  {
    && |histories| == |arms|
    && (forall j :: 0 <= j < |arms| ==>
          && arms[j].Valid()
          && arms[j].cycle == |cleared| + extra
          && |histories[j]| == |cleared| + extra
          && arms[j].yielded == histories[j])
    && Causal(arms, cleared)
  }

  /** After `zip` stopped at an exhausted arm: the arms before it may have run
      one more cycle, whose id is in no history. */
  ghost predicate Drained(arms: seq<Arm>, histories: seq<seq<Uuid>>, cleared: seq<nat>)
    reads Elements(arms)
  {
    && |histories| == |arms|
    && (forall j :: 0 <= j < |arms| ==>
          && arms[j].Valid()
          && |cleared| <= arms[j].cycle <= |cleared| + 1
          && |histories[j]| == |cleared|
          && histories[j] == arms[j].yielded[..|cleared|])
    && Causal(arms, cleared)
    && (exists p :: 0 <= p < |arms| && arms[p].cycle == arms[p].cfg.nCycles == |cleared|)
  }

  /** Each round starts after the previous one's `width` submissions. */
  ghost predicate Spaced(rounds: seq<nat>, width: nat)
  {
    forall c, c' :: 0 <= c < c' < |rounds| ==> rounds[c] + width <= rounds[c']
  }

  /** The rounds are spaced and all of them were submitted before the `n`-th
      submission. */
  ghost predicate Before(rounds: seq<nat>, width: nat, n: nat)
  {
    && Spaced(rounds, width)
    && forall c :: 0 <= c < |rounds| ==> rounds[c] + width <= n
  }

  /** A round that starts after `n` submissions and runs `width` of them
      keeps the rounds spaced. */
  lemma SpacedExtend(rounds: seq<nat>, width: nat, n: nat)
    requires Before(rounds, width, n)
    ensures Before(rounds + [n], width, n + width)
  {
    var r := rounds + [n];
    forall c, c' | 0 <= c < c' < |r|
      ensures r[c] + width <= r[c']
    {
      assert r[c] == rounds[c];
    }
    forall c | 0 <= c < |r|
      ensures r[c] + width <= n + width
    {
      if c < |rounds| {
        assert r[c] == rounds[c];
      }
    }
  }

  /** Arm j's cycle c was the j-th submission of round c, and every round
      was submitted before the `n`-th submission. */
  ghost predicate Ahead(arms: seq<Arm>, rounds: seq<nat>, n: nat)
    reads Elements(arms)
  {
    InRounds(arms, rounds) && Before(rounds, |arms|, n)
  }

  /** Every arm submits to the platform `env`. */
  ghost predicate OnePlatform(arms: seq<Arm>, env: Platform)
  {
    forall j :: 0 <= j < |arms| ==> arms[j].env == env
  }

  /** No id appears twice, in one history or across two. */
  ghost predicate IdsDistinct(histories: seq<seq<Uuid>>)
  {
    forall i, j, k, l ::
      (0 <= i < |histories| && 0 <= j < |histories| && 0 <= k < |histories[i]| &&
       0 <= l < |histories[j]| && (i != j || k != l)) ==>
      histories[i][k] != histories[j][l]
  }

  /** On a platform that gives every submission a new id, arms run in
      spaced rounds never record the same id twice, in one history or
      across two. */
  lemma RoundsIdsDistinct(arms: seq<Arm>, histories: seq<seq<Uuid>>, rounds: seq<nat>, env: Platform)
    requires AllValid(arms) && Recorded(arms, histories)
    requires InRounds(arms, rounds) && Spaced(rounds, |arms|)
    requires OnePlatform(arms, env) && FreshIds(env)
    ensures IdsDistinct(histories)
  {
    forall i, j, k, l | 0 <= i < |histories| && 0 <= j < |histories| && 0 <= k < |histories[i]| &&
                        0 <= l < |histories[j]| && (i != j || k != l)
      ensures histories[i][k] != histories[j][l]
    {
      var a, b := arms[i], arms[j];
      assert k < |a.submittedAt| && l < |b.submittedAt|;
      assert OnRounds(a.submittedAt, i, rounds) && OnRounds(b.submittedAt, j, rounds);
      var p, q := InputOf(InitialUuid(a.cfg), a.yielded, k), InputOf(InitialUuid(b.cfg), b.yielded, l);
      assert histories[i][k] == a.yielded[k] == SubmittedId(a.script, a.cfg, a.env)(p, a.submittedAt[k]);
      assert histories[j][l] == b.yielded[l] == SubmittedId(b.script, b.cfg, b.env)(q, b.submittedAt[l]);
      assert k < |rounds| && a.submittedAt[k] == rounds[k] + i;
      assert l < |rounds| && b.submittedAt[l] == rounds[l] + j;
      DistinctSubmissionsDistinctIds(a.script, b.script, a.cfg, b.cfg, env, p, q, a.submittedAt[k], b.submittedAt[l]);
    }
  }

  /** One iteration's pull: `zip` draws the next id of every arm and each is
      appended to its arm's history; or `zip` ends. */
  method PullAndRecord(arms: seq<Arm>, store: Store, histories: seq<seq<Uuid>>, ghost cleared: seq<nat>, now: nat,
                       ghost rounds: seq<nat>)
    returns (ids: seq<Uuid>, next: seq<seq<Uuid>>, full: bool)
    requires Distinct(arms) && InStep(arms, histories, cleared, 0)
    requires forall j :: 0 <= j < |arms| ==> arms[j].store == store
    requires forall c :: 0 <= c < |cleared| ==> cleared[c] < now
    requires |rounds| == |cleared| && Ahead(arms, rounds, store.submitted)
    modifies Elements(arms), store
    ensures full ==> |ids| == |arms| && InStep(arms, next, cleared, 1)
    ensures full ==> forall j :: 0 <= j < |arms| ==> next[j] == histories[j] + [ids[j]]
    ensures !full ==> next == histories && Drained(arms, histories, cleared)
    ensures SameLedgers(old(store.files), store.files)
    ensures InRounds(arms, rounds + [old(store.submitted)])
    ensures Spaced(rounds + [old(store.submitted)], |arms|)
    ensures full ==> Ahead(arms, rounds + [old(store.submitted)], store.submitted)
    ensures old(store.submitted) <= store.submitted
  {
    SpacedExtend(rounds, |arms|, store.submitted);
    ids := PullAll(arms, store, now, rounds);
    full := |ids| == |arms|;
    forall j, k | 0 <= j < |arms| && 0 < k < |arms[j].builtAt|
      ensures k - 1 < |cleared| && cleared[k - 1] < arms[j].builtAt[k]
    {
      if j < |ids| && k == |cleared| {
        assert arms[j].builtAt[k] == now;
      } else {
        assert arms[j].builtAt[k] == old(arms[j].builtAt[k]);
      }
    }
    if full {
      next := seq(|arms|, j requires 0 <= j < |arms| => histories[j] + [ids[j]]);
    } else {
      next := histories;
      var p := |ids|;
      assert arms[p].cycle == arms[p].cfg.nCycles == |cleared|;
      forall j | 0 <= j < |arms|
        ensures |cleared| <= arms[j].cycle <= |cleared| + 1 && histories[j] == arms[j].yielded[..|cleared|]
      {
        if j < p {
          assert arms[j].yielded == histories[j] + [ids[j]];
        }
      }
    }
  }

  /** Appending a column of ids keeps the histories gated, and when every id
      of the column passed sweep t, so is the barrier cleared at t. */
  lemma GatedExtend(histories: seq<seq<Uuid>>, next: seq<seq<Uuid>>, ids: seq<Uuid>,
                    cleared: seq<nat>, t: nat, finished: (nat, Uuid) -> bool)
    requires Gated(histories, cleared, finished)
    requires |next| == |histories| == |ids|
    requires forall j :: 0 <= j < |ids| ==> |histories[j]| == |cleared| && next[j] == histories[j] + [ids[j]]
    ensures Gated(next, cleared, finished)
    ensures AllFinished(finished, t, ids) ==> Gated(next, cleared + [t], finished)
  {
    forall j, c | 0 <= j < |next| && 0 <= c < |cleared|
      ensures next[j][c] == histories[j][c]
    {
    }
    if AllFinished(finished, t, ids) {
      forall j, c | 0 <= j < |next| && 0 <= c < |cleared| + 1
        ensures c < |next[j]| && finished((cleared + [t])[c], next[j][c])
      {
        if c < |cleared| {
          assert next[j][c] == histories[j][c];
        }
      }
    }
  }

  /** Clearing the barrier of the pending cycle at sweep t >= now. */
  lemma ClearStep(arms: seq<Arm>, histories: seq<seq<Uuid>>, cleared: seq<nat>, now: nat, t: nat)
    requires InStep(arms, histories, cleared, 1)
    requires forall c :: 0 <= c < |cleared| ==> cleared[c] < now
    requires now <= t
    ensures InStep(arms, histories, cleared + [t], 0)
    ensures forall c :: 0 <= c < |cleared + [t]| ==> (cleared + [t])[c] < t + 1
  {
    forall j, k | 0 <= j < |arms| && 0 < k < |arms[j].builtAt|
      ensures k - 1 < |cleared + [t]| && (cleared + [t])[k - 1] < arms[j].builtAt[k]
    {
      assert (cleared + [t])[k - 1] == cleared[k - 1];
    }
  }

  /** What a run whose `zip` ran dry guarantees. */
  lemma DrainedEnds(arms: seq<Arm>, histories: seq<seq<Uuid>>, cleared: seq<nat>)
    requires Drained(arms, histories, cleared)
    ensures AllValid(arms) && Recorded(arms, histories) && Causal(arms, cleared)
    ensures forall j :: 0 <= j < |arms| ==> |histories[j]| == |cleared|
    ensures (forall j :: 0 <= j < |arms| ==> arms[j].cfg.nCycles == arms[0].cfg.nCycles) ==>
      forall j :: 0 <= j < |arms| ==> histories[j] == arms[j].yielded && |histories[j]| == arms[j].cfg.nCycles
  {
    if forall j :: 0 <= j < |arms| ==> arms[j].cfg.nCycles == arms[0].cfg.nCycles {
      var p :| 0 <= p < |arms| && arms[p].cycle == arms[p].cfg.nCycles == |cleared|;
      forall j | 0 <= j < |arms|
        ensures histories[j] == arms[j].yielded && |histories[j]| == arms[j].cfg.nCycles
      {
        assert arms[j].cycle == |cleared|;
        assert arms[j].yielded[..|cleared|] == arms[j].yielded;
      }
    }
  }

  /** What a run that stopped in a barrier guarantees. */
  lemma PendingEnds(arms: seq<Arm>, histories: seq<seq<Uuid>>, cleared: seq<nat>)
    requires InStep(arms, histories, cleared, 1)
    ensures AllValid(arms) && Recorded(arms, histories) && Causal(arms, cleared)
    ensures forall j :: 0 <= j < |arms| ==> histories[j] == arms[j].yielded && |histories[j]| == |cleared| + 1
  {
    forall j | 0 <= j < |arms| ensures histories[j] == arms[j].yielded[..|histories[j]|] {
      assert arms[j].yielded[..|histories[j]|] == arms[j].yielded;
    }
  }

  /** One pass of the `for` loop over `zip(...)`: pull the next id of every
      arm, then wait at the barrier for all of them. `ended` is None when
      the loop goes on, Completed when `zip` ended and Stalled when the
      barrier ran out of sweeps. */
  method LockstepCycle(arms: seq<Arm>, store: Store, histories: seq<seq<Uuid>>, ghost cleared: seq<nat>, now: nat,
                       finished: (nat, Uuid) -> bool, maxSweeps: nat, ghost rounds: seq<nat>)
    returns (next: seq<seq<Uuid>>, ghost cleared': seq<nat>, now': nat, ghost rounds': seq<nat>, ended: Option<Outcome>)
    requires Distinct(arms) && InStep(arms, histories, cleared, 0)
    requires forall j :: 0 <= j < |arms| ==> arms[j].store == store
    requires forall c :: 0 <= c < |cleared| ==> cleared[c] < now
    requires Gated(histories, cleared, finished)
    requires |rounds| == |cleared| && Ahead(arms, rounds, store.submitted)
    modifies Elements(arms), store
    ensures Gated(next, cleared', finished)
    ensures SameLedgers(old(store.files), store.files)
    ensures old(store.submitted) <= store.submitted
    ensures InRounds(arms, rounds') && Spaced(rounds', |arms|)
    ensures ended == None ==>
      && InStep(arms, next, cleared', 0) && |cleared'| == |cleared| + 1
      && (forall c :: 0 <= c < |cleared'| ==> cleared'[c] < now')
      && |rounds'| == |cleared'| && Ahead(arms, rounds', store.submitted)
    ensures ended.Some? ==> AllValid(arms) && Recorded(arms, next) && Causal(arms, cleared')
    ensures ended == Some(Completed) ==> forall j :: 0 <= j < |arms| ==> |next[j]| == |cleared'|
    ensures ended == Some(Completed) && (forall j :: 0 <= j < |arms| ==> arms[j].cfg.nCycles == arms[0].cfg.nCycles) ==>
      forall j :: 0 <= j < |arms| ==> next[j] == arms[j].yielded && |next[j]| == arms[j].cfg.nCycles
    ensures ended == Some(Stalled) ==>
      forall j :: 0 <= j < |arms| ==> next[j] == arms[j].yielded && |next[j]| == |cleared'| + 1
  {
    ghost var start := store.submitted;
    var ids, pulled, full := PullAndRecord(arms, store, histories, cleared, now, rounds);
    rounds' := rounds + [start];
    cleared', now' := cleared, now;
    if !full {
      DrainedEnds(arms, histories, cleared);
      return histories, cleared', now', rounds', Some(Completed);
    }
    var t, done := Barrier(finished, ids, now, maxSweeps);
    GatedExtend(histories, pulled, ids, cleared, t, finished);
    next := pulled;
    if !done {
      PendingEnds(arms, next, cleared);
      return next, cleared', now', rounds', Some(Stalled);
    }
    ClearStep(arms, next, cleared, now, t);
    cleared', now', ended := cleared + [t], t + 1, None;
  }

  /** The `for ... in zip(...)` loop of exp1.py and exp2.py: each pulled id
      is appended to its arm's history, the barrier waits until one sweep
      sees all of them finished, and only then is the next cycle pulled. */
  method RunLockstep(arms: seq<Arm>, store: Store, finished: (nat, Uuid) -> bool, maxSweeps: nat)
    returns (histories: seq<seq<Uuid>>, outcome: Outcome, ghost cleared: seq<nat>)
    requires Distinct(arms) && AllValid(arms)
    requires forall j :: 0 <= j < |arms| ==> arms[j].cycle == 0 && arms[j].store == store
    modifies Elements(arms), store
    ensures AllValid(arms) && Recorded(arms, histories) && Causal(arms, cleared)
    ensures Gated(histories, cleared, finished)
    ensures outcome == Completed ==> forall j :: 0 <= j < |arms| ==> |histories[j]| == |cleared|
    // when all arms run the same number of cycles, the histories are complete
    ensures outcome == Completed && (forall j :: 0 <= j < |arms| ==> arms[j].cfg.nCycles == arms[0].cfg.nCycles) ==>
      forall j :: 0 <= j < |arms| ==> histories[j] == arms[j].yielded && |histories[j]| == arms[j].cfg.nCycles
    // a stalled run has recorded the cycle it waits on
    ensures outcome == Stalled ==>
      forall j :: 0 <= j < |arms| ==> histories[j] == arms[j].yielded && |histories[j]| == |cleared| + 1
    ensures SameLedgers(old(store.files), store.files)
    ensures old(store.submitted) <= store.submitted
    ensures forall env :: OnePlatform(arms, env) && FreshIds(env) ==> IdsDistinct(histories)
  {
    histories := seq(|arms|, _ => []);
    cleared := [];
    var now: nat := 0;
    outcome := Completed;
    ghost var rounds: seq<nat> := [];
    while |arms| > 0
      invariant InStep(arms, histories, cleared, 0)
      invariant forall c :: 0 <= c < |cleared| ==> cleared[c] < now
      invariant Gated(histories, cleared, finished)
      invariant SameLedgers(old(store.files), store.files)
      invariant old(store.submitted) <= store.submitted
      invariant |rounds| == |cleared| && Ahead(arms, rounds, store.submitted)
      decreases if |arms| == 0 then 0 else arms[0].cfg.nCycles - |cleared|
    {
      var ended;
      histories, cleared, now, rounds, ended :=
        LockstepCycle(arms, store, histories, cleared, now, finished, maxSweeps, rounds);
      if ended.Some? {
        outcome := ended.value;
        break;
      }
    }
    forall env | OnePlatform(arms, env) && FreshIds(env)
      ensures IdsDistinct(histories)
    {
      RoundsIdsDistinct(arms, histories, rounds, env);
    }
  }

  /** The whole `__main__` of exp1.py and exp2.py after the arms are created:
      the zip loop, then one ledger per arm once `zip` has ended. */
  method RunAndRecord(arms: seq<Arm>, store: Store, ledgers: seq<string>,
                      finished: (nat, Uuid) -> bool, maxSweeps: nat)
    returns (histories: seq<seq<Uuid>>, outcome: Outcome, ghost cleared: seq<nat>)
    requires |ledgers| == |arms|
    requires forall j :: 0 <= j < |ledgers| ==> IsTextName(ledgers[j])
    requires forall i, j :: 0 <= i < j < |ledgers| ==> ledgers[i] != ledgers[j]
    requires Distinct(arms) && AllValid(arms)
    requires forall j :: 0 <= j < |arms| ==> arms[j].cycle == 0 && arms[j].store == store
    modifies Elements(arms), store
    ensures Recorded(arms, histories)
    ensures Gated(histories, cleared, finished)
    ensures outcome == Completed ==>
      forall j :: 0 <= j < |arms| ==>
        && |histories[j]| == |cleared|
        && ledgers[j] in store.files && store.files[ledgers[j]] == Text(LedgerText(histories[j]))
    ensures outcome == Completed && (forall j :: 0 <= j < |arms| ==> arms[j].cfg.nCycles == arms[0].cfg.nCycles) ==>
      forall j :: 0 <= j < |arms| ==> |histories[j]| == arms[j].cfg.nCycles
    ensures outcome == Completed ==>
      forall k :: IsTextName(k) && k !in ledgers ==>
        (k in store.files <==> k in old(store.files)) && (k in store.files ==> store.files[k] == old(store.files)[k])
    ensures outcome == Stalled ==>
      && (forall j :: 0 <= j < |arms| ==> |histories[j]| == |cleared| + 1)
      && SameLedgers(old(store.files), store.files)
    ensures forall env :: OnePlatform(arms, env) && FreshIds(env) ==> IdsDistinct(histories)
  {
    histories, outcome, cleared := RunLockstep(arms, store, finished, maxSweeps);
    if outcome == Completed {
      assert store !in Elements(arms);
      WriteLedgers(store, ledgers, histories);
    }
  }

  /** Cycle k was the submission after `start + k` earlier ones. */
  ghost predicate Consecutive(at: seq<nat>, start: nat)
  {
    forall k :: 0 <= k < |at| ==> at[k] == start + k
  }

  /** On a platform that gives every submission a new id, an arm whose
      cycles were consecutive submissions never yields the same id twice. */
  lemma ConsecutiveIdsDistinct(arm: Arm, start: nat)
    requires arm.Valid() && Consecutive(arm.submittedAt, start) && FreshIds(arm.env)
    ensures forall i, j :: 0 <= i < j < |arm.yielded| ==> arm.yielded[i] != arm.yielded[j]
  {
    FreshIdsPerSubmission(arm.script, arm.cfg, arm.env);
    ChainedDistinct(SubmittedId(arm.script, arm.cfg, arm.env), InitialUuid(arm.cfg), arm.yielded, arm.submittedAt);
  }

  /** One pass of exp3.py's `for` loop before its barrier: `next` on the arm,
      then the new id appended to the ledger. The ledger goes on holding
      `base` followed by every id the arm has yielded, and the other ledgers
      stay as they were in `files0`. */
  method PullAndAppend(arm: Arm, store: Store, ledger: string, ghost now: nat,
                       ghost files0: map<string, File>, ghost base: string, ghost start: nat)
    returns (id: Option<Uuid>)
    requires arm.Valid() && arm.store == store
    requires IsTextName(ledger)
    requires ExistingText(store.files, ledger) == base + LedgerText(arm.yielded)
    requires SameLedgersBut(files0, store.files, ledger)
    requires store.submitted == start + arm.cycle && Consecutive(arm.submittedAt, start)
    modifies arm, store
    ensures arm.Valid()
    ensures ExistingText(store.files, ledger) == base + LedgerText(arm.yielded)
    ensures SameLedgersBut(files0, store.files, ledger)
    ensures store.submitted == start + arm.cycle && Consecutive(arm.submittedAt, start)
    ensures id == None ==> old(arm.cycle) == arm.cfg.nCycles && unchanged(arm) && store.submitted == old(store.submitted)
    ensures id.Some? ==> Pulled(arm, id.value, now, old(store.submitted))
  {
    ghost var files := store.files;
    id := arm.NextCycle(now);
    if id.Some? {
      SameLedgersButTrans(files0, files, store.files, ledger);
      assert ExistingText(store.files, ledger) == ExistingText(files, ledger);
      AppendExtends(store.files, ledger, id.value, base, old(arm.yielded));
      ghost var mid := store.files;
      AppendLine(store, ledger, id.value);
      SameLedgersButTrans(files0, mid, store.files, ledger);
    }
  }

  /** A single arm's run so far: barrier c cleared in sweep `cleared[c]`, in
      which cycle c's id was finished, and no cycle k > 0 was built before
      the barrier of cycle k - 1 cleared. */
  ghost predicate Timeline(yielded: seq<Uuid>, builtAt: seq<nat>, cleared: seq<nat>, finished: (nat, Uuid) -> bool)
  {
    && (forall c :: 0 <= c < |cleared| ==> c < |yielded| && finished(cleared[c], yielded[c]))
    && (forall k :: 0 < k < |builtAt| ==> k - 1 < |cleared| && cleared[k - 1] < builtAt[k])
  }

  /** A cycle built at sweep `now`, after every earlier barrier, whose barrier
      clears at sweep t, extends the timeline. */
  lemma TimelineStep(yielded: seq<Uuid>, builtAt: seq<nat>, cleared: seq<nat>, finished: (nat, Uuid) -> bool,
                     id: Uuid, now: nat, t: nat)
    requires Timeline(yielded, builtAt, cleared, finished)
    requires |yielded| == |builtAt| == |cleared|
    requires forall c :: 0 <= c < |cleared| ==> cleared[c] < now
    requires finished(t, id)
    ensures Timeline(yielded + [id], builtAt + [now], cleared + [t], finished)
  {
  }

  /** A cycle built at sweep `now`, after every earlier barrier, whose
      barrier has not cleared yet keeps the timeline. */
  lemma TimelinePending(yielded: seq<Uuid>, builtAt: seq<nat>, cleared: seq<nat>, finished: (nat, Uuid) -> bool,
                        id: Uuid, now: nat)
    requires Timeline(yielded, builtAt, cleared, finished)
    requires |yielded| == |builtAt| == |cleared|
    requires forall c :: 0 <= c < |cleared| ==> cleared[c] < now
    ensures Timeline(yielded + [id], builtAt + [now], cleared, finished)
  {
  }

  /** The `__main__` of exp3.py: a single arm whose ids are appended to the
      ledger one at a time (`open(..., "a")`), each before its own barrier.
      Whatever the outcome, the ledger holds the earlier text followed by
      every id the arm yielded, and no other ledger changes. */
  method RunIncremental(arm: Arm, store: Store, ledger: string,
                        finished: (nat, Uuid) -> bool, maxSweeps: nat)
    returns (outcome: Outcome, ghost cleared: seq<nat>)
    requires arm.Valid() && arm.cycle == 0 && arm.store == store
    requires IsTextName(ledger)
    modifies arm, store
    ensures arm.Valid()
    ensures ExistingText(store.files, ledger) == ExistingText(old(store.files), ledger) + LedgerText(arm.yielded)
    // barrier c cleared in sweep cleared[c], in which cycle c's id was finished
    ensures SameLedgersBut(old(store.files), store.files, ledger)
    ensures Timeline(arm.yielded, arm.builtAt, cleared, finished)
    ensures outcome == Completed ==> arm.cycle == arm.cfg.nCycles == |cleared|
    ensures outcome == Stalled ==> arm.cycle == |cleared| + 1
    // cycle k was the k-th measurement this run submitted from here on
    ensures store.submitted == old(store.submitted) + arm.cycle && Consecutive(arm.submittedAt, old(store.submitted))
    ensures FreshIds(arm.env) ==> forall i, j :: 0 <= i < j < |arm.yielded| ==> arm.yielded[i] != arm.yielded[j]
  {
    outcome := Completed;
    cleared := [];
    var now: nat := 0;
    while true
      invariant arm.Valid() && arm.cycle == |cleared|
      invariant store.submitted == old(store.submitted) + arm.cycle && Consecutive(arm.submittedAt, old(store.submitted))
      invariant ExistingText(store.files, ledger) == ExistingText(old(store.files), ledger) + LedgerText(arm.yielded)
      invariant SameLedgersBut(old(store.files), store.files, ledger)
      invariant Timeline(arm.yielded, arm.builtAt, cleared, finished)
      invariant forall c :: 0 <= c < |cleared| ==> cleared[c] < now
      decreases arm.cfg.nCycles - arm.cycle
    {
      ghost var before, builtBefore := arm.yielded, arm.builtAt;
      var id := PullAndAppend(arm, store, ledger, now, old(store.files), ExistingText(old(store.files), ledger),
                              old(store.submitted));
      if id.None? {
        break;
      }
      var t, done := Barrier(finished, [id.value], now, maxSweeps);
      if !done {
        TimelinePending(before, builtBefore, cleared, finished, id.value, now);
        outcome := Stalled;
        break;
      }
      assert AllFinished(finished, t, [id.value]);
      TimelineStep(before, builtBefore, cleared, finished, id.value, now, t);
      cleared := cleared + [t];
      now := t + 1;
    }
    if FreshIds(arm.env) {
      ConsecutiveIdsDistinct(arm, old(store.submitted));
    }
  }
}
