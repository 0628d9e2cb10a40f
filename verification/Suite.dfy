/**
 The eval suite's scheduler (eval/suite.go): workers take scenarios from per-entry queues in manifest
 order, under per-entry caps, and wait on a condition variable when every entry with work left is full.
 */
module Suite {

  /** One entry's scenarios left to hand out, as indices into the job list; cap 0 is no cap. */
  datatype EntryQueue = EntryQueue(entry: string, cap: nat, items: seq<nat>)

  datatype SuiteEntry = SuiteEntry(entry: string, concurrency: int)

  function InFlight(inFlight: map<string, int>, entry: string): int {
    if entry in inFlight then inFlight[entry] else 0
  }

  /** The queue has a scenario and its entry is under its cap. */
  predicate Ready(q: EntryQueue, inFlight: map<string, int>) {
    |q.items| > 0 && (q.cap == 0 || InFlight(inFlight, q.entry) < q.cap)
  }

  /** The index of the first ready queue, or the number of queues. */
  function FirstReady(queues: seq<EntryQueue>, inFlight: map<string, int>): (i: nat)
    ensures i <= |queues|
    ensures i < |queues| ==> Ready(queues[i], inFlight)
    ensures forall j :: 0 <= j < i ==> !Ready(queues[j], inFlight)
  {
    if queues == [] || Ready(queues[0], inFlight) then 0 else 1 + FirstReady(queues[1..], inFlight)
  }

  ghost predicate AnyLeft(queues: seq<EntryQueue>) {
    exists i :: 0 <= i < |queues| && |queues[i].items| > 0
  }

  // ---------------------------------------------------------------- the machine

  /** A worker is between calls, runs a job, waits on the condition variable, or has returned. */
  datatype Worker = Free | Running(job: nat, entry: string) | Waiting | Exited

  /** handed is every job handed out so far, in order, and finished every job whose result was written. */
  datatype State = State(queues: seq<EntryQueue>, inFlight: map<string, int>, workers: seq<Worker>,
                         handed: seq<nat>, finished: seq<nat>)

  function Start(queues: seq<EntryQueue>, workers: nat): State {
    State(queues, map[], seq(workers, i => Free), [], [])
  }

  ghost predicate Enabled(s: State, w: nat) {
    w < |s.workers| && (s.workers[w].Free? || s.workers[w].Running?)
  }

  function Broadcast(workers: seq<Worker>): seq<Worker> {
    seq(|workers|, i requires 0 <= i < |workers| => if workers[i].Waiting? then Free else workers[i])
  }

  /** One critical section of worker w: a turn of take's loop, or done. */
  ghost function Step(s: State, w: nat): State
    requires Enabled(s, w)
  {
    if s.workers[w].Running? then
      s.(inFlight := s.inFlight[s.workers[w].entry := InFlight(s.inFlight, s.workers[w].entry) - 1],
         workers := Broadcast(s.workers[w := Free]),
         finished := s.finished + [s.workers[w].job])
    else if !AnyLeft(s.queues) then s.(workers := s.workers[w := Exited])
    else
      var i := FirstReady(s.queues, s.inFlight);
      if i < |s.queues| then Take(s, w, i) else s.(workers := s.workers[w := Waiting])
  }

  function Take(s: State, w: nat, i: nat): State
    requires w < |s.workers| && i < |s.queues| && |s.queues[i].items| > 0
  {
    var q := s.queues[i];
    s.(queues := s.queues[i := q.(items := q.items[1..])],
       inFlight := s.inFlight[q.entry := InFlight(s.inFlight, q.entry) + 1],
       workers := s.workers[w := Running(q.items[0], q.entry)],
       handed := s.handed + [q.items[0]])
  }

  ghost predicate Legal(s: State, run: seq<nat>)
    decreases |run|
  {
    run == [] || (Enabled(s, run[0]) && Legal(Step(s, run[0]), run[1..]))
  }

  ghost function Exec(s: State, run: seq<nat>): State
    requires Legal(s, run)
    decreases |run|
  {
    if run == [] then s else Exec(Step(s, run[0]), run[1..])
  }

  // ---------------------------------------------------------------- what every run keeps

  function Count(workers: seq<Worker>, entry: string): nat {
    if workers == [] then 0 else (if workers[0].Running? && workers[0].entry == entry then 1 else 0) + Count(workers[1..], entry)
  }

  function Left(queues: seq<EntryQueue>): nat {
    if queues == [] then 0 else |queues[0].items| + Left(queues[1..])
  }

  function Busy(workers: seq<Worker>): nat {
    if workers == [] then 0 else (if workers[0].Running? then 1 else 0) + Busy(workers[1..])
  }

  function Awake(workers: seq<Worker>): nat {
    if workers == [] then 0 else (if workers[0].Free? then 1 else 0) + Awake(workers[1..])
  }

  /** Every queue that has a scenario left is at its cap, and some queue has. */
  ghost predicate Full(s: State) {
    AnyLeft(s.queues) && forall i :: 0 <= i < |s.queues| ==> !Ready(s.queues[i], s.inFlight)
  }

  predicate DistinctLabels(queues: seq<EntryQueue>) {
    forall i, j :: 0 <= i < j < |queues| ==> queues[i].entry != queues[j].entry
  }

  ghost predicate Inv(s: State) {
    DistinctLabels(s.queues)
    && (forall entry :: InFlight(s.inFlight, entry) == Count(s.workers, entry))
    && (forall i :: 0 <= i < |s.queues| && s.queues[i].cap > 0 ==> InFlight(s.inFlight, s.queues[i].entry) <= s.queues[i].cap)
    && ((exists w :: 0 <= w < |s.workers| && s.workers[w].Waiting?) ==> Full(s))
    && ((exists w :: 0 <= w < |s.workers| && s.workers[w].Exited?) ==> !AnyLeft(s.queues))
  }

  lemma {:induction false} CountUpdate(workers: seq<Worker>, w: nat, v: Worker, entry: string)
    requires w < |workers|
    ensures Count(workers[w := v], entry) + (if workers[w].Running? && workers[w].entry == entry then 1 else 0)
            == Count(workers, entry) + (if v.Running? && v.entry == entry then 1 else 0)
    ensures Busy(workers[w := v]) + (if workers[w].Running? then 1 else 0) == Busy(workers) + (if v.Running? then 1 else 0)
    ensures Awake(workers[w := v]) + (if workers[w].Free? then 1 else 0) == Awake(workers) + (if v.Free? then 1 else 0)
  {
    if w == 0 {
      assert workers[w := v][1..] == workers[1..];
    } else {
      CountUpdate(workers[1..], w - 1, v, entry);
      assert workers[w := v][1..] == workers[1..][w - 1 := v];
    }
  }

  lemma {:induction false} BroadcastKeeps(workers: seq<Worker>, entry: string)
    ensures Count(Broadcast(workers), entry) == Count(workers, entry)
    ensures Busy(Broadcast(workers)) == Busy(workers)
    ensures Awake(Broadcast(workers)) <= |workers|
  {
    if workers != [] {
      BroadcastKeeps(workers[1..], entry);
      assert Broadcast(workers)[1..] == Broadcast(workers[1..]);
    }
  }

  lemma {:induction false} LeftUpdate(queues: seq<EntryQueue>, i: nat, q: EntryQueue)
    requires i < |queues|
    ensures Left(queues[i := q]) + |queues[i].items| == Left(queues) + |q.items|
  {
    if i == 0 {
      assert queues[i := q][1..] == queues[1..];
    } else {
      LeftUpdate(queues[1..], i - 1, q);
      assert queues[i := q][1..] == queues[1..][i - 1 := q];
    }
  }

  lemma TakeKeepsInv(s: State, w: nat, i: nat)
    requires Inv(s) && Enabled(s, w) && s.workers[w].Free? && AnyLeft(s.queues)
    requires i == FirstReady(s.queues, s.inFlight) && i < |s.queues|
    ensures Inv(Take(s, w, i))
  {
    var s' := Take(s, w, i);
    var q := s.queues[i];
    forall entry ensures InFlight(s'.inFlight, entry) == Count(s'.workers, entry) {
      CountUpdate(s.workers, w, s'.workers[w], entry);
    }
    assert !Full(s);
    forall v | 0 <= v < |s'.workers| ensures !s'.workers[v].Waiting? && !s'.workers[v].Exited? {
      assert v != w ==> s'.workers[v] == s.workers[v];
    }
  }

  lemma DoneKeepsInv(s: State, w: nat)
    requires Inv(s) && Enabled(s, w) && s.workers[w].Running?
    ensures Inv(Step(s, w))
  {
    var s' := Step(s, w);
    forall entry ensures InFlight(s'.inFlight, entry) == Count(s'.workers, entry) {
      CountUpdate(s.workers, w, Free, entry);
      BroadcastKeeps(s.workers[w := Free], entry);
    }
    forall v | 0 <= v < |s'.workers| && s'.workers[v].Exited? ensures s.workers[v].Exited? {
    }
  }

  lemma StepKeepsInv(s: State, w: nat)
    requires Inv(s) && Enabled(s, w)
    ensures Inv(Step(s, w))
  {
    if s.workers[w].Running? {
      DoneKeepsInv(s, w);
    } else if !AnyLeft(s.queues) || FirstReady(s.queues, s.inFlight) == |s.queues| {
      forall entry ensures Count(Step(s, w).workers, entry) == Count(s.workers, entry) {
        CountUpdate(s.workers, w, Step(s, w).workers[w], entry);
      }
    } else {
      TakeKeepsInv(s, w, FirstReady(s.queues, s.inFlight));
    }
  }

  // ---------------------------------------------------------------- every job once, in order

  /** The part of handed that came from items, in order. */
  function Picked(handed: seq<nat>, items: seq<nat>): seq<nat> {
    if handed == [] then []
    else
      var n := |handed| - 1;
      Picked(handed[..n], items) + if handed[n] in items then [handed[n]] else []
  }

  function Jobs(workers: seq<Worker>): multiset<nat> {
    if workers == [] then multiset{}
    else (if workers[0].Running? then multiset{workers[0].job} else multiset{}) + Jobs(workers[1..])
  }

  predicate Distinct(q: seq<nat>) {
    forall i, j :: 0 <= i < j < |q| ==> q[i] != q[j]
  }

  /** A plan the manifest makes: entries apart, and every job in one place. */
  ghost predicate Plan(queues: seq<EntryQueue>) {
    DistinctLabels(queues)
    && (forall i :: 0 <= i < |queues| ==> Distinct(queues[i].items))
    && forall i, j, x :: 0 <= i < j < |queues| && x in queues[i].items ==> x !in queues[j].items
  }

  /** Of each entry's jobs, those handed out and those left are the plan's, in the plan's order. */
  ghost predicate InOrder(s: State, plan: seq<EntryQueue>) {
    |s.queues| == |plan|
    && forall i :: 0 <= i < |plan| ==>
         s.queues[i].entry == plan[i].entry && s.queues[i].cap == plan[i].cap
         && Picked(s.handed, plan[i].items) + s.queues[i].items == plan[i].items
  }

  ghost predicate Planned(plan: seq<EntryQueue>, x: nat) {
    exists i :: 0 <= i < |plan| && x in plan[i].items
  }

  /** Every job handed out is the plan's, and is either running or finished. */
  ghost predicate Accounted(s: State, plan: seq<EntryQueue>) {
    (forall k :: 0 <= k < |s.handed| ==> Planned(plan, s.handed[k]))
    && forall x :: multiset(s.handed)[x] == multiset(s.finished)[x] + Jobs(s.workers)[x]
  }

  lemma {:induction false} JobsUpdate(workers: seq<Worker>, w: nat, v: Worker, x: nat)
    requires w < |workers|
    ensures Jobs(workers[w := v])[x] + (if workers[w].Running? && workers[w].job == x then 1 else 0)
            == Jobs(workers)[x] + (if v.Running? && v.job == x then 1 else 0)
  {
    if w == 0 {
      assert workers[w := v][1..] == workers[1..];
    } else {
      JobsUpdate(workers[1..], w - 1, v, x);
      assert workers[w := v][1..] == workers[1..][w - 1 := v];
    }
  }

  lemma {:induction false} BroadcastKeepsJobs(workers: seq<Worker>)
    ensures Jobs(Broadcast(workers)) == Jobs(workers)
  {
    if workers != [] {
      BroadcastKeepsJobs(workers[1..]);
      assert Broadcast(workers)[1..] == Broadcast(workers[1..]);
    }
  }

  lemma TakeKeepsOrder(s: State, w: nat, i: nat, plan: seq<EntryQueue>)
    requires Plan(plan) && InOrder(s, plan) && w < |s.workers|
    requires i < |s.queues| && |s.queues[i].items| > 0
    ensures InOrder(Take(s, w, i), plan) && s.queues[i].items[0] in plan[i].items
  {
    var s' := Take(s, w, i);
    var job := s.queues[i].items[0];
    var picked := Picked(s.handed, plan[i].items);
    assert plan[i].items[|picked|] == job;
    assert s'.handed[..|s.handed|] == s.handed;
    assert picked + s.queues[i].items == (picked + [job]) + s'.queues[i].items;
    forall k | 0 <= k < |plan| && k != i ensures job !in plan[k].items {
    }
  }

  lemma StepKeepsOrder(s: State, w: nat, plan: seq<EntryQueue>)
    requires Plan(plan) && InOrder(s, plan) && Enabled(s, w)
    ensures InOrder(Step(s, w), plan)
  {
    if s.workers[w].Free? && AnyLeft(s.queues) {
      var i := FirstReady(s.queues, s.inFlight);
      if i < |s.queues| {
        TakeKeepsOrder(s, w, i, plan);
      }
    }
  }

  lemma DoneBalances(s: State, w: nat, x: nat)
    requires Enabled(s, w) && s.workers[w].Running? && multiset(s.handed)[x] == multiset(s.finished)[x] + Jobs(s.workers)[x]
    ensures var s' := Step(s, w); multiset(s'.handed)[x] == multiset(s'.finished)[x] + Jobs(s'.workers)[x]
  {
    BroadcastKeepsJobs(s.workers[w := Free]);
    JobsUpdate(s.workers, w, Free, x);
  }

  lemma TakeBalances(s: State, w: nat, x: nat)
    requires Enabled(s, w) && s.workers[w].Free? && multiset(s.handed)[x] == multiset(s.finished)[x] + Jobs(s.workers)[x]
    ensures var s' := Step(s, w); multiset(s'.handed)[x] == multiset(s'.finished)[x] + Jobs(s'.workers)[x]
  {
    var s' := Step(s, w);
    assert s'.workers == s.workers[w := s'.workers[w]];
    JobsUpdate(s.workers, w, s'.workers[w], x);
  }

  lemma StepKeepsPlanned(s: State, w: nat, plan: seq<EntryQueue>)
    requires Plan(plan) && InOrder(s, plan) && Enabled(s, w) && forall k :: 0 <= k < |s.handed| ==> Planned(plan, s.handed[k])
    ensures forall k :: 0 <= k < |Step(s, w).handed| ==> Planned(plan, Step(s, w).handed[k])
  {
    var s' := Step(s, w);
    if s'.handed != s.handed {
      var i := FirstReady(s.queues, s.inFlight);
      TakeKeepsOrder(s, w, i, plan);
      assert s'.handed == s.handed + [s.queues[i].items[0]];
      assert Planned(plan, s.queues[i].items[0]);
    }
  }

  lemma StepKeepsAccount(s: State, w: nat, plan: seq<EntryQueue>)
    requires Plan(plan) && InOrder(s, plan) && Accounted(s, plan) && Enabled(s, w)
    ensures Accounted(Step(s, w), plan)
  {
    StepKeepsPlanned(s, w, plan);
    forall x ensures multiset(Step(s, w).handed)[x] == multiset(Step(s, w).finished)[x] + Jobs(Step(s, w).workers)[x] {
      if s.workers[w].Running? {
        DoneBalances(s, w, x);
      } else {
        TakeBalances(s, w, x);
      }
    }
  }

  lemma {:induction false} NobodyYet(n: nat, entry: string)
    ensures var ws := seq(n, i => Free); Count(ws, entry) == 0 && Busy(ws) == 0 && Awake(ws) == n && Jobs(ws) == multiset{}
  {
    if n > 0 {
      NobodyYet(n - 1, entry);
      assert seq(n, i => Free)[1..] == seq(n - 1, i => Free);
    }
  }

  lemma StartHolds(plan: seq<EntryQueue>, workers: nat)
    requires Plan(plan)
    ensures Inv(Start(plan, workers)) && InOrder(Start(plan, workers), plan) && Accounted(Start(plan, workers), plan)
  {
    forall entry ensures Count(Start(plan, workers).workers, entry) == 0 {
      NobodyYet(workers, entry);
    }
    NobodyYet(workers, "");
    forall i | 0 <= i < |plan| ensures Picked([], plan[i].items) + plan[i].items == plan[i].items {
    }
  }

  lemma {:induction false} RunKeeps(s: State, run: seq<nat>, plan: seq<EntryQueue>)
    requires Plan(plan) && Inv(s) && InOrder(s, plan) && Accounted(s, plan) && Legal(s, run)
    ensures Inv(Exec(s, run)) && InOrder(Exec(s, run), plan) && Accounted(Exec(s, run), plan)
    ensures |Exec(s, run).workers| == |s.workers|
    decreases |run|
  {
    if run != [] {
      StepKeepsInv(s, run[0]);
      StepKeepsOrder(s, run[0], plan);
      StepKeepsAccount(s, run[0], plan);
      RunKeeps(Step(s, run[0]), run[1..], plan);
    }
  }

  lemma {:induction false} PickedIndex(handed: seq<nat>, items: seq<nat>, a: nat, b: nat)
    requires a < b < |handed| && handed[a] in items && handed[b] in items
    ensures exists i, j :: 0 <= i < j < |Picked(handed, items)|
                           && Picked(handed, items)[i] == handed[a] && Picked(handed, items)[j] == handed[b]
  {
    var n := |handed| - 1;
    var p, p' := Picked(handed, items), Picked(handed[..n], items);
    if b < n {
      PickedIndex(handed[..n], items, a, b);
      var i, j :| 0 <= i < j < |p'| && p'[i] == handed[a] && p'[j] == handed[b];
      assert p[i] == handed[a] && p[j] == handed[b];
    } else {
      PickedMember(handed[..n], items, a);
      var i :| 0 <= i < |p'| && p'[i] == handed[a];
      assert p[i] == handed[a] && p[|p'|] == handed[b];
    }
  }

  lemma {:induction false} PickedMember(handed: seq<nat>, items: seq<nat>, a: nat)
    requires a < |handed| && handed[a] in items
    ensures handed[a] in Picked(handed, items)
  {
    var n := |handed| - 1;
    if a < n {
      PickedMember(handed[..n], items, a);
    }
  }

  lemma PrefixDistinct(p: seq<nat>, rest: seq<nat>, x: nat, y: nat)
    requires Distinct(p + rest) && x < y < |p|
    ensures p[x] != p[y]
  {
    assert (p + rest)[x] == p[x] && (p + rest)[y] == p[y];
  }

  lemma NoJobTwice(s: State, plan: seq<EntryQueue>, a: nat, b: nat)
    requires Plan(plan) && InOrder(s, plan) && Accounted(s, plan) && a < b < |s.handed|
    ensures s.handed[a] != s.handed[b]
  {
    assert Planned(plan, s.handed[a]);
    var i :| 0 <= i < |plan| && s.handed[a] in plan[i].items;
    if s.handed[a] == s.handed[b] {
      PickedIndex(s.handed, plan[i].items, a, b);
      var p := Picked(s.handed, plan[i].items);
      var x, y :| 0 <= x < y < |p| && p[x] == s.handed[a] && p[y] == s.handed[b];
      PrefixDistinct(p, s.queues[i].items, x, y);
    }
  }

  /** Under any number of workers and any interleaving: no job is handed out twice, and the jobs of one
      entry are handed out in manifest order; an entry's count is its jobs taken and not done, and stays
      within its cap; a worker waits only while every entry with jobs left is at its cap. */
  lemma HandedOutOnceInOrder(plan: seq<EntryQueue>, workers: nat, run: seq<nat>)
    requires Plan(plan) && Legal(Start(plan, workers), run)
    ensures var s := Exec(Start(plan, workers), run);
            Distinct(s.handed) && InOrder(s, plan) && Accounted(s, plan) && Inv(s)
    ensures var s := Exec(Start(plan, workers), run);
            forall w, i :: 0 <= w < |s.workers| && s.workers[w].Waiting? && 0 <= i < |s.queues| && |s.queues[i].items| > 0 ==>
              s.queues[i].cap > 0 && Count(s.workers, s.queues[i].entry) == s.queues[i].cap
  {
    StartHolds(plan, workers);
    RunKeeps(Start(plan, workers), run, plan);
    var s := Exec(Start(plan, workers), run);
    forall a, b | 0 <= a < b < |s.handed| ensures s.handed[a] != s.handed[b] {
      NoJobTwice(s, plan, a, b);
    }
  }

  /** How many workers run a scenario of the queue's entry has reached its cap. */
  predicate AtCap(s: State, q: EntryQueue) {
    q.cap > 0 && Count(s.workers, q.entry) >= q.cap
  }

  /** What a worker that asks for a scenario gets: the first in manifest order whose entry is not at its cap; it
      waits only when each entry with scenarios left is, and returns only when none is left. */
  lemma WorkIsTaken(s: State, w: nat) returns (i: nat)
    requires Inv(s) && w < |s.workers| && s.workers[w].Free?
    ensures Step(s, w).workers[w].Exited? <==> forall j :: 0 <= j < |s.queues| ==> s.queues[j].items == []
    ensures Step(s, w).workers[w].Waiting? <==>
              (exists j :: 0 <= j < |s.queues| && s.queues[j].items != [])
              && forall j :: 0 <= j < |s.queues| && s.queues[j].items != [] ==> AtCap(s, s.queues[j])
    ensures Step(s, w).workers[w].Running? ==>
              i < |s.queues| && s.queues[i].items != [] && !AtCap(s, s.queues[i])
              && (forall j :: 0 <= j < i && s.queues[j].items != [] ==> AtCap(s, s.queues[j]))
              && Step(s, w).workers[w] == Running(s.queues[i].items[0], s.queues[i].entry)
              && Step(s, w).queues == s.queues[i := s.queues[i].(items := s.queues[i].items[1..])]
  {
    i := FirstReady(s.queues, s.inFlight);
  }

  // ---------------------------------------------------------------- the suite never gets stuck, and ends

  lemma {:induction false} SomebodyRuns(workers: seq<Worker>, entry: string) returns (w: nat)
    requires Count(workers, entry) > 0
    ensures w < |workers| && workers[w].Running?
  {
    if workers[0].Running? {
      return 0;
    }
    w := SomebodyRuns(workers[1..], entry);
    w := w + 1;
  }

  /** As long as a worker has not returned, some worker has an enabled step: a waiting worker means a job is
      in flight, and its end wakes everyone. */
  lemma NeverStuck(s: State, w: nat) returns (next: nat)
    requires Inv(s) && w < |s.workers| && !s.workers[w].Exited?
    ensures Enabled(s, next)
  {
    if s.workers[w].Waiting? {
      assert Full(s);
      var i :| 0 <= i < |s.queues| && |s.queues[i].items| > 0;
      assert !Ready(s.queues[i], s.inFlight);
      next := SomebodyRuns(s.workers, s.queues[i].entry);
    } else {
      next := w;
    }
  }

  /** How many steps are left at most. */
  function Measure(s: State): nat {
    (2 * Left(s.queues) + Busy(s.workers)) * (|s.workers| + 1) + Awake(s.workers)
  }

  lemma OneMore(k: nat, n: nat)
    ensures (k + 1) * n == k * n + n
  {
  }

  lemma DoneDecreases(s: State, w: nat)
    requires Enabled(s, w) && s.workers[w].Running?
    ensures Measure(Step(s, w)) < Measure(s)
  {
    CountUpdate(s.workers, w, Free, "");
    BroadcastKeeps(s.workers[w := Free], "");
    OneMore(2 * Left(s.queues) + Busy(s.workers) - 1, |s.workers| + 1);
  }

  lemma TakeDecreases(s: State, w: nat, i: nat)
    requires w < |s.workers| && s.workers[w].Free? && i < |s.queues| && |s.queues[i].items| > 0
    ensures Measure(Take(s, w, i)) < Measure(s)
  {
    var s' := Take(s, w, i);
    CountUpdate(s.workers, w, s'.workers[w], "");
    LeftUpdate(s.queues, i, s'.queues[i]);
    OneMore(2 * Left(s'.queues) + Busy(s'.workers), |s.workers| + 1);
  }

  lemma StepDecreases(s: State, w: nat)
    requires Enabled(s, w)
    ensures Measure(Step(s, w)) < Measure(s) && |Step(s, w).workers| == |s.workers|
  {
    if s.workers[w].Running? {
      DoneDecreases(s, w);
    } else if AnyLeft(s.queues) && FirstReady(s.queues, s.inFlight) < |s.queues| {
      TakeDecreases(s, w, FirstReady(s.queues, s.inFlight));
    } else {
      CountUpdate(s.workers, w, Step(s, w).workers[w], "");
    }
  }

  lemma {:induction false} RunsAreBounded(s: State, run: seq<nat>)
    requires Legal(s, run)
    ensures |run| + Measure(Exec(s, run)) <= Measure(s)
    decreases |run|
  {
    if run != [] {
      StepDecreases(s, run[0]);
      RunsAreBounded(Step(s, run[0]), run[1..]);
    }
  }

  lemma {:induction false} NoneRunning(workers: seq<Worker>)
    requires forall w :: 0 <= w < |workers| ==> workers[w].Exited?
    ensures Jobs(workers) == multiset{}
  {
    if workers != [] {
      NoneRunning(workers[1..]);
    }
  }

  lemma StuckMeansReturned(s: State)
    requires Inv(s) && forall w :: !Enabled(s, w)
    ensures forall w :: 0 <= w < |s.workers| ==> s.workers[w].Exited?
  {
    forall w | 0 <= w < |s.workers| ensures s.workers[w].Exited? {
      if !s.workers[w].Exited? {
        var next := NeverStuck(s, w);
      }
    }
  }

  lemma ReturnedMeansFinished(s: State, plan: seq<EntryQueue>, x: nat)
    requires Plan(plan) && Inv(s) && InOrder(s, plan) && Accounted(s, plan) && Distinct(s.handed)
    requires s.workers != [] && forall w :: 0 <= w < |s.workers| ==> s.workers[w].Exited?
    ensures multiset(s.finished)[x] == if Planned(plan, x) then 1 else 0
  {
    assert s.workers[0].Exited?;
    assert !AnyLeft(s.queues);
    NoneRunning(s.workers);
    OnceInMultiset(s.handed, x);
    if Planned(plan, x) {
      var i :| 0 <= i < |plan| && x in plan[i].items;
      assert s.queues[i].items == [];
      assert Picked(s.handed, plan[i].items) == plan[i].items;
      PickedFrom(s.handed, plan[i].items, x);
    }
  }

  /** Every run is finite, and one that cannot go on has all workers returned and every job of every entry
      finished exactly once. */
  lemma SuiteCompletes(plan: seq<EntryQueue>, workers: nat, run: seq<nat>)
    requires Plan(plan) && workers > 0 && Legal(Start(plan, workers), run)
    ensures |run| <= Measure(Start(plan, workers))
    ensures var s := Exec(Start(plan, workers), run);
            (forall w :: !Enabled(s, w)) ==>
              (forall w :: 0 <= w < |s.workers| ==> s.workers[w].Exited?)
              && (forall x :: multiset(s.finished)[x] == if Planned(plan, x) then 1 else 0)
  {
    RunsAreBounded(Start(plan, workers), run);
    HandedOutOnceInOrder(plan, workers, run);
    StartHolds(plan, workers);
    RunKeeps(Start(plan, workers), run, plan);
    var s := Exec(Start(plan, workers), run);
    if forall w :: !Enabled(s, w) {
      StuckMeansReturned(s);
      forall x ensures multiset(s.finished)[x] == if Planned(plan, x) then 1 else 0 {
        ReturnedMeansFinished(s, plan, x);
      }
    }
  }

  lemma {:induction false} PickedFrom(handed: seq<nat>, items: seq<nat>, x: nat)
    requires x in Picked(handed, items)
    ensures x in handed
  {
    var n := |handed| - 1;
    if x in Picked(handed[..n], items) {
      PickedFrom(handed[..n], items, x);
    }
  }

  lemma {:induction false} OnceInMultiset(q: seq<nat>, x: nat)
    requires Distinct(q)
    ensures multiset(q)[x] == if x in q then 1 else 0
  {
    if q != [] {
      var n := |q| - 1;
      OnceInMultiset(q[..n], x);
      assert q == q[..n] + [q[n]];
    }
  }

  // ---------------------------------------------------------------- the plan the manifest makes

  /** The lowest positive concurrency among the entries of a label; 0 when none sets one. */
  function CapOf(suite: seq<SuiteEntry>, entry: string): (cap: nat)
    ensures forall i :: 0 <= i < |suite| && suite[i].entry == entry && suite[i].concurrency > 0 ==> 0 < cap <= suite[i].concurrency
    ensures cap > 0 ==> exists i :: 0 <= i < |suite| && suite[i].entry == entry && suite[i].concurrency == cap
  {
    if suite == [] then 0
    else
      var e, rest := suite[|suite| - 1], CapOf(suite[..|suite| - 1], entry);
      if e.entry == entry && e.concurrency > 0 && (rest == 0 || e.concurrency < rest) then e.concurrency else rest
  }

  /** The labels of the jobs, by first appearance. */
  function Entries(jobs: seq<string>): seq<string> {
    if jobs == [] then []
    else
      var n := |jobs| - 1;
      Entries(jobs[..n]) + if jobs[n] in Entries(jobs[..n]) then [] else [jobs[n]]
  }

  /** The indices of an entry's jobs, ascending. */
  function IndicesOf(jobs: seq<string>, entry: string): seq<nat> {
    if jobs == [] then []
    else
      var n := |jobs| - 1;
      IndicesOf(jobs[..n], entry) + if jobs[n] == entry then [n] else []
  }

  lemma {:induction false} IndicesAre(jobs: seq<string>, entry: string)
    ensures forall x: nat :: x in IndicesOf(jobs, entry) <==> x < |jobs| && jobs[x] == entry
    ensures Ascending(IndicesOf(jobs, entry))
  {
    if jobs != [] {
      var n := |jobs| - 1;
      IndicesAre(jobs[..n], entry);
      var before := IndicesOf(jobs[..n], entry);
      forall x: nat ensures x in IndicesOf(jobs, entry) <==> x < |jobs| && jobs[x] == entry {
        assert x in before <==> x < n && jobs[..n][x] == entry;
      }
      AscendingSnoc(before, n);
    }
  }

  predicate Ascending(q: seq<nat>) {
    forall i, j :: 0 <= i < j < |q| ==> q[i] < q[j]
  }

  lemma AscendingSnoc(q: seq<nat>, n: nat)
    requires Ascending(q) && forall x :: x in q ==> x < n
    ensures Ascending(q + [n])
  {
    assert forall i :: 0 <= i < |q| ==> q[i] in q;
  }

  lemma {:induction false} EntriesAre(jobs: seq<string>)
    ensures forall entry :: entry in Entries(jobs) <==> entry in jobs
    ensures forall i, j :: 0 <= i < j < |Entries(jobs)| ==> Entries(jobs)[i] != Entries(jobs)[j]
  {
    if jobs != [] {
      var n := |jobs| - 1;
      EntriesAre(jobs[..n]);
      assert jobs == jobs[..n] + [jobs[n]];
    }
  }

  /** One queue per label, in order of first appearance, with its cap and its jobs in order. */
  ghost predicate Planning(queues: seq<EntryQueue>, suite: seq<SuiteEntry>, jobs: seq<string>) {
    |queues| == |Entries(jobs)|
    && forall k :: 0 <= k < |queues| ==>
         queues[k] == EntryQueue(Entries(jobs)[k], CapOf(suite, Entries(jobs)[k]), IndicesOf(jobs, Entries(jobs)[k]))
  }

  /** What the manifest makes is a plan that covers every job once. */
  lemma PlanningIsPlan(queues: seq<EntryQueue>, suite: seq<SuiteEntry>, jobs: seq<string>)
    requires Planning(queues, suite, jobs)
    ensures Plan(queues) && forall x: nat :: Planned(queues, x) <==> x < |jobs|
  {
    EntriesAre(jobs);
    forall k | 0 <= k < |queues| ensures Distinct(queues[k].items) {
      IndicesAre(jobs, queues[k].entry);
    }
    forall i, j, x | 0 <= i < j < |queues| && x in queues[i].items ensures x !in queues[j].items {
      IndicesAre(jobs, queues[i].entry);
      IndicesAre(jobs, queues[j].entry);
    }
    forall x: nat ensures Planned(queues, x) <==> x < |jobs| {
      if x < |jobs| {
        assert jobs[x] in Entries(jobs);
        var k :| 0 <= k < |Entries(jobs)| && Entries(jobs)[k] == jobs[x];
        IndicesAre(jobs, jobs[x]);
        assert x in queues[k].items;
      }
      if Planned(queues, x) {
        var k :| 0 <= k < |queues| && x in queues[k].items;
        IndicesAre(jobs, queues[k].entry);
      }
    }
  }

  /** Over the manifest's own queues: a run that cannot go on has written every job's result exactly once. */
  lemma EveryScenarioReported(queues: seq<EntryQueue>, suite: seq<SuiteEntry>, jobs: seq<string>, workers: nat, run: seq<nat>)
    requires Planning(queues, suite, jobs) && workers > 0 && Legal(Start(queues, workers), run)
    ensures var s := Exec(Start(queues, workers), run);
            (forall w :: !Enabled(s, w)) ==> forall x: nat :: multiset(s.finished)[x] == if x < |jobs| then 1 else 0
  {
    PlanningIsPlan(queues, suite, jobs);
    SuiteCompletes(queues, workers, run);
  }

  method LowestCaps(suite: seq<SuiteEntry>) returns (caps: map<string, nat>)
    ensures forall entry :: (entry in caps <==> CapOf(suite, entry) > 0) && (entry in caps ==> caps[entry] == CapOf(suite, entry))
  {
    caps := map[];
    for i := 0 to |suite|
      invariant forall entry :: (entry in caps <==> CapOf(suite[..i], entry) > 0)
                                && (entry in caps ==> caps[entry] == CapOf(suite[..i], entry))
    {
      var e := suite[i];
      assert suite[..i + 1][..i] == suite[..i];
      if e.concurrency <= 0 {
        continue;
      }
      if e.entry !in caps || e.concurrency < caps[e.entry] {
        caps := caps[e.entry := e.concurrency];
      }
    }
    assert suite[..|suite|] == suite;
  }

  /** Where the next job goes: the queue of its label, a new one if the label is new. */
  function WithQueue(queues: seq<EntryQueue>, suite: seq<SuiteEntry>, entry: string, known: bool): seq<EntryQueue> {
    if known then queues else queues + [EntryQueue(entry, CapOf(suite, entry), [])]
  }

  lemma NewLabel(jobs: seq<string>, entry: string)
    requires entry !in Entries(jobs)
    ensures IndicesOf(jobs, entry) == []
  {
    EntriesAre(jobs);
    IndicesAre(jobs, entry);
  }

  lemma QueueGrows(suite: seq<SuiteEntry>, jobs: seq<string>, entry: string, q: EntryQueue)
    requires jobs != [] && q == EntryQueue(entry, CapOf(suite, entry), IndicesOf(jobs[..|jobs| - 1], entry))
    ensures (if entry == jobs[|jobs| - 1] then q.(items := q.items + [|jobs| - 1]) else q)
            == EntryQueue(entry, CapOf(suite, entry), IndicesOf(jobs, entry))
  {
  }

  lemma PlanningGrows(queues: seq<EntryQueue>, suite: seq<SuiteEntry>, jobs: seq<string>, k: nat)
    requires jobs != [] && Planning(queues, suite, jobs[..|jobs| - 1])
    requires var last := jobs[|jobs| - 1];
             var base := WithQueue(queues, suite, last, last in Entries(jobs[..|jobs| - 1]));
             k < |base| && base[k].entry == last
    ensures var last := jobs[|jobs| - 1];
            var base := WithQueue(queues, suite, last, last in Entries(jobs[..|jobs| - 1]));
            Planning(base[k := base[k].(items := base[k].items + [|jobs| - 1])], suite, jobs)
  {
    var n := |jobs| - 1;
    var last, labels := jobs[n], Entries(jobs[..n]);
    var base := WithQueue(queues, suite, last, last in labels);
    if last !in labels {
      NewLabel(jobs[..n], last);
    }
    EntriesAre(jobs);
    assert Entries(jobs) == labels + if last in labels then [] else [last];
    forall m | 0 <= m < |base|
      ensures base[m] == EntryQueue(Entries(jobs)[m], CapOf(suite, Entries(jobs)[m]), IndicesOf(jobs[..n], Entries(jobs)[m]))
    {
    }
    forall m | 0 <= m < |base| ensures (m == k <==> Entries(jobs)[m] == last) {
      assert Entries(jobs)[k] == last;
    }
    forall m | 0 <= m < |base|
      ensures base[k := base[k].(items := base[k].items + [n])][m]
              == EntryQueue(Entries(jobs)[m], CapOf(suite, Entries(jobs)[m]), IndicesOf(jobs, Entries(jobs)[m]))
    {
      QueueGrows(suite, jobs, Entries(jobs)[m], base[m]);
    }
  }

  lemma GrowStep(queues: seq<EntryQueue>, suite: seq<SuiteEntry>, jobs: seq<string>, i: nat, k: nat)
    requires i < |jobs| && Planning(queues, suite, jobs[..i])
    requires var base := WithQueue(queues, suite, jobs[i], jobs[i] in Entries(jobs[..i])); k < |base| && base[k].entry == jobs[i]
    ensures var base := WithQueue(queues, suite, jobs[i], jobs[i] in Entries(jobs[..i]));
            Planning(base[k := base[k].(items := base[k].items + [i])], suite, jobs[..i + 1])
    ensures forall entry :: entry in Entries(jobs[..i + 1]) <==> entry in Entries(jobs[..i]) || entry == jobs[i]
  {
    var prefix := jobs[..i + 1];
    assert prefix[..i] == jobs[..i] && prefix[i] == jobs[i];
    PlanningGrows(queues, suite, prefix, k);
  }

  /** entryQueues: jobs holds the label of each job. */
  method EntryQueues(suite: seq<SuiteEntry>, jobs: seq<string>) returns (out: seq<EntryQueue>)
    ensures Planning(out, suite, jobs)
  {
    var caps := LowestCaps(suite);
    out := [];
    var at: map<string, nat> := map[];
    for i := 0 to |jobs|
      invariant Planning(out, suite, jobs[..i])
      invariant forall entry :: entry in at <==> entry in Entries(jobs[..i])
      invariant forall entry :: entry in at ==> at[entry] < |out| && out[at[entry]].entry == entry
    {
      var j := jobs[i];
      ghost var before := out;
      if j !in at {
        at := at[j := |out|];
        out := out + [EntryQueue(j, if j in caps then caps[j] else 0, [])];
      }
      assert out == WithQueue(before, suite, j, j in Entries(jobs[..i]));
      var k := at[j];
      GrowStep(before, suite, jobs, i, k);
      out := out[k := out[k].(items := out[k].items + [i])];
    }
    assert jobs[..|jobs|] == jobs;
  }

  // ---------------------------------------------------------------- the queue

  datatype Turn = Took(job: nat, entry: string) | Wait | NoneLeft

  class RunQueue {
    var queues: seq<EntryQueue>
    var inFlight: map<string, int>

    constructor (queues: seq<EntryQueue>)
      ensures this.queues == queues && inFlight == map[]
    {
      this.queues, inFlight := queues, map[];
    }

    method AnyScenarioLeft() returns (left: bool)
      ensures left <==> AnyLeft(queues)
    {
      for i := 0 to |queues|
        invariant forall j :: 0 <= j < i ==> queues[j].items == []
      {
        if |queues[i].items| > 0 {
          return true;
        }
      }
      return false;
    }

    /** Takes the first scenario in manifest order whose entry is under its cap. */
    method Pick() returns (turn: Turn)
      modifies this
      ensures var i := FirstReady(old(queues), old(inFlight));
              if i == |old(queues)| then turn == Wait && queues == old(queues) && inFlight == old(inFlight)
              else
                var q := old(queues)[i];
                turn == Took(q.items[0], q.entry)
                && queues == old(queues)[i := q.(items := q.items[1..])]
                && inFlight == old(inFlight)[q.entry := InFlight(old(inFlight), q.entry) + 1]
      ensures turn == Wait <==> forall i :: 0 <= i < |old(queues)| && |old(queues)[i].items| > 0 ==>
                                  old(queues)[i].cap > 0 && InFlight(old(inFlight), old(queues)[i].entry) >= old(queues)[i].cap
    {
      for i := 0 to |queues|
        invariant queues == old(queues) && inFlight == old(inFlight)
        invariant forall j :: 0 <= j < i ==> !Ready(queues[j], inFlight)
      {
        var eq := queues[i];
        if |eq.items| > 0 && (eq.cap == 0 || InFlight(inFlight, eq.entry) < eq.cap) {
          inFlight := inFlight[eq.entry := InFlight(inFlight, eq.entry) + 1];
          turn := Took(eq.items[0], eq.entry);
          queues := queues[i := eq.(items := eq.items[1..])];
          return;
        }
      }
      return Wait;
    }

    /** One turn of take's loop; Wait leaves the caller on the condition variable. */
    method TakeTurn() returns (turn: Turn)
      modifies this
      ensures turn == NoneLeft <==> !AnyLeft(old(queues))
      ensures forall s: State, w: nat ::
                s.queues == old(queues) && s.inFlight == old(inFlight) && w < |s.workers| && s.workers[w].Free? ==>
                  var s' := Step(s, w);
                  s'.queues == queues && s'.inFlight == inFlight
                  && s'.workers[w] == (match turn case Took(job, entry) => Running(job, entry) case Wait => Waiting case NoneLeft => Exited)
    {
      var left := AnyScenarioLeft();
      if !left {
        return NoneLeft;
      }
      turn := Pick();
    }

    method Done(entry: string)
      modifies this
      ensures queues == old(queues)
      ensures inFlight == old(inFlight)[entry := InFlight(old(inFlight), entry) - 1]
    {
      inFlight := inFlight[entry := InFlight(inFlight, entry) - 1];
    }
  }
}
