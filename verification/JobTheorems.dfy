/** What holds of every interleaving of the job engine: no lost wake-up, first in first out and
    exactly once, a sound idle guard, and termination in a state equal to sequential execution. */
module JobTheorems {
  import opened Wrappers
  import opened Callbacks
  import opened JobProtocol

  /** Every reachable state: `schedule` is any interleaving from the initial state. */
  predicate Reaches(programs: seq<seq<Request>>, kinds: seq<bool>, w0: World,
                    schedule: seq<Actor>, s: State)
  {
    Runs(Init(programs, kinds, w0), schedule) && s == After(Init(programs, kinds, w0), schedule)
  }

  lemma ReachableInv(programs: seq<seq<Request>>, kinds: seq<bool>, w0: World, schedule: seq<Actor>, s: State)
    requires Reaches(programs, kinds, w0, schedule, s)
    ensures Inv(s, programs, w0)
  {
    InitEstablishes(programs, kinds, w0);
    RunKeeps(Init(programs, kinds, w0), schedule, programs, w0);
  }

  // --- safety --------------------------------------------------------------------------------

  /** Whenever the worker sleeps on a non-empty list, some thread has linked a job and has not
      signalled yet. */
  lemma NoLostWakeUp(programs: seq<seq<Request>>, kinds: seq<bool>, w0: World, schedule: seq<Actor>, s: State)
    requires Reaches(programs, kinds, w0, schedule, s)
    requires s.worker == Asleep && s.queue != []
    ensures exists i :: 0 <= i < |s.producers| && s.producers[i].pc in {ToUnlock, ToLockCond, ToSignal}
  {
    ReachableInv(programs, kinds, w0, schedule, s);
    assert SignalPending(s);
    var i :| 0 <= i < |s.producers| && OwesSignal(s.producers[i].pc);
    assert s.producers[i].pc in {ToUnlock, ToLockCond, ToSignal};
  }

  /** The history of linked jobs is what has been freed, then the job in hand, then the list;
      callbacks run in that order, once each, and never ahead of the job in hand; each thread's
      own submissions are linked in the order it made them, none lost and none repeated. */
  lemma FifoExactlyOnce(programs: seq<seq<Request>>, kinds: seq<bool>, w0: World, schedule: seq<Actor>, s: State)
    requires Reaches(programs, kinds, w0, schedule, s)
    ensures s.enqueued == s.freed + InHand(s) + s.queue
    ensures |InHand(s)| <= 1
    ensures s.executed == s.freed || s.executed == s.freed + InHand(s)
    ensures forall i :: 0 <= i < |programs| ==>
              i < |s.producers| && SubmittedBy(s.enqueued, i) + s.producers[i].todo == programs[i]
  {
    ReachableInv(programs, kinds, w0, schedule, s);
  }

  /** _workitem_dequeue only ever returns zero with a job, so the worker's error path is dead. */
  lemma DequeueDelivers(programs: seq<seq<Request>>, kinds: seq<bool>, w0: World, schedule: seq<Actor>, s: State)
    requires Reaches(programs, kinds, w0, schedule, s) && s.worker == Returned
    ensures s.rc == 0 && s.job.Some? && s.busy
  {
    ReachableInv(programs, kinds, w0, schedule, s);
  }

  /** A negative answer obtained while holding the list mutex means that every job ever linked
      has been executed and freed, although the busy flag is lowered without that mutex. */
  lemma LockedGuardIsSound(programs: seq<seq<Request>>, kinds: seq<bool>, w0: World,
                           schedule: seq<Actor>, s: State, g: nat)
    requires Reaches(programs, kinds, w0, schedule, s)
    requires g < |s.guards| && s.guards[g].locked && s.guards[g].pc.Answer? && !s.guards[g].pc.running
    ensures s.queue == [] && InHand(s) == []
    ensures s.freed == s.enqueued && s.executed == s.enqueued
  {
    ReachableInv(programs, kinds, w0, schedule, s);
    assert GuardCounts(s, g);
  }

  /** The guard does come to say so: asked of an engine that is asleep over an empty list, with the
      list mutex free, it answers that no jobs are running in its next three steps, mutex or not. */
  lemma IdleEngineIsSeenIdle(programs: seq<seq<Request>>, kinds: seq<bool>, w0: World,
                             schedule: seq<Actor>, s: State, g: nat)
    requires Reaches(programs, kinds, w0, schedule, s)
    requires s.worker == Asleep && s.queue == [] && s.listOwner == Nobody
    requires g < |s.guards| && s.guards[g].pc == Begin
    ensures Runs(s, [Ask(g), Ask(g), Ask(g)])
    ensures var t := After(s, [Ask(g), Ask(g), Ask(g)]);
            g < |t.guards| && t.guards[g].pc == Answer(false, |s.enqueued|)
  {
    ReachableInv(programs, kinds, w0, schedule, s);
    var s1 := Step(s, Ask(g));
    var s2 := Step(s1, Ask(g));
    var s3 := Step(s2, Ask(g));
    assert s3.guards[g].pc == Answer(false, |s.enqueued|);
    assert Runs(s3, []) && After(s3, []) == s3;
    AfterOne(s2, Ask(g), []);
    AfterOne(s1, Ask(g), [Ask(g)]);
    AfterOne(s, Ask(g), [Ask(g), Ask(g)]);
  }

  /** And it says otherwise whenever it reads the list head over a queued job, or the busy flag
      while a job is in hand. */
  lemma BusyEngineIsSeenBusy(programs: seq<seq<Request>>, kinds: seq<bool>, w0: World,
                             schedule: seq<Actor>, s: State, g: nat)
    requires Reaches(programs, kinds, w0, schedule, s) && g < |s.guards|
    ensures s.guards[g].pc == ReadHead && s.queue != [] ==>
              Step(s, Ask(g)).guards[g].pc == Answer(true, |s.enqueued|)
    ensures s.guards[g].pc.ReadBusy? && InHand(s) != [] ==>
              Step(s, Ask(g)).guards[g].pc == Answer(true, s.guards[g].pc.seen)
  {
    ReachableInv(programs, kinds, w0, schedule, s);
  }

  /** Without the mutex, as the provider's cleanup asks, a negative answer covers the jobs linked
      before the list head was read; it covers all of them if none has been linked since. */
  lemma UnlockedGuardCoversEarlierJobs(programs: seq<seq<Request>>, kinds: seq<bool>, w0: World,
                                       schedule: seq<Actor>, s: State, g: nat)
    requires Reaches(programs, kinds, w0, schedule, s)
    requires g < |s.guards| && (s.guards[g].pc.Answer? || s.guards[g].pc.Done?) && !s.guards[g].pc.running
    ensures s.guards[g].pc.seen <= |s.freed|
    ensures |s.freed| <= |s.enqueued| && s.freed == s.enqueued[..|s.freed|]
    ensures s.guards[g].pc.seen == |s.enqueued| ==> s.freed == s.enqueued
  {
    ReachableInv(programs, kinds, w0, schedule, s);
    assert GuardCounts(s, g);
  }

  /** Exactly when the unlocked answer is right: at the moment the busy flag is read as lowered,
      every job ever linked has been executed and freed if and only if the list is empty then.
      So a caller who looks at the head again after the flag, or who keeps others from
      submitting, may trust the answer. */
  lemma UnlockedGuardIsRightIff(programs: seq<seq<Request>>, kinds: seq<bool>, w0: World,
                                schedule: seq<Actor>, s: State, g: nat)
    requires Reaches(programs, kinds, w0, schedule, s)
    requires g < |s.guards| && s.guards[g].pc.ReadBusy? && !s.busy
    ensures Enabled(s, Ask(g)) && Step(s, Ask(g)).guards[g].pc == Answer(false, s.guards[g].pc.seen)
    ensures s.freed == s.enqueued && s.executed == s.enqueued <==> s.queue == []
    ensures s.guards[g].pc.seen == |s.enqueued| ==> s.freed == s.enqueued
  {
    ReachableInv(programs, kinds, w0, schedule, s);
    assert GuardCounts(s, g);
  }

  /** The unlocked answer can be wrong: the head is read empty, a job is linked, and the busy
      flag of the sleeping worker is read as lowered. */
  lemma UnlockedGuardMissesAJob(req: Request, w0: World)
    ensures var schedule := [Ask(0), Ask(0), Submit(0), Submit(0), Ask(0)];
            && Runs(Init([[req]], [false], w0), schedule)
            && var s := After(Init([[req]], [false], w0), schedule);
               s.guards[0].pc == Answer(false, 0) && s.queue == [Entry(0, req)]
  {
    hide WorkerStep, WorkerEnabled;
    var s0 := Init([[req]], [false], w0);
    var s1 := Step(s0, Ask(0));
    var s2 := Step(s1, Ask(0));
    var s3 := Step(s2, Submit(0));
    var s4 := Step(s3, Submit(0));
    var s5 := Step(s4, Ask(0));
    assert Runs(s5, []) && After(s5, []) == s5;
    AfterOne(s4, Ask(0), []);
    AfterOne(s3, Submit(0), [Ask(0)]);
    AfterOne(s2, Submit(0), [Submit(0), Ask(0)]);
    AfterOne(s1, Ask(0), [Submit(0), Submit(0), Ask(0)]);
    AfterOne(s0, Ask(0), [Ask(0), Submit(0), Submit(0), Ask(0)]);
  }

  lemma AfterOne(s: State, a: Actor, rest: seq<Actor>)
    requires Enabled(s, a) && Runs(Step(s, a), rest)
    ensures Runs(s, [a] + rest) && After(s, [a] + rest) == After(Step(s, a), rest)
  {
    assert ([a] + rest)[1..] == rest;
  }

  // --- liveness ------------------------------------------------------------------------------

  const ROUND := 16
  const WAKE := 8

  function WorkerRank(s: State): nat {
    match s.worker
    case Asleep => 0
    case Wait => 1
    case LowerIdle => 2
    case Decide => if s.job == None then 3 else 14
    case UnlockList => if s.job == None then 4 else 15
    case MoveHead => 3
    case RaiseBusy => 4
    case Look => 5
    case LockList => 6
    case LockCond => 7
    case Reacquire => 7
    case NullJob => 8
    case LowerBusy => 9
    case Free => 10
    case Execute => 11
    case Returned => 12
    case UnlockCond => 13
    case Take => 16
  }

  function ProducerRank(p: Producer): nat {
    (ROUND + WAKE + 8) * |p.todo| +
    match p.pc
    case ToLock => 1
    case ToLink => 0
    case ToUnlock => WAKE + 5
    case ToLockCond => WAKE + 4
    case ToSignal => WAKE + 3
    case ToUnlockCond => 2
  }

  function GuardRank(c: Guard): nat {
    match c.pc
    case Begin => 4
    case ReadHead => 3
    case ReadBusy(_) => 2
    case Answer(_, _) => 1
    case Done(_, _) => 0
  }

  function Total(ranks: seq<nat>): nat {
    if ranks == [] then 0 else ranks[0] + Total(ranks[1..])
  }

  function ProducerRanks(s: State): (r: seq<nat>)
    ensures |r| == |s.producers|
  {
    seq(|s.producers|, i requires 0 <= i < |s.producers| => ProducerRank(s.producers[i]))
  }

  function GuardRanks(s: State): (r: seq<nat>)
    ensures |r| == |s.guards|
  {
    seq(|s.guards|, g requires 0 <= g < |s.guards| => GuardRank(s.guards[g]))
  }

  /** An upper bound on the steps left, spurious wake-ups apart. */
  function Measure(s: State): nat {
    WorkerRank(s) + ROUND * |s.queue| + Total(ProducerRanks(s)) + Total(GuardRanks(s))
  }

  lemma {:induction false} TotalUpdate(ranks: seq<nat>, i: nat, r: nat)
    requires i < |ranks|
    ensures Total(ranks[i := r]) == Total(ranks) - ranks[i] + r
  {
    if i == 0 {
      assert ranks[i := r][1..] == ranks[1..];
    } else {
      assert ranks[i := r][1..] == ranks[1..][i - 1 := r];
      TotalUpdate(ranks[1..], i - 1, r);
    }
  }

  lemma WorkerDescends(s: State)
    requires WorkerInv(s) && WorkerEnabled(s)
    ensures Measure(WorkerStep(s)) < Measure(s)
  {
    var t := WorkerStep(s);
    assert ProducerRanks(t) == ProducerRanks(s) && GuardRanks(t) == GuardRanks(s);
  }

  lemma ProducerRankFalls(s: State, i: nat)
    requires i < |s.producers| && ProducerEnabled(s, i) && LocksInv(s)
    ensures var t := ProducerStep(s, i);
            WorkerRank(t) + ProducerRank(t.producers[i]) + ROUND * |t.queue|
              < WorkerRank(s) + ProducerRank(s.producers[i]) + ROUND * |s.queue|
  {
    assert ProducerLocks(s, i);
  }

  lemma OneProducerRank(s: State, i: nat)
    requires i < |s.producers| && ProducerEnabled(s, i)
    ensures var t := ProducerStep(s, i);
            && |t.producers| == |s.producers|
            && ProducerRanks(t) == ProducerRanks(s)[i := ProducerRank(t.producers[i])]
            && GuardRanks(t) == GuardRanks(s)
  {
  }

  lemma ProducerDescends(s: State, i: nat)
    requires i < |s.producers| && ProducerEnabled(s, i) && LocksInv(s)
    ensures Measure(ProducerStep(s, i)) < Measure(s)
  {
    var t := ProducerStep(s, i);
    OneProducerRank(s, i);
    ProducerRankFalls(s, i);
    hide ProducerStep, LocksInv, ProducerRank, WorkerRank;
    TotalUpdate(ProducerRanks(s), i, ProducerRank(t.producers[i]));
  }

  lemma GuardDescends(s: State, g: nat)
    requires g < |s.guards| && GuardEnabled(s, g)
    ensures Measure(GuardStep(s, g)) < Measure(s)
  {
    var t := GuardStep(s, g);
    assert GuardRanks(t) == GuardRanks(s)[g := GuardRank(t.guards[g])];
    assert ProducerRanks(t) == ProducerRanks(s);
    TotalUpdate(GuardRanks(s), g, GuardRank(t.guards[g]));
  }

  function SpuriousCount(schedule: seq<Actor>): nat {
    if schedule == [] then 0
    else (if schedule[0] == Spurious then 1 else 0) + SpuriousCount(schedule[1..])
  }

  /** No run goes on for ever: its length is bounded by the measure of the state it starts in,
      plus a constant for each spurious wake-up. */
  lemma {:induction false} RunsAreBounded(s: State, schedule: seq<Actor>, programs: seq<seq<Request>>, w0: World)
    requires Inv(s, programs, w0) && Runs(s, schedule)
    ensures |schedule| + Measure(After(s, schedule)) <= Measure(s) + WAKE * SpuriousCount(schedule)
    decreases |schedule|
  {
    if schedule != [] {
      var a := schedule[0];
      StepKeeps(s, a, programs, w0);
      RunsAreBounded(Step(s, a), schedule[1..], programs, w0);
      match a {
        case Worker => WorkerDescends(s);
        case Submit(i) => ProducerDescends(s, i);
        case Ask(g) => GuardDescends(s, g);
        case Spurious =>
          assert ProducerRanks(Step(s, a)) == ProducerRanks(s) && GuardRanks(Step(s, a)) == GuardRanks(s);
      }
    }
  }

  // --- no queued job waits for ever ----------------------------------------------------------

  /** What has been linked stays linked, and what has been freed stays freed. */
  lemma HistoriesGrow(s: State, a: Actor)
    requires Enabled(s, a)
    ensures s.enqueued <= Step(s, a).enqueued && s.freed <= Step(s, a).freed
  {
  }

  /** While a job is unfinished, a worker that is not about to sleep does not become so. */
  lemma StaysAwake(s: State, a: Actor)
    requires WorkerInv(s) && Enabled(s, a) && !LookedInVain(s) && s.freed != s.enqueued
    ensures !LookedInVain(Step(s, a))
  {
  }

  /** So long as job number `j` has not been freed, at most one spurious wake-up can happen, and
      none at all to a worker that is not about to sleep. */
  lemma {:induction false} FewSpuriousWakeUps(s: State, schedule: seq<Actor>, j: nat,
                                              programs: seq<seq<Request>>, w0: World)
    requires Inv(s, programs, w0) && Runs(s, schedule)
    requires |After(s, schedule).freed| <= j < |s.enqueued|
    ensures s.freed <= After(s, schedule).freed
    ensures SpuriousCount(schedule) <= if LookedInVain(s) then 1 else 0
    decreases |schedule|
  {
    if schedule != [] {
      var a := schedule[0];
      StepKeeps(s, a, programs, w0);
      HistoriesGrow(s, a);
      FewSpuriousWakeUps(Step(s, a), schedule[1..], j, programs, w0);
      if !LookedInVain(s) {
        StaysAwake(s, a);
      }
    }
  }

  /** Every queued job is executed and freed within a bounded number of steps, whatever the
      interleaving and however many spurious wake-ups the run holds. */
  lemma QueuedJobIsServed(s: State, schedule: seq<Actor>, j: nat, programs: seq<seq<Request>>, w0: World)
    requires Inv(s, programs, w0) && Runs(s, schedule)
    requires j < |s.enqueued| && |schedule| > Measure(s) + WAKE
    ensures var t := After(s, schedule);
            && j < |t.freed| && t.freed[j] == s.enqueued[j]
            && j < |t.executed| && t.executed[j] == s.enqueued[j]
  {
    RunKeeps(s, schedule, programs, w0);
    RunsAreBounded(s, schedule, programs, w0);
    if |After(s, schedule).freed| <= j {
      FewSpuriousWakeUps(s, schedule, j, programs, w0);
    }
    EnqueuedGrows(s, schedule);
  }

  lemma {:induction false} EnqueuedGrows(s: State, schedule: seq<Actor>)
    requires Runs(s, schedule)
    ensures s.enqueued <= After(s, schedule).enqueued
    decreases |schedule|
  {
    if schedule != [] {
      HistoriesGrow(s, schedule[0]);
      EnqueuedGrows(Step(s, schedule[0]), schedule[1..]);
    }
  }

  /** Nothing is left to do but wake up for no reason. */
  ghost predicate Stuck(s: State) {
    forall a :: a != Spurious ==> !Enabled(s, a)
  }

  /** No deadlock: a state in which no thread can move has drained everything. */
  lemma StuckIsDrained(s: State, programs: seq<seq<Request>>, w0: World)
    requires Inv(s, programs, w0) && Stuck(s)
    ensures s.worker == Asleep && s.queue == [] && InHand(s) == []
    ensures s.freed == s.enqueued && s.executed == s.enqueued
    ensures forall i :: 0 <= i < |s.producers| ==> s.producers[i].todo == []
  {
    if s.listOwner.ByGuard? {
      assert GuardLocks(s, s.listOwner.g);
      assert Enabled(s, Ask(s.listOwner.g));
    }
    if s.listOwner.ByProducer? {
      assert ProducerLocks(s, s.listOwner.i);
      assert Enabled(s, Submit(s.listOwner.i));
    }
    assert !Enabled(s, Worker);
    assert s.listOwner == Nobody;
    if s.condOwner.ByProducer? {
      assert ProducerLocks(s, s.condOwner.i);
      assert Enabled(s, Submit(s.condOwner.i));
    }
    assert s.condOwner == Nobody;
    assert s.worker == Asleep;
    forall i | 0 <= i < |s.producers| ensures s.producers[i].pc == ToLock && s.producers[i].todo == [] {
      assert ProducerLocks(s, i);
      assert !Enabled(s, Submit(i));
    }
  }

  /** Every maximal run ends with all submissions executed, and then the power states, the host
      flags and the job records are those of running the requests one by one in the order they
      were linked, an order that keeps each thread's own. */
  lemma MaximalRunIsSequential(programs: seq<seq<Request>>, kinds: seq<bool>, w0: World,
                               schedule: seq<Actor>, s: State)
    requires Reaches(programs, kinds, w0, schedule, s) && Stuck(s)
    ensures s.world == RunAll(w0, Requests(s.enqueued))
    ensures |s.producers| == |programs|
    ensures forall i :: 0 <= i < |programs| ==> SubmittedBy(s.enqueued, i) == programs[i]
    ensures forall e :: e in s.enqueued ==> e.producer < |programs|
  {
    ReachableInv(programs, kinds, w0, schedule, s);
    StuckIsDrained(s, programs, w0);
    forall i | 0 <= i < |programs| ensures SubmittedBy(s.enqueued, i) == programs[i] {
      assert SubmittedBy(s.enqueued, i) + s.producers[i].todo == programs[i];
    }
  }
}
