/** The asynchronous job engine as a step relation: any number of submitting threads, one
    worker thread and any number of threads asking whether jobs are running, interleaved one
    shared access at a time. `g_workitem_list` is read as the sequence `queue`. */
module JobProtocol {
  import opened Wrappers
  import opened Callbacks

  /** A job in the engine: the thread that submitted it and what it asks for. */
  datatype Entry = Entry(producer: nat, req: Request)

  datatype Owner = Nobody | ByWorker | ByProducer(i: nat) | ByGuard(g: nat)

  /** Where the worker is; each name is the next thing it does. */
  datatype WorkerPc =
    | LockCond | LockList | Look | RaiseBusy | MoveHead | Take | UnlockList
    | Decide | LowerIdle | Wait | Asleep | Reacquire | UnlockCond
    | Returned | Execute | Free | LowerBusy | NullJob

  /** Where a submitting thread is in _workitem_enqueue. */
  datatype ProducerPc = ToLock | ToLink | ToUnlock | ToLockCond | ToSignal | ToUnlockCond

  datatype Producer = Producer(pc: ProducerPc, todo: seq<Request>)

  /** Where a thread evaluating jobs_running is. `seen` counts the jobs that had been enqueued
      when it read the list head. */
  datatype GuardPc = Begin | ReadHead | ReadBusy(seen: nat) | Answer(running: bool, seen: nat)
                   | Done(running: bool, seen: nat)

  /** `locked`: the caller holds the list mutex, as jobs_uninitialize does. */
  datatype Guard = Guard(pc: GuardPc, locked: bool)

  /** The shared memory, the threads, and three histories: every job linked into the list,
      every job whose callback has run, every job freed. `job` is the worker's pointer. */
  datatype State = State(
    worker: WorkerPc, item: Option<Entry>, job: Option<Entry>, rc: int,
    queue: seq<Entry>, busy: bool, listOwner: Owner, condOwner: Owner,
    producers: seq<Producer>, guards: seq<Guard>, world: World,
    enqueued: seq<Entry>, executed: seq<Entry>, freed: seq<Entry>)

  datatype Actor = Worker | Spurious | Submit(i: nat) | Ask(g: nat)

  function Init(programs: seq<seq<Request>>, kinds: seq<bool>, w0: World): State {
    State(LockCond, None, None, -1, [], false, Nobody, Nobody,
          seq(|programs|, i requires 0 <= i < |programs| => Producer(ToLock, programs[i])),
          seq(|kinds|, g requires 0 <= g < |kinds| => Guard(Begin, kinds[g])),
          w0, [], [], [])
  }

  // --- steps ---------------------------------------------------------------------------------

  predicate WorkerEnabled(s: State) {
    match s.worker
    case LockCond | Reacquire => s.condOwner == Nobody
    case LockList => s.listOwner == Nobody
    case Asleep => false
    case RaiseBusy | MoveHead => s.queue != []
    case Take => s.item.Some?
    case Execute | Free => s.job.Some?
    case _ => true
  }

  function WorkerStep(s: State): State
    requires WorkerEnabled(s)
  {
    match s.worker
    case LockCond => s.(condOwner := ByWorker, rc := -1, item := None, worker := LockList)
    case LockList => s.(listOwner := ByWorker, worker := Look)
    case Look => if s.queue != [] then s.(item := Some(s.queue[0]), worker := RaiseBusy)
                 else s.(worker := UnlockList)
    case RaiseBusy => s.(busy := true, worker := MoveHead)
    case MoveHead => s.(queue := s.queue[1..], worker := Take)
    case Take => s.(job := s.item, rc := 0, worker := UnlockList)
    case UnlockList => s.(listOwner := Nobody, worker := Decide)
    case Decide => if s.job == None then s.(worker := LowerIdle) else s.(worker := UnlockCond)
    case LowerIdle => s.(busy := false, worker := Wait)
    case Wait => s.(condOwner := Nobody, worker := Asleep)
    case Reacquire => s.(condOwner := ByWorker, worker := LockList)
    case UnlockCond => s.(condOwner := Nobody, worker := Returned)
    case Returned => if s.rc == 0 then s.(worker := Execute) else s.(worker := LowerBusy)
    case Execute => s.(world := RunRequest(s.world, s.job.value.req),
                       executed := s.executed + [s.job.value], worker := Free)
    case Free => s.(freed := s.freed + [s.job.value], worker := LowerBusy)
    case LowerBusy => s.(busy := false, worker := NullJob)
    case NullJob => s.(job := None, worker := LockCond)
  }

  predicate ProducerEnabled(s: State, i: nat)
    requires i < |s.producers|
  {
    match s.producers[i].pc
    case ToLock => s.producers[i].todo != [] && s.listOwner == Nobody
    case ToLink => s.producers[i].todo != []
    case ToLockCond => s.condOwner == Nobody
    case _ => true
  }

  function At(s: State, i: nat, pc: ProducerPc): State
    requires i < |s.producers|
  {
    s.(producers := s.producers[i := s.producers[i].(pc := pc)])
  }

  function ProducerStep(s: State, i: nat): State
    requires i < |s.producers| && ProducerEnabled(s, i)
  {
    var p := s.producers[i];
    match p.pc
    case ToLock => At(s, i, ToLink).(listOwner := ByProducer(i))
    case ToLink =>
      var entry := Entry(i, p.todo[0]);
      s.(queue := s.queue + [entry], enqueued := s.enqueued + [entry],
         producers := s.producers[i := Producer(ToUnlock, p.todo[1..])])
    case ToUnlock => At(s, i, ToLockCond).(listOwner := Nobody)
    case ToLockCond => At(s, i, ToSignal).(condOwner := ByProducer(i))
    case ToSignal => At(s, i, ToUnlockCond).(worker := if s.worker == Asleep then Reacquire else s.worker)
    case ToUnlockCond => At(s, i, ToLock).(condOwner := Nobody)
  }

  predicate GuardEnabled(s: State, g: nat)
    requires g < |s.guards|
  {
    match s.guards[g].pc
    case Begin => s.guards[g].locked ==> s.listOwner == Nobody
    case Done(_, _) => false
    case _ => true
  }

  function GuardStep(s: State, g: nat): State
    requires g < |s.guards| && GuardEnabled(s, g)
  {
    var c := s.guards[g];
    match c.pc
    case Begin => s.(guards := s.guards[g := c.(pc := ReadHead)],
                     listOwner := if c.locked then ByGuard(g) else s.listOwner)
    case ReadHead =>
      var next := if s.queue != [] then Answer(true, |s.enqueued|) else ReadBusy(|s.enqueued|);
      s.(guards := s.guards[g := c.(pc := next)])
    case ReadBusy(seen) => s.(guards := s.guards[g := c.(pc := Answer(s.busy, seen))])
    case Answer(running, seen) =>
      s.(guards := s.guards[g := c.(pc := Done(running, seen))],
         listOwner := if c.locked then Nobody else s.listOwner)
  }

  predicate Enabled(s: State, a: Actor) {
    match a
    case Worker => WorkerEnabled(s)
    case Spurious => s.worker == Asleep
    case Submit(i) => i < |s.producers| && ProducerEnabled(s, i)
    case Ask(g) => g < |s.guards| && GuardEnabled(s, g)
  }

  function Step(s: State, a: Actor): State
    requires Enabled(s, a)
  {
    match a
    case Worker => WorkerStep(s)
    case Spurious => s.(worker := Reacquire)
    case Submit(i) => ProducerStep(s, i)
    case Ask(g) => GuardStep(s, g)
  }

  /** A schedule is any interleaving in which every chosen thread could take its step. */
  predicate Runs(s: State, schedule: seq<Actor>)
    decreases |schedule|
  {
    schedule != [] ==> Enabled(s, schedule[0]) && Runs(Step(s, schedule[0]), schedule[1..])
  }

  function After(s: State, schedule: seq<Actor>): State
    requires Runs(s, schedule)
    decreases |schedule|
  {
    if schedule == [] then s else After(Step(s, schedule[0]), schedule[1..])
  }

  // --- the invariant -------------------------------------------------------------------------

  predicate HoldsList(pc: WorkerPc) {
    pc in {Look, RaiseBusy, MoveHead, Take, UnlockList}
  }

  predicate HoldsCond(pc: WorkerPc) {
    HoldsList(pc) || pc in {LockList, Decide, LowerIdle, Wait, UnlockCond}
  }

  predicate ProducerLocks(s: State, i: nat)
    requires i < |s.producers|
  {
    && (s.listOwner == ByProducer(i) <==> s.producers[i].pc in {ToLink, ToUnlock})
    && (s.condOwner == ByProducer(i) <==> s.producers[i].pc in {ToSignal, ToUnlockCond})
    && (s.producers[i].pc == ToLink ==> s.producers[i].todo != [])
  }

  predicate GuardLocks(s: State, g: nat)
    requires g < |s.guards|
  {
    s.listOwner == ByGuard(g) <==>
      s.guards[g].locked && !s.guards[g].pc.Begin? && !s.guards[g].pc.Done?
  }

  /** A mutex is owned by exactly the thread whose code is between locking and unlocking it. */
  predicate LocksInv(s: State) {
    && (s.listOwner == ByWorker <==> HoldsList(s.worker))
    && (s.condOwner == ByWorker <==> HoldsCond(s.worker))
    && (forall i :: 0 <= i < |s.producers| ==> ProducerLocks(s, i))
    && (forall g :: 0 <= g < |s.guards| ==> GuardLocks(s, g))
    && !s.condOwner.ByGuard?
    && (s.listOwner.ByProducer? ==> s.listOwner.i < |s.producers|)
    && (s.condOwner.ByProducer? ==> s.condOwner.i < |s.producers|)
    && (s.listOwner.ByGuard? ==> s.listOwner.g < |s.guards|)
  }

  /** The job that is off the list and not yet freed, if there is one. */
  function InHand(s: State): seq<Entry> {
    if s.worker == Take && s.item.Some? then [s.item.value]
    else if s.worker in {UnlockList, Decide, UnlockCond, Returned, Execute, Free} && s.job.Some? then
      [s.job.value]
    else []
  }

  predicate Holding(pc: WorkerPc) {
    pc in {UnlockCond, Returned, Execute, Free}
  }

  /** Conservation, the meaning of the busy flag, and what the worker's locals are when. */
  predicate WorkerInv(s: State) {
    && s.enqueued == s.freed + InHand(s) + s.queue
    && s.executed == s.freed + (if s.worker == Free then InHand(s) else [])
    && (s.worker in {RaiseBusy, MoveHead} ==> s.queue != [] && s.item == Some(s.queue[0]))
    && (s.worker == Take ==> s.item.Some?)
    && (s.busy <==> s.worker in {MoveHead, Take, UnlockCond, Returned, Execute, Free, LowerBusy} || InHand(s) != [])
    && (s.worker in {LockCond, LockList, Look, RaiseBusy, MoveHead, Take, LowerIdle, Wait, Asleep, Reacquire} ==>
          s.job == None)
    && (s.worker in {LockList, Look, RaiseBusy, MoveHead, Take, LowerIdle, Wait, Asleep, Reacquire} ==> s.rc != 0)
    && (s.worker in {UnlockList, Decide} ==> (s.job.Some? <==> s.rc == 0))
    && (Holding(s.worker) ==> s.job.Some? && s.rc == 0)
  }

  /** The worker has looked at the list, found it empty and is on its way to sleep or asleep. */
  predicate LookedInVain(s: State) {
    || (s.worker in {UnlockList, Decide} && s.job == None)
    || s.worker in {LowerIdle, Wait, Asleep}
  }

  predicate OwesSignal(pc: ProducerPc) {
    pc in {ToUnlock, ToLockCond, ToSignal}
  }

  predicate SignalPending(s: State) {
    exists i :: 0 <= i < |s.producers| && OwesSignal(s.producers[i].pc)
  }

  predicate WakeInv(s: State) {
    LookedInVain(s) && s.queue != [] ==> SignalPending(s)
  }

  /** The submissions of one thread, in the order they were linked. */
  function SubmittedBy(entries: seq<Entry>, i: nat): seq<Request> {
    if entries == [] then []
    else
      var last := entries[|entries| - 1];
      SubmittedBy(entries[..|entries| - 1], i) + if last.producer == i then [last.req] else []
  }

  predicate OrderInv(s: State, programs: seq<seq<Request>>) {
    && |s.producers| == |programs|
    && (forall i :: 0 <= i < |programs| ==>
          SubmittedBy(s.enqueued, i) + s.producers[i].todo == programs[i])
    && (forall e :: e in s.enqueued ==> e.producer < |programs|)
  }

  function Requests(entries: seq<Entry>): (r: seq<Request>)
    ensures |r| == |entries|
  {
    seq(|entries|, k requires 0 <= k < |entries| => entries[k].req)
  }

  predicate RefinesInv(s: State, w0: World) {
    s.world == RunAll(w0, Requests(s.executed))
  }

  predicate GuardCounts(s: State, g: nat)
    requires g < |s.guards|
  {
    var c := s.guards[g];
    && (c.pc.ReadBusy? ==> c.pc.seen <= |s.freed| + |InHand(s)|)
    && ((c.pc.Answer? || c.pc.Done?) && !c.pc.running ==> c.pc.seen <= |s.freed|)
    && (c.locked && (c.pc.ReadBusy? || c.pc.Answer?) ==> c.pc.seen == |s.enqueued|)
  }

  predicate GuardInv(s: State) {
    forall g :: 0 <= g < |s.guards| ==> GuardCounts(s, g)
  }

  predicate Inv(s: State, programs: seq<seq<Request>>, w0: World) {
    LocksInv(s) && WorkerInv(s) && WakeInv(s) && GuardInv(s) && OrderInv(s, programs) && RefinesInv(s, w0)
  }

  // --- every step keeps it -------------------------------------------------------------------

  lemma InitEstablishes(programs: seq<seq<Request>>, kinds: seq<bool>, w0: World)
    ensures Inv(Init(programs, kinds, w0), programs, w0)
  {
  }

  lemma WorkerKeepsLocks(s: State)
    requires LocksInv(s) && WorkerInv(s) && WorkerEnabled(s)
    ensures LocksInv(WorkerStep(s))
  {
    var t := WorkerStep(s);
    forall i | 0 <= i < |t.producers| ensures ProducerLocks(t, i) {
      assert ProducerLocks(s, i);
    }
    forall g | 0 <= g < |t.guards| ensures GuardLocks(t, g) {
      assert GuardLocks(s, g);
    }
  }

  lemma WorkerKeepsData(s: State)
    requires WorkerInv(s) && WorkerEnabled(s)
    ensures WorkerInv(WorkerStep(s))
    ensures |WorkerStep(s).freed| + |InHand(WorkerStep(s))| >= |s.freed| + |InHand(s)|
    ensures |WorkerStep(s).freed| >= |s.freed| && WorkerStep(s).enqueued == s.enqueued
  {
    if s.worker == MoveHead {
      assert s.queue == [s.queue[0]] + s.queue[1..];
    }
  }

  lemma WorkerKeepsWake(s: State)
    requires WakeInv(s) && WorkerInv(s) && WorkerEnabled(s)
    ensures WakeInv(WorkerStep(s))
  {
    assert WorkerStep(s).producers == s.producers;
  }

  lemma WorkerKeepsGuards(s: State)
    requires GuardInv(s) && WorkerInv(s) && WorkerEnabled(s)
    ensures GuardInv(WorkerStep(s))
  {
    var t := WorkerStep(s);
    WorkerKeepsData(s);
    assert t.guards == s.guards;
    hide WorkerInv, WorkerStep, InHand;
    forall g | 0 <= g < |t.guards| ensures GuardCounts(t, g) {
      assert GuardCounts(s, g);
    }
  }

  lemma WorkerKeepsOrder(s: State, programs: seq<seq<Request>>)
    requires OrderInv(s, programs) && WorkerEnabled(s)
    ensures OrderInv(WorkerStep(s), programs)
  {
    assert WorkerStep(s).producers == s.producers && WorkerStep(s).enqueued == s.enqueued;
  }

  lemma WorkerRefines(s: State, w0: World)
    requires RefinesInv(s, w0) && WorkerEnabled(s)
    ensures RefinesInv(WorkerStep(s), w0)
  {
    hide RunRequest, RunAll;
    if s.worker == Execute {
      RunAllStep(w0, Requests(s.executed), s.job.value.req);
      assert Requests(WorkerStep(s).executed) == Requests(s.executed) + [s.job.value.req];
    }
  }

  lemma SpuriousKeeps(s: State, programs: seq<seq<Request>>, w0: World)
    requires Inv(s, programs, w0) && s.worker == Asleep
    ensures Inv(s.(worker := Reacquire), programs, w0)
  {
    var t := s.(worker := Reacquire);
    forall i | 0 <= i < |t.producers| ensures ProducerLocks(t, i) {
      assert ProducerLocks(s, i);
    }
    forall g | 0 <= g < |t.guards| ensures GuardLocks(t, g) && GuardCounts(t, g) {
      assert GuardLocks(s, g) && GuardCounts(s, g);
    }
  }

  lemma ProducerKeepsLocks(s: State, i: nat)
    requires LocksInv(s) && i < |s.producers| && ProducerEnabled(s, i)
    ensures LocksInv(ProducerStep(s, i))
  {
    var t := ProducerStep(s, i);
    assert ProducerLocks(s, i);
    forall j | 0 <= j < |t.producers| ensures ProducerLocks(t, j) {
      assert ProducerLocks(s, j);
    }
    forall g | 0 <= g < |t.guards| ensures GuardLocks(t, g) {
      assert GuardLocks(s, g);
    }
  }

  /** Linking happens under the list mutex, so never while the worker or a locked guard is
      between looking at the list and releasing it. */
  lemma ProducerKeepsData(s: State, i: nat)
    requires LocksInv(s) && WorkerInv(s) && i < |s.producers| && ProducerEnabled(s, i)
    ensures WorkerInv(ProducerStep(s, i))
    ensures InHand(ProducerStep(s, i)) == InHand(s) && ProducerStep(s, i).freed == s.freed
    ensures ProducerStep(s, i).guards == s.guards
    ensures s.producers[i].pc != ToLink ==> ProducerStep(s, i).enqueued == s.enqueued
  {
    var t := ProducerStep(s, i);
    assert ProducerLocks(s, i);
    assert InHand(t) == InHand(s);
    if s.producers[i].pc == ToLink {
      assert s.freed + InHand(s) + t.queue == s.freed + InHand(s) + s.queue + [Entry(i, s.producers[i].todo[0])];
      assert !HoldsList(s.worker);
    }
  }

  /** A guard that counts on nothing being linked holds the mutex that linking needs. */
  lemma ProducerKeepsGuards(s: State, i: nat)
    requires LocksInv(s) && WorkerInv(s) && GuardInv(s) && i < |s.producers| && ProducerEnabled(s, i)
    ensures GuardInv(ProducerStep(s, i))
  {
    var t := ProducerStep(s, i);
    ProducerKeepsData(s, i);
    assert ProducerLocks(s, i);
    hide WorkerInv, ProducerStep, InHand;
    forall g | 0 <= g < |t.guards| ensures GuardCounts(t, g) {
      assert GuardCounts(s, g) && GuardLocks(s, g);
    }
  }

  lemma ProducerKeepsOrder(s: State, i: nat, programs: seq<seq<Request>>)
    requires OrderInv(s, programs) && i < |s.producers| && ProducerEnabled(s, i)
    ensures OrderInv(ProducerStep(s, i), programs)
  {
    var t := ProducerStep(s, i);
    if s.producers[i].pc == ToLink {
      assert t.enqueued[..|s.enqueued|] == s.enqueued;
      assert s.producers[i].todo == [s.producers[i].todo[0]] + t.producers[i].todo;
      forall j | 0 <= j < |programs| ensures SubmittedBy(t.enqueued, j) + t.producers[j].todo == programs[j] {
        assert SubmittedBy(s.enqueued, j) + s.producers[j].todo == programs[j];
      }
    }
  }

  lemma ProducerKeepsWake(s: State, i: nat)
    requires LocksInv(s) && WorkerInv(s) && WakeInv(s) && i < |s.producers| && ProducerEnabled(s, i)
    ensures WakeInv(ProducerStep(s, i))
  {
    var t := ProducerStep(s, i);
    assert ProducerLocks(s, i);
    if LookedInVain(t) && t.queue != [] {
      if s.producers[i].pc == ToLink {
        assert OwesSignal(t.producers[i].pc);
      } else {
        assert SignalPending(s);
        var j :| 0 <= j < |s.producers| && OwesSignal(s.producers[j].pc);
        assert OwesSignal(t.producers[j].pc);
      }
    }
  }

  lemma GuardKeepsLocks(s: State, g: nat)
    requires LocksInv(s) && g < |s.guards| && GuardEnabled(s, g)
    ensures LocksInv(GuardStep(s, g))
  {
    var t := GuardStep(s, g);
    assert GuardLocks(s, g);
    forall i | 0 <= i < |t.producers| ensures ProducerLocks(t, i) {
      assert ProducerLocks(s, i);
    }
    forall h | 0 <= h < |t.guards| ensures GuardLocks(t, h) {
      assert GuardLocks(s, h);
    }
  }

  lemma GuardKeepsCounts(s: State, g: nat)
    requires LocksInv(s) && WorkerInv(s) && GuardInv(s) && g < |s.guards| && GuardEnabled(s, g)
    ensures GuardInv(GuardStep(s, g))
  {
    var t := GuardStep(s, g);
    assert GuardLocks(s, g) && GuardCounts(s, g);
    forall h | 0 <= h < |t.guards| ensures GuardCounts(t, h) {
      assert GuardCounts(s, h);
    }
  }

  lemma GuardTouchesNothing(s: State, g: nat)
    requires g < |s.guards| && GuardEnabled(s, g)
    ensures GuardStep(s, g) == s.(guards := GuardStep(s, g).guards, listOwner := GuardStep(s, g).listOwner)
  {
  }

  lemma GuardKeepsRest(s: State, g: nat, programs: seq<seq<Request>>, w0: World)
    requires WorkerInv(s) && WakeInv(s) && OrderInv(s, programs) && RefinesInv(s, w0)
    requires g < |s.guards| && GuardEnabled(s, g)
    ensures WorkerInv(GuardStep(s, g)) && WakeInv(GuardStep(s, g))
    ensures OrderInv(GuardStep(s, g), programs) && RefinesInv(GuardStep(s, g), w0)
  {
    GuardTouchesNothing(s, g);
    hide GuardStep, GuardEnabled;
  }

  lemma StepKeeps(s: State, a: Actor, programs: seq<seq<Request>>, w0: World)
    requires Inv(s, programs, w0) && Enabled(s, a)
    ensures Inv(Step(s, a), programs, w0)
  {
    match a
    case Worker =>
      WorkerKeepsLocks(s);
      WorkerKeepsData(s);
      WorkerKeepsWake(s);
      WorkerKeepsGuards(s);
      WorkerKeepsOrder(s, programs);
      WorkerRefines(s, w0);
    case Spurious => SpuriousKeeps(s, programs, w0);
    case Submit(i) =>
      ProducerKeepsLocks(s, i);
      ProducerKeepsWake(s, i);
      ProducerKeepsData(s, i);
      ProducerKeepsGuards(s, i);
      ProducerKeepsOrder(s, i, programs);
    case Ask(g) =>
      GuardKeepsLocks(s, g);
      GuardKeepsCounts(s, g);
      GuardKeepsRest(s, g, programs, w0);
  }

  lemma {:induction false} RunKeeps(s: State, schedule: seq<Actor>, programs: seq<seq<Request>>, w0: World)
    requires Inv(s, programs, w0) && Runs(s, schedule)
    ensures Inv(After(s, schedule), programs, w0)
    decreases |schedule|
  {
    if schedule != [] {
      StepKeeps(s, schedule[0], programs, w0);
      RunKeeps(Step(s, schedule[0]), schedule[1..], programs, w0);
    }
  }
}
