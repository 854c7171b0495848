/** The fetch protocol of internal/api/site_favicon_manager.go: the in-flight set,
    the bounded work queue, the goroutines that wait when the queue is full, and
    the one worker. Every step is one atomic action of one goroutine. */
module FaviconQueue {
  import opened Basics

  type SiteId = string

  const QUEUE_CAPACITY := 64

  datatype Task = Task(site: SiteId, force: bool, notify: bool)

  datatype Worker = NotStarted | Idle | Busy(task: Task) | Stopped

  /** `claimed` holds the tasks of goroutines between registering a site and
      offering the task to the queue, `spilled` those of the waiting goroutines. */
  datatype State = State(
    inFlight: set<SiteId>,
    claimed: seq<Task>,
    queue: seq<Task>,
    spilled: seq<Task>,
    worker: Worker,
    cancelled: bool)

  datatype Step =
    | Claim(task: Task)   // LoadOrStore of the site in the in-flight map
    | Offer(k: nat)       // the non-blocking send of a claimed task
    | Enqueue(k: nat)     // a waiting goroutine finds room
    | TimeOut(k: nat)     // a waiting goroutine gives up and deletes its site
    | StartWorker
    | Receive             // the worker takes the oldest queued task
    | Finish              // the worker's deferred delete
    | Cancel              // the worker's context ends
    | Exit                // the worker sees it

  const INITIAL := State({}, [], [], [], NotStarted, false)

  predicate Enabled(s: State, step: Step) {
    match step
    case Claim(_) => true
    case Offer(k) => k < |s.claimed|
    case Enqueue(k) => k < |s.spilled| && |s.queue| < QUEUE_CAPACITY
    case TimeOut(k) => k < |s.spilled|
    case StartWorker => s.worker.NotStarted?
    case Receive => s.worker.Idle? && s.queue != []
    case Finish => s.worker.Busy?
    case Cancel => !s.worker.NotStarted?
    case Exit => s.worker.Idle? && s.cancelled
  }

  function Next(s: State, step: Step): State
    requires Enabled(s, step)
  {
    match step
    case Claim(task) =>
      if task.site in s.inFlight then s
      else s.(inFlight := s.inFlight + {task.site}, claimed := s.claimed + [task])
    case Offer(k) =>
      if |s.queue| < QUEUE_CAPACITY
      then s.(claimed := Without(s.claimed, k), queue := s.queue + [s.claimed[k]])
      else s.(claimed := Without(s.claimed, k), spilled := s.spilled + [s.claimed[k]])
    case Enqueue(k) =>
      s.(spilled := Without(s.spilled, k), queue := s.queue + [s.spilled[k]])
    case TimeOut(k) =>
      s.(spilled := Without(s.spilled, k), inFlight := s.inFlight - {s.spilled[k].site})
    case StartWorker => s.(worker := Idle)
    case Receive => s.(worker := Busy(s.queue[0]), queue := s.queue[1..])
    case Finish => s.(worker := Idle, inFlight := s.inFlight - {s.worker.task.site})
    case Cancel => s.(cancelled := true)
    case Exit => s.(worker := Stopped)
  }

  // -------------------------------------------------------- the manager

  /** The manager with its goroutines' tasks laid open; one method for each
      atomic section of the source. */
  class SiteFaviconManager {
    var inFlight: set<SiteId>
    var claimed: seq<Task>
    var workQueue: seq<Task>
    var spilled: seq<Task>
    var worker: Worker
    var cancelled: bool

    function Current(): State
      reads this
    {
      State(inFlight, claimed, workQueue, spilled, worker, cancelled)
    }

    constructor ()
      ensures Current() == INITIAL
    {
      inFlight, claimed, workQueue, spilled := {}, [], [], [];
      worker, cancelled := NotStarted, false;
    }

    /** scheduleFetch up to the queue: a site without origin, or an unforced fetch
        that is not due, is not claimed; `accepted` when a task was opened. */
    method ScheduleFetch(task: Task, origin: string, due: bool) returns (accepted: bool)
      modifies this
      ensures Current() == if origin != "" && (task.force || due) then Next(old(Current()), Claim(task)) else old(Current())
      ensures accepted <==> origin != "" && (task.force || due) && task.site !in old(inFlight)
    {
      if origin == "" { return false; }
      if !task.force && !due { return false; }
      if task.site in inFlight { return false; }
      inFlight := inFlight + {task.site};
      claimed := claimed + [task];
      return true;
    }

    method OfferTask(k: nat)
      requires k < |claimed|
      modifies this
      ensures Current() == Next(old(Current()), Offer(k))
    {
      var task := claimed[k];
      claimed := claimed[..k] + claimed[k + 1..];
      if |workQueue| < QUEUE_CAPACITY {
        workQueue := workQueue + [task];
      } else {
        spilled := spilled + [task];
      }
    }

    /** enqueueTask: either arm of the waiting goroutine's select. */
    method EnqueueTask(k: nat, timerFired: bool)
      requires k < |spilled|
      requires timerFired || |workQueue| < QUEUE_CAPACITY
      modifies this
      ensures Current() == Next(old(Current()), if timerFired then TimeOut(k) else Enqueue(k))
    {
      var task := spilled[k];
      spilled := spilled[..k] + spilled[k + 1..];
      if timerFired {
        inFlight := inFlight - {task.site};
      } else {
        workQueue := workQueue + [task];
      }
    }

    /** runWorker: one turn of the worker's loop, by either arm of its select. */
    method WorkerTurn(seesCancel: bool)
      requires worker.Idle? && (if seesCancel then cancelled else workQueue != [])
      modifies this
      ensures Current() == Next(old(Current()), if seesCancel then Exit else Receive)
    {
      if seesCancel {
        worker := Stopped;
      } else {
        worker := Busy(workQueue[0]);
        workQueue := workQueue[1..];
      }
    }

    method FinishFetch()
      requires worker.Busy?
      modifies this
      ensures Current() == Next(old(Current()), Step.Finish)
    {
      inFlight := inFlight - {worker.task.site};
      worker := Idle;
    }

    method Start()
      requires worker.NotStarted?
      modifies this
      ensures Current() == Next(old(Current()), StartWorker)
    {
      worker := Idle;
    }

    method CancelWorker()
      requires !worker.NotStarted?
      modifies this
      ensures Current() == Next(old(Current()), Step.Cancel)
    {
      cancelled := true;
    }
  }

  // ---------------------------------------------------------- invariants

  function Sites(tasks: seq<Task>): seq<SiteId> {
    seq(|tasks|, k requires 0 <= k < |tasks| => tasks[k].site)
  }

  /** The sites of all live tasks, with multiplicity. */
  function Live(s: State): multiset<SiteId> {
    multiset(Sites(s.claimed)) + multiset(Sites(s.queue)) + multiset(Sites(s.spilled))
    + (if s.worker.Busy? then multiset{s.worker.task.site} else multiset{})
  }

  /** Each site has at most one live task, and the in-flight set is exactly the
      set of sites that have one: one equation between multisets says both. */
  predicate OneTaskPerSite(s: State) {
    Live(s) == multiset(s.inFlight)
  }

  lemma SitesConcat(a: seq<Task>, b: seq<Task>)
    ensures Sites(a + b) == Sites(a) + Sites(b)
  {
  }

  lemma SitesSnoc(tasks: seq<Task>, task: Task)
    ensures multiset(Sites(tasks + [task])) == multiset(Sites(tasks)) + multiset{task.site}
  {
    SitesConcat(tasks, [task]);
    assert Sites([task]) == [task.site];
  }

  lemma SitesWithout(tasks: seq<Task>, k: nat)
    requires k < |tasks|
    ensures multiset(Sites(tasks)) == multiset(Sites(Without(tasks, k))) + multiset{tasks[k].site}
  {
    assert tasks == tasks[..k] + [tasks[k]] + tasks[k + 1..];
    SitesConcat(tasks[..k] + [tasks[k]], tasks[k + 1..]);
    SitesSnoc(tasks[..k], tasks[k]);
    SitesConcat(tasks[..k], tasks[k + 1..]);
  }

  lemma OfferMovesTask(s: State, k: nat)
    requires k < |s.claimed|
    ensures Live(Next(s, Offer(k))) == Live(s)
  {
    SitesWithout(s.claimed, k);
    if |s.queue| < QUEUE_CAPACITY {
      SitesSnoc(s.queue, s.claimed[k]);
    } else {
      SitesSnoc(s.spilled, s.claimed[k]);
    }
  }

  lemma EnqueueMovesTask(s: State, k: nat)
    requires Enabled(s, Enqueue(k))
    ensures Live(Next(s, Enqueue(k))) == Live(s)
  {
    SitesWithout(s.spilled, k);
    SitesSnoc(s.queue, s.spilled[k]);
  }

  lemma ReceiveMovesTask(s: State)
    requires Enabled(s, Receive)
    ensures Live(Next(s, Receive)) == Live(s)
  {
    SitesWithout(s.queue, 0);
    assert Without(s.queue, 0) == s.queue[1..];
  }

  lemma ClaimAddsTask(s: State, task: Task)
    requires task.site !in s.inFlight
    ensures Live(Next(s, Claim(task))) == Live(s) + multiset{task.site}
  {
    SitesSnoc(s.claimed, task);
  }

  lemma TimeOutDropsTask(s: State, k: nat)
    requires Enabled(s, TimeOut(k))
    ensures Live(s) == Live(Next(s, TimeOut(k))) + multiset{s.spilled[k].site}
  {
    SitesWithout(s.spilled, k);
  }

  lemma StepKeepsOneTaskPerSite(s: State, step: Step)
    requires OneTaskPerSite(s) && Enabled(s, step)
    ensures OneTaskPerSite(Next(s, step))
  {
    match step
    case Claim(task) =>
      if task.site !in s.inFlight { ClaimAddsTask(s, task); }
    case Offer(k) => OfferMovesTask(s, k);
    case Enqueue(k) => EnqueueMovesTask(s, k);
    case TimeOut(k) =>
      TimeOutDropsTask(s, k);
      RemoveOne(s.inFlight, s.spilled[k].site, Live(Next(s, step)));
    case Receive => ReceiveMovesTask(s);
    case Finish => RemoveOne(s.inFlight, s.worker.task.site, Live(Next(s, step)));
    case _ =>
  }

  lemma RemoveOne(sites: set<SiteId>, site: SiteId, rest: multiset<SiteId>)
    requires multiset(sites) == rest + multiset{site}
    ensures rest == multiset(sites - {site})
  {
    forall x ensures rest[x] == multiset(sites - {site})[x] {
      assert multiset(sites)[x] == rest[x] + multiset{site}[x];
    }
  }

  // ---------------------------------------------------------------- runs

  /** Any interleaving of all goroutines from the initial state. */
  ghost predicate Run(states: seq<State>, steps: seq<Step>) {
    && |states| == |steps| + 1
    && states[0] == INITIAL
    && forall i :: 0 <= i < |steps| ==> Enabled(states[i], steps[i]) && states[i + 1] == Next(states[i], steps[i])
  }

  lemma {:induction false} AtMostOneLiveTask(states: seq<State>, steps: seq<Step>, n: nat)
    requires Run(states, steps) && n < |states|
    ensures OneTaskPerSite(states[n])
    ensures |states[n].queue| <= QUEUE_CAPACITY
  {
    if n > 0 {
      AtMostOneLiveTask(states, steps, n - 1);
      StepKeepsOneTaskPerSite(states[n - 1], steps[n - 1]);
    }
  }

  /** The site whose task ends with this step. */
  function Ends(s: State, step: Step): set<SiteId>
    requires Enabled(s, step)
  {
    match step
    case TimeOut(k) => {s.spilled[k].site}
    case Finish => {s.worker.task.site}
    case _ => {}
  }

  function Opens(s: State, step: Step): set<SiteId> {
    if step.Claim? && step.task.site !in s.inFlight then {step.task.site} else {}
  }

  /** How many tasks the first `n` steps opened, and how many they ended. */
  ghost function Opened(states: seq<State>, steps: seq<Step>, n: nat): nat
    requires Run(states, steps) && n <= |steps|
  {
    if n == 0 then 0 else Opened(states, steps, n - 1) + |Opens(states[n - 1], steps[n - 1])|
  }

  ghost function Ended(states: seq<State>, steps: seq<Step>, n: nat): nat
    requires Run(states, steps) && n <= |steps|
  {
    if n == 0 then 0 else Ended(states, steps, n - 1) + |Ends(states[n - 1], steps[n - 1])|
  }

  lemma CountContinues(states: seq<State>, steps: seq<Step>, n: nat)
    requires Run(states, steps) && 0 < n <= |steps|
    ensures |states[n].inFlight|
         == |states[n - 1].inFlight| + |Opens(states[n - 1], steps[n - 1])| - |Ends(states[n - 1], steps[n - 1])|
  {
    EndedSiteIsInFlight(states, steps, n - 1);
    StepCountsTasks(states[n - 1], steps[n - 1]);
  }

  lemma {:induction false} ClaimsAreCounted(states: seq<State>, steps: seq<Step>, n: nat)
    requires Run(states, steps) && n <= |steps|
    ensures Opened(states, steps, n) == Ended(states, steps, n) + |states[n].inFlight|
  {
    if n > 0 {
      ClaimsAreCounted(states, steps, n - 1);
      CountContinues(states, steps, n);
    }
  }

  /** No task is lost: every task opened has ended or is still live. */
  lemma TasksAreConserved(states: seq<State>, steps: seq<Step>, n: nat)
    requires Run(states, steps) && n <= |steps|
    ensures Opened(states, steps, n) == Ended(states, steps, n) + |Live(states[n])|
    ensures |Live(states[n])| == |states[n].inFlight|
  {
    AtMostOneLiveTask(states, steps, n);
    MultisetSize(states[n].inFlight);
    ClaimsAreCounted(states, steps, n);
  }

  lemma StepCountsTasks(s: State, step: Step)
    requires Enabled(s, step) && Ends(s, step) <= s.inFlight
    ensures |Next(s, step).inFlight| == |s.inFlight| + |Opens(s, step)| - |Ends(s, step)|
  {
    assert Next(s, step).inFlight == s.inFlight + Opens(s, step) - Ends(s, step);
  }

  lemma {:induction false} MultisetSize(sites: set<SiteId>)
    ensures |multiset(sites)| == |sites|
  {
    if sites != {} {
      var x :| x in sites;
      MultisetSize(sites - {x});
      assert multiset(sites) == multiset(sites - {x}) + multiset{x};
    }
  }

  lemma EndedSiteIsInFlight(states: seq<State>, steps: seq<Step>, n: nat)
    requires Run(states, steps) && n < |steps|
    ensures Ends(states[n], steps[n]) <= states[n].inFlight
  {
    var s := states[n];
    AtMostOneLiveTask(states, steps, n);
    match steps[n]
    case TimeOut(k) =>
      SitesWithout(s.spilled, k);
      assert s.spilled[k].site in Live(s);
    case Finish => assert s.worker.task.site in Live(s);
    case _ =>
  }

  /** A site stays registered exactly until its own task ends, and every claim
      of it in between is refused: no site is ever fetched twice at once. */
  lemma {:induction false} RegisteredUntilItsTaskEnds(
    states: seq<State>, steps: seq<Step>, i: nat, j: nat, site: SiteId)
    requires Run(states, steps) && i <= j < |states|
    requires site in states[i].inFlight
    requires forall k :: i <= k < j ==> site !in Ends(states[k], steps[k])
    ensures site in states[j].inFlight
    ensures forall k :: i <= k < j ==> site !in Opens(states[k], steps[k])
    decreases j - i
  {
    if i < j {
      RegisteredUntilItsTaskEnds(states, steps, i, j - 1, site);
    }
  }

  /** Two accepted claims of one site are separated by the end of its task. */
  lemma ClaimsOfASiteAlternate(states: seq<State>, steps: seq<Step>, i: nat, j: nat, site: SiteId)
    requires Run(states, steps) && i < j < |steps|
    requires site in Opens(states[i], steps[i]) && site in Opens(states[j], steps[j])
    ensures exists k :: i < k < j && site in Ends(states[k], steps[k])
  {
    if forall k :: i + 1 <= k < j ==> site !in Ends(states[k], steps[k]) {
      RegisteredUntilItsTaskEnds(states, steps, i + 1, j, site);
    }
  }

  // ------------------------------------------------- tasks with their flags

  /** All live tasks, each with its site and its two flags. */
  function LiveTasks(s: State): multiset<Task> {
    multiset(s.claimed) + multiset(s.queue) + multiset(s.spilled)
    + (if s.worker.Busy? then multiset{s.worker.task} else multiset{})
  }

  function OpensTask(s: State, step: Step): multiset<Task> {
    if step.Claim? && step.task.site !in s.inFlight then multiset{step.task} else multiset{}
  }

  function EndsTask(s: State, step: Step): multiset<Task>
    requires Enabled(s, step)
  {
    match step
    case TimeOut(k) => multiset{s.spilled[k]}
    case Finish => multiset{s.worker.task}
    case _ => multiset{}
  }

  lemma AddsOne(tasks: seq<Task>, task: Task)
    ensures multiset(tasks + [task]) == multiset(tasks) + multiset{task}
  {
  }

  lemma MovesOne(source: seq<Task>, k: nat, target: seq<Task>, x: Task)
    requires k < |source|
    ensures multiset(Without(source, k))[x] + multiset(target + [source[k]])[x] == multiset(source)[x] + multiset(target)[x]
  {
    WithoutDropsOne(source, k);
    AddsOne(target, source[k]);
  }

  lemma OfferKeepsTask(s: State, k: nat)
    requires k < |s.claimed|
    ensures LiveTasks(Next(s, Offer(k))) == LiveTasks(s)
  {
    forall x ensures LiveTasks(Next(s, Offer(k)))[x] == LiveTasks(s)[x] {
      MovesOne(s.claimed, k, if |s.queue| < QUEUE_CAPACITY then s.queue else s.spilled, x);
    }
  }

  lemma EnqueueKeepsTask(s: State, k: nat)
    requires Enabled(s, Enqueue(k))
    ensures LiveTasks(Next(s, Enqueue(k))) == LiveTasks(s)
  {
    forall x ensures LiveTasks(Next(s, Enqueue(k)))[x] == LiveTasks(s)[x] {
      MovesOne(s.spilled, k, s.queue, x);
    }
  }

  lemma ReceiveKeepsTask(s: State)
    requires Enabled(s, Receive)
    ensures LiveTasks(Next(s, Receive)) == LiveTasks(s)
  {
    WithoutDropsOne(s.queue, 0);
    assert Without(s.queue, 0) == s.queue[1..];
  }

  lemma TimeOutEndsTask(s: State, k: nat)
    requires Enabled(s, TimeOut(k))
    ensures LiveTasks(s) == LiveTasks(Next(s, TimeOut(k))) + multiset{s.spilled[k]}
  {
    WithoutDropsOne(s.spilled, k);
  }

  lemma ClaimOpensTask(s: State, task: Task)
    requires task.site !in s.inFlight
    ensures LiveTasks(Next(s, Claim(task))) == LiveTasks(s) + multiset{task}
  {
    AddsOne(s.claimed, task);
  }

  lemma StepConservesTasks(s: State, step: Step)
    requires Enabled(s, step)
    ensures LiveTasks(Next(s, step)) + EndsTask(s, step) == LiveTasks(s) + OpensTask(s, step)
  {
    match step
    case Claim(task) =>
      if task.site !in s.inFlight { ClaimOpensTask(s, task); }
    case Offer(k) => OfferKeepsTask(s, k);
    case Enqueue(k) => EnqueueKeepsTask(s, k);
    case TimeOut(k) => TimeOutEndsTask(s, k);
    case Receive => ReceiveKeepsTask(s);
    case _ =>
  }

  /** The tasks opened, and the tasks ended, with multiplicity. */
  ghost function OpenedTasks(states: seq<State>, steps: seq<Step>, n: nat): multiset<Task>
    requires Run(states, steps) && n <= |steps|
  {
    if n == 0 then multiset{} else OpenedTasks(states, steps, n - 1) + OpensTask(states[n - 1], steps[n - 1])
  }

  ghost function EndedTasks(states: seq<State>, steps: seq<Step>, n: nat): multiset<Task>
    requires Run(states, steps) && n <= |steps|
  {
    if n == 0 then multiset{} else EndedTasks(states, steps, n - 1) + EndsTask(states[n - 1], steps[n - 1])
  }

  lemma AddBoth(live: multiset<Task>, ended: multiset<Task>, begun: multiset<Task>,
                next: multiset<Task>, ends: multiset<Task>, begins: multiset<Task>)
    requires live + ended == begun && next + ends == live + begins
    ensures next + (ended + ends) == begun + begins
  {
    assert next + (ended + ends) == (next + ends) + ended;
  }

  lemma StepKeepsBalance(s: State, step: Step, ended: multiset<Task>, begun: multiset<Task>)
    requires Enabled(s, step) && LiveTasks(s) + ended == begun
    ensures LiveTasks(Next(s, step)) + (ended + EndsTask(s, step)) == begun + OpensTask(s, step)
  {
    StepConservesTasks(s, step);
    AddBoth(LiveTasks(s), ended, begun, LiveTasks(Next(s, step)), EndsTask(s, step), OpensTask(s, step));
  }

  ghost predicate Balanced(states: seq<State>, steps: seq<Step>, n: nat)
    requires Run(states, steps) && n <= |steps|
  {
    LiveTasks(states[n]) + EndedTasks(states, steps, n) == OpenedTasks(states, steps, n)
  }

  lemma BalanceContinues(states: seq<State>, steps: seq<Step>, n: nat)
    requires Run(states, steps) && 0 < n <= |steps| && Balanced(states, steps, n - 1)
    ensures Balanced(states, steps, n)
  {
    StepKeepsBalance(states[n - 1], steps[n - 1], EndedTasks(states, steps, n - 1), OpenedTasks(states, steps, n - 1));
  }

  /** The tasks opened are exactly those ended and those live, with the flags they
      were opened with: no step loses a task or changes its site, force or notify. */
  lemma {:induction false} TasksKeepTheirFlags(states: seq<State>, steps: seq<Step>, n: nat)
    requires Run(states, steps) && n <= |steps|
    ensures LiveTasks(states[n]) + EndedTasks(states, steps, n) == OpenedTasks(states, steps, n)
  {
    if n > 0 {
      TasksKeepTheirFlags(states, steps, n - 1);
      BalanceContinues(states, steps, n);
    }
  }

  /** The worker is busy with the very task it took off the queue, until it finishes. */
  lemma {:induction false} WorksOnWhatItTook(states: seq<State>, steps: seq<Step>, i: nat, j: nat)
    requires Run(states, steps) && i < j <= |steps| && steps[i].Receive?
    requires forall k :: i < k < j ==> !steps[k].Finish?
    ensures states[i].queue != [] && states[j].worker == Busy(states[i].queue[0])
    decreases j
  {
    if i + 1 < j {
      WorksOnWhatItTook(states, steps, i, j - 1);
      BusyUntilFinished(states[j - 1], steps[j - 1]);
    }
  }

  lemma BusyUntilFinished(s: State, step: Step)
    requires Enabled(s, step) && s.worker.Busy? && !step.Finish?
    ensures Next(s, step).worker == s.worker
  {
  }

  // ---------------------------------------------------------- queue order

  function PutBy(s: State, step: Step): seq<Task>
    requires Enabled(s, step)
  {
    match step
    case Offer(k) => if |s.queue| < QUEUE_CAPACITY then [s.claimed[k]] else []
    case Enqueue(k) => [s.spilled[k]]
    case _ => []
  }

  function TakenBy(s: State, step: Step): seq<Task>
    requires Enabled(s, step)
  {
    if step.Receive? then [s.queue[0]] else []
  }

  /** Tasks put on the queue, and tasks taken off it, in order. */
  ghost function Queued(states: seq<State>, steps: seq<Step>, n: nat): seq<Task>
    requires Run(states, steps) && n <= |steps|
  {
    if n == 0 then [] else Queued(states, steps, n - 1) + PutBy(states[n - 1], steps[n - 1])
  }

  ghost function Processed(states: seq<State>, steps: seq<Step>, n: nat): seq<Task>
    requires Run(states, steps) && n <= |steps|
  {
    if n == 0 then [] else Processed(states, steps, n - 1) + TakenBy(states[n - 1], steps[n - 1])
  }

  lemma StepKeepsOrder(s: State, step: Step)
    requires Enabled(s, step)
    ensures TakenBy(s, step) + Next(s, step).queue == s.queue + PutBy(s, step)
  {
  }

  /** The worker processes the queued tasks in the order they were queued,
      none skipped and none repeated. */
  lemma {:induction false} ProcessedInQueueOrder(states: seq<State>, steps: seq<Step>, n: nat)
    requires Run(states, steps) && n <= |steps|
    ensures Processed(states, steps, n) + states[n].queue == Queued(states, steps, n)
  {
    if n > 0 {
      ProcessedInQueueOrder(states, steps, n - 1);
      StepKeepsOrder(states[n - 1], steps[n - 1]);
      Regroup(Processed(states, steps, n - 1), TakenBy(states[n - 1], steps[n - 1]), states[n].queue,
              states[n - 1].queue, PutBy(states[n - 1], steps[n - 1]));
    }
  }

  lemma Regroup(done: seq<Task>, taken: seq<Task>, after: seq<Task>, before: seq<Task>, put: seq<Task>)
    requires taken + after == before + put
    ensures (done + taken) + after == (done + before) + put
  {
    assert (done + taken) + after == done + (taken + after);
    assert (done + before) + put == done + (before + put);
  }

  lemma StoppedStep(s: State, step: Step)
    requires Enabled(s, step) && s.worker.Stopped?
    ensures Next(s, step).worker.Stopped? && TakenBy(s, step) == []
  {
  }

  /** Once the worker has stopped it takes no further task. */
  lemma {:induction false} StoppedWorkerStaysStopped(states: seq<State>, steps: seq<Step>, i: nat, j: nat)
    requires Run(states, steps) && i <= j < |states|
    requires states[i].worker.Stopped?
    ensures states[j].worker.Stopped?
    ensures Processed(states, steps, j) == Processed(states, steps, i)
    decreases j - i
  {
    if i < j {
      StoppedWorkerStaysStopped(states, steps, i, j - 1);
      StoppedStep(states[j - 1], steps[j - 1]);
    }
  }

  // ------------------------------------------------ the life of the worker

  lemma StepOfWorker(s: State, step: Step)
    requires Enabled(s, step)
    ensures Next(s, step).cancelled <==> s.cancelled || step.Cancel?
    ensures Next(s, step).worker.NotStarted? <==> s.worker.NotStarted? && !step.StartWorker?
    ensures Next(s, step).worker.Stopped? <==> s.worker.Stopped? || step.Exit?
    ensures step.Exit? ==> s.cancelled
  {
  }

  /** The worker has started exactly after its start, is told to stop exactly after its
      cancellation, and has stopped exactly after it has seen that; never before. */
  lemma {:induction false} LifeOfTheWorker(states: seq<State>, steps: seq<Step>, n: nat)
    requires Run(states, steps) && n <= |steps|
    ensures states[n].worker.NotStarted? <==> forall k :: 0 <= k < n ==> !steps[k].StartWorker?
    ensures states[n].cancelled <==> exists k :: 0 <= k < n && steps[k].Cancel?
    ensures states[n].worker.Stopped? <==> exists k :: 0 <= k < n && steps[k].Exit?
    ensures states[n].worker.Stopped? ==> states[n].cancelled
  {
    if n > 0 {
      LifeOfTheWorker(states, steps, n - 1);
      StepOfWorker(states[n - 1], steps[n - 1]);
    }
  }
}
