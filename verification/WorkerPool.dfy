/** The worker pool of main.go: an accept loop, a bounded job channel, a fixed number of workers, a
    bounded channel of done tokens, one receiver goroutine for each job, and a counter. */
module WorkerPool {
  import opened Basics

  const MAX_BUFFER_SIZE: nat := 100000
  const MAX_WORKERS: nat := 1000

  type Job = nat

  type Worker = w: nat | w < MAX_WORKERS

  /** The accept loop between two steps of its body. */
  datatype Acceptor = Idle | Counted | Pushed

  /** handling and sending hold the workers in their handler, and those with a token to send.
      waiting counts receivers without a token, received those about to decrement. started and
      finished are the jobs in the order in which handlers began and ended. */
  datatype State = State(
    acceptor: Acceptor,
    jobIndex: nat,
    queue: seq<Job>,
    handling: map<Worker, Job>,
    sending: map<Worker, Job>,
    tokens: nat,
    waiting: nat,
    received: nat,
    connections: int,
    started: seq<Job>,
    finished: seq<Job>
  )

  const START := State(Idle, 0, [], map[], map[], 0, 0, 0, 0, [], [])

  datatype Event =
    | Accept
    | Push
    | Spawn
    | Take(w: Worker)
    | Finish(w: Worker)
    | Send(w: Worker)
    | Receive
    | Decrement

  predicate Enabled(s: State, e: Event) {
    match e
    case Accept => s.acceptor.Idle?
    case Push => s.acceptor.Counted? && |s.queue| < MAX_BUFFER_SIZE
    case Spawn => s.acceptor.Pushed?
    case Take(w) => s.queue != [] && w !in s.handling && w !in s.sending
    case Finish(w) => w in s.handling
    case Send(w) => w in s.sending && s.tokens < MAX_BUFFER_SIZE
    case Receive => s.tokens > 0 && s.waiting > 0
    case Decrement => s.received > 0
  }

  function Next(s: State, e: Event): State
    requires Enabled(s, e)
  {
    match e
    case Accept => s.(acceptor := Counted, connections := s.connections + 1)
    case Push => s.(acceptor := Pushed, jobIndex := s.jobIndex + 1, queue := s.queue + [s.jobIndex + 1])
    case Spawn => s.(acceptor := Idle, waiting := s.waiting + 1)
    case Take(w) =>
      s.(queue := s.queue[1..], handling := s.handling[w := s.queue[0]], started := s.started + [s.queue[0]])
    case Finish(w) =>
      s.(handling := s.handling - {w}, sending := s.sending[w := s.handling[w]], finished := s.finished + [s.handling[w]])
    case Send(w) => s.(sending := s.sending - {w}, tokens := s.tokens + 1)
    case Receive => s.(tokens := s.tokens - 1, waiting := s.waiting - 1, received := s.received + 1)
    case Decrement => s.(received := s.received - 1, connections := s.connections - 1)
  }

  ghost predicate IsRun(s: State, events: seq<Event>)
    decreases |events|
  {
    events == [] || (Enabled(s, events[0]) && IsRun(Next(s, events[0]), events[1..]))
  }

  ghost function Run(s: State, events: seq<Event>): State
    requires IsRun(s, events)
    decreases |events|
  {
    if events == [] then s else Run(Next(s, events[0]), events[1..])
  }

  // ----- conservation -----

  function One(b: bool): nat { if b then 1 else 0 }

  /** Jobs pushed whose token no receiver has taken. */
  function Outstanding(s: State): nat {
    |s.queue| + |s.handling| + |s.sending| + s.tokens
  }

  ghost predicate Counting(s: State) {
    && s.connections == One(s.acceptor.Counted?) + Outstanding(s) + s.received
    && s.waiting + One(s.acceptor.Pushed?) == Outstanding(s)
    && |s.queue| <= MAX_BUFFER_SIZE && s.tokens <= MAX_BUFFER_SIZE
    && s.handling.Keys !! s.sending.Keys
  }

  lemma Removed(m: map<Worker, Job>, w: Worker)
    requires w in m
    ensures |m - {w}| == |m| - 1
  {
    assert (m - {w}).Keys == m.Keys - {w};
  }

  lemma Added(m: map<Worker, Job>, w: Worker, job: Job)
    requires w !in m
    ensures |m[w := job]| == |m| + 1
  {
    assert m[w := job].Keys == m.Keys + {w};
  }

  lemma StepCounting(s: State, e: Event)
    requires Counting(s) && Enabled(s, e)
    ensures Counting(Next(s, e))
  {
    match e
    case Take(w) => Added(s.handling, w, s.queue[0]);
    case Finish(w) => Removed(s.handling, w); Added(s.sending, w, s.handling[w]);
    case Send(w) => Removed(s.sending, w);
    case _ =>
  }

  /** In every interleaving the counter equals the accepted connections that are not yet pushed,
      queued, being handled, blocked on their token, buffered as a token, or received and not yet
      subtracted, so it is never negative; and there is or will be a receiver for every token. */
  lemma {:induction false} RunCounting(s: State, events: seq<Event>)
    requires Counting(s) && IsRun(s, events)
    ensures Counting(Run(s, events)) && Run(s, events).connections >= 0
    decreases |events|
  {
    if events != [] {
      StepCounting(s, events[0]);
      RunCounting(Next(s, events[0]), events[1..]);
    }
  }

  // ----- every job is handled exactly once -----

  ghost predicate Handled(s: State, job: Job) {
    job in s.finished || exists w :: w in s.handling && s.handling[w] == job
  }

  ghost predicate ExactlyOnce(s: State) {
    && |s.started| + |s.queue| == s.jobIndex
    && (forall i :: 0 <= i < |s.started| ==> s.started[i] == i + 1)
    && (forall i :: 0 <= i < |s.queue| ==> s.queue[i] == |s.started| + i + 1)
    && (forall i, j :: 0 <= i < j < |s.finished| ==> s.finished[i] != s.finished[j])
    && (forall w :: w in s.handling ==> s.handling[w] !in s.finished)
    && (forall v, w :: v in s.handling && w in s.handling && v != w ==> s.handling[v] != s.handling[w])
    && (forall job: Job :: Handled(s, job) <==> 1 <= job <= |s.started|)
  }

  lemma TakeOnce(s: State, w: Worker)
    requires ExactlyOnce(s) && Enabled(s, Take(w))
    ensures ExactlyOnce(Next(s, Take(w)))
  {
    var s' := Next(s, Take(w));
    var taken := s.queue[0];
    assert taken == |s.started| + 1 && !Handled(s, taken);
    assert s'.handling[w] == taken;
    forall v | v in s.handling
      ensures s.handling[v] != taken
    {
      assert Handled(s, s.handling[v]);
    }
    forall job: Job
      ensures Handled(s', job) <==> Handled(s, job) || job == taken
    {
      if Handled(s, job) && job !in s.finished {
        var v :| v in s.handling && s.handling[v] == job;
        assert s'.handling[v] == job;
      }
    }
  }

  lemma FinishOnce(s: State, w: Worker)
    requires ExactlyOnce(s) && Enabled(s, Finish(w))
    ensures ExactlyOnce(Next(s, Finish(w)))
  {
    var s' := Next(s, Finish(w));
    var job := s.handling[w];
    assert s'.finished[|s.finished|] == job;
    forall j: Job
      ensures Handled(s', j) <==> Handled(s, j)
    {
      if Handled(s, j) && j !in s.finished && j != job {
        var v :| v in s.handling && s.handling[v] == j;
        assert v in s'.handling && s'.handling[v] == j;
      }
    }
  }

  lemma StepOnce(s: State, e: Event)
    requires ExactlyOnce(s) && Enabled(s, e)
    ensures ExactlyOnce(Next(s, e))
  {
    match e
    case Take(w) => TakeOnce(s, w);
    case Finish(w) => FinishOnce(s, w);
    case _ => OtherOnce(s, e);
  }

  lemma OtherOnce(s: State, e: Event)
    requires ExactlyOnce(s) && Enabled(s, e) && !e.Take? && !e.Finish?
    ensures ExactlyOnce(Next(s, e))
  {
    var s' := Next(s, e);
    forall job: Job ensures Handled(s', job) <==> Handled(s, job) { }
  }

  /** Handlers begin in the order of acceptance, and each job that began is in exactly one handler
      or has finished exactly once. */
  lemma {:induction false} RunOnce(s: State, events: seq<Event>)
    requires ExactlyOnce(s) && IsRun(s, events)
    ensures ExactlyOnce(Run(s, events))
    decreases |events|
  {
    if events != [] {
      StepOnce(s, events[0]);
      RunOnce(Next(s, events[0]), events[1..]);
    }
  }

  // ----- no deadlock -----

  ghost predicate Moves(s: State, e: Event) {
    Enabled(s, e) && !e.Accept?
  }

  ghost predicate Quiet(s: State) {
    s.connections == 0 && s.acceptor.Idle? && s.queue == [] && s.tokens == 0 && s.waiting == 0
    && s.handling == map[] && s.sending == map[] && s.received == 0
  }

  /** While handlers return, something can move exactly as long as there is work. */
  lemma NoDeadlock(s: State)
    requires Counting(s)
    ensures (exists e :: Moves(s, e)) <==> !Quiet(s)
  {
    if !Quiet(s) {
      var e := SomeMove(s);
      assert Moves(s, e);
    }
  }

  lemma SomeMove(s: State) returns (e: Event)
    requires Counting(s) && !Quiet(s)
    ensures Moves(s, e)
  {
    if s.received > 0 { return Decrement; }
    if s.tokens > 0 && s.waiting > 0 { return Receive; }
    if s.acceptor.Pushed? { return Spawn; }
    if s.sending != map[] {
      var w :| w in s.sending;
      return Send(w);
    }
    if s.handling != map[] {
      var w :| w in s.handling;
      return Finish(w);
    }
    if s.queue != [] { return Take(0); }
    return Push;
  }

  /** Without the handlers' help: nothing moves exactly when no token or receiver is under way and
      the accept loop and the queue wait for a worker, all of whom are inside their handlers. */
  lemma OnlyHandlersBlock(s: State)
    requires Counting(s)
    ensures (forall e :: Moves(s, e) ==> e.Finish?)
            <==> && s.received == 0 && s.tokens == 0 && s.sending == map[]
                 && !s.acceptor.Pushed?
                 && (s.acceptor.Counted? ==> |s.queue| == MAX_BUFFER_SIZE)
                 && (s.queue != [] ==> forall w: Worker :: w in s.handling)
  {
    if forall e :: Moves(s, e) ==> e.Finish? {
      assert !Moves(s, Decrement) && !Moves(s, Spawn) && !Moves(s, Push) && !Moves(s, Receive);
      assert forall w :: w in s.sending ==> !Moves(s, Send(w));
      assert s.sending == map[];
      forall w: Worker | s.queue != []
        ensures w in s.handling
      {
        assert !Moves(s, Take(w));
      }
    }
  }

  // ----- draining -----

  /** The steps that remain for the connections in the pool. */
  function Work(s: State): nat {
    7 * One(s.acceptor.Counted?) + One(s.acceptor.Pushed?) + 5 * |s.queue| + 4 * |s.handling| + 3 * |s.sending|
    + 2 * s.tokens + s.received
  }

  lemma StepWork(s: State, e: Event)
    requires Enabled(s, e)
    requires s.handling.Keys !! s.sending.Keys
    ensures Work(Next(s, e)) == if e.Accept? then Work(s) + 7 else Work(s) - 1
  {
    match e
    case Take(w) => Added(s.handling, w, s.queue[0]);
    case Finish(w) => Removed(s.handling, w); Added(s.sending, w, s.handling[w]);
    case Send(w) => Removed(s.sending, w);
    case _ =>
  }

  function Accepts(events: seq<Event>): nat {
    if events == [] then 0 else One(events[0].Accept?) + Accepts(events[1..])
  }

  /** Every connection costs exactly eight steps: an accept and seven more. */
  lemma {:induction false} RunWork(s: State, events: seq<Event>)
    requires Counting(s) && IsRun(s, events)
    ensures Work(Run(s, events)) + |events| == Work(s) + 8 * Accepts(events)
    decreases |events|
  {
    if events != [] {
      StepCounting(s, events[0]);
      StepWork(s, events[0]);
      RunWork(Next(s, events[0]), events[1..]);
    }
  }

  /** Drain: once accepting stops, no run is longer than the remaining work, a run stops only when
      it has done all of it, and then the counter is zero, the channels are empty, and exactly the
      jobs 1 to jobIndex were handled, once each. */
  lemma Drains(before: seq<Event>, after: seq<Event>)
    requires IsRun(START, before)
    requires IsRun(Run(START, before), after) && Accepts(after) == 0
    ensures Drained(Run(START, before), |after|, Run(Run(START, before), after))
  {
    var s := Run(START, before);
    StartsCounting();
    StartsOnce();
    RunCounting(START, before);
    RunOnce(START, before);
    DrainsFrom(s, after);
  }

  ghost predicate Drained(s: State, steps: nat, s': State) {
    && steps <= Work(s)
    && (steps == Work(s) <==> Quiet(s'))
    && ((forall e :: !Moves(s', e)) <==> Quiet(s'))
    && (Quiet(s') ==> AllHandled(s'))
  }

  lemma DrainsFrom(s: State, after: seq<Event>)
    requires Counting(s) && ExactlyOnce(s) && IsRun(s, after) && Accepts(after) == 0
    ensures Drained(s, |after|, Run(s, after))
  {
    var s' := Run(s, after);
    RunCounting(s, after);
    RunOnce(s, after);
    RunWork(s, after);
    NoDeadlock(s');
    QuietIsNoWork(s');
    if Quiet(s') { QuietHandledAll(s'); }
  }

  lemma QuietIsNoWork(s: State)
    requires Counting(s)
    ensures Work(s) == 0 <==> Quiet(s)
  {
  }

  lemma StartsCounting()
    ensures Counting(START)
  {
  }

  lemma StartsOnce()
    ensures ExactlyOnce(START)
  {
  }

  ghost predicate AllHandled(s: State) {
    && (forall job: Job :: job in s.finished <==> 1 <= job <= s.jobIndex)
    && (forall i, j :: 0 <= i < j < |s.finished| ==> s.finished[i] != s.finished[j])
  }

  lemma QuietHandledAll(s: State)
    requires ExactlyOnce(s) && Quiet(s)
    ensures AllHandled(s)
  {
    forall job: Job
      ensures job in s.finished <==> 1 <= job <= s.jobIndex
    {
      assert Handled(s, job) <==> job in s.finished;
    }
  }

  /** The pool can always be drained from where it is. */
  lemma {:induction false} DrainRun(s: State) returns (events: seq<Event>)
    requires Counting(s)
    ensures IsRun(s, events) && Accepts(events) == 0 && Quiet(Run(s, events))
    decreases Work(s)
  {
    if Quiet(s) {
      events := [];
    } else {
      var e := SomeMove(s);
      StepCounting(s, e);
      StepWork(s, e);
      var rest := DrainRun(Next(s, e));
      events := [e] + rest;
      assert events[1..] == rest;
    }
  }

  // ----- the loops of the code, with the other goroutines running in between -----

  predicate OfAcceptor(e: Event) {
    e.Accept? || e.Push? || e.Spawn?
  }

  predicate OfWorker(e: Event, w: Worker) {
    e == Take(w) || e == Finish(w) || e == Send(w)
  }

  lemma {:induction false} RunJoins(s: State, es: seq<Event>, fs: seq<Event>)
    requires IsRun(s, es) && IsRun(Run(s, es), fs)
    ensures IsRun(s, es + fs) && Run(s, es + fs) == Run(Run(s, es), fs)
    ensures Accepts(es + fs) == Accepts(es) + Accepts(fs)
    decreases |es|
  {
    if es == [] {
      assert es + fs == fs;
    } else {
      assert (es + fs)[1..] == es[1..] + fs;
      RunJoins(Next(s, es[0]), es[1..], fs);
    }
  }

  lemma Extends(s: State, es: seq<Event>, e: Event)
    requires IsRun(s, es) && Enabled(Run(s, es), e)
    ensures IsRun(s, es + [e]) && Run(s, es + [e]) == Next(Run(s, es), e)
    ensures Accepts(es + [e]) == Accepts(es) + One(e.Accept?)
  {
    assert [e][1..] == [];
    RunJoins(s, es, [e]);
  }

  /** What the accept loop can rely on while the others run. */
  lemma {:induction false} OthersKeepAcceptor(s: State, es: seq<Event>)
    requires IsRun(s, es) && forall e :: e in es ==> !OfAcceptor(e)
    ensures Run(s, es).acceptor == s.acceptor && Run(s, es).jobIndex == s.jobIndex && Accepts(es) == 0
    decreases |es|
  {
    if es != [] {
      assert es[0] in es && forall e :: e in es[1..] ==> e in es;
      OthersKeepAcceptor(Next(s, es[0]), es[1..]);
    }
  }

  ghost predicate SameWorker(s: State, s': State, w: Worker) {
    && (w in s.handling <==> w in s'.handling) && (w in s.handling ==> s'.handling[w] == s.handling[w])
    && (w in s.sending <==> w in s'.sending) && (w in s.sending ==> s'.sending[w] == s.sending[w])
    && s.finished <= s'.finished
  }

  /** What a worker can rely on. */
  lemma {:induction false} OthersKeepWorker(s: State, es: seq<Event>, w: Worker)
    requires IsRun(s, es) && forall e :: e in es ==> !OfWorker(e, w)
    ensures SameWorker(s, Run(s, es), w)
    decreases |es|
  {
    if es != [] {
      assert es[0] in es && forall e :: e in es[1..] ==> e in es;
      OthersKeepWorker(Next(s, es[0]), es[1..], w);
    }
  }

  /** The offered steps that are taken, each unless its goroutine is blocked. */
  ghost function Greedy(s: State, offered: seq<Event>): seq<Event>
    decreases |offered|
  {
    if offered == [] then []
    else if Enabled(s, offered[0]) then [offered[0]] + Greedy(Next(s, offered[0]), offered[1..])
    else Greedy(s, offered[1..])
  }

  /** What a worker saw in a round: the job at the head of the queue, if there was one, after so many
      steps of the run. */
  datatype Look = Look(at: nat, job: Option<Job>)

  function Head(queue: seq<Job>): Option<Job> {
    if queue == [] then None else Some(queue[0])
  }

  /** The look tells the truth about that moment, and a job that was there was taken by the next step. */
  ghost predicate Saw(s0: State, trace: seq<Event>, w: Worker, look: Look) {
    && look.at <= |trace| && IsRun(s0, trace[..look.at])
    && look.job == Head(Run(s0, trace[..look.at]).queue)
    && (look.job.Some? ==> look.at < |trace| && trace[look.at] == Take(w))
  }

  lemma StillSaw(s0: State, trace: seq<Event>, longer: seq<Event>, w: Worker, look: Look)
    requires Saw(s0, trace, w, look) && trace <= longer
    ensures Saw(s0, longer, w, look)
  {
    assert longer[..look.at] == trace[..look.at];
  }

  function JobsOf(looks: seq<Look>): seq<Job> {
    if looks == [] then []
    else
      var last := looks[|looks| - 1];
      JobsOf(looks[..|looks| - 1]) + if last.job.Some? then [last.job.value] else []
  }

  function Trues(bs: seq<bool>): nat {
    if bs == [] then 0 else Trues(bs[..|bs| - 1]) + One(bs[|bs| - 1])
  }

  /** All looks were true, and their jobs are finished, new since s0, and distinct. */
  ghost predicate AllSaw(s0: State, trace: seq<Event>, w: Worker, looks: seq<Look>, finished: seq<Job>) {
    && (forall i {:trigger Saw(s0, trace, w, looks[i])} :: 0 <= i < |looks| ==> Saw(s0, trace, w, looks[i]))
    && (forall i :: 0 <= i < |looks| && looks[i].job.Some? ==>
          looks[i].job.value in finished && looks[i].job.value !in s0.finished)
    && (forall i, j :: 0 <= i < j < |looks| && looks[i].job.Some? ==> looks[i].job != looks[j].job)
  }

  lemma OneMoreLook(s0: State, trace: seq<Event>, longer: seq<Event>, w: Worker, looks: seq<Look>, look: Look,
                    finished: seq<Job>, later: seq<Job>)
    requires AllSaw(s0, trace, w, looks, finished) && trace <= longer && Saw(s0, longer, w, look)
    requires s0.finished <= finished <= later
    requires look.job.Some? ==> look.job.value !in finished && look.job.value in later
    ensures AllSaw(s0, longer, w, looks + [look], later)
  {
    forall i | 0 <= i < |looks| ensures Saw(s0, longer, w, looks[i]) { StillSaw(s0, trace, longer, w, looks[i]); }
    forall job | job in finished ensures job in later { }
  }

  /** The jobs seen are the front of the first queue, one for each look while there were any, and the rest
      of it is the second. */
  ghost predicate FrontOf(looks: seq<Look>, first: seq<Job>, rest: seq<Job>) {
    first == JobsOf(looks) + rest && |JobsOf(looks)| == if |looks| <= |first| then |looks| else |first|
  }

  lemma FrontOfNone(queue: seq<Job>)
    ensures FrontOf([], queue, queue)
  {
  }

  lemma OneMoreOfFront(looks: seq<Look>, look: Look, first: seq<Job>, rest: seq<Job>)
    requires FrontOf(looks, first, rest) && look.job == Head(rest)
    ensures FrontOf(looks + [look], first, if rest == [] then [] else rest[1..])
  {
    assert (looks + [look])[..|looks|] == looks;
  }

  /** The steps that the scheduler offers to the other goroutines before the first statement of a loop
      body and in the two gaps inside it. */
  datatype Gaps = Gaps(ahead: seq<Event>, first: seq<Event>, second: seq<Event>)

  const NOBODY := Gaps([], [], [])

  ghost predicate WithoutAcceptor(g: Gaps) {
    && (forall e :: e in g.ahead ==> !OfAcceptor(e))
    && (forall e :: e in g.first ==> !OfAcceptor(e))
    && (forall e :: e in g.second ==> !OfAcceptor(e))
  }

  ghost predicate WithoutWorker(g: Gaps, w: Worker) {
    && (forall e :: e in g.ahead ==> !OfWorker(e, w))
    && (forall e :: e in g.first ==> !OfWorker(e, w))
    && (forall e :: e in g.second ==> !OfWorker(e, w))
  }

  /** The channels, goroutines and counter of run. */
  class Pool {
    var acceptor: Acceptor
    var jobIndex: nat
    var jobQueue: seq<Job>
    var handling: map<Worker, Job>
    var sending: map<Worker, Job>
    var done: nat
    var waiting: nat
    var received: nat
    var connections: int
    ghost var started: seq<Job>
    ghost var finished: seq<Job>

    ghost function View(): State
      reads this
    {
      State(acceptor, jobIndex, jobQueue, handling, sending, done, waiting, received, connections, started, finished)
    }

    constructor ()
      ensures View() == START
    {
      acceptor, jobIndex, jobQueue := Idle, 0, [];
      handling, sending := map[], map[];
      done, waiting, received, connections := 0, 0, 0, 0;
      started, finished := [], [];
    }

    predicate CanStep(e: Event): (can: bool)
      reads this
      ensures can <==> Enabled(View(), e)
    {
      match e
      case Accept => acceptor.Idle?
      case Push => acceptor.Counted? && |jobQueue| < MAX_BUFFER_SIZE
      case Spawn => acceptor.Pushed?
      case Take(w) => jobQueue != [] && w !in handling && w !in sending
      case Finish(w) => w in handling
      case Send(w) => w in sending && done < MAX_BUFFER_SIZE
      case Receive => done > 0 && waiting > 0
      case Decrement => received > 0
    }

    method Step(e: Event)
      requires Enabled(View(), e)
      modifies this
      ensures View() == Next(old(View()), e)
    {
      match e {
        case Accept => connections, acceptor := connections + 1, Counted;
        case Push => jobIndex, jobQueue, acceptor := jobIndex + 1, jobQueue + [jobIndex + 1], Pushed;
        case Spawn => waiting, acceptor := waiting + 1, Idle;
        case Take(w) =>
          handling, started := handling[w := jobQueue[0]], started + [jobQueue[0]];
          jobQueue := jobQueue[1..];
        case Finish(w) =>
          sending, finished := sending[w := handling[w]], finished + [handling[w]];
          handling := handling - {w};
        case Send(w) => sending, done := sending - {w}, done + 1;
        case Receive => done, waiting, received := done - 1, waiting - 1, received + 1;
        case Decrement => received, connections := received - 1, connections - 1;
      }
    }

    /** The other goroutines run: each offered step is taken unless its goroutine is blocked. The
        steps are added to those taken since s0. */
    method Others(ghost s0: State, trace: seq<Event>, offered: seq<Event>) returns (longer: seq<Event>, ghost more: seq<Event>)
      requires IsRun(s0, trace) && View() == Run(s0, trace)
      modifies this
      ensures IsRun(s0, longer) && View() == Run(s0, longer) && Accepts(longer) == Accepts(trace) + Accepts(more)
      ensures IsRun(old(View()), more) && View() == Run(old(View()), more)
      ensures forall e :: e in more ==> e in offered
      ensures longer == trace + more && more == Greedy(old(View()), offered)
    {
      var taken: seq<Event> := [];
      for i := 0 to |offered|
        invariant IsRun(old(View()), taken) && View() == Run(old(View()), taken)
        invariant forall e :: e in taken ==> e in offered
        invariant taken + Greedy(View(), offered[i..]) == Greedy(old(View()), offered)
      {
        assert offered[i..][1..] == offered[i + 1..];
        if CanStep(offered[i]) {
          Extends(old(View()), taken, offered[i]);
          Step(offered[i]);
          taken := taken + [offered[i]];
        }
      }
      RunJoins(s0, trace, taken);
      longer, more := trace + taken, taken;
    }

    method OthersThanAcceptor(ghost s0: State, trace: seq<Event>, offered: seq<Event>) returns (longer: seq<Event>)
      requires IsRun(s0, trace) && View() == Run(s0, trace) && forall e :: e in offered ==> !OfAcceptor(e)
      modifies this
      ensures IsRun(s0, longer) && View() == Run(s0, longer) && Accepts(longer) == Accepts(trace)
      ensures acceptor == old(acceptor) && jobIndex == old(jobIndex)
    {
      ghost var more;
      longer, more := Others(s0, trace, offered);
      OthersKeepAcceptor(old(View()), more);
    }

    method OthersThanWorker(w: Worker, ghost s0: State, trace: seq<Event>, offered: seq<Event>) returns (longer: seq<Event>)
      requires IsRun(s0, trace) && View() == Run(s0, trace) && forall e :: e in offered ==> !OfWorker(e, w)
      requires ExactlyOnce(View())
      modifies this
      ensures IsRun(s0, longer) && View() == Run(s0, longer) && SameWorker(old(View()), View(), w)
      ensures ExactlyOnce(View()) && trace <= longer
      ensures offered == [] ==> longer == trace && View() == old(View())
    {
      ghost var more;
      longer, more := Others(s0, trace, offered);
      OthersKeepWorker(old(View()), more, w);
      RunOnce(old(View()), more);
    }

    /** One connection that the listener returned: counted, pushed, and given its receiver. It is
        blocked when the job channel is full. */
    method ServeOne(ghost s0: State, trace: seq<Event>, gaps: Gaps)
      returns (longer: seq<Event>, blocked: bool)
      requires acceptor.Idle? && IsRun(s0, trace) && View() == Run(s0, trace)
      requires WithoutAcceptor(gaps)
      modifies this
      ensures IsRun(s0, longer) && View() == Run(s0, longer) && Accepts(longer) == Accepts(trace) + 1
      ensures if blocked then acceptor.Counted? && |jobQueue| >= MAX_BUFFER_SIZE && jobIndex == old(jobIndex)
              else acceptor.Idle? && jobIndex == old(jobIndex) + 1
    {
      Extends(s0, trace, Accept);
      connections := connections + 1;
      acceptor := Counted;
      longer := OthersThanAcceptor(s0, trace + [Accept], gaps.first);
      if |jobQueue| >= MAX_BUFFER_SIZE { return longer, true; }
      Extends(s0, longer, Push);
      jobIndex := jobIndex + 1;
      jobQueue := jobQueue + [jobIndex];
      acceptor := Pushed;
      longer := OthersThanAcceptor(s0, longer + [Push], gaps.second);
      Extends(s0, longer, Spawn);
      waiting := waiting + 1;
      acceptor := Idle;
      return longer + [Spawn], false;
    }

    /** The accept loop, for what the listener returns (false is an error). Whatever the others do
        meanwhile, it is a run of the pool; after the last connection every accepted one is pushed and
        has its receiver, and it stops before only because the job channel is full. */
    method AcceptLoop(listener: seq<bool>, others: seq<Gaps>) returns (trace: seq<Event>, taken: nat)
      requires acceptor.Idle? && |others| == |listener|
      requires forall g :: g in others ==> WithoutAcceptor(g)
      modifies this
      ensures IsRun(old(View()), trace) && View() == Run(old(View()), trace)
      ensures taken <= |listener| && jobIndex == old(jobIndex) + Trues(listener[..taken])
      ensures taken == |listener| ==> acceptor.Idle? && Accepts(trace) == Trues(listener)
      ensures taken < |listener| ==>
                listener[taken] && acceptor.Counted? && |jobQueue| >= MAX_BUFFER_SIZE
                && Accepts(trace) == Trues(listener[..taken]) + 1
    {
      ghost var s0 := View();
      trace, taken := [], 0;
      while taken < |listener|
        invariant taken <= |listener| && acceptor.Idle?
        invariant IsRun(s0, trace) && View() == Run(s0, trace)
        invariant jobIndex == old(jobIndex) + Trues(listener[..taken]) && Accepts(trace) == Trues(listener[..taken])
      {
        assert listener[..taken + 1][..taken] == listener[..taken];
        assert others[taken] in others;
        trace := OthersThanAcceptor(s0, trace, others[taken].ahead);
        if listener[taken] {
          var blocked;
          trace, blocked := ServeOne(s0, trace, others[taken]);
          if blocked { return; }
        }
        taken := taken + 1;
      }
      assert listener[..taken] == listener;
    }

    /** A free worker takes the oldest job, and is in its handler while the others run. */
    method Begin(w: Worker, ghost s0: State, trace: seq<Event>, gap: seq<Event>) returns (longer: seq<Event>, job: Job)
      requires w !in handling && w !in sending && jobQueue != [] && ExactlyOnce(View())
      requires IsRun(s0, trace) && View() == Run(s0, trace) && forall e :: e in gap ==> !OfWorker(e, w)
      modifies this
      ensures IsRun(s0, longer) && View() == Run(s0, longer) && ExactlyOnce(View()) && trace + [Take(w)] <= longer
      ensures job == old(jobQueue[0]) && job !in old(finished) && old(finished) <= finished
      ensures w in handling && handling[w] == job && w !in sending
      ensures gap == [] ==> jobQueue == old(jobQueue)[1..]
    {
      Extends(s0, trace, Take(w));
      StepOnce(View(), Take(w));
      job := jobQueue[0];
      assert !Handled(View(), job);
      jobQueue := jobQueue[1..];
      handling, started := handling[w := job], started + [job];
      longer := OthersThanWorker(w, s0, trace + [Take(w)], gap);
    }

    /** Its handler returns, and it has a token to send while the others run. */
    method End(w: Worker, ghost s0: State, trace: seq<Event>, gap: seq<Event>) returns (longer: seq<Event>)
      requires w in handling && w !in sending && ExactlyOnce(View())
      requires IsRun(s0, trace) && View() == Run(s0, trace) && forall e :: e in gap ==> !OfWorker(e, w)
      modifies this
      ensures IsRun(s0, longer) && View() == Run(s0, longer) && ExactlyOnce(View()) && trace + [Finish(w)] <= longer
      ensures old(finished) + [old(handling[w])] <= finished
      ensures w !in handling && w in sending && sending[w] == old(handling[w])
      ensures gap == [] ==> jobQueue == old(jobQueue)
    {
      Extends(s0, trace, Finish(w));
      StepOnce(View(), Finish(w));
      var job := handling[w];
      handling, sending := handling - {w}, sending[w := job];
      finished := finished + [job];
      longer := OthersThanWorker(w, s0, trace + [Finish(w)], gap);
    }

    /** One job of a worker, from taking it to sending its token. It is blocked when the token channel
        is full. */
    method HandleOne(w: Worker, ghost s0: State, trace: seq<Event>, gaps: Gaps)
      returns (longer: seq<Event>, job: Job, blocked: bool)
      requires w !in handling && w !in sending && jobQueue != [] && ExactlyOnce(View())
      requires IsRun(s0, trace) && View() == Run(s0, trace)
      requires WithoutWorker(gaps, w)
      modifies this
      ensures IsRun(s0, longer) && View() == Run(s0, longer) && ExactlyOnce(View()) && trace + [Take(w)] <= longer
      ensures job == old(jobQueue[0]) && job !in old(finished) && old(finished) <= finished && job in finished
      ensures w !in handling
      ensures if blocked then w in sending && sending[w] == job && done >= MAX_BUFFER_SIZE else w !in sending
      ensures gaps == NOBODY ==> jobQueue == old(jobQueue)[1..]
    {
      longer, job := Begin(w, s0, trace, gaps.first);
      ghost var before := finished + [job];
      assert before[|finished|] == job;
      longer := End(w, s0, longer, gaps.second);
      assert finished[|before| - 1] == job;
      if done >= MAX_BUFFER_SIZE { return longer, job, true; }
      Extends(s0, longer, Send(w));
      StepOnce(View(), Send(w));
      sending, done := sending - {w}, done + 1;
      return longer + [Send(w)], job, false;
    }

    /** Look at the job channel, and handle the job at its head, if there is one. */
    method LookAndHandle(w: Worker, ghost s0: State, trace: seq<Event>, gaps: Gaps)
      returns (longer: seq<Event>, look: Look, blocked: bool)
      requires w !in handling && w !in sending && ExactlyOnce(View())
      requires IsRun(s0, trace) && View() == Run(s0, trace)
      requires WithoutWorker(gaps, w)
      modifies this
      ensures IsRun(s0, longer) && View() == Run(s0, longer) && ExactlyOnce(View()) && trace <= longer
      ensures look == Look(|trace|, Head(old(jobQueue))) && Saw(s0, longer, w, look)
      ensures look.job.Some? ==> look.job.value !in old(finished) && look.job.value in finished
      ensures old(finished) <= finished && w !in handling
      ensures if blocked then look.job.Some? && w in sending && sending[w] == look.job.value && done >= MAX_BUFFER_SIZE
              else w !in sending
      ensures gaps == NOBODY ==> jobQueue == if old(jobQueue) == [] then [] else old(jobQueue)[1..]
    {
      longer, look, blocked := trace, Look(|trace|, None), false;
      assert trace[..|trace|] == trace;
      if jobQueue != [] {
        var job;
        longer, job, blocked := HandleOne(w, s0, trace, gaps);
        look := Look(|trace|, Some(job));
        assert longer[..|trace|] == trace && longer[|trace|] == (trace + [Take(w)])[|trace|];
      }
    }

    /** A worker between two rounds, with what it saw in its run since s0. */
    ghost predicate Working(w: Worker, s0: State, trace: seq<Event>, looks: seq<Look>)
      reads this
    {
      && IsRun(s0, trace) && View() == Run(s0, trace) && ExactlyOnce(View())
      && s0.finished <= finished && AllSaw(s0, trace, w, looks, finished) && w !in handling
    }

    /** The worker has a token and no room for it. */
    predicate Blocked(w: Worker, looks: seq<Look>)
      reads this
    {
      looks != [] && w in sending && looks[|looks| - 1].job == Some(sending[w]) && done >= MAX_BUFFER_SIZE
    }

    /** One round: the others run, then the worker looks at the job channel. */
    method Round(w: Worker, ghost s0: State, trace: seq<Event>, looks: seq<Look>, gaps: Gaps)
      returns (longer: seq<Event>, look: Look, blocked: bool)
      requires Working(w, s0, trace, looks) && w !in sending
      requires WithoutWorker(gaps, w)
      modifies this
      ensures Working(w, s0, longer, looks + [look])
      ensures if blocked then Blocked(w, looks + [look]) else w !in sending
      ensures gaps == NOBODY && FrontOf(looks, s0.queue, old(jobQueue)) ==> FrontOf(looks + [look], s0.queue, jobQueue)
    {
      longer := OthersThanWorker(w, s0, trace, gaps.ahead);
      ghost var queue, finishedThen := jobQueue, finished;
      longer, look, blocked := LookAndHandle(w, s0, longer, gaps);
      OneMoreLook(s0, trace, longer, w, looks, look, finishedThen, finished);
      if FrontOf(looks, s0.queue, queue) { OneMoreOfFront(looks, look, s0.queue, queue); }
    }

    /** One worker for as many rounds as gaps are given, with the others running in between: a run of
        the pool. In every round it took the job at the head of the queue exactly when there was one,
        ended it, and took no job twice; it stops before the last round only because the token channel
        is full. When the others do nothing, its jobs are the front of the queue, one a round while
        there are any. */
    method ProxyWorker(w: Worker, others: seq<Gaps>)
      returns (trace: seq<Event>, looks: seq<Look>, blocked: bool)
      requires w !in handling && w !in sending && ExactlyOnce(View())
      requires forall g :: g in others ==> WithoutWorker(g, w)
      modifies this
      ensures Working(w, old(View()), trace, looks)
      ensures if blocked then Blocked(w, looks) && |looks| <= |others| else w !in sending && |looks| == |others|
      ensures (forall g :: g in others ==> g == NOBODY) ==> FrontOf(looks, old(jobQueue), jobQueue)
    {
      ghost var s0 := View();
      trace, looks, blocked := [], [], false;
      FrontOfNone(jobQueue);
      for round := 0 to |others|
        invariant Working(w, s0, trace, looks) && w !in sending && !blocked && |looks| == round
        invariant (forall g :: g in others ==> g == NOBODY) ==> FrontOf(looks, s0.queue, jobQueue)
      {
        var look;
        assert others[round] in others;
        trace, look, blocked := Round(w, s0, trace, looks, others[round]);
        looks := looks + [look];
        if blocked { return; }
      }
    }
  }
}
