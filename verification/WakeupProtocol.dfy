/** One event loop and any number of threads posting to it: the functor queue under its mutex, the eventfd, and
    the loop that polls, drains the eventfd, swaps the queue and runs the batch. Each atomic action is a step
    and steps interleave freely. */
module WakeupProtocol {
  import opened Sequences

  // the largest value an eventfd counter takes; a write that would exceed it fails and changes nothing
  const MAX_COUNTER: nat := 0xFFFF_FFFF_FFFF_FFFE

  type Functor = nat
  type Thread = nat

  // what epoll_wait reports: the wakeup channel or any other
  datatype Item = Wakeup | Other

  datatype Pc =
    | Idle                                // loop() not entered yet
    | Testing                             // at while(!quit_)
    | Polling                             // in epoll_wait
    | Dispatching(items: seq<Item>)       // channels still to be handled
    | Swapping                            // callingPendingFunctors_ set, queue not swapped yet
    | Running(batch: seq<Functor>)        // functors of the batch still to run
    | Stopped

  datatype State = State(
    pc: Pc,
    queue: seq<Functor>,                  // pendingFunctors_
    counter: nat,                         // of the eventfd
    quit: bool,
    calling: bool,                        // callingPendingFunctors_
    posting: set<Thread>,                 // threads between their push and their wakeup()
    quitting: set<Thread>,                // threads between quit_=true and their wakeup()
    owes: bool,                           // the loop thread is between its own push and its wakeup()
    pushed: seq<Functor>,                 // all pushes, in lock order
    executed: seq<Functor>,
    rounds: nat)                          // doPendingFunctors calls completed

  datatype Step =
    // other threads
    | Post(t: Thread, f: Functor)
    | Quit(t: Thread)
    | WakeAfterPost(t: Thread)
    | WakeAfterQuit(t: Thread)
    // the loop thread
    | EarlyPost(f: Functor)
    | Enter
    | Test
    | PollReturn(items: seq<Item>)
    | Handle
    | BeginCalling
    | Swap
    | RunOne
    | End
    // the loop thread inside a handler or a functor
    | OwnPost(f: Functor)
    | OwnQuit
    | OwnWake

  function WriteEventfd(counter: nat): nat {
    if counter + 1 > MAX_COUNTER then counter else counter + 1
  }

  function Wakeups(items: seq<Item>): nat {
    if items == [] then 0 else (if items[0] == Wakeup then 1 else 0) + Wakeups(items[1..])
  }

  predicate Enabled(s: State, e: Step) {
    match e
    case Post(t, _) => t !in s.posting + s.quitting
    case Quit(t) => t !in s.posting + s.quitting
    case WakeAfterPost(t) => t in s.posting
    case WakeAfterQuit(t) => t in s.quitting
    case EarlyPost(_) => s.pc == Idle
    case Enter => s.pc == Idle
    case Test => s.pc == Testing
    // with nothing to report poll returns after its timeout
    case PollReturn(items) => s.pc == Polling && Wakeups(items) <= (if s.counter > 0 then 1 else 0)
    case Handle => s.pc.Dispatching? && s.pc.items != []
    case BeginCalling => s.pc == Dispatching([])
    case Swap => s.pc == Swapping
    case RunOne => s.pc.Running? && s.pc.batch != [] && !s.owes
    case End => s.pc == Running([]) && !s.owes
    case OwnPost(_) => (s.pc.Dispatching? || s.pc.Running?) && !s.owes
    case OwnQuit => (s.pc.Dispatching? || s.pc.Running?) && !s.owes
    case OwnWake => s.owes
  }

  function Push(s: State, f: Functor): State {
    s.(queue := s.queue + [f], pushed := s.pushed + [f])
  }

  function Next(s: State, e: Step): State
    requires Enabled(s, e)
  {
    match e
    case Post(t, f) => Push(s, f).(posting := s.posting + {t})
    case Quit(t) => s.(quit := true, quitting := s.quitting + {t})
    case WakeAfterPost(t) => s.(posting := s.posting - {t}, counter := WriteEventfd(s.counter))
    case WakeAfterQuit(t) => s.(quitting := s.quitting - {t}, counter := WriteEventfd(s.counter))
    case EarlyPost(f) => Push(s, f).(owes := s.calling)
    case Enter => s.(pc := Testing, quit := false)
    case Test => s.(pc := if s.quit then Stopped else Polling)
    case PollReturn(items) => s.(pc := Dispatching(items))
    case Handle =>
      var t := s.(pc := Dispatching(s.pc.items[1..]));
      if s.pc.items[0] == Wakeup then t.(counter := 0) else t
    case BeginCalling => s.(pc := Swapping, calling := true)
    case Swap => s.(pc := Running(s.queue), queue := [])
    case RunOne => s.(pc := Running(s.pc.batch[1..]), executed := s.executed + [s.pc.batch[0]])
    case End => s.(pc := Testing, calling := false, rounds := s.rounds + 1)
    case OwnPost(f) => Push(s, f).(owes := s.calling)
    case OwnQuit => s.(quit := true)
    case OwnWake => s.(owes := false, counter := WriteEventfd(s.counter))
  }

  const START: State := State(Idle, [], 0, false, false, {}, {}, false, [], [], 0)

  predicate Possible(s: State, run: seq<Step>)
    decreases run
  {
    run == [] || (Enabled(s, run[0]) && Possible(Next(s, run[0]), run[1..]))
  }

  function Run(s: State, run: seq<Step>): State
    requires Possible(s, run)
    decreases run
  {
    if run == [] then s else Run(Next(s, run[0]), run[1..])
  }

  // ---------------------------------------------------------------- what has happened along a run

  predicate Enters(e: Step) { e.Enter? }

  predicate Returns(e: Step) { e.PollReturn? }

  predicate PostsEarly(e: Step) { e.EarlyPost? }

  predicate Posts(e: Step) { e.Post? }

  predicate QuitsFromOutside(e: Step) { e.Quit? }

  predicate Wakes(e: Step) { e.WakeAfterPost? || e.WakeAfterQuit? }

  predicate Some(run: seq<Step>, p: Step -> bool) {
    exists i :: 0 <= i < |run| && p(run[i])
  }

  lemma SomeTail(run: seq<Step>, p: Step -> bool)
    requires run != []
    ensures Some(run, p) <==> p(run[0]) || Some(run[1..], p)
  {
    var rest := run[1..];
    if i :| 0 <= i < |rest| && p(rest[i]) {
      assert p(run[i + 1]);
    }
    if i :| 0 < i < |run| && p(run[i]) {
      assert p(rest[i - 1]);
    }
  }

  // ---------------------------------------------------------------- invariants

  function Batch(s: State): seq<Functor> {
    if s.pc.Running? then s.pc.batch else []
  }

  ghost predicate Conserved(s: State) {
    s.executed + Batch(s) + s.queue == s.pushed
  }

  ghost predicate Orderly(s: State) {
    && (s.calling <==> s.pc == Swapping || s.pc.Running?)
    && (s.owes ==> s.pc.Running?)
    && (s.pc.Dispatching? ==> Wakeups(s.pc.items) <= (if s.counter > 0 then 1 else 0))
  }

  // a functor waiting while the loop is not on its way to the next swap has a wakeup on its way or arrived
  ghost predicate Woken(s: State) {
    s.queue != [] && (s.pc == Idle || s.pc == Testing || s.pc == Polling || s.pc.Running?)
    ==> s.counter > 0 || s.posting != {} || s.owes
  }

  ghost predicate QuitSeen(s: State) {
    s.pc == Polling && s.quit ==> s.counter > 0 || s.quitting != {}
  }

  lemma StepKeepsConserved(s: State, e: Step)
    requires Enabled(s, e) && Conserved(s)
    ensures Conserved(Next(s, e))
  {
    match e
    case RunOne =>
      assert s.executed + [s.pc.batch[0]] + s.pc.batch[1..] == s.executed + s.pc.batch;
    case Swap =>
      if s.pc == Swapping { assert s.executed + Batch(s) + s.queue == s.executed + s.queue + []; }
    case Post(_, f) => assert s.executed + Batch(s) + (s.queue + [f]) == s.executed + Batch(s) + s.queue + [f];
    case OwnPost(f) => assert s.executed + Batch(s) + (s.queue + [f]) == s.executed + Batch(s) + s.queue + [f];
    case EarlyPost(f) => assert s.executed + Batch(s) + (s.queue + [f]) == s.executed + Batch(s) + s.queue + [f];
    case _ =>
  }

  lemma StepKeepsOrderly(s: State, e: Step)
    requires Enabled(s, e) && Orderly(s)
    ensures Orderly(Next(s, e))
  {
  }

  lemma StepKeepsWoken(s: State, e: Step)
    requires Enabled(s, e) && Orderly(s) && Woken(s)
    requires !e.EarlyPost?
    ensures Woken(Next(s, e))
  {
    match e
    case Post(t, _) => assert t in Next(s, e).posting;
    case _ =>
  }

  lemma StepKeepsQuitSeen(s: State, e: Step)
    requires Enabled(s, e) && QuitSeen(s)
    ensures QuitSeen(Next(s, e))
  {
    match e
    case Quit(t) => assert t in Next(s, e).quitting;
    case _ =>
  }

  lemma {:induction false} RunKeepsConserved(s: State, run: seq<Step>)
    requires Conserved(s) && Orderly(s) && Possible(s, run)
    ensures Conserved(Run(s, run)) && Orderly(Run(s, run))
    ensures Run(s, run).executed <= Run(s, run).pushed
    decreases run
  {
    if run == [] {
      assert s.executed + (Batch(s) + s.queue) == s.pushed;
    } else {
      StepKeepsConserved(s, run[0]);
      StepKeepsOrderly(s, run[0]);
      RunKeepsConserved(Next(s, run[0]), run[1..]);
    }
  }

  // ---------------------------------------------------------------- what the run's steps come to

  // what a step hands over: the functor of a post, the channels that poll reports
  function Posted(e: Step): seq<Functor> {
    match e
    case Post(_, f) => [f]
    case EarlyPost(f) => [f]
    case OwnPost(f) => [f]
    case _ => []
  }

  function AllPosted(run: seq<Step>): seq<Functor> {
    if run == [] then [] else Posted(run[0]) + AllPosted(run[1..])
  }

  function Reported(e: Step): seq<Item> {
    if e.PollReturn? then e.items else []
  }

  function AllReported(run: seq<Step>): seq<Item> {
    if run == [] then [] else Reported(run[0]) + AllReported(run[1..])
  }

  // the channel a step handles
  function Handled(s: State, e: Step): seq<Item> {
    if e == Handle && s.pc.Dispatching? && s.pc.items != [] then [s.pc.items[0]] else []
  }

  function AllHandled(s: State, run: seq<Step>): seq<Item>
    requires Possible(s, run)
    decreases run
  {
    if run == [] then [] else Handled(s, run[0]) + AllHandled(Next(s, run[0]), run[1..])
  }

  function ToHandle(s: State): seq<Item> {
    if s.pc.Dispatching? then s.pc.items else []
  }

  function Count(run: seq<Step>, p: Step -> bool): nat {
    if run == [] then 0 else (if p(run[0]) then 1 else 0) + Count(run[1..], p)
  }

  predicate Runs(e: Step) { e.RunOne? }

  predicate Completes(e: Step) { e.End? }

  // eventfd writes since the wakeup channel was last handled
  function Unread(n: nat, s: State, run: seq<Step>): nat
    requires Possible(s, run)
    decreases run
  {
    if run == [] then n
    else Unread(if Handled(s, run[0]) == [Wakeup] then 0 else if Wakes(run[0]) || run[0].OwnWake? then n + 1 else n,
                Next(s, run[0]), run[1..])
  }

  function Capped(n: nat): nat {
    if n <= MAX_COUNTER then n else MAX_COUNTER
  }

  lemma StepAccounts(s: State, e: Step, n: nat)
    requires Enabled(s, e) && s.counter == Capped(n)
    ensures var t := Next(s, e);
            && t.pushed == s.pushed + Posted(e)
            && Handled(s, e) + ToHandle(t) == ToHandle(s) + Reported(e)
            && |t.executed| == |s.executed| + (if Runs(e) then 1 else 0)
            && t.counter == Capped(if Handled(s, e) == [Wakeup] then 0 else if Wakes(e) || e.OwnWake? then n + 1 else n)
  {
    match e
    case Handle => assert [s.pc.items[0]] + s.pc.items[1..] == s.pc.items;
    case _ =>
  }

  lemma {:induction false} RunAccounts(s: State, run: seq<Step>, n: nat)
    requires Possible(s, run) && s.counter == Capped(n)
    ensures var t := Run(s, run);
            && t.pushed == s.pushed + AllPosted(run)
            && AllHandled(s, run) + ToHandle(t) == ToHandle(s) + AllReported(run)
            && |t.executed| == |s.executed| + Count(run, Runs)
            && t.counter == Capped(Unread(n, s, run))
    decreases run
  {
    hide Next, Enabled, Posted, Reported, Handled, ToHandle, Runs, Capped, Wakes;
    if run == [] {
    } else {
      var t, rest := Next(s, run[0]), run[1..];
      StepAccounts(s, run[0], n);
      RunAccounts(t, rest, if Handled(s, run[0]) == [Wakeup] then 0 else if Wakes(run[0]) || run[0].OwnWake? then n + 1 else n);
      Associate(s.pushed, Posted(run[0]), AllPosted(rest));
      Carry(Handled(s, run[0]), AllHandled(t, rest), ToHandle(Run(t, rest)),
            ToHandle(s), ToHandle(t), Reported(run[0]), AllReported(rest));
    }
  }

  /** Functor conservation: at every moment of every run, what has run, what is left of the batch and what is queued are
      together the functors that the run's steps have posted, in lock order; so each runs once for each time it
      is posted, and in that order. One functor runs at a time. */
  lemma FunctorsConserved(run: seq<Step>)
    requires Possible(START, run)
    ensures var s := Run(START, run);
            && s.executed + Batch(s) + s.queue == AllPosted(run)
            && s.executed <= AllPosted(run) && |s.executed| == Count(run, Runs)
  {
    RunKeepsConserved(START, run);
    RunAccounts(START, run, 0);
    assert [] + AllPosted(run) == AllPosted(run);
  }

  /** Every channel that poll reports is handled, once and in order: those handled and those still to be handled are what
      poll has reported. */
  lemma ReportedIsHandled(run: seq<Step>)
    requires Possible(START, run)
    ensures var s := Run(START, run);
            && AllHandled(START, run) + ToHandle(s) == AllReported(run)
            && (Enabled(s, BeginCalling) ==> AllHandled(START, run) == AllReported(run))
  {
    RunAccounts(START, run, 0);
    assert [] + AllReported(run) == AllReported(run);
    assert AllHandled(START, run) + [] == AllHandled(START, run);
  }

  /** The eventfd counts the writes since the wakeup channel was last handled, which drains it. So a loop in poll can be
      told of the wakeup channel exactly when there has been a write since: it does not spin. */
  lemma EventfdIs(run: seq<Step>)
    requires Possible(START, run)
    ensures var s := Run(START, run);
            && s.counter == Capped(Unread(0, START, run))
            && (s.pc == Polling ==> (Enabled(s, PollReturn([Wakeup])) <==> Unread(0, START, run) > 0))
  {
    RunAccounts(START, run, 0);
    assert Wakeups([Wakeup][1..]) == 0 && Wakeups([Wakeup]) == 1;
  }

  // what other threads and the loop's own have done before the first return of poll, and whether it has returned
  datatype Seen = Seen(returned: bool, early: bool, posted: bool, quitted: bool, woke: bool)

  function SeenIn(run: seq<Step>): Seen {
    Seen(Some(run, Returns), Some(run, PostsEarly), Some(run, Posts), Some(run, QuitsFromOutside), Some(run, Wakes))
  }

  function SeenOf(e: Step): Seen {
    Seen(Returns(e), PostsEarly(e), Posts(e), QuitsFromOutside(e), Wakes(e))
  }

  function Both(a: Seen, b: Seen): Seen {
    Seen(a.returned || b.returned, a.early || b.early, a.posted || b.posted, a.quitted || b.quitted, a.woke || b.woke)
  }

  // until poll first returns, the queue and the eventfd are what the posts and the writes so far have made them
  ghost predicate Beginning(s: State, seen: Seen) {
    && s.pc in {Idle, Testing, Polling, Stopped} && !s.owes
    && (s.queue != [] <==> seen.early || seen.posted)
    && (s.counter > 0 <==> seen.woke)
    && (seen.posted ==> s.posting != {} || seen.woke) && (s.posting != {} ==> seen.posted)
    && (seen.quitted ==> s.quitting != {} || seen.woke) && (s.quitting != {} ==> seen.quitted)
    && (seen.woke ==> seen.posted || seen.quitted)
  }

  // from then on every functor that waits is woken for
  ghost predicate Tracked(s: State, seen: Seen) {
    && Orderly(s) && QuitSeen(s)
    && if seen.returned then Woken(s) && s.pc != Idle else Beginning(s, seen)
  }

  lemma StepKeepsBeginning(s: State, seen: Seen, e: Step)
    requires Enabled(s, e) && !Returns(e) && Beginning(s, seen) && Orderly(s)
    ensures Beginning(Next(s, e), Both(seen, SeenOf(e)))
  {
    match e
    case Post(t, _) => assert t in Next(s, e).posting;
    case Quit(t) => assert t in Next(s, e).quitting;
    case _ =>
  }

  lemma StepKeepsTracked(s: State, seen: Seen, e: Step)
    requires Enabled(s, e) && Tracked(s, seen)
    ensures Tracked(Next(s, e), Both(seen, SeenOf(e)))
  {
    StepKeepsOrderly(s, e);
    StepKeepsQuitSeen(s, e);
    if seen.returned {
      StepKeepsWoken(s, e);
    } else if !Returns(e) {
      StepKeepsBeginning(s, seen, e);
    }
  }

  lemma SeenTail(run: seq<Step>)
    requires run != []
    ensures SeenIn(run) == Both(SeenOf(run[0]), SeenIn(run[1..]))
  {
    SomeTail(run, Returns);
    SomeTail(run, PostsEarly);
    SomeTail(run, Posts);
    SomeTail(run, QuitsFromOutside);
    SomeTail(run, Wakes);
  }

  lemma {:induction false} RunKeepsTracked(s: State, seen: Seen, run: seq<Step>)
    requires Possible(s, run) && Tracked(s, seen)
    ensures Tracked(Run(s, run), Both(seen, SeenIn(run)))
    decreases run
  {
    hide Tracked, Next, Enabled, SeenOf;
    if run == [] {
      assert Both(seen, SeenIn(run)) == seen;
    } else {
      SeenTail(run);
      StepKeepsTracked(s, seen, run[0]);
      RunKeepsTracked(Next(s, run[0]), Both(seen, SeenOf(run[0])), run[1..]);
      assert Both(Both(seen, SeenOf(run[0])), SeenIn(run[1..])) == Both(seen, SeenIn(run));
    }
  }

  lemma RunIsTracked(run: seq<Step>)
    requires Possible(START, run)
    ensures Tracked(Run(START, run), SeenIn(run))
  {
    RunKeepsTracked(START, SeenIn([]), run);
  }

  // in poll with work queued, and no write to the eventfd made or owed for it: the work waits for poll's timeout, or
  // for something else to happen
  predicate Unwoken(s: State) {
    s.pc == Polling && s.queue != [] && s.counter == 0 && s.posting == {} && !s.owes
  }

  /** When a functor is not woken for, over all interleavings: exactly when the loop is in its first poll with something
      its own thread had queued before loop(), and no other thread has posted or written the eventfd. Nor is any
      write on its way exactly when, besides, no other thread has called quit(). */
  lemma UnwokenIff(run: seq<Step>)
    requires Possible(START, run)
    ensures var s := Run(START, run);
            && (Unwoken(s) <==> s.pc == Polling && !Some(run, Returns) && Some(run, PostsEarly)
                                && !Some(run, Posts) && !Some(run, Wakes))
            && (Unwoken(s) && s.quitting == {} <==> s.pc == Polling && !Some(run, Returns) && Some(run, PostsEarly)
                                                    && !Some(run, Posts) && !Some(run, QuitsFromOutside))
  {
    hide Some;
    RunIsTracked(run);
  }

  /** No lost wakeup: a loop in poll with work queued has the eventfd readable or a thread that is about to make it so,
      in every interleaving if its own thread queued nothing before loop(), and from the first return of poll on in
      any case. A loop in poll that has been told to quit always has. */
  lemma NoLostWakeup(run: seq<Step>)
    requires Possible(START, run)
    ensures var s := Run(START, run);
            && (Some(run, Returns) || !Some(run, PostsEarly) ==>
                  !Unwoken(s) && (s.pc == Polling && s.queue != [] ==> s.counter > 0 || s.posting != {}))
            && (s.pc == Polling && s.quit ==> s.counter > 0 || s.quitting != {})
  {
    hide Some;
    UnwokenIff(run);
    RunIsTracked(run);
  }

  /** Once the posting threads have made their writes, poll returns the wakeup channel: the loop need not wait for its
      timeout to get to its work. Outside poll it always has a step of its own. */
  lemma LoopCanMove(run: seq<Step>)
    requires Possible(START, run)
    ensures var s := Run(START, run);
            && (s.pc == Polling && s.queue != [] && s.posting == {} && (Some(run, Returns) || !Some(run, PostsEarly)) ==>
                  Enabled(s, PollReturn([Wakeup])))
            && (s.pc == Polling && s.quit && s.quitting == {} ==> Enabled(s, PollReturn([Wakeup])))
            && (s.pc !in {Idle, Polling, Stopped} ==>
                  exists e :: e in [Test, Handle, BeginCalling, Swap, RunOne, End, OwnWake] && Enabled(s, e))
  {
    hide Some;
    NoLostWakeup(run);
    var s := Run(START, run);
    assert Wakeups([Wakeup][1..]) == 0 && Wakeups([Wakeup]) == 1;
    if s.pc !in {Idle, Polling, Stopped} {
      var e := match s.pc
        case Testing => Test
        case Dispatching(items) => if items == [] then BeginCalling else Handle
        case Swapping => Swap
        case Running(batch) => if s.owes then OwnWake else if batch == [] then End else RunOne
        case _ => Test;
      assert Enabled(s, e) && e in [Test, Handle, BeginCalling, Swap, RunOne, End, OwnWake];
    }
  }

  /** And nobody is kept from posting or quitting: another thread may whenever it is not about to write the eventfd, and
      then it may write; the loop's own thread may before loop() and, having written, in a handler or a functor. */
  lemma ThreadsCanMove(s: State, t: Thread, f: Functor)
    ensures t !in s.posting + s.quitting ==> Enabled(s, Post(t, f)) && Enabled(s, Quit(t))
    ensures t in s.posting ==> Enabled(s, WakeAfterPost(t))
    ensures t in s.quitting ==> Enabled(s, WakeAfterQuit(t))
    ensures s.pc == Idle ==> Enabled(s, EarlyPost(f)) && Enabled(s, Enter)
    ensures (s.pc.Dispatching? || s.pc.Running?) && !s.owes ==> Enabled(s, OwnPost(f)) && Enabled(s, OwnQuit)
    ensures s.owes ==> Enabled(s, OwnWake)
  {
  }

  // ---------------------------------------------------------------- early posts

  function EarlyPosts(fs: seq<Functor>): seq<Step> {
    if fs == [] then [] else [EarlyPost(fs[0])] + EarlyPosts(fs[1..])
  }

  lemma {:induction false} EarlyPostsPush(s: State, fs: seq<Functor>, rest: seq<Step>)
    requires s.pc == Idle && !s.calling && !s.owes
    ensures var t := s.(queue := s.queue + fs, pushed := s.pushed + fs);
            && (Possible(s, EarlyPosts(fs) + rest) <==> Possible(t, rest))
            && (Possible(t, rest) ==> Run(s, EarlyPosts(fs) + rest) == Run(t, rest))
    decreases fs
  {
    var run := EarlyPosts(fs) + rest;
    if fs == [] {
      assert run == rest;
      assert s.queue + fs == s.queue && s.pushed + fs == s.pushed;
    } else {
      assert run[1..] == EarlyPosts(fs[1..]) + rest;
      assert s.queue + [fs[0]] + fs[1..] == s.queue + fs && s.pushed + [fs[0]] + fs[1..] == s.pushed + fs;
      EarlyPostsPush(Next(s, run[0]), fs[1..], rest);
    }
  }

  /** The witness: whatever its own thread has queued before loop(), a loop that goes straight to poll is not woken. */
  lemma EarlyPostsAreUnwokenIff(fs: seq<Functor>)
    ensures Possible(START, EarlyPosts(fs) + [Enter, Test])
    ensures Unwoken(Run(START, EarlyPosts(fs) + [Enter, Test])) <==> fs != []
  {
    EarlyPostsPush(START, fs, [Enter, Test]);
    var t := START.(queue := START.queue + fs, pushed := START.pushed + fs);
    var t1 := Next(t, Enter);
    assert [Enter, Test][1..] == [Test];
    assert Possible(t1, [Test]) && Run(t1, [Test]) == Next(t1, Test);
    assert Possible(t, [Enter, Test]) && Run(t, [Enter, Test]) == Next(t1, Test);
  }

  /** Such work is late, not lost: in any loop that is in poll, the timeout alone leads to a batch of all that is queued. */
  lemma TimeoutTakesTheQueue(s: State)
    requires s.pc == Polling
    ensures var run := [PollReturn([]), BeginCalling, Swap];
            Possible(s, run) && Run(s, run).pc == Running(s.queue) && Run(s, run).queue == []
  {
    var s1 := Next(s, PollReturn([]));
    var s2 := Next(s1, BeginCalling);
    assert Possible(s2, [Swap]) && Run(s2, [Swap]) == Next(s2, Swap);
    assert [BeginCalling, Swap][1..] == [Swap];
    assert Possible(s1, [BeginCalling, Swap]) && Run(s1, [BeginCalling, Swap]) == Next(s2, Swap);
    assert [PollReturn([]), BeginCalling, Swap][1..] == [BeginCalling, Swap];
  }

  // ---------------------------------------------------------------- quit

  predicate Quits(e: Step) {
    e.Quit? || e.OwnQuit?
  }

  // step i is a quit() that no later entry into loop() clears
  predicate QuitAt(run: seq<Step>, i: nat)
    requires i < |run|
  {
    Quits(run[i]) && forall j :: i < j < |run| ==> !run[j].Enter?
  }

  // some thread called quit() and loop() has not been entered since
  predicate QuitSince(run: seq<Step>) {
    exists i :: 0 <= i < |run| && QuitAt(run, i)
  }

  lemma QuitAtTail(run: seq<Step>, i: nat)
    requires i < |run|
    ensures QuitAt(run, i) <==> if i > 0 then QuitAt(run[1..], i - 1) else Quits(run[0]) && !Some(run[1..], Enters)
  {
    var rest := run[1..];
    assert forall j :: 0 <= j < |rest| ==> rest[j] == run[j + 1];
    assert forall j :: 0 < j < |run| ==> run[j] == rest[j - 1];
  }

  lemma QuitSinceTail(run: seq<Step>)
    requires run != []
    ensures QuitSince(run) <==> QuitSince(run[1..]) || (Quits(run[0]) && !Some(run[1..], Enters))
  {
    hide QuitAt, Some;
    var rest := run[1..];
    QuitAtTail(run, 0);
    if i :| 0 <= i < |rest| && QuitAt(rest, i) {
      QuitAtTail(run, i + 1);
    }
    if i :| 0 <= i < |run| && QuitAt(run, i) {
      QuitAtTail(run, i);
    }
  }

  lemma StepQuit(s: State, e: Step)
    requires Enabled(s, e)
    ensures Next(s, e).quit <==> Quits(e) || (s.quit && !e.Enter?)
  {
  }

  lemma {:induction false} QuitFlagIs(s: State, run: seq<Step>)
    requires Possible(s, run)
    ensures Run(s, run).quit <==> QuitSince(run) || (s.quit && !Some(run, Enters))
    decreases run
  {
    hide QuitSince, Some, Next, Enabled;
    if run == [] {
      EmptyRun();
    } else {
      SomeTail(run, Enters);
      QuitSinceTail(run);
      StepQuit(s, run[0]);
      QuitFlagIs(Next(s, run[0]), run[1..]);
    }
  }

  lemma EmptyRun()
    ensures !QuitSince([]) && !Some([], Enters)
  {
  }

  /** When a quit() is honoured: in any interleaving, a loop at its test stops exactly when some thread has called
      quit() since loop() was entered. A quit() that comes before is forgotten. */
  lemma QuitIsHonouredIff(run: seq<Step>)
    requires Possible(START, run)
    ensures Run(START, run).quit <==> QuitSince(run)
    ensures var s := Run(START, run); Enabled(s, Test) ==> (Next(s, Test).pc == Stopped <==> QuitSince(run))
  {
    QuitFlagIs(START, run);
  }

  // a loop told to quit during round `since` gets no further than the test after that round
  ghost predicate WindsUp(s: State, since: nat) {
    s.quit && s.pc != Idle && since <= s.rounds <= since + 1 && (s.rounds == since + 1 ==> s.pc in {Testing, Stopped})
  }

  lemma {:induction false} KeepsWindingUp(s: State, run: seq<Step>, since: nat)
    requires Possible(s, run) && WindsUp(s, since)
    ensures WindsUp(Run(s, run), since)
    decreases run
  {
    if run == [] {
    } else {
      assert WindsUp(Next(s, run[0]), since);
      KeepsWindingUp(Next(s, run[0]), run[1..], since);
    }
  }

  /** A quit() is honoured within the round it comes in: the loop completes at most one more doPendingFunctors, and
      once it has it is at its last test or has stopped, whatever any thread does. */
  lemma QuitEndsTheRound(before: seq<Step>, after: seq<Step>)
    requires Possible(START, before) && Possible(Run(START, before), after)
    requires QuitSince(before) && Run(START, before).pc != Idle
    ensures var s := Run(START, before);
            var t := Run(s, after);
            && Count(after, Completes) <= 1
            && (Count(after, Completes) == 1 ==> t.pc in {Testing, Stopped})
            && (Enabled(t, Test) ==> Next(t, Test).pc == Stopped)
  {
    QuitIsHonouredIff(before);
    KeepsWindingUp(Run(START, before), after, Run(START, before).rounds);
    RoundsAre(Run(START, before), after);
  }

  lemma {:induction false} RoundsAre(s: State, run: seq<Step>)
    requires Possible(s, run)
    ensures Run(s, run).rounds == s.rounds + Count(run, Completes)
    decreases run
  {
    if run == [] {
    } else {
      RoundsAre(Next(s, run[0]), run[1..]);
    }
  }

  /** The witness of a forgotten quit(): loop() clears the flag and goes on to poll. */
  lemma EarlyQuitIsForgotten(t: Thread)
    ensures Possible(START, [Quit(t), WakeAfterQuit(t), Enter, Test])
    ensures var s := Run(START, [Quit(t), WakeAfterQuit(t), Enter, Test]); s.pc == Polling && !s.quit && s.quitting == {}
  {
    var s1 := Next(START, Quit(t));
    var s2 := Next(s1, WakeAfterQuit(t));
    var s3 := Next(s2, Enter);
    assert s2.quitting == {};
    assert Possible(s3, [Test]) && Run(s3, [Test]) == Next(s3, Test);
    assert [Enter, Test][1..] == [Test] && Possible(s2, [Enter, Test]) && Run(s2, [Enter, Test]) == Next(s3, Test);
    var tail := [WakeAfterQuit(t), Enter, Test];
    assert tail[1..] == [Enter, Test] && Possible(s1, tail) && Run(s1, tail) == Next(s3, Test);
    var run := [Quit(t), WakeAfterQuit(t), Enter, Test];
    assert run[1..] == tail;
  }

  // ---------------------------------------------------------------- bounded response

  // how far the first `mark` pushes have come, `since` being the round in progress when they had been made
  ghost predicate OnTheWay(s: State, mark: nat, since: nat) {
    && mark <= |s.pushed| && since <= s.rounds
    && (s.rounds == since + 1 && s.pc.Running? ==> mark <= |s.executed| + |s.pc.batch|)
    && (s.rounds >= since + 2 ==> mark <= |s.executed|)
  }

  lemma StepKeepsOnTheWay(s: State, e: Step, mark: nat, since: nat)
    requires Enabled(s, e) && Conserved(s) && OnTheWay(s, mark, since)
    ensures OnTheWay(Next(s, e), mark, since)
  {
    assert |s.executed| + |Batch(s)| + |s.queue| == |s.pushed|;
  }

  lemma {:induction false} RunKeepsOnTheWay(s: State, run: seq<Step>, mark: nat, since: nat)
    requires Possible(s, run) && Conserved(s) && OnTheWay(s, mark, since)
    ensures OnTheWay(Run(s, run), mark, since)
    decreases run
  {
    if run == [] {
    } else {
      StepKeepsOnTheWay(s, run[0], mark, since);
      StepKeepsConserved(s, run[0]);
      RunKeepsOnTheWay(Next(s, run[0]), run[1..], mark, since);
    }
  }

  /** Two more calls of doPendingFunctors are enough: everything posted by some moment has run by the time the loop
      has completed two further rounds, whatever is posted or run in between. */
  lemma TwoRoundsRunEverything(before: seq<Step>, after: seq<Step>)
    requires Possible(START, before) && Possible(Run(START, before), after)
    requires Count(after, Completes) >= 2
    ensures AllPosted(before) <= Run(Run(START, before), after).executed
  {
    FunctorsConserved(before);
    RunKeepsConserved(START, before);
    RunAccounts(START, before, 0);
    var s := Run(START, before);
    RoundsAre(s, after);
    RunKeepsConserved(s, after);
    RunKeepsOnTheWay(s, after, |s.pushed|, s.rounds);
    PushedOnlyGrows(s, after);
    assert [] + AllPosted(before) == AllPosted(before);
  }

  lemma {:induction false} PushedOnlyGrows(s: State, run: seq<Step>)
    requires Possible(s, run)
    ensures s.pushed <= Run(s, run).pushed
    decreases run
  {
    if run == [] {
    } else {
      assert s.pushed <= Next(s, run[0]).pushed;
      PushedOnlyGrows(Next(s, run[0]), run[1..]);
    }
  }
}
