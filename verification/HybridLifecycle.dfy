/**
 Starting, stopping and restarting the hybrid server: what each takes up and lets go of,
 in what order, and what is left when one of them fails or runs out of time.
 */
module HybridLifecycle {
  import opened Results

  /** Tokens, tasks and runtimes are handed out once each and never used again. */
  type Id = nat

  datatype Error =
    | InvalidOptions
    | Listen
    | Agents
    | Tls
    | Gateway
    | HttpStart
    | ShutdownTimeout

  /** What is switched on. */
  datatype Options = Options(grpcListener: bool, http3: bool, http: bool)

  /** What a running server is holding. */
  datatype Running = Running(
    grpc: Option<Id>,
    grpcAbort: Option<Id>,
    grpcTask: Option<Id>,
    loopback: bool,
    http: Option<Id>,
    http3: Option<Id>,
    tasks: seq<Id>,
    agentRuntime: Option<Id>,
    agentCancel: Option<Id>,
    endpoints: nat,
    grpcListen: bool,
    httpAddr: bool)

  const NOTHING := Running(None, None, None, false, None, None, [], None, None, 0, false, false)

  /** What a start or a stop does to the world. */
  datatype Event =
    | AgentsUp(runtime: Id)
    | Spawned(task: Id)
    | Cancelled(token: Id)
    | AgentsDown(runtime: Id, clean: bool)   // its shutdown returned, and left nothing running or it did
    | Joined(task: Id)
    | TaskAborted(task: Id)

  // ---------------------------------------------------------------- ids

  predicate Holds(r: Running, id: Id) {
    || id in r.tasks
    || Some(id) == r.grpc || Some(id) == r.grpcAbort || Some(id) == r.grpcTask
    || Some(id) == r.http || Some(id) == r.http3
    || Some(id) == r.agentRuntime || Some(id) == r.agentCancel
  }

  function One(place: Option<Id>, id: Id): nat {
    if place == Some(id) then 1 else 0
  }

  function Occurrences(ids: seq<Id>, id: Id): nat {
    if ids == [] then 0
    else Occurrences(ids[..|ids| - 1], id) + if ids[|ids| - 1] == id then 1 else 0
  }

  /** In how many places of `r` an id is. */
  function Places(r: Running, id: Id): nat {
    One(r.grpc, id) + One(r.grpcAbort, id) + One(r.grpcTask, id) + One(r.http, id) + One(r.http3, id)
    + One(r.agentRuntime, id) + One(r.agentCancel, id) + Occurrences(r.tasks, id)
  }

  ghost predicate Distinct(r: Running) {
    forall id :: Places(r, id) <= 1
  }

  lemma OccurrencesMore(ids: seq<Id>, more: Id, id: Id)
    ensures Occurrences(ids + [more], id) == Occurrences(ids, id) + if more == id then 1 else 0
  {
    assert (ids + [more])[..|ids|] == ids;
  }

  lemma {:induction false} OccursExactly(ids: seq<Id>, id: Id)
    ensures Occurrences(ids, id) > 0 <==> id in ids
    decreases |ids|
  {
    if ids != [] {
      var n := |ids| - 1;
      OccursExactly(ids[..n], id);
      assert ids == ids[..n] + [ids[n]];
    }
  }

  /** An id is held exactly when it is in some place. */
  lemma HeldSomewhere(r: Running, id: Id)
    ensures Holds(r, id) <==> Places(r, id) > 0
  {
    OccursExactly(r.tasks, id);
  }

  predicate In(id: Option<Id>, low: Id, high: Id) {
    id.Some? ==> low <= id.value < high
  }

  /** Everything held was handed out from `low` on and before `high`. */
  ghost predicate Between(r: Running, low: Id, high: Id) {
    && low <= high
    && In(r.grpc, low, high) && In(r.grpcAbort, low, high) && In(r.grpcTask, low, high)
    && In(r.http, low, high) && In(r.http3, low, high)
    && In(r.agentRuntime, low, high) && In(r.agentCancel, low, high)
    && forall k | 0 <= k < |r.tasks| :: low <= r.tasks[k] < high
  }

  /** A stop that happened: what it took, all of it handed out from `low` on and before `high`. */
  datatype Past = Past(taken: Running, low: Id, high: Id)

  /** Each stop took only what was handed out since the one before it. */
  ghost predicate TakenApart(stops: seq<Past>, mark: Id) {
    && (forall k | 0 <= k < |stops| :: Between(stops[k].taken, stops[k].low, stops[k].high) && stops[k].high <= mark)
    && (forall j, k | 0 <= j < k < |stops| :: stops[j].high <= stops[k].low)
  }

  lemma HeldBetween(r: Running, low: Id, high: Id, id: Id)
    requires Between(r, low, high) && Holds(r, id)
    ensures low <= id < high
  {
  }

  /** No task, token or runtime is ever taken by two stops. */
  lemma NothingIsTakenTwice(stops: seq<Past>, mark: Id, j: nat, k: nat, id: Id)
    requires TakenApart(stops, mark) && j < k < |stops| && Holds(stops[j].taken, id)
    ensures !Holds(stops[k].taken, id)
  {
    HeldBetween(stops[j].taken, stops[j].low, stops[j].high, id);
    assert Between(stops[k].taken, stops[k].low, stops[k].high);
  }

  // ---------------------------------------------------------------- traces

  function Listed(id: Option<Id>): seq<Id> {
    if id.Some? then [id.value] else []
  }

  function Only(id: Option<Id>): set<Id> {
    if id.Some? then {id.value} else {}
  }

  function SetOf(ids: seq<Id>): set<Id> {
    if ids == [] then {} else SetOf(ids[..|ids| - 1]) + {ids[|ids| - 1]}
  }

  lemma SetOfMore(ids: seq<Id>, id: Id)
    ensures SetOf(ids + [id]) == SetOf(ids) + {id}
  {
    assert (ids + [id])[..|ids|] == ids;
  }

  lemma {:induction false} SetOfHas(ids: seq<Id>, id: Id)
    ensures id in SetOf(ids) <==> id in ids
    decreases |ids|
  {
    if ids != [] {
      var n := |ids| - 1;
      SetOfHas(ids[..n], id);
      assert ids == ids[..n] + [ids[n]];
    }
  }

  lemma SetOfNext(ids: seq<Id>, k: nat)
    requires k < |ids|
    ensures SetOf(ids[..k + 1]) == SetOf(ids[..k]) + {ids[k]}
  {
    assert ids[..k + 1] == ids[..k] + [ids[k]];
    SetOfMore(ids[..k], ids[k]);
  }

  /** Every serving task a server holds. */
  function HeldTasks(r: Running): set<Id> {
    SetOf(r.tasks) + Only(r.grpcTask)
  }

  /** Everything running that a server holds: its serving tasks and its agent runtime. */
  function HeldRunning(r: Running): set<Id> {
    HeldTasks(r) + Only(r.agentRuntime)
  }

  /**
   The tasks started and neither awaited to their end nor aborted, and the agent runtimes that
   came up and whose shutdown has not returned, or returned leaving a listener or a service of
   theirs running.
   */
  function Live(trace: seq<Event>): set<Id> {
    if trace == [] then {} else LiveAfter(Live(trace[..|trace| - 1]), trace[|trace| - 1])
  }

  lemma LiveMore(trace: seq<Event>, e: Event)
    ensures Live(trace + [e]) == LiveAfter(Live(trace), e)
  {
    assert (trace + [e])[..|trace|] == trace;
  }

  function LiveAfter(live: set<Id>, e: Event): set<Id> {
    match e
    case AgentsUp(r) => live + {r}
    case AgentsDown(r, clean) => if clean then live - {r} else live
    case Spawned(t) => live + {t}
    case Joined(t) => live - {t}
    case TaskAborted(t) => live - {t}
    case _ => live
  }

  /** `trace` once `token`, if there is one, has been cancelled. */
  function WithCancel(trace: seq<Event>, token: Option<Id>): seq<Event> {
    if token.Some? then trace + [Cancelled(token.value)] else trace
  }

  /** `trace` once every one of `tasks` has been aborted. */
  function WithAborts(trace: seq<Event>, tasks: seq<Id>): seq<Event> {
    if tasks == [] then trace
    else WithAborts(trace, tasks[..|tasks| - 1]) + [TaskAborted(tasks[|tasks| - 1])]
  }

  /** `trace` once everything held has been told to stop: gRPC, then HTTP, then the agents. */
  function WithTold(trace: seq<Event>, r: Running): seq<Event> {
    WithCancel(WithCancel(WithCancel(WithCancel(trace, r.grpc), r.http), r.http3), r.agentCancel)
  }

  function WithAgents(trace: seq<Event>, runtime: Option<Id>): seq<Event> {
    if runtime.Some? then trace + [AgentsUp(runtime.value)] else trace
  }

  function WithSpawn(trace: seq<Event>, task: Option<Id>): seq<Event> {
    if task.Some? then trace + [Spawned(task.value)] else trace
  }

  function WithSpawns(trace: seq<Event>, tasks: seq<Id>): seq<Event> {
    if tasks == [] then trace
    else WithSpawns(trace, tasks[..|tasks| - 1]) + [Spawned(tasks[|tasks| - 1])]
  }

  /** `trace` once `r` has come up: the agents, then gRPC, then the HTTP surfaces. */
  function WithUp(trace: seq<Event>, r: Running): seq<Event> {
    WithSpawns(WithSpawn(WithAgents(trace, r.agentRuntime), r.grpcTask), r.tasks)
  }

  ghost predicate AllJoined(waits: seq<Event>, tasks: seq<Id>) {
    forall t | t in tasks :: Joined(t) in waits
  }

  /** Every task among `tasks` has ended within `waits`, and the agents' shutdown has returned. */
  ghost predicate AllEnded(waits: seq<Event>, tasks: seq<Id>, agents: Option<Id>, clean: bool) {
    && AllJoined(waits, tasks)
    && (agents.Some? ==> AgentsDown(agents.value, clean) in waits)
  }

  /** Everything taken has been waited for to its end, the gRPC task after everything else. */
  ghost predicate EndedInOrder(taken: Running, waits: seq<Event>, clean: bool) {
    if taken.grpcTask.None? then AllEnded(waits, taken.tasks, taken.agentRuntime, clean)
    else
      && waits != []
      && waits[|waits| - 1] == Joined(taken.grpcTask.value)
      && AllEnded(waits[..|waits| - 1], taken.tasks, taken.agentRuntime, clean)
  }

  /** Whether the agents' shutdown returned within `waits` with nothing of theirs left running. */
  ghost predicate EndedClean(waits: seq<Event>, agents: Option<Id>, clean: bool) {
    agents.Some? ==> (clean <==> AgentsDown(agents.value, true) in waits)
  }

  /** A drain waits; one that runs out of time then aborts every serving task and cuts the gRPC connections. */
  ghost predicate DrainTrace(told: seq<Event>, after: seq<Event>, taken: Running, waits: seq<Event>, timedOut: bool) {
    after == if timedOut
             then WithCancel(WithAborts(told + waits, taken.tasks + Listed(taken.grpcTask)), taken.grpcAbort)
             else told + waits
  }

  /** A stop tells everything to stop before it waits for anything. */
  ghost predicate StopTrace(before: seq<Event>, after: seq<Event>, taken: Running, waits: seq<Event>, timedOut: bool) {
    DrainTrace(WithTold(before, taken), after, taken, waits, timedOut)
  }

  // ---------------------------------------------------------------- what is held and what runs

  /**
   What every operation keeps: whatever is held was handed out since the last stop, and what is
   running is exactly what is held, beside the agent runtimes that stops have left running.
   */
  ghost predicate Consistent(r: Running, low: Id, high: Id, live: set<Id>, abandoned: set<Id>) {
    && Between(r, low, high) && HeldTasks(r) !! Only(r.agentRuntime)
    && live == HeldRunning(r) + abandoned
    && (forall id | id in abandoned :: id < low)
    && (r.grpc.Some? <==> r.grpcAbort.Some?) && (r.grpc.Some? <==> r.grpcTask.Some?)
    && (r.agentRuntime.Some? <==> r.agentCancel.Some?)
  }

  lemma HeldIsBetween(r: Running, low: Id, high: Id)
    requires Between(r, low, high)
    ensures forall id | id in HeldRunning(r) :: id < high
  {
    forall id | id in HeldRunning(r) ensures id < high {
      SetOfHas(r.tasks, id);
    }
  }

  lemma BetweenLater(r: Running, low: Id, high: Id, later: Id)
    requires Between(r, low, high) && high <= later
    ensures Between(r, low, later)
  {
  }

  datatype Surface = Http | Http3

  /** `r` with one more surface: its token, its task and, of HTTP/1.1, its address. */
  function WithSurface(r: Running, surface: Surface, token: Id, task: Id): Running {
    match surface
    case Http => r.(http := Some(token), tasks := r.tasks + [task], httpAddr := true)
    case Http3 => r.(http3 := Some(token), tasks := r.tasks + [task])
  }

  /** Where a surface's token goes. */
  function TokenOf(r: Running, surface: Surface): Option<Id> {
    match surface case Http => r.http case Http3 => r.http3
  }

  lemma SurfacePlaces(r: Running, surface: Surface, token: Id, task: Id, id: Id)
    ensures Places(WithSurface(r, surface, token, task), id) + One(TokenOf(r, surface), id)
         == Places(r, id) + One(Some(token), id) + One(Some(task), id)
  {
    OccurrencesMore(r.tasks, task, id);
  }

  lemma SurfaceBetween(r: Running, surface: Surface, token: Id, task: Id, low: Id, high: Id)
    requires Between(r, low, high) && low <= token < high <= task
    ensures Between(WithSurface(r, surface, token, task), low, task + 1)
  {
    BetweenLater(r, low, high, task + 1);
  }

  lemma SurfaceTasks(r: Running, surface: Surface, token: Id, task: Id)
    ensures HeldTasks(WithSurface(r, surface, token, task)) == HeldTasks(r) + {task}
    ensures HeldRunning(WithSurface(r, surface, token, task)) == HeldRunning(r) + {task}
  {
    SetOfMore(r.tasks, task);
  }

  lemma SurfaceKeeps(r: Running, surface: Surface, token: Id, task: Id,
                     low: Id, high: Id, live: set<Id>, abandoned: set<Id>)
    requires Consistent(r, low, high, live, abandoned) && low <= token < high <= task
    ensures Consistent(WithSurface(r, surface, token, task), low, task + 1, live + {task}, abandoned)
  {
    SurfaceBetween(r, surface, token, task, low, high);
    SurfaceTasks(r, surface, token, task);
    HeldIsBetween(r, low, high);
  }

  /** `r` with the gRPC server spawned. */
  function WithGrpc(r: Running, shutdown: Id, abort: Id, task: Id): Running {
    r.(grpc := Some(shutdown), grpcAbort := Some(abort), grpcTask := Some(task))
  }

  lemma GrpcPlaces(r: Running, shutdown: Id, abort: Id, task: Id, id: Id)
    ensures Places(WithGrpc(r, shutdown, abort, task), id) + One(r.grpc, id) + One(r.grpcAbort, id) + One(r.grpcTask, id)
         == Places(r, id) + One(Some(shutdown), id) + One(Some(abort), id) + One(Some(task), id)
  {
  }

  lemma GrpcKeeps(r: Running, shutdown: Id, abort: Id, task: Id, low: Id, high: Id, live: set<Id>, abandoned: set<Id>)
    requires Consistent(r, low, high, live, abandoned) && high <= shutdown < abort < task && r.grpcTask.None?
    ensures Consistent(WithGrpc(r, shutdown, abort, task), low, task + 1, live + {task}, abandoned)
  {
    var more := WithGrpc(r, shutdown, abort, task);
    assert Between(more, low, task + 1);
    HeldIsBetween(r, low, high);
    assert HeldRunning(more) == HeldRunning(r) + {task};
  }

  /** `r` with its agent runtime up. */
  function WithRuntime(r: Running, runtime: Id, cancel: Id, endpoints: nat): Running {
    r.(agentRuntime := Some(runtime), agentCancel := Some(cancel), endpoints := endpoints)
  }

  lemma RuntimePlaces(r: Running, runtime: Id, cancel: Id, endpoints: nat, id: Id)
    ensures Places(WithRuntime(r, runtime, cancel, endpoints), id) + One(r.agentRuntime, id) + One(r.agentCancel, id)
         == Places(r, id) + One(Some(runtime), id) + One(Some(cancel), id)
  {
  }

  lemma RuntimeKeeps(r: Running, runtime: Id, cancel: Id, endpoints: nat, low: Id, high: Id, live: set<Id>, abandoned: set<Id>)
    requires Consistent(r, low, high, live, abandoned) && high <= cancel < runtime && r.agentRuntime.None?
    ensures Consistent(WithRuntime(r, runtime, cancel, endpoints), low, runtime + 1, live + {runtime}, abandoned)
  {
    var more := WithRuntime(r, runtime, cancel, endpoints);
    assert Between(more, low, runtime + 1);
    HeldIsBetween(r, low, high);
    assert HeldRunning(more) == HeldRunning(r) + {runtime};
  }

  lemma UpMore(trace: seq<Event>, r: Running, surface: Surface, token: Id, task: Id)
    ensures WithUp(trace, WithSurface(r, surface, token, task)) == WithUp(trace, r) + [Spawned(task)]
  {
    assert (r.tasks + [task])[..|r.tasks|] == r.tasks;
  }

  lemma TakenMore(stops: seq<Past>, mark: Id, taken: Running, next: Id)
    requires TakenApart(stops, mark) && Between(taken, mark, next)
    ensures TakenApart(stops + [Past(taken, mark, next)], next)
  {
  }

  /** The agent runtime that is gone once its shutdown has, or has not, ended clean. */
  function Gone(agents: Option<Id>, clean: bool): Option<Id> {
    if clean then agents else None
  }

  /** What is left of `live` once `tasks` have ended, and the agents if they ended clean. */
  function Remaining(live: set<Id>, tasks: seq<Id>, agents: Option<Id>, clean: bool): set<Id> {
    live - SetOf(tasks) - Only(Gone(agents, clean))
  }

  /** Where a drain stands: `tasks` have ended, and of the agents `down` says whether and `clean` how. */
  ghost predicate Drained(live: set<Id>, now: set<Id>, waits: seq<Event>, tasks: seq<Id>,
                          agents: Option<Id>, down: bool, clean: bool) {
    && now == Remaining(live, tasks, agents, clean)
    && AllJoined(waits, tasks)
    && (agents.Some? && down ==> AgentsDown(agents.value, clean) in waits)
    && EndedClean(waits, agents, clean)
  }

  lemma JoinedMore(waits: seq<Event>, tasks: seq<Id>, k: nat)
    requires k < |tasks| && AllJoined(waits, tasks[..k])
    ensures AllJoined(waits + [Joined(tasks[k])], tasks[..k + 1])
  {
    assert tasks[..k + 1] == tasks[..k] + [tasks[k]];
    forall t | t in tasks[..k + 1] ensures Joined(t) in waits + [Joined(tasks[k])] {
      if t != tasks[k] { assert t in tasks[..k]; }
    }
  }

  lemma OneLess(live: set<Id>, tasks: seq<Id>, k: nat, agents: Option<Id>, clean: bool)
    requires k < |tasks|
    ensures Remaining(live, tasks[..k + 1], agents, clean) == Remaining(live, tasks[..k], agents, clean) - {tasks[k]}
  {
    SetOfNext(tasks, k);
  }

  lemma OneJoined(live: set<Id>, now: set<Id>, waits: seq<Event>, tasks: seq<Id>, k: nat,
                  agents: Option<Id>, down: bool, clean: bool)
    requires k < |tasks| && Drained(live, now, waits, tasks[..k], agents, down, clean)
    ensures Drained(live, now - {tasks[k]}, waits + [Joined(tasks[k])], tasks[..k + 1], agents, down, clean)
  {
    OneLess(live, tasks, k, agents, clean);
    JoinedMore(waits, tasks, k);
  }

  /** What a drain that runs out of time leaves, once the tasks it was waiting for are gone too. */
  lemma SomeJoined(live: set<Id>, now: set<Id>, tasks: seq<Id>, k: nat, agents: Option<Id>, clean: bool)
    requires k <= |tasks| && now == Remaining(live, tasks[..k], agents, clean)
    ensures now - SetOf(tasks) == Remaining(live, tasks, agents, clean)
  {
    forall id | id in SetOf(tasks[..k]) ensures id in SetOf(tasks) {
      SetOfHas(tasks[..k], id);
      SetOfHas(tasks, id);
    }
  }

  lemma AgentsGone(live: set<Id>, now: set<Id>, waits: seq<Event>, tasks: seq<Id>, agents: Id, clean: bool)
    requires Drained(live, now, waits, tasks, Some(agents), false, false)
    ensures Drained(live, now - Only(Gone(Some(agents), clean)), waits + [AgentsDown(agents, clean)], tasks,
                    Some(agents), true, clean)
  {
    forall t | t in tasks ensures Joined(t) in waits + [AgentsDown(agents, clean)] {
    }
  }

  /** And so, cut off or waited for, what is left is the same. */
  lemma CutLeaves(live: set<Id>, now: set<Id>, taken: Running, clean: bool)
    requires now - SetOf(taken.tasks) - Only(taken.grpcTask)
          == Remaining(live, taken.tasks, taken.agentRuntime, clean) - Only(taken.grpcTask)
    ensures now - HeldTasks(taken) == live - HeldTasks(taken) - Only(Gone(taken.agentRuntime, clean))
  {
    assert now - HeldTasks(taken) == now - SetOf(taken.tasks) - Only(taken.grpcTask);
  }

  lemma TasksAreNotAbandoned(r: Running, low: Id, high: Id, live: set<Id>, abandoned: set<Id>)
    requires Consistent(r, low, high, live, abandoned)
    ensures HeldTasks(r) !! abandoned && Only(r.agentRuntime) !! abandoned
  {
    forall id | id in HeldTasks(r) ensures id !in abandoned {
      SetOfHas(r.tasks, id);
    }
  }

  /** What a stop leaves running of what it took: nothing, or its agent runtime when that did not end clean. */
  lemma LeftByAStop(r: Running, low: Id, high: Id, before: set<Id>, after: set<Id>, abandoned: set<Id>, clean: bool)
    requires Consistent(r, low, high, before, abandoned)
    requires after == before - HeldTasks(r) - Only(Gone(r.agentRuntime, clean))
    ensures after == abandoned + if clean then {} else Only(r.agentRuntime)
    ensures Consistent(NOTHING, high, high, after, after)
  {
    TasksAreNotAbandoned(r, low, high, before, abandoned);
    HeldIsBetween(r, low, high);
    assert HeldRunning(NOTHING) + after == after;
  }

  /**
   A stop in time and without an error, whose agents' shutdown gave up on one of its services:
   everything was told to stop and waited for, and the agent runtime is still running.
   */
  lemma StopsCanLeaveAgents(cancel: Id, runtime: Id)
    ensures var taken := NOTHING.(agentRuntime := Some(runtime), agentCancel := Some(cancel));
      var waits := [AgentsDown(runtime, false)];
      var after := [AgentsUp(runtime), Cancelled(cancel)] + waits;
      && StopTrace([AgentsUp(runtime)], after, taken, waits, false)
      && EndedInOrder(taken, waits, false) && EndedClean(waits, taken.agentRuntime, false)
      && Live(after) == {runtime}
  {
    var up := [AgentsUp(runtime)];
    LiveMore([], AgentsUp(runtime));
    assert [] + up == up;
    LiveMore(up, Cancelled(cancel));
    assert up + [Cancelled(cancel)] == [AgentsUp(runtime), Cancelled(cancel)];
    LiveMore([AgentsUp(runtime), Cancelled(cancel)], AgentsDown(runtime, false));
    assert AgentsDown(runtime, true) != AgentsDown(runtime, false);
  }

  /** What the first of a stop's two locks takes, and the second. */
  function ServersOf(r: Running): Running {
    r.(agentRuntime := None, agentCancel := None, endpoints := 0)
  }

  function AgentsOf(r: Running): Running {
    NOTHING.(agentRuntime := r.agentRuntime, agentCancel := r.agentCancel, endpoints := r.endpoints)
  }

  /** The two parts of what is held hold what it does between them, and nothing both. */
  lemma PartsHold(r: Running, a: Running, b: Running)
    requires (a == ServersOf(r) && b == AgentsOf(r)) || (a == AgentsOf(r) && b == ServersOf(r))
    ensures forall id :: Places(r, id) == Places(a, id) + Places(b, id)
    ensures forall id :: Holds(r, id) <==> Holds(a, id) || Holds(b, id)
    ensures Distinct(r) ==> forall id :: !(Holds(a, id) && Holds(b, id))
  {
    forall id
      ensures Places(r, id) == Places(a, id) + Places(b, id)
      ensures Holds(r, id) <==> Holds(a, id) || Holds(b, id)
      ensures Places(r, id) <= 1 ==> !(Holds(a, id) && Holds(b, id))
    {
      SplitPlaces(r, id);
      HeldSomewhere(r, id);
      HeldSomewhere(a, id);
      HeldSomewhere(b, id);
    }
  }

  lemma SplitPlaces(r: Running, id: Id)
    ensures Places(r, id) == Places(ServersOf(r), id) + Places(AgentsOf(r), id)
  {
  }

  // ---------------------------------------------------------------- overlapping stops

  /**
   Stops may overlap, and a stop takes what it ends in two goes: the servers under one lock, the
   agents under another. What is held between any two of those, what has ever been recorded as
   held, and what each going has taken.
   */
  datatype Hands = Hands(state: Running, next: Id, recorded: set<Id>, takings: seq<Running>)

  /** A start records what it brings up, or drops a token again; a stop takes the servers or the agents. */
  datatype Move = HoldAgents(endpoints: nat) | HoldGrpc | HoldSurface(surface: Surface) | Discard | FirstLock | SecondLock

  /** The ids a move records, if it does. */
  function Recording(h: Hands, m: Move): set<Id> {
    match m
    case HoldAgents(_) => {h.next, h.next + 1}
    case HoldGrpc => {h.next, h.next + 1, h.next + 2}
    case HoldSurface(_) => {h.next, h.next + 1}
    case _ => {}
  }

  function Moved(h: Hands, m: Move): Hands {
    match m
    case HoldAgents(endpoints) => Recorded(h, m, WithRuntime(h.state, h.next + 1, h.next, endpoints))
    case HoldGrpc => Recorded(h, m, WithGrpc(h.state, h.next, h.next + 1, h.next + 2))
    case HoldSurface(surface) => Recorded(h, m, WithSurface(h.state, surface, h.next, h.next + 1))
    case Discard => h.(next := h.next + 1)
    case FirstLock => h.(state := AgentsOf(h.state), takings := h.takings + [ServersOf(h.state)])
    case SecondLock => h.(state := ServersOf(h.state), takings := h.takings + [AgentsOf(h.state)])
  }

  function Recorded(h: Hands, m: Move, now: Running): Hands {
    h.(state := now, next := h.next + if m.HoldGrpc? then 3 else 2, recorded := h.recorded + Recording(h, m))
  }

  function Played(moves: seq<Move>): Hands {
    if moves == [] then Hands(NOTHING, 0, {}, []) else Moved(Played(moves[..|moves| - 1]), moves[|moves| - 1])
  }

  /** What a move records finds its places empty. */
  predicate Fits(r: Running, m: Move) {
    match m
    case HoldAgents(_) => r.agentRuntime.None? && r.agentCancel.None?
    case HoldGrpc => r.grpc.None? && r.grpcAbort.None? && r.grpcTask.None?
    case HoldSurface(surface) => TokenOf(r, surface).None?
    case _ => true
  }

  predicate AllFit(moves: seq<Move>) {
    moves != [] ==>
      AllFit(moves[..|moves| - 1]) && Fits(Played(moves[..|moves| - 1]).state, moves[|moves| - 1])
  }

  function TimesTaken(takings: seq<Running>, id: Id): nat {
    if takings == [] then 0
    else TimesTaken(takings[..|takings| - 1], id) + Places(takings[|takings| - 1], id)
  }

  lemma TakenOnceMore(takings: seq<Running>, taken: Running, id: Id)
    ensures TimesTaken(takings + [taken], id) == TimesTaken(takings, id) + Places(taken, id)
  {
    assert (takings + [taken])[..|takings|] == takings;
  }

  /** In how many places an id is: those of what is held, and those of every taking. */
  function Everywhere(h: Hands, id: Id): nat {
    Places(h.state, id) + TimesTaken(h.takings, id)
  }

  /** In how many places a move finds an id that it then writes over. */
  function Overwritten(r: Running, m: Move, id: Id): nat {
    match m
    case HoldAgents(_) => One(r.agentRuntime, id) + One(r.agentCancel, id)
    case HoldGrpc => One(r.grpc, id) + One(r.grpcAbort, id) + One(r.grpcTask, id)
    case HoldSurface(surface) => One(TokenOf(r, surface), id)
    case _ => 0
  }

  lemma RecordingAccounts(h: Hands, m: Move, now: Running, id: Id, over: nat, more: nat)
    requires Places(now, id) + over == Places(h.state, id) + more
    ensures Everywhere(Recorded(h, m, now), id) + over == Everywhere(h, id) + more
  {
  }

  lemma LockAccounts(h: Hands, left: Running, taken: Running, id: Id)
    requires (left == AgentsOf(h.state) && taken == ServersOf(h.state))
          || (left == ServersOf(h.state) && taken == AgentsOf(h.state))
    ensures Everywhere(h.(state := left, takings := h.takings + [taken]), id) == Everywhere(h, id)
  {
    SplitPlaces(h.state, id);
    TakenOnceMore(h.takings, taken, id);
  }

  lemma HoldAccounts(h: Hands, m: Move, id: Id)
    requires m.HoldAgents? || m.HoldGrpc? || m.HoldSurface?
    ensures Everywhere(Moved(h, m), id) + Overwritten(h.state, m, id)
         == Everywhere(h, id) + if id in Recording(h, m) then 1 else 0
  {
    var over, more := Overwritten(h.state, m, id), if id in Recording(h, m) then 1 else 0;
    match m {
      case HoldAgents(endpoints) =>
        RuntimePlaces(h.state, h.next + 1, h.next, endpoints, id);
        RecordingAccounts(h, m, WithRuntime(h.state, h.next + 1, h.next, endpoints), id, over, more);
      case HoldGrpc =>
        GrpcPlaces(h.state, h.next, h.next + 1, h.next + 2, id);
        RecordingAccounts(h, m, WithGrpc(h.state, h.next, h.next + 1, h.next + 2), id, over, more);
      case HoldSurface(surface) =>
        SurfacePlaces(h.state, surface, h.next, h.next + 1, id);
        RecordingAccounts(h, m, WithSurface(h.state, surface, h.next, h.next + 1), id, over, more);
    }
  }

  /** A move puts what it records in one place each, loses what it writes over, and moves the rest about. */
  lemma MoveAccounts(h: Hands, m: Move, id: Id)
    ensures Everywhere(Moved(h, m), id) + Overwritten(h.state, m, id)
         == Everywhere(h, id) + if id in Recording(h, m) then 1 else 0
  {
    match m {
      case FirstLock => LockAccounts(h, AgentsOf(h.state), ServersOf(h.state), id);
      case SecondLock => LockAccounts(h, ServersOf(h.state), AgentsOf(h.state), id);
      case Discard =>
      case _ => HoldAccounts(h, m, id);
    }
  }

  lemma MoveRecords(h: Hands, m: Move, id: Id)
    ensures id in Moved(h, m).recorded <==> id in h.recorded || id in Recording(h, m)
    ensures id in Recording(h, m) ==> h.next <= id < Moved(h, m).next
    ensures h.next <= Moved(h, m).next
  {
  }

  lemma FittingOverwritesNothing(r: Running, m: Move, id: Id)
    requires Fits(r, m)
    ensures Overwritten(r, m, id) == 0
  {
  }

  /** Only what was recorded is anywhere, and what was recorded was handed out. */
  lemma {:induction false} NowhereElse(moves: seq<Move>, id: Id)
    ensures var h := Played(moves);
      && Everywhere(h, id) <= (if id in h.recorded then 1 else 0)
      && (id in h.recorded ==> id < h.next)
    decreases |moves|
  {
    if moves != [] {
      var before, last := moves[..|moves| - 1], moves[|moves| - 1];
      NowhereElse(before, id);
      MoveAccounts(Played(before), last, id);
      MoveRecords(Played(before), last, id);
    }
  }

  /** So what is held is never held in two places, and the two takings of a stop have nothing in common. */
  lemma HeldIsDistinct(moves: seq<Move>)
    ensures Distinct(Played(moves).state)
  {
    forall id ensures Places(Played(moves).state, id) <= 1 { NowhereElse(moves, id); }
  }

  /**
   However starts and the goings of stops interleave, all that was ever recorded is in exactly
   one place, still held or taken once, as long as every start found the places it recorded in
   empty.
   */
  lemma {:induction false} EverythingIsInOnePlace(moves: seq<Move>, id: Id)
    requires AllFit(moves)
    ensures Everywhere(Played(moves), id) == if id in Played(moves).recorded then 1 else 0
    decreases |moves|
  {
    if moves != [] {
      var before, last := moves[..|moves| - 1], moves[|moves| - 1];
      EverythingIsInOnePlace(before, id);
      NowhereElse(before, id);
      MoveAccounts(Played(before), last, id);
      MoveRecords(Played(before), last, id);
      FittingOverwritesNothing(Played(before).state, last, id);
    }
  }

  /** And only so: a start that does not find them empty loses what was there for good. */
  lemma {:induction false} WrittenOverIsLost(moves: seq<Move>) returns (id: Id)
    requires !AllFit(moves)
    ensures id in Played(moves).recorded && Everywhere(Played(moves), id) == 0
    decreases |moves|
  {
    var before, last := moves[..|moves| - 1], moves[|moves| - 1];
    if AllFit(before) {
      id := Found(Played(before).state, last);
      EverythingIsInOnePlace(before, id);
    } else {
      id := WrittenOverIsLost(before);
    }
    StaysLost(before, last, id);
  }

  lemma StaysLost(before: seq<Move>, last: Move, id: Id)
    requires var h := Played(before);
      id in h.recorded && (Everywhere(h, id) == 0 || Overwritten(h.state, last, id) > 0)
    ensures id in Moved(Played(before), last).recorded && Everywhere(Moved(Played(before), last), id) == 0
  {
    NowhereElse(before, id);
    MoveAccounts(Played(before), last, id);
    MoveRecords(Played(before), last, id);
  }

  /** An id that a move writes over. */
  function Found(r: Running, m: Move): (id: Id)
    requires !Fits(r, m)
    ensures Overwritten(r, m, id) > 0 && Places(r, id) > 0
  {
    match m
    case HoldAgents(_) => if r.agentRuntime.Some? then r.agentRuntime.value else r.agentCancel.value
    case HoldGrpc =>
      if r.grpc.Some? then r.grpc.value else if r.grpcAbort.Some? then r.grpcAbort.value else r.grpcTask.value
    case HoldSurface(surface) => TokenOf(r, surface).value
  }

  /** Nothing is lost and nothing is taken twice exactly when no start wrote over what it found. */
  lemma NothingIsLostExactly(moves: seq<Move>)
    ensures AllFit(moves)
       <==> forall id :: Everywhere(Played(moves), id) == if id in Played(moves).recorded then 1 else 0
  {
    if AllFit(moves) {
      forall id ensures Everywhere(Played(moves), id) == if id in Played(moves).recorded then 1 else 0 {
        EverythingIsInOnePlace(moves, id);
      }
    } else {
      var id := WrittenOverIsLost(moves);
      assert id in Played(moves).recorded && Everywhere(Played(moves), id) == 0;
    }
  }

  // ---------------------------------------------------------------- the server

  class HybridServer {
    const opts: Options
    var state: Running

    var next: Id
    /** What each stop so far has taken, and where the ids handed out since the last one begin. */
    ghost var stops: seq<Past>
    ghost var mark: Id
    /** The agent runtimes that were told to stop and left running: their shutdown gave up, or was given up on. */
    ghost var abandoned: set<Id>
    ghost var trace: seq<Event>

    ghost predicate Valid()
      reads this
    {
      TakenApart(stops, mark) && Sound()
    }

    /** The part of `Valid` that says nothing of past stops. */
    ghost predicate Sound()
      reads this
    {
      Consistent(state, mark, next, Live(trace), abandoned)
    }

    constructor (opts: Options)
      ensures Valid() && state == NOTHING && this.opts == opts && stops == [] && trace == [] && abandoned == {}
    {
      this.opts, state, next := opts, NOTHING, 0;
      stops, mark, abandoned, trace := [], 0, {}, [];
    }

    method NewId() returns (id: Id)
      modifies this`next
      ensures id == old(next) && next == old(next) + 1
    {
      id := next;
      next := next + 1;
    }

    ghost method Record(e: Event)
      modifies this`trace
      ensures trace == old(trace) + [e] && Live(trace) == LiveAfter(old(Live(trace)), e)
    {
      LiveMore(trace, e);
      trace := trace + [e];
    }

    method Cancel(token: Option<Id>)
      modifies this`trace
      ensures trace == WithCancel(old(trace), token) && Live(trace) == old(Live(trace))
    {
      if token.Some? { Record(Cancelled(token.value)); }
    }

    method AbortAll(ids: seq<Id>)
      modifies this`trace
      ensures trace == WithAborts(old(trace), ids) && Live(trace) == old(Live(trace)) - SetOf(ids)
    {
      for k := 0 to |ids|
        invariant trace == WithAborts(old(trace), ids[..k]) && Live(trace) == old(Live(trace)) - SetOf(ids[..k])
      {
        Record(TaskAborted(ids[k]));
        SetOfNext(ids, k);
        assert ids[..k + 1][..k] == ids[..k];
      }
      assert ids[..|ids|] == ids;
    }

    /**
     The first half of the drain: the HTTP tasks in their order and the agents' shutdown, side by
     side. The clock may run out before any of them ends; and the shutdown, which waits for its
     listeners and services for a bounded time each, may return with some of them running,
     whether it fails or not.
     */
    method AwaitSurfaces(ids: seq<Id>, agents: Option<Id>)
      returns (timedOut: bool, agentsFailed: bool, ghost waits: seq<Event>, ghost clean: bool)
      modifies this`trace
      ensures trace == old(trace) + waits
      ensures Live(trace) - SetOf(ids) == Remaining(old(Live(trace)), ids, agents, clean)
      ensures !timedOut ==> Live(trace) == Remaining(old(Live(trace)), ids, agents, clean)
      ensures !timedOut ==> AllEnded(waits, ids, agents, clean)
      ensures EndedClean(waits, agents, clean)
      ensures agentsFailed ==> agents.Some?
      ensures ids == [] && agents.None? ==> !timedOut && waits == []
    {
      ghost var live := Live(trace);
      var joined, down := 0, agents.None?;
      timedOut, agentsFailed, waits, clean := false, false, [], agents.None?;
      while joined < |ids| || !down
        invariant joined <= |ids| && trace == old(trace) + waits
        invariant !down ==> agents.Some? && !clean
        invariant Drained(live, Live(trace), waits, ids[..joined], agents, down, clean)
        invariant agentsFailed ==> agents.Some?
        invariant ids == [] && agents.None? ==> waits == []
        decreases |ids| - joined, !down
      {
        var fires: bool := *;
        if fires {
          SomeJoined(live, Live(trace), ids, joined, agents, clean);
          return true, agentsFailed, waits, clean;
        }
        var agentsFirst: bool := *;
        if joined < |ids| && (down || !agentsFirst) {
          OneJoined(live, Live(trace), waits, ids, joined, agents, down, clean);
          Record(Joined(ids[joined]));
          waits := waits + [Joined(ids[joined])];
          joined := joined + 1;
        } else {
          var leftNothing: bool := *;
          AgentsGone(live, Live(trace), waits, ids[..joined], agents.value, leftNothing);
          Record(AgentsDown(agents.value, leftNothing));
          waits := waits + [AgentsDown(agents.value, leftNothing)];
          down, clean := true, leftNothing;
          agentsFailed := *;
        }
      }
      SomeJoined(live, Live(trace), ids, joined, agents, clean);
      assert ids[..joined] == ids;
    }

    /** The drain: the surfaces, and the gRPC task once they are done. */
    method Await(ids: seq<Id>, last: Option<Id>, agents: Option<Id>)
      returns (timedOut: bool, agentsFailed: bool, ghost waits: seq<Event>, ghost clean: bool)
      modifies this`trace
      ensures trace == old(trace) + waits
      ensures Live(trace) - SetOf(ids) - Only(last) == Remaining(old(Live(trace)), ids, agents, clean) - Only(last)
      ensures !timedOut ==> Live(trace) == Remaining(old(Live(trace)), ids, agents, clean) - Only(last)
      ensures !timedOut && last.None? ==> AllEnded(waits, ids, agents, clean)
      ensures !timedOut && last.Some? ==>
        && waits != [] && waits[|waits| - 1] == Joined(last.value)
        && AllEnded(waits[..|waits| - 1], ids, agents, clean)
      ensures EndedClean(waits, agents, clean)
      ensures agentsFailed ==> agents.Some?
      ensures ids == [] && last.None? && agents.None? ==> !timedOut && waits == []
    {
      timedOut, agentsFailed, waits, clean := AwaitSurfaces(ids, agents);
      if timedOut || last.None? { return; }
      timedOut := *;
      if timedOut { return; }
      ghost var before := waits;
      Record(Joined(last.value));
      waits := waits + [Joined(last.value)];
      assert waits[..|waits| - 1] == before;
    }

    /** A stop's first lock: every server it holds becomes its own to end, and the agents stay. */
    method TakeServers() returns (taken: Running)
      modifies this`state
      ensures taken == ServersOf(old(state)) && state == AgentsOf(old(state))
      ensures forall id :: Places(old(state), id) == Places(taken, id) + Places(state, id)
      ensures forall id :: Holds(old(state), id) <==> Holds(taken, id) || Holds(state, id)
      ensures Distinct(old(state)) ==> forall id :: !(Holds(taken, id) && Holds(state, id))
    {
      taken, state := ServersOf(state), AgentsOf(state);
      PartsHold(old(state), taken, state);
    }

    /** Its second, inside the drain: the agent runtime, and the servers stay. */
    method TakeAgents() returns (taken: Running)
      modifies this`state
      ensures taken == AgentsOf(old(state)) && state == ServersOf(old(state))
      ensures forall id :: Places(old(state), id) == Places(taken, id) + Places(state, id)
      ensures forall id :: Holds(old(state), id) <==> Holds(taken, id) || Holds(state, id)
      ensures Distinct(old(state)) ==> forall id :: !(Holds(taken, id) && Holds(state, id))
    {
      taken, state := AgentsOf(state), ServersOf(state);
      PartsHold(old(state), taken, state);
    }

    /** Takes everything held and cancels it, the servers before the agents. */
    method TakeAndTell() returns (servers: Running, agents: Running)
      modifies this`state, this`trace
      ensures servers == ServersOf(old(state)) && agents == AgentsOf(old(state)) && state == NOTHING
      ensures trace == WithTold(old(trace), old(state)) && Live(trace) == old(Live(trace))
    {
      servers := TakeServers();
      Cancel(servers.grpc);
      Cancel(servers.http);
      Cancel(servers.http3);
      agents := TakeAgents();
      Cancel(agents.agentCancel);
    }

    /** What a stop does when it runs out of time. */
    method CutOff(taken: Running)
      modifies this`trace
      ensures trace == WithCancel(WithAborts(old(trace), taken.tasks + Listed(taken.grpcTask)), taken.grpcAbort)
      ensures Live(trace) == old(Live(trace)) - HeldTasks(taken)
    {
      var ids := taken.tasks + Listed(taken.grpcTask);
      if taken.grpcTask.Some? { SetOfMore(taken.tasks, taken.grpcTask.value); } else { assert ids == taken.tasks; }
      AbortAll(ids);
      Cancel(taken.grpcAbort);
    }

    /** Remembers what a stop took, and what it gave up on. */
    ghost method Remember(taken: Running, left: set<Id>)
      requires TakenApart(stops, mark) && Between(taken, mark, next)
      modifies this`stops, this`mark, this`abandoned
      ensures TakenApart(stops, mark) && stops == old(stops) + [Past(taken, old(mark), next)] && mark == next
      ensures abandoned == left
    {
      TakenMore(stops, mark, taken, next);
      stops, mark, abandoned := stops + [Past(taken, mark, next)], next, left;
    }

    /** Waits for everything taken to end, and cuts off what has not when the time is up. */
    method Drain(servers: Running, agents: Running, ghost taken: Running)
      returns (result: Result<(), Error>, ghost waits: seq<Event>, ghost clean: bool)
      requires servers == ServersOf(taken) && agents == AgentsOf(taken)
      modifies this`trace
      ensures DrainTrace(old(trace), trace, taken, waits, result == Err(ShutdownTimeout))
      ensures result != Err(ShutdownTimeout) ==> EndedInOrder(taken, waits, clean)
      ensures EndedClean(waits, taken.agentRuntime, clean)
      ensures Live(trace) == old(Live(trace)) - HeldTasks(taken) - Only(Gone(taken.agentRuntime, clean))
      ensures result == Ok(()) || result == Err(ShutdownTimeout) || (result == Err(Agents) && taken.agentRuntime.Some?)
      ensures taken == NOTHING ==> result.Ok? && trace == old(trace)
    {
      var timedOut, agentsFailed;
      timedOut, agentsFailed, waits, clean := Await(servers.tasks, servers.grpcTask, agents.agentRuntime);
      CutLeaves(old(Live(trace)), Live(trace), taken, clean);
      if timedOut {
        CutOff(servers);
        return Err(ShutdownTimeout), waits, clean;
      }
      result := if agentsFailed then Err(Agents) else Ok(());
    }

    /**
     `stop`. It empties what the server holds before it waits for any of it, so whatever
     happens next no other stop can take the same task or token. Every serving task it took has
     ended or been aborted when it returns; its agent runtime is gone exactly if its shutdown
     returned in time with nothing left, and else is left running, whatever the result says.
     Stopping a stopped server does nothing.
     */
    method Stop() returns (result: Result<(), Error>, ghost waits: seq<Event>, ghost clean: bool)
      requires Valid()
      modifies this
      ensures Valid() && state == NOTHING && next == old(next)
      ensures stops == old(stops) + [Past(old(state), old(mark), next)]
      ensures StopTrace(old(trace), trace, old(state), waits, result == Err(ShutdownTimeout))
      ensures result != Err(ShutdownTimeout) ==> EndedInOrder(old(state), waits, clean)
      ensures EndedClean(waits, old(state).agentRuntime, clean)
      ensures Live(trace) == abandoned == old(abandoned) + if clean then {} else Only(old(state).agentRuntime)
      ensures result == Ok(()) || result == Err(ShutdownTimeout) || (result == Err(Agents) && old(state).agentRuntime.Some?)
      ensures old(state) == NOTHING ==> result.Ok? && trace == old(trace)
    {
      ghost var taken, live := state, Live(trace);
      var servers, agents := TakeAndTell();
      result, waits, clean := Drain(servers, agents, taken);
      LeftByAStop(taken, mark, next, live, Live(trace), abandoned, clean);
      Remember(taken, Live(trace));
    }

    /** Spawns a serving task. */
    method Spawn() returns (task: Id)
      modifies this`next, this`trace
      ensures task == old(next) && next == old(next) + 1
      ensures trace == old(trace) + [Spawned(task)] && Live(trace) == old(Live(trace)) + {task}
    {
      task := NewId();
      Record(Spawned(task));
    }

    /** `start_agents`: a runtime, if any agent service is registered and it comes up. */
    method StartAgents() returns (result: Result<(), Error>)
      requires Sound() && state == NOTHING
      modifies this`next, this`trace, this`state
      ensures Sound() && trace == WithAgents(old(trace), state.agentRuntime)
      ensures state == AgentsOf(state)
      ensures result.Err? ==> result.error == Agents && state == NOTHING
    {
      var registered: bool := *;
      if !registered { return Ok(()); }
      ghost var high := next;
      var cancel := NewId();
      BetweenLater(state, mark, high, next);
      var up: bool := *;
      if !up { return Err(Agents); }
      var runtime := NewId();
      var endpoints: nat := *;
      RuntimeKeeps(state, runtime, cancel, endpoints, mark, high, Live(trace), abandoned);
      Record(AgentsUp(runtime));
      state := WithRuntime(state, runtime, cancel, endpoints);
      result := Ok(());
    }

    /** Spawns the gRPC server with the two tokens that end it. */
    method SpawnGrpc()
      requires Sound() && state.grpcTask.None?
      modifies this`next, this`trace, this`state
      ensures Sound() && state.grpcTask.Some?
      ensures trace == old(trace) + [Spawned(state.grpcTask.value)]
      ensures state == old(state).(grpc := state.grpc, grpcAbort := state.grpcAbort, grpcTask := state.grpcTask)
    {
      ghost var high, live := next, Live(trace);
      var shutdown := NewId();
      var abort := NewId();
      var task := Spawn();
      GrpcKeeps(state, shutdown, abort, task, mark, high, live, abandoned);
      state := WithGrpc(state, shutdown, abort, task);
    }

    /** Records what a gRPC server serves, once all of it is up. */
    method PublishGrpc()
      requires Sound()
      modifies this`state
      ensures Sound() && state == old(state).(grpcListen := opts.grpcListener, loopback := true)
    {
      state := state.(grpcListen := opts.grpcListener, loopback := true);
    }

    /**
     `start_grpc_server`: the listener is bound and the agents are up before the serving task
     starts, and nothing is recorded as serving until all of it is.
     */
    method StartGrpc() returns (result: Result<(), Error>)
      requires Sound() && state == NOTHING
      modifies this`next, this`trace, this`state
      ensures Sound() && trace == WithUp(old(trace), state)
      ensures state.tasks == [] && state.http.None? && state.http3.None? && !state.httpAddr
      ensures result.Ok? ==> GrpcServing(state)
      ensures result.Err? ==> state.grpcTask.None? && !state.loopback && !state.grpcListen
      ensures result.Err? ==> result.error != ShutdownTimeout && result.error != InvalidOptions
    {
      if opts.grpcListener {
        var bound: bool := *;
        if !bound { return Err(Listen); }
      }
      result := StartAgents();
      if result.Err? { return; }
      if opts.grpcListener {
        var configured: bool := *;
        if !configured { return Err(Tls); }
        SpawnGrpc();
      }
      PublishGrpc();
    }

    ghost predicate GrpcServing(r: Running) {
      r.loopback && (r.grpcTask.Some? <==> opts.grpcListener) && (r.grpcListen <==> opts.grpcListener)
    }

    /** Spawns a surface's serving task and records it with the token that ends it. */
    method AddSurface(surface: Surface, token: Id) returns (task: Id)
      requires Sound() && mark <= token < next
      modifies this`next, this`trace, this`state
      ensures Sound() && task == old(next)
      ensures trace == old(trace) + [Spawned(task)]
      ensures state == WithSurface(old(state), surface, token, task)
    {
      ghost var low, live, left := mark, Live(trace), abandoned;
      SurfaceKeeps(state, surface, token, next, low, next, live, left);
      var more := WithSurface(state, surface, token, next);
      task := Spawn();
      state := more;
      assert Consistent(more, low, task + 1, live + {task}, left);
    }

    /** A token that belongs to nothing yet. */
    method NewToken() returns (token: Id)
      requires Sound()
      modifies this`next
      ensures Sound() && mark <= token < next
    {
      ghost var high := next;
      token := NewId();
      BetweenLater(state, mark, high, next);
    }

    /** `start_http3`: once the listener is bound, a token and a serving task. */
    method StartHttp3(ghost base: seq<Event>) returns (result: Result<(), Error>)
      requires Sound() && trace == WithUp(base, state)
      modifies this`next, this`trace, this`state
      ensures Sound() && trace == WithUp(base, state)
      ensures result.Err? ==> result.error == HttpStart && state == old(state)
      ensures result.Ok? ==>
        && state == old(state).(http3 := state.http3, tasks := state.tasks)
        && state.http3.Some? && |state.tasks| == old(|state.tasks|) + 1
    {
      var token := NewToken();
      var bound: bool := *;
      if !bound { return Err(HttpStart); }
      ghost var before := state;
      var task := AddSurface(Http3, token);
      UpMore(base, before, Http3, token, task);
      result := Ok(());
    }

    /** `start_http`: the same, and the address it bound. */
    method StartHttp(ghost base: seq<Event>) returns (result: Result<(), Error>)
      requires Sound() && trace == WithUp(base, state)
      modifies this`next, this`trace, this`state
      ensures Sound() && trace == WithUp(base, state)
      ensures result.Err? ==> result.error == HttpStart && state == old(state)
      ensures result.Ok? ==>
        && state == old(state).(http := state.http, tasks := state.tasks, httpAddr := true)
        && state.http.Some? && |state.tasks| == old(|state.tasks|) + 1
    {
      var token := NewToken();
      var bound: bool := *;
      if !bound { return Err(HttpStart); }
      ghost var before := state;
      var task := AddSurface(Http, token);
      UpMore(base, before, Http, token, task);
      result := Ok(());
    }

    /** The HTTP surfaces the options ask for: HTTP/3, then HTTP/1.1. */
    method StartSurfaces(ghost base: seq<Event>) returns (result: Result<(), Error>)
      requires Sound() && GrpcServing(state) && trace == WithUp(base, state)
      requires state.tasks == [] && state.http.None? && state.http3.None? && !state.httpAddr
      modifies this`next, this`trace, this`state
      ensures Sound() && trace == WithUp(base, state)
      ensures result.Ok? ==> Serving(state)
      ensures result.Err? ==> result.error == HttpStart
    {
      if opts.http3 {
        // A build without the feature starts nothing, and says so.
        var featured: bool := *;
        if featured {
          result := StartHttp3(base);
          if result.Err? { return; }
        }
      }
      if opts.http {
        result := StartHttp(base);
        if result.Err? { return; }
      }
      result := Ok(());
    }

    /** `start_components`: gRPC, then the routes, then the HTTP surfaces. */
    method StartComponents() returns (result: Result<(), Error>)
      requires Sound() && state == NOTHING
      modifies this`next, this`trace, this`state
      ensures Sound() && trace == WithUp(old(trace), state)
      ensures result.Ok? ==> Serving(state)
      ensures result.Err? ==> result.error != ShutdownTimeout && result.error != InvalidOptions
    {
      result := StartGrpc();
      if result.Err? { return; }
      var routed: bool := *;
      if !routed { return Err(Gateway); }
      result := StartSurfaces(old(trace));
    }

    /** Every component the options ask for is up. */
    ghost predicate Serving(r: Running) {
      && GrpcServing(r)
      && (r.http.Some? <==> opts.http) && (r.httpAddr <==> opts.http)
      && (r.http3.Some? ==> opts.http3)
      && |r.tasks| == (if r.http.Some? then 1 else 0) + (if r.http3.Some? then 1 else 0)
    }

    /**
     `start`, on a stopped server. A failure is reported as what went wrong and not as the
     cleanup, and leaves the server stopped with nothing held and no serving task running; what
     an agent runtime leaves is what the cleanup's stop leaves of it.
     */
    method Start()
      returns (result: Result<(), Error>, ghost waits: seq<Event>, ghost cleanup: Result<(), Error>, ghost clean: bool)
      requires Valid() && state == NOTHING
      modifies this
      ensures Valid() && old(stops) <= stops
      ensures result.Ok? ==> Serving(state) && stops == old(stops) && trace == WithUp(old(trace), state)
      ensures result.Ok? ==> abandoned == old(abandoned)
      ensures result.Err? ==> state == NOTHING && Live(trace) == abandoned && result.error != ShutdownTimeout
      ensures result == Err(InvalidOptions) ==>
        stops == old(stops) && trace == old(trace) && abandoned == old(abandoned)
      ensures result.Err? && result.error != InvalidOptions ==>
        && |stops| == |old(stops)| + 1
        && var up := stops[|old(stops)|].taken;
        && StopTrace(WithUp(old(trace), up), trace, up, waits, cleanup == Err(ShutdownTimeout))
        && (cleanup != Err(ShutdownTimeout) ==> EndedInOrder(up, waits, clean))
        && EndedClean(waits, up.agentRuntime, clean)
        && abandoned == old(abandoned) + if clean then {} else Only(up.agentRuntime)
    {
      waits, cleanup, clean := [], Ok(()), true;
      var valid: bool := *;
      if !valid { return Err(InvalidOptions), waits, cleanup, clean; }
      result := StartComponents();
      if result.Err? {
        var stopped;
        stopped, waits, clean := Stop();
        cleanup := stopped;
      }
    }

    /** `restart`: a stop, and a start if the stop went well. */
    method Restart() returns (result: Result<(), Error>, ghost waits: seq<Event>, ghost clean: bool)
      requires Valid()
      modifies this
      ensures Valid() && old(stops) + [old(Past(state, mark, next))] <= stops
      ensures EndedClean(waits, old(state).agentRuntime, clean)
      ensures result.Ok? ==> Serving(state) && stops == old(stops) + [old(Past(state, mark, next))]
      ensures result.Ok? ==> abandoned == old(abandoned) + if clean then {} else Only(old(state).agentRuntime)
      ensures result.Err? ==> state == NOTHING && Live(trace) == abandoned
      ensures old(abandoned) + (if clean then {} else Only(old(state).agentRuntime)) <= abandoned
    {
      var stopped;
      stopped, waits, clean := Stop();
      if stopped.Err? { return stopped, waits, clean; }
      ghost var endings, cleanup, cleaned;
      result, endings, cleanup, cleaned := Start();
    }
  }
}
