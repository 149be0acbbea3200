/**
 The agent runtime: listeners are bound first, every service mounts, and only then does
 anything accept. A start that fails leaves nothing behind.
 */
module AgentRuntime {
  import opened Results
  import opened Addresses
  import opened Grouping

  datatype Config = Config(shared: string, hostMux: bool, grpcRoutes: bool)

  /** One place a protocol answers. */
  datatype Endpoint = Endpoint(protocol: Protocol, url: string)

  datatype Error =
    | AlreadyStarted
    | NoServices
    | NeedsGrpcRoutes(protocol: Protocol)
    | Listen(addr: string)
    | FailedToStart(protocol: Protocol, source: string)
    | StoppedBeforeMount(protocol: Protocol)
    | MountTimeout(protocol: Protocol)
    | StartCancelled
    | Drain(addr: string)
    | Multiple(errors: seq<Error>)

  /** What became of a service the runtime was waiting on. */
  datatype Mounted = Ready(endpoints: seq<Endpoint>) | Dropped | TimedOut | Cancelled

  /** How a task that was awaited ended. */
  datatype Ended = Returned | Failed(source: string) | Aborted | Panicked

  /** What a shutdown finds of a listener within its time: gone, gone by a panic, or serving on. */
  datatype Closing = Closed | Crashed | Stuck

  /** A listener bound for the group at `group`, not yet accepting. */
  datatype Opened = Opened(group: nat, port: Option<nat>)

  datatype Listener = Listener(requested: string, addr: string, group: nat)

  /**
   What a start or a shutdown does to the world, one thing at a time. Listeners are named by
   their group, tasks by the place of their service in mounting order.
   */
  datatype Event =
    | Bound(group: nat)
    | Released(group: nat)
    | Spawned(task: nat, addr: string)
    | Reported(task: nat, endpoints: seq<Endpoint>)
    | Accepting(group: nat)
    | ServicesCancelled
    | DrainStarted
    | TaskAborted(task: nat)
    | TaskEnded(task: nat)
    | ListenerAwaited(group: nat)

  /**
   What a trace leaves behind: the listeners held open, the tasks neither seen to end nor
   aborted, the tasks that reported themselves mounted, and the listeners that began to accept.
   */
  datatype World = World(held: set<nat>, running: set<nat>, mounted: set<nat>, accepting: set<nat>)

  function Advance(w: World, e: Event): World {
    match e
    case Bound(g) => w.(held := w.held + {g})
    case Released(g) => w.(held := w.held - {g})
    case Spawned(t, _) => w.(running := w.running + {t})
    case TaskAborted(t) => w.(running := w.running - {t})
    case TaskEnded(t) => w.(running := w.running - {t})
    case Reported(t, _) => w.(mounted := w.mounted + {t})
    case Accepting(g) => w.(accepting := w.accepting + {g})
    case _ => w
  }

  function Observe(trace: seq<Event>): World {
    if trace == [] then World({}, {}, {}, {})
    else Advance(Observe(trace[..|trace| - 1]), trace[|trace| - 1])
  }

  /** Nothing accepts before each of `n` services has reported, and only what is bound accepts. */
  ghost predicate MountsBeforeAccepting(trace: seq<Event>, n: nat) {
    forall k | 0 <= k < |trace| && trace[k].Accepting? ::
      && (forall t | 0 <= t < n :: t in Observe(trace[..k]).mounted)
      && trace[k].group in Observe(trace[..k]).held
  }

  /** Some service has been started. */
  predicate Spawns(trace: seq<Event>) {
    trace != [] && (Spawns(trace[..|trace| - 1]) || trace[|trace| - 1].Spawned?)
  }

  /** Nothing is bound once a service has been started. */
  predicate BindsFirst(trace: seq<Event>) {
    trace != [] ==>
      && BindsFirst(trace[..|trace| - 1])
      && (trace[|trace| - 1].Bound? ==> !Spawns(trace[..|trace| - 1]))
  }

  lemma BindsFirstMore(trace: seq<Event>, e: Event)
    ensures BindsFirst(trace + [e]) <==> BindsFirst(trace) && (e.Bound? ==> !Spawns(trace))
    ensures Spawns(trace + [e]) <==> Spawns(trace) || e.Spawned?
  {
    assert (trace + [e])[..|trace|] == trace;
  }

  /** So that in the whole of a trace no binding comes after a start. */
  lemma {:induction false} BindsFirstExactly(trace: seq<Event>)
    ensures BindsFirst(trace) <==> forall j, k | 0 <= j < k < |trace| && trace[k].Bound? :: !trace[j].Spawned?
    ensures Spawns(trace) <==> exists j | 0 <= j < |trace| :: trace[j].Spawned?
    decreases |trace|
  {
    if trace != [] {
      var last := |trace| - 1;
      var before := trace[..last];
      BindsFirstExactly(before);
      assert forall j | 0 <= j < last :: before[j] == trace[j];
      if !BindsFirst(before) {
        var j, k :| 0 <= j < k < last && before[k].Bound? && before[j].Spawned?;
        assert trace[k].Bound? && trace[j].Spawned?;
      }
    }
  }

  /** Nothing bound, nothing running, nothing accepting. */
  ghost predicate Clean(trace: seq<Event>) {
    var w := Observe(trace);
    w.held == {} && w.running == {} && w.accepting == {}
  }

  /** The groups whose listeners these are. */
  function HeldBy(listeners: seq<Listener>): (groups: set<nat>)
  {
    if listeners == [] then {} else HeldBy(listeners[..|listeners| - 1]) + {listeners[|listeners| - 1].group}
  }

  lemma HeldByMore(listeners: seq<Listener>, n: nat)
    requires n < |listeners|
    ensures HeldBy(listeners[..n + 1]) == HeldBy(listeners[..n]) + {listeners[n].group}
  {
    assert listeners[..n + 1][..n] == listeners[..n];
  }

  lemma {:induction false} HeldByExactly(listeners: seq<Listener>, g: nat)
    ensures g in HeldBy(listeners) <==> exists l :: l in listeners && l.group == g
    decreases |listeners|
  {
    if listeners != [] {
      var n := |listeners| - 1;
      HeldByExactly(listeners[..n], g);
      assert listeners == listeners[..n] + [listeners[n]];
    }
  }

  /** The groups whose listener the runtime opens itself. */
  predicate Opens(group: Group) {
    group.owned && group.http
  }

  function Concat<T>(parts: seq<seq<T>>): seq<T> {
    if parts == [] then [] else Concat(parts[..|parts| - 1]) + parts[|parts| - 1]
  }

  lemma ConcatMore<T>(parts: seq<seq<T>>, part: seq<T>)
    ensures Concat(parts + [part]) == Concat(parts) + part
  {
    assert (parts + [part])[..|parts|] == parts;
  }

  /** Every service with the address it is told, in mounting order: group by group. */
  function Placements(groups: seq<Group>): seq<(Service, string)> {
    if groups == [] then []
    else
      var group := groups[|groups| - 1];
      Placements(groups[..|groups| - 1]) + Placed(group, |group.services|)
  }

  /** The first `n` services of a group, each with the address the group listens at. */
  function Placed(group: Group, n: nat): (placed: seq<(Service, string)>)
    requires n <= |group.services|
    ensures |placed| == n && forall k | 0 <= k < n :: placed[k] == (group.services[k], group.listen)
  {
    if n == 0 then [] else Placed(group, n - 1) + [(group.services[n - 1], group.listen)]
  }

  lemma PlacementsMore(groups: seq<Group>, n: nat)
    requires n < |groups|
    ensures Placements(groups[..n + 1]) == Placements(groups[..n]) + Placed(groups[n], |groups[n].services|)
  {
    assert groups[..n + 1][..n] == groups[..n];
  }

  lemma {:induction false} PlacementsGrow(groups: seq<Group>, n: nat)
    requires n <= |groups|
    ensures Placements(groups[..n]) <= Placements(groups)
    decreases |groups| - n
  {
    if n < |groups| {
      PlacementsMore(groups, n);
      PlacementsGrow(groups, n + 1);
    } else {
      assert groups[..n] == groups;
    }
  }

  function Upto(n: nat): (tasks: set<nat>)
    ensures forall t: nat :: t in tasks <==> t < n
  {
    if n == 0 then {} else Upto(n - 1) + {n - 1}
  }

  function AllOf(tasks: seq<nat>): set<nat> {
    if tasks == [] then {} else AllOf(tasks[..|tasks| - 1]) + {tasks[|tasks| - 1]}
  }

  lemma AllOfMore(tasks: seq<nat>, n: nat)
    requires n < |tasks|
    ensures AllOf(tasks[..n + 1]) == AllOf(tasks[..n]) + {tasks[n]}
  {
    assert tasks[..n + 1][..n] == tasks[..n];
  }

  /** The first `n` tasks, in the order they were started. */
  function Tasks(n: nat): (tasks: seq<nat>)
    ensures |tasks| == n && AllOf(tasks) == Upto(n)
  {
    if n == 0 then [] else Tasks(n - 1) + [n - 1]
  }

  /** Each placed service was started at its address and has reported what `reports` says. */
  ghost predicate AllReported(trace: seq<Event>, placed: seq<(Service, string)>, reports: seq<seq<Endpoint>>) {
    && |reports| <= |placed|
    && forall t | 0 <= t < |reports| ::
         Spawned(t, placed[t].1) in trace && Reported(t, reports[t]) in trace
  }

  class Runtime {
    const cfg: Config
    const services: seq<Service>

    var started: bool
    var endpoints: seq<Endpoint>
    var listeners: seq<Listener>
    var serviceCancel: bool
    var drain: bool
    var tasks: seq<nat>
    ghost var trace: seq<Event>

    /** What the runtime holds is what is running: nothing at all before a start succeeds. */
    ghost predicate Valid()
      reads this
    {
      && (!started ==> endpoints == [] && trace == [])
      && (serviceCancel <==> drain)
      && (!serviceCancel ==> listeners == [] && tasks == [])
      && (serviceCancel ==> started && Holding(Observe(trace), listeners, tasks))
    }

    ghost predicate Untouched()
      reads this
    {
      endpoints == [] && listeners == [] && tasks == [] && !serviceCancel && !drain
    }

    constructor (cfg: Config, services: seq<Service>)
      ensures this.cfg == cfg && this.services == services
      ensures Valid() && !started && Untouched()
    {
      this.cfg, this.services := cfg, services;
      started, endpoints, listeners, serviceCancel, drain, tasks := false, [], [], false, false, [];
      trace := [];
    }

    ghost method Record(e: Event)
      modifies this`trace
      ensures trace == old(trace) + [e]
      ensures Observe(trace) == Advance(old(Observe(trace)), e)
    {
      trace := trace + [e];
      assert trace[..|trace| - 1] == old(trace);
    }

    /** Dropping the bound listeners frees their ports. */
    ghost method Release(bound: seq<Opened>)
      modifies this`trace
      ensures Observe(trace) == old(Observe(trace)).(held := old(Observe(trace)).held - Groups(bound))
    {
      for n := 0 to |bound|
        invariant Observe(trace) == old(Observe(trace)).(held := old(Observe(trace)).held - Groups(bound[..n]))
      {
        Record(Released(bound[n].group));
        GroupsMore(bound, n);
      }
      assert bound[..|bound|] == bound;
    }

    /** `abort_all`. */
    method AbortAll(tasks: seq<nat>)
      modifies this`trace
      ensures Observe(trace) == old(Observe(trace)).(running := old(Observe(trace)).running - AllOf(tasks))
    {
      for n := 0 to |tasks|
        invariant Observe(trace) == old(Observe(trace)).(running := old(Observe(trace)).running - AllOf(tasks[..n]))
      {
        Record(TaskAborted(tasks[n]));
        AllOfMore(tasks, n);
      }
      assert tasks[..|tasks|] == tasks;
    }

    /** Binds one group's listener, if its address is free, and tells the group where it listens. */
    method BindGroup(groups: array<Group>, index: nat) returns (opening: Option<Opened>)
      requires index < groups.Length
      modifies groups, this`trace
      ensures opening.None? ==> trace == old(trace) && groups[..] == old(groups[..])
      ensures opening.Some? ==>
        && opening.value.group == index && trace == old(trace) + [Event.Bound(index)]
        && groups[..] == Telling(old(groups[..]), opening.value)
    {
      var free: bool := *;
      if !free { return None; }
      Record(Event.Bound(index));
      var group := groups[index];
      var port: Option<nat> := *;
      if port.Some? {
        groups[index] := group.(listen := WithPort(group.addr, port.value));
      }
      opening := Some(Opened(index, port));
    }

    /**
     `bind`: a listener for every group that opens one, and the address each really got. A
     refusal drops every listener already bound.
     */
    method Bind(groups: array<Group>) returns (result: Result<seq<Opened>, Error>)
      requires Observe(trace).held == {} && BindsFirst(trace) && !Spawns(trace)
      modifies groups, this`trace
      ensures result.Err? ==> result.error.Listen? && Observe(trace) == old(Observe(trace))
      ensures result.Ok? ==>
        && BoundTo(old(groups[..]), groups[..], result.value, groups.Length)
        && OnlyBinds(trace, old(Observe(trace)), result.value)
    {
      var bound: seq<Opened> := [];
      ghost var was, base := groups[..], Observe(trace);
      for index := 0 to groups.Length
        invariant BoundTo(was, groups[..], bound, index) && OnlyBinds(trace, base, bound)
      {
        ghost var now, before := groups[..], trace;
        BoundSkips(was, now, bound, index);
        if !Opens(groups[index]) { continue; }
        var addr := groups[index].addr;
        var opening := BindGroup(groups, index);
        if opening.None? {
          Release(bound);
          return Err(Listen(addr));
        }
        BoundMore(was, now, bound, opening.value);
        OnlyBindsMore(before, base, bound, opening.value);
        bound := bound + [opening.value];
      }
      result := Ok(bound);
    }

    /**
     Starts one service and waits for it to report. A service that does not stops the start:
     those already mounted are aborted, and every listener bound is let go.
     */
    method Mount(service: Service, addr: string, tasks: seq<nat>, bound: seq<Opened>,
                 ghost groups: seq<Group>, ghost g: nat, ghost s: nat,
                 ghost endpoints: seq<Endpoint>, ghost reports: seq<seq<Endpoint>>)
      returns (result: Result<seq<Endpoint>, Error>)
      requires Mounting(trace, groups, g, s, bound, endpoints, tasks, reports)
      requires g < |groups| && s < |groups[g].services| && addr == groups[g].listen
      modifies this`trace
      ensures result.Ok? ==>
        Mounting(trace, groups, g, s + 1, bound, endpoints + result.value, tasks + [|tasks|], reports + [result.value])
      ensures result.Err? ==> Clean(trace)
    {
      var task := |tasks|;
      Record(Spawned(task, addr));
      var mounted: Mounted := *;
      if mounted.Ready? {
        Record(Reported(task, mounted.endpoints));
        MountedOne(old(trace), groups, g, s, bound, endpoints, tasks, reports, mounted.endpoints);
        return Ok(mounted.endpoints);
      }
      var ended := GiveUp(task, tasks, bound, mounted.Dropped?);
      match mounted
      case Dropped =>
        result := Err(if ended.Failed? then FailedToStart(service.protocol, ended.source)
                      else StoppedBeforeMount(service.protocol));
      case TimedOut => result := Err(MountTimeout(service.protocol));
      case Cancelled => result := Err(StartCancelled);
    }

    /**
     Cleans up after a service that will not mount: the services are cancelled and those
     already mounted aborted. The service itself is aborted too, unless it dropped its sender:
     then it is ending by itself and is waited for.
     */
    method GiveUp(task: nat, tasks: seq<nat>, bound: seq<Opened>, dropped: bool) returns (ended: Ended)
      requires tasks == Tasks(task)
      requires Observe(trace) == World(Groups(bound), Upto(task) + {task}, Upto(task), {})
      modifies this`trace
      ensures Clean(trace)
    {
      Record(ServicesCancelled);
      if !dropped { Record(TaskAborted(task)); }
      AbortAll(tasks);
      ended := *;
      if dropped { Record(TaskEnded(task)); }
      assert Observe(trace).running == {};
      Release(bound);
    }

    /** Mounts every service, group by group. */
    method MountAll(groups: seq<Group>, bound: seq<Opened>)
      returns (result: Result<(seq<Endpoint>, seq<nat>), Error>, ghost reports: seq<seq<Endpoint>>)
      requires Observe(trace) == World(Groups(bound), {}, {}, {}) && BindsFirst(trace)
      modifies this`trace
      ensures result.Err? ==> Clean(trace)
      ensures result.Ok? ==> BindsFirst(trace)
      ensures result.Ok? ==>
        var n := |Placements(groups)|;
        && |reports| == n && AllReported(trace, Placements(groups), reports)
        && result.value == (Concat(reports), Tasks(n))
        && Observe(trace) == World(Groups(bound), Upto(n), Upto(n), {})
    {
      var endpoints: seq<Endpoint> := [];
      var tasks: seq<nat> := [];
      reports := [];
      for g := 0 to |groups|
        invariant Mounting(trace, groups, g, 0, bound, endpoints, tasks, reports)
      {
        var group := groups[g];
        for s := 0 to |group.services|
          invariant Mounting(trace, groups, g, s, bound, endpoints, tasks, reports)
        {
          var mounted := Mount(group.services[s], group.listen, tasks, bound, groups, g, s, endpoints, reports);
          if mounted.Err? { return Err(mounted.error), reports; }
          endpoints := endpoints + mounted.value;
          tasks := tasks + [|tasks|];
          reports := reports + [mounted.value];
        }
        NextGroup(trace, groups, g, bound, endpoints, tasks, reports);
      }
      assert groups[..|groups|] == groups;
      result := Ok((endpoints, tasks));
    }

    /** `serve_groups`: every bound listener starts accepting, in the order it was bound. */
    method ServeGroups(groups: seq<Group>, bound: seq<Opened>, ghost n: nat) returns (listeners: seq<Listener>)
      requires ListenersOf(groups, bound, |groups|) && ServedUpTo(trace, n, groups, bound, [])
      modifies this`trace
      ensures old(trace) <= trace && |listeners| == |bound|
      ensures ServedUpTo(trace, n, groups, bound, listeners)
    {
      listeners := [];
      for k := 0 to |bound|
        invariant old(trace) <= trace && |listeners| == k
        invariant ServedUpTo(trace, n, groups, bound, listeners)
      {
        AscendingBelow(bound, |groups|, k);
        var group := groups[bound[k].group];
        ServedOneMore(trace, n, groups, bound, listeners);
        Record(Accepting(bound[k].group));
        listeners := listeners + [Listener(group.addr, group.listen, bound[k].group)];
      }
    }

    /** Sorts the services into groups and binds the listeners those need. */
    method Open() returns (result: Result<seq<Opened>, Error>, groups: seq<Group>, ghost sorted: seq<Group>)
      requires Observe(trace).held == {} && BindsFirst(trace) && !Spawns(trace)
      modifies this`trace
      ensures Sorted(sorted)
      ensures result.Err? ==> Observe(trace) == old(Observe(trace))
      ensures result.Ok? ==>
        && BoundTo(sorted, groups, result.value, |sorted|)
        && OnlyBinds(trace, old(Observe(trace)), result.value)
    {
      groups := GroupServices(services, cfg.shared, cfg.hostMux);
      sorted := groups;
      var placed := new Group[|groups|](k requires 0 <= k < |groups| => groups[k]);
      assert placed[..] == groups;
      result := Bind(placed);
      groups := placed[..];
    }

    /** The services grouped, none of the groups told anything yet. */
    ghost predicate Sorted(groups: seq<Group>) {
      IsGrouping(services, cfg.shared, cfg.hostMux, groups) && forall g | g in groups :: g.listen == g.addr
    }

    /** Lets the listeners accept, and only then records what came up. */
    method Publish(groups: seq<Group>, bound: seq<Opened>, found: seq<Endpoint>, mounted: seq<nat>,
                   ghost reports: seq<seq<Endpoint>>)
      requires mounted == Tasks(|Placements(groups)|)
      requires started && ListenersOf(groups, bound, |groups|) && BindsFirst(trace)
      requires AllReported(trace, Placements(groups), reports)
      requires var n := |Placements(groups)|; Observe(trace) == World(Groups(bound), Upto(n), Upto(n), {})
      modifies this
      ensures Valid() && started && endpoints == found && tasks == mounted
      ensures AllReported(trace, Placements(groups), reports) && BindsFirst(trace)
      ensures var n := |Placements(groups)|;
        && MountsBeforeAccepting(trace, n)
        && Observe(trace) == World(Opening(groups, |groups|), Upto(n), Upto(n), Opening(groups, |groups|))
        && Listening(groups, listeners)
    {
      ReadyToServe(trace, |Placements(groups)|, groups, bound);
      var serving := ServeGroups(groups, bound, |Placements(groups)|);
      ServedAll(trace, |Placements(groups)|, groups, bound, serving);
      Keep(found, serving, mounted);
    }

    /** What a start that succeeded leaves for the shutdown. */
    method Keep(found: seq<Endpoint>, serving: seq<Listener>, mounted: seq<nat>)
      modifies this`endpoints, this`listeners, this`serviceCancel, this`drain, this`tasks
      ensures endpoints == found && listeners == serving && serviceCancel && drain && tasks == mounted
    {
      endpoints := found;
      listeners := serving;
      serviceCancel, drain := true, true;
      tasks := mounted;
    }

    /** The first service that needs gRPC routes when there are none. */
    method Unroutable() returns (protocol: Option<Protocol>)
      ensures protocol.None? <==> cfg.grpcRoutes || forall k | 0 <= k < |services| :: !services[k].needs.grpc
      ensures protocol.Some? ==> exists k | 0 <= k < |services| ::
        && services[k].needs.grpc && services[k].protocol == protocol.value
        && forall j | 0 <= j < k :: !services[j].needs.grpc
    {
      for k := 0 to |services|
        invariant cfg.grpcRoutes || forall j | 0 <= j < k :: !services[j].needs.grpc
      {
        if services[k].needs.grpc && !cfg.grpcRoutes { return Some(services[k].protocol); }
      }
      protocol := None;
    }

    /** `start`. */
    method Start()
      returns (result: Result<(), Error>, ghost sorted: seq<Group>, ghost bound: seq<Opened>, ghost groups: seq<Group>,
               ghost reports: seq<seq<Endpoint>>)
      requires Valid()
      modifies this
      ensures Valid()
      // At most one start ever succeeds: one that finds the runtime started changes nothing.
      ensures result.Ok? ==> !old(started)
      ensures started == (old(started) || services != [])
      ensures old(started) ==> result == Err(AlreadyStarted)
      ensures !old(started) && services == [] ==> result == Err(NoServices)
      ensures old(started) || services == [] ==>
        trace == old(trace) && endpoints == old(endpoints) && listeners == old(listeners) && tasks == old(tasks)
      // A start that fails leaves nothing bound, accepting, running or published.
      ensures result.Err? && !old(started) ==>
        Untouched() && Clean(trace)
      // One that succeeds has bound everything first, and told every group where it listens;
      ensures result.Ok? ==> Sorted(sorted) && BoundTo(sorted, groups, bound, |sorted|) && BindsFirst(trace)
      // then mounted every service at the address its group was told, and only then let anything accept.
      ensures result.Ok? ==>
        var n := |Placements(groups)|;
        && IsGrouping(services, cfg.shared, cfg.hostMux, groups)
        && |reports| == n && AllReported(trace, Placements(groups), reports)
        && endpoints == Concat(reports)
        && tasks == Tasks(n)
        && MountsBeforeAccepting(trace, n)
        && Observe(trace) == World(Opening(groups, |groups|), Upto(n), Upto(n), Opening(groups, |groups|))
        && Listening(groups, listeners)
    {
      sorted, bound, groups, reports := [], [], [], [];
      if started { return Err(AlreadyStarted), sorted, bound, groups, reports; }
      if services == [] { return Err(NoServices), sorted, bound, groups, reports; }
      started := true;

      var unroutable := Unroutable();
      if unroutable.Some? { return Err(NeedsGrpcRoutes(unroutable.value)), sorted, bound, groups, reports; }

      var opening, told;
      opening, told, sorted := Open();
      if opening.Err? { return Err(opening.error), sorted, bound, groups, reports; }
      bound, groups := opening.value, told;
      ToldGrouping(services, cfg.shared, cfg.hostMux, sorted, told, opening.value);

      var mounting;
      mounting, reports := MountAll(told, opening.value);
      if mounting.Err? { return Err(mounting.error), sorted, bound, groups, reports; }

      Publish(told, opening.value, mounting.value.0, mounting.value.1, reports);
      result := Ok(());
    }

    /** Waits, for a bounded time, until one listener has drained. */
    method AwaitListener(listener: Listener) returns (closing: Closing)
      modifies this`trace
      ensures trace == old(trace) + Awaited(listener, closing)
    {
      Record(ListenerAwaited(listener.group));
      closing := *;
      if closing != Stuck { Record(Released(listener.group)); }
    }

    /** Waits, for a bounded time each, until the listeners have drained; `closings` says which did. */
    method DrainListeners(held: seq<Listener>) returns (errs: seq<Error>, ghost closings: seq<Closing>)
      modifies this`trace
      ensures |closings| == |held|
      ensures trace == old(trace) + AwaitTrace(held, closings)
      ensures errs == Undrained(held, closings)
    {
      errs, closings := [], [];
      for k := 0 to |held|
        invariant |closings| == k
        invariant trace == old(trace) + AwaitTrace(held, closings)
        invariant errs == Undrained(held, closings)
      {
        var closing := AwaitListener(held[k]);
        if closing != Closed { errs := errs + [Drain(held[k].addr)]; }
        AwaitMore(held, closings, closing);
        closings := closings + [closing];
      }
    }

    /**
     Waits, for a bounded time each, until the services have ended; `inTime` says which did. How
     they end is only logged.
     */
    method AwaitTasks(waiting: seq<nat>) returns (ghost inTime: seq<bool>)
      modifies this`trace
      ensures |inTime| == |waiting| && trace == old(trace) + EndTrace(waiting, inTime)
    {
      inTime := [];
      for k := 0 to |waiting|
        invariant |inTime| == k && trace == old(trace) + EndTrace(waiting, inTime)
      {
        var ends: bool := *;
        EndMore(waiting, inTime, ends);
        if ends { Record(TaskEnded(waiting[k])); }
        inTime := inTime + [ends];
      }
    }

    /** Tells the services and the listeners to stop, as far as there are any. */
    method TellStop(stopping: bool, draining: bool)
      requires stopping == draining
      modifies this`trace
      ensures trace == old(trace) + TellTrace(stopping)
    {
      if stopping { Record(ServicesCancelled); }
      if draining { Record(DrainStarted); }
    }

    /**
     `shutdown`: services and listeners are told to stop before anything is waited for, and what
     the runtime held is let go of whatever happens. What it stops waiting for it does not end:
     what is left is exactly the listeners stuck and the services that were not in time, and the
     result speaks of the listeners alone. A runtime that never started, or was shut down
     before, has nothing to do.
     */
    method Shutdown() returns (result: Result<(), Error>, ghost closings: seq<Closing>, ghost inTime: seq<bool>)
      requires Valid()
      modifies this
      ensures Valid() && started == old(started) && endpoints == old(endpoints)
      ensures listeners == [] && tasks == [] && !serviceCancel && !drain
      ensures |closings| == |old(listeners)| && |inTime| == |old(tasks)|
      ensures trace == ShutdownTrace(old(trace), old(serviceCancel), old(listeners), closings, old(tasks), inTime)
      ensures result == Collected(Undrained(old(listeners), closings))
      ensures result.Ok? <==> forall k | 0 <= k < |closings| :: closings[k].Closed?
      ensures !old(serviceCancel) ==> trace == old(trace)
      ensures old(serviceCancel) ==> LeftBehind(Observe(trace), old(listeners), closings, inTime)
      ensures old(serviceCancel) ==>
        (Observe(trace).held == {} && Observe(trace).running == {} <==> NothingLeft(closings, inTime))
    {
      var held, waiting, stopping, draining := listeners, tasks, serviceCancel, drain;
      listeners, tasks, serviceCancel, drain := [], [], false, false;
      TellStop(stopping, draining);
      var errs;
      errs, closings := DrainListeners(held);
      inTime := AwaitTasks(waiting);
      UndrainedExactly(held, closings);
      ShutdownObserved(old(trace), stopping, held, closings, waiting, inTime);
      if stopping { LeftByShutdown(old(Observe(trace)), held, closings, waiting, inTime); }
      result := Collected(errs);
    }

    /** `bound_addr`: where the listener opened for `requested` really is. */
    function BoundAddr(requested: string): Option<string>
      reads this
    {
      Find(listeners, requested)
    }
  }

  /** What a shutdown reports: nothing, the one error, or all of them together. */
  function Collected(errs: seq<Error>): Result<(), Error> {
    if errs == [] then Ok(()) else if |errs| == 1 then Err(errs[0]) else Err(Multiple(errs))
  }

  /** What a shutdown does first. */
  function TellTrace(told: bool): seq<Event> {
    if told then [ServicesCancelled, DrainStarted] else []
  }

  function Awaited(listener: Listener, closing: Closing): seq<Event> {
    [ListenerAwaited(listener.group)] + if closing == Stuck then [] else [Released(listener.group)]
  }

  /** Every listener waited for in turn, and let go unless it is stuck. */
  function AwaitTrace(listeners: seq<Listener>, closings: seq<Closing>): seq<Event>
    requires |closings| <= |listeners|
  {
    if closings == [] then []
    else
      var n := |closings| - 1;
      AwaitTrace(listeners, closings[..n]) + Awaited(listeners[n], closings[n])
  }

  /** The endings of the tasks waited for that ended in time, in their order. */
  function EndTrace(tasks: seq<nat>, inTime: seq<bool>): seq<Event>
    requires |inTime| <= |tasks|
  {
    if inTime == [] then []
    else
      var n := |inTime| - 1;
      EndTrace(tasks, inTime[..n]) + if inTime[n] then [TaskEnded(tasks[n])] else []
  }

  function ShutdownTrace(trace: seq<Event>, told: bool, listeners: seq<Listener>, closings: seq<Closing>,
                         tasks: seq<nat>, inTime: seq<bool>): seq<Event>
    requires |closings| <= |listeners| && |inTime| <= |tasks|
  {
    trace + TellTrace(told) + AwaitTrace(listeners, closings) + EndTrace(tasks, inTime)
  }

  /** The errors of the listeners that did not drain, in order. */
  function Undrained(listeners: seq<Listener>, closings: seq<Closing>): seq<Error>
    requires |closings| <= |listeners|
  {
    if closings == [] then []
    else
      var n := |closings| - 1;
      Undrained(listeners, closings[..n]) + if closings[n] == Closed then [] else [Drain(listeners[n].addr)]
  }

  lemma AwaitMore(listeners: seq<Listener>, closings: seq<Closing>, closing: Closing)
    requires |closings| < |listeners|
    ensures var n := |closings|;
      && AwaitTrace(listeners, closings + [closing]) == AwaitTrace(listeners, closings) + Awaited(listeners[n], closing)
      && Undrained(listeners, closings + [closing])
         == Undrained(listeners, closings) + if closing == Closed then [] else [Drain(listeners[n].addr)]
  {
    assert (closings + [closing])[..|closings|] == closings;
  }

  lemma EndMore(tasks: seq<nat>, inTime: seq<bool>, ends: bool)
    requires |inTime| < |tasks|
    ensures EndTrace(tasks, inTime + [ends]) == EndTrace(tasks, inTime) + if ends then [TaskEnded(tasks[|inTime|])] else []
  {
    assert (inTime + [ends])[..|inTime|] == inTime;
  }

  lemma {:induction false} UndrainedExactly(listeners: seq<Listener>, closings: seq<Closing>)
    requires |closings| <= |listeners|
    ensures Undrained(listeners, closings) == [] <==> forall k | 0 <= k < |closings| :: closings[k].Closed?
    decreases |closings|
  {
    if closings != [] {
      var n := |closings| - 1;
      UndrainedExactly(listeners, closings[..n]);
      assert forall k | 0 <= k < n :: closings[..n][k] == closings[k];
    }
  }

  // ---------------------------------------------------------------- what a shutdown leaves

  /** What is held of `held` once the listeners that are not stuck have been let go. */
  function StillHeld(held: set<nat>, listeners: seq<Listener>, closings: seq<Closing>): set<nat>
    requires |closings| <= |listeners|
  {
    if closings == [] then held
    else
      var n := |closings| - 1;
      StillHeld(held, listeners, closings[..n]) - if closings[n] == Stuck then {} else {listeners[n].group}
  }

  /** What runs of `running` once the tasks in time have ended. */
  function StillRunning(running: set<nat>, tasks: seq<nat>, inTime: seq<bool>): set<nat>
    requires |inTime| <= |tasks|
  {
    if inTime == [] then running
    else
      var n := |inTime| - 1;
      StillRunning(running, tasks, inTime[..n]) - if inTime[n] then {tasks[n]} else {}
  }

  lemma ObservedOne(trace: seq<Event>, e: Event)
    ensures Observe(trace + [e]) == Advance(Observe(trace), e)
  {
    assert (trace + [e])[..|trace|] == trace;
  }

  lemma Regroup(a: seq<Event>, b: seq<Event>, c: seq<Event>)
    ensures a + (b + c) == a + b + c
  {
  }

  lemma AwaitedObserved(trace: seq<Event>, listener: Listener, closing: Closing)
    ensures var w := Observe(trace);
      Observe(trace + Awaited(listener, closing))
      == w.(held := w.held - if closing == Stuck then {} else {listener.group})
  {
    ObservedOne(trace, ListenerAwaited(listener.group));
    if closing == Stuck {
      assert Awaited(listener, closing) == [ListenerAwaited(listener.group)];
    } else {
      ObservedOne(trace + [ListenerAwaited(listener.group)], Released(listener.group));
      Regroup(trace, [ListenerAwaited(listener.group)], [Released(listener.group)]);
    }
  }

  lemma {:induction false} DrainObserved(trace: seq<Event>, listeners: seq<Listener>, closings: seq<Closing>)
    requires |closings| <= |listeners|
    ensures var w := Observe(trace);
      Observe(trace + AwaitTrace(listeners, closings)) == w.(held := StillHeld(w.held, listeners, closings))
    decreases |closings|
  {
    if closings == [] {
      assert trace + [] == trace;
    } else {
      var n := |closings| - 1;
      DrainObserved(trace, listeners, closings[..n]);
      AwaitedObserved(trace + AwaitTrace(listeners, closings[..n]), listeners[n], closings[n]);
      Regroup(trace, AwaitTrace(listeners, closings[..n]), Awaited(listeners[n], closings[n]));
    }
  }

  lemma {:induction false} EndObserved(trace: seq<Event>, tasks: seq<nat>, inTime: seq<bool>)
    requires |inTime| <= |tasks|
    ensures var w := Observe(trace);
      Observe(trace + EndTrace(tasks, inTime)) == w.(running := StillRunning(w.running, tasks, inTime))
    decreases |inTime|
  {
    if inTime == [] {
      assert trace + [] == trace;
    } else {
      var n := |inTime| - 1;
      EndObserved(trace, tasks, inTime[..n]);
      if inTime[n] {
        ObservedOne(trace + EndTrace(tasks, inTime[..n]), TaskEnded(tasks[n]));
        Regroup(trace, EndTrace(tasks, inTime[..n]), [TaskEnded(tasks[n])]);
      } else {
        assert EndTrace(tasks, inTime) == EndTrace(tasks, inTime[..n]);
      }
    }
  }

  lemma ToldObserved(trace: seq<Event>, told: bool)
    ensures Observe(trace + TellTrace(told)) == Observe(trace)
  {
    if told {
      ObservedOne(trace, ServicesCancelled);
      ObservedOne(trace + [ServicesCancelled], DrainStarted);
      Regroup(trace, [ServicesCancelled], [DrainStarted]);
      assert TellTrace(told) == [ServicesCancelled] + [DrainStarted];
    } else {
      assert trace + [] == trace;
    }
  }

  lemma ShutdownObserved(trace: seq<Event>, told: bool, listeners: seq<Listener>, closings: seq<Closing>,
                         tasks: seq<nat>, inTime: seq<bool>)
    requires |closings| <= |listeners| && |inTime| <= |tasks|
    ensures var w := Observe(trace);
      Observe(ShutdownTrace(trace, told, listeners, closings, tasks, inTime))
      == w.(held := StillHeld(w.held, listeners, closings), running := StillRunning(w.running, tasks, inTime))
  {
    ToldObserved(trace, told);
    DrainObserved(trace + TellTrace(told), listeners, closings);
    EndObserved(trace + TellTrace(told) + AwaitTrace(listeners, closings), tasks, inTime);
  }

  lemma {:induction false} StillHeldExactly(held: set<nat>, listeners: seq<Listener>, closings: seq<Closing>, g: nat)
    requires |closings| <= |listeners|
    ensures g in StillHeld(held, listeners, closings)
       <==> g in held && forall k | 0 <= k < |closings| && listeners[k].group == g :: closings[k].Stuck?
    decreases |closings|
  {
    if closings != [] {
      var n := |closings| - 1;
      StillHeldExactly(held, listeners, closings[..n], g);
      assert forall k | 0 <= k < n :: closings[..n][k] == closings[k];
    }
  }

  lemma {:induction false} StillRunningExactly(running: set<nat>, tasks: seq<nat>, inTime: seq<bool>, t: nat)
    requires |inTime| <= |tasks|
    ensures t in StillRunning(running, tasks, inTime)
       <==> t in running && forall k | 0 <= k < |inTime| && tasks[k] == t :: !inTime[k]
    decreases |inTime|
  {
    if inTime != [] {
      var n := |inTime| - 1;
      StillRunningExactly(running, tasks, inTime[..n], t);
      assert forall k | 0 <= k < n :: inTime[..n][k] == inTime[k];
    }
  }

  /** What a started runtime holds is what is held and running: a listener a group, a task a service. */
  ghost predicate Holding(w: World, listeners: seq<Listener>, tasks: seq<nat>) {
    && w.held == HeldBy(listeners) && Apart(listeners)
    && w.running == AllOf(tasks) && tasks == Tasks(|tasks|)
  }

  ghost predicate Apart(listeners: seq<Listener>) {
    forall j, k | 0 <= j < k < |listeners| :: listeners[j].group != listeners[k].group
  }

  /** What a shutdown leaves: the listeners that are stuck, and the tasks that were not in time. */
  ghost predicate LeftBehind(w: World, listeners: seq<Listener>, closings: seq<Closing>, inTime: seq<bool>)
    requires |closings| == |listeners|
  {
    && (forall g :: g in w.held <==> exists k | 0 <= k < |closings| :: listeners[k].group == g && closings[k].Stuck?)
    && (forall t :: t in w.running <==> 0 <= t < |inTime| && !inTime[t])
  }

  predicate NothingLeft(closings: seq<Closing>, inTime: seq<bool>) {
    && (forall k | 0 <= k < |closings| :: !closings[k].Stuck?)
    && (forall k | 0 <= k < |inTime| :: inTime[k])
  }

  lemma TasksAt(n: nat, k: nat)
    requires k < n
    ensures Tasks(n)[k] == k
  {
    if k < n - 1 { TasksAt(n - 1, k); }
  }

  /** What is left behind, exactly; and nothing is exactly when no listener is stuck and no service late. */
  lemma LeftByShutdown(w: World, listeners: seq<Listener>, closings: seq<Closing>, tasks: seq<nat>, inTime: seq<bool>)
    requires Holding(w, listeners, tasks) && |closings| == |listeners| && |inTime| == |tasks|
    ensures var left := w.(held := StillHeld(w.held, listeners, closings),
                           running := StillRunning(w.running, tasks, inTime));
      && LeftBehind(left, listeners, closings, inTime)
      && (left.held == {} && left.running == {} <==> NothingLeft(closings, inTime))
  {
    var left := w.(held := StillHeld(w.held, listeners, closings), running := StillRunning(w.running, tasks, inTime));
    forall g ensures g in left.held <==> exists k | 0 <= k < |closings| :: listeners[k].group == g && closings[k].Stuck? {
      HeldLeft(w.held, listeners, closings, g);
    }
    forall t ensures t in left.running <==> 0 <= t < |inTime| && !inTime[t] {
      RunningLeft(w.running, tasks, inTime, t);
    }
    if NothingLeft(closings, inTime) {
      assert left.held == {} && left.running == {};
    } else if k :| 0 <= k < |inTime| && !inTime[k] {
      assert k in left.running;
    } else {
      var k :| 0 <= k < |closings| && closings[k].Stuck?;
      assert listeners[k].group in left.held;
    }
  }

  lemma HeldLeft(held: set<nat>, listeners: seq<Listener>, closings: seq<Closing>, g: nat)
    requires held == HeldBy(listeners) && Apart(listeners) && |closings| == |listeners|
    ensures g in StillHeld(held, listeners, closings)
       <==> exists k | 0 <= k < |closings| :: listeners[k].group == g && closings[k].Stuck?
  {
    StillHeldExactly(held, listeners, closings, g);
    HeldByExactly(listeners, g);
    if g in held {
      var l :| l in listeners && l.group == g;
      var k :| 0 <= k < |listeners| && listeners[k] == l;
      assert forall j | 0 <= j < |listeners| && listeners[j].group == g :: j == k;
    } else if k :| 0 <= k < |closings| && listeners[k].group == g {
      assert listeners[k] in listeners;
    }
  }

  lemma RunningLeft(running: set<nat>, tasks: seq<nat>, inTime: seq<bool>, t: int)
    requires running == AllOf(tasks) && tasks == Tasks(|tasks|) && |inTime| == |tasks|
    ensures t in StillRunning(running, tasks, inTime) <==> 0 <= t < |inTime| && !inTime[t]
  {
    if t >= 0 {
      StillRunningExactly(running, tasks, inTime, t);
      forall k: nat | k < |tasks| ensures tasks[k] == k { TasksAt(|tasks|, k); }
    }
  }

  /**
   A service that goes on past its time is no error: every listener closed, the shutdown is
   `Ok`, and the service is still running.
   */
  lemma LateServicesAreNotReported(trace: seq<Event>, listeners: seq<Listener>, closings: seq<Closing>,
                                   tasks: seq<nat>, inTime: seq<bool>, late: nat)
    requires Holding(Observe(trace), listeners, tasks) && |closings| == |listeners| && |inTime| == |tasks|
    requires forall k | 0 <= k < |closings| :: closings[k].Closed?
    requires late < |inTime| && !inTime[late]
    ensures Collected(Undrained(listeners, closings)) == Ok(())
    ensures late in Observe(ShutdownTrace(trace, true, listeners, closings, tasks, inTime)).running
  {
    UndrainedExactly(listeners, closings);
    ShutdownObserved(trace, true, listeners, closings, tasks, inTime);
    RunningLeft(Observe(trace).running, tasks, inTime, late);
  }

  function Find(listeners: seq<Listener>, requested: string): Option<string> {
    if listeners == [] then None
    else if listeners[0].requested == requested then Some(listeners[0].addr)
    else Find(listeners[1..], requested)
  }

  /**
   Of a runtime that listens for its groups, an address is answered with where its group was told
   it listens, and one no opened group asked for is not answered at all.
   */
  lemma BoundAddrFindsTheGroup(runtime: Runtime, groups: seq<Group>, requested: string)
    requires IsGrouping(runtime.services, runtime.cfg.shared, runtime.cfg.hostMux, groups)
    requires Listening(groups, runtime.listeners)
    ensures forall g | 0 <= g < |groups| && groups[g].addr == requested && Opens(groups[g]) ::
      runtime.BoundAddr(requested) == Some(groups[g].listen)
    ensures (forall g | 0 <= g < |groups| && groups[g].addr == requested :: !Opens(groups[g])) ==>
      runtime.BoundAddr(requested).None?
  {
    var listeners := runtime.listeners;
    FindFinds(listeners, requested);
    forall g | 0 <= g < |groups| && groups[g].addr == requested && Opens(groups[g])
      ensures Find(listeners, requested) == Some(groups[g].listen)
    {
      HeldByExactly(listeners, g);
      var l :| l in listeners && l.requested == requested && Find(listeners, requested) == Some(l.addr);
      LessIsTotal(groups[g].addr, groups[l.group].addr);
    }
    forall l | l in listeners && l.requested == requested
      ensures Opens(groups[l.group])
    {
      HeldByExactly(listeners, l.group);
    }
  }

  lemma {:induction false} FindFinds(listeners: seq<Listener>, requested: string)
    ensures match Find(listeners, requested)
      case Some(addr) => exists l :: l in listeners && l.requested == requested && l.addr == addr
      case None => forall l | l in listeners :: l.requested != requested
  {
    if listeners != [] {
      if listeners[0].requested == requested {
        assert listeners[0] in listeners;
      } else {
        FindFinds(listeners[1..], requested);
        assert forall l :: l in listeners <==> l == listeners[0] || l in listeners[1..];
      }
    }
  }

  /** The address a group's services are told: the bound one when the listener has a port. */
  function Listens(group: Group, port: Option<nat>): string {
    if port.Some? then WithPort(group.addr, port.value) else group.listen
  }

  function Groups(bound: seq<Opened>): set<nat> {
    if bound == [] then {} else Groups(bound[..|bound| - 1]) + {bound[|bound| - 1].group}
  }

  lemma GroupsMore(bound: seq<Opened>, n: nat)
    requires n < |bound|
    ensures Groups(bound[..n + 1]) == Groups(bound[..n]) + {bound[n].group}
  {
    assert bound[..n + 1][..n] == bound[..n];
  }

  lemma {:induction false} GroupsHas(bound: seq<Opened>, k: nat)
    requires k < |bound|
    ensures bound[k].group in Groups(bound)
    decreases |bound|
  {
    if k < |bound| - 1 { GroupsHas(bound[..|bound| - 1], k); }
  }

  /** The groups below `n` that open a listener. */
  function Opening(groups: seq<Group>, n: nat): (opening: set<nat>)
    requires n <= |groups|
    ensures forall g :: g in opening <==> 0 <= g < n && Opens(groups[g])
  {
    if n == 0 then {} else Opening(groups, n - 1) + if Opens(groups[n - 1]) then {n - 1} else {}
  }

  /** `bound` lists, in order, exactly the groups below `n` that open a listener. */
  ghost predicate ListenersOf(groups: seq<Group>, bound: seq<Opened>, n: nat) {
    && n <= |groups|
    && Groups(bound) == Opening(groups, n)
    && Ascending(bound, n)
  }

  ghost predicate Ascending(bound: seq<Opened>, n: nat) {
    bound != [] ==>
      var last := |bound| - 1;
      bound[last].group < n && Ascending(bound[..last], bound[last].group)
  }

  lemma {:induction false} AscendingBelow(bound: seq<Opened>, n: nat, k: nat)
    requires Ascending(bound, n) && k < |bound|
    ensures bound[k].group < n
    decreases |bound|
  {
    var last := |bound| - 1;
    if k < last { AscendingBelow(bound[..last], bound[last].group, k); }
  }

  /** The groups once each bound listener's group has been told the address it got. */
  function Told(groups: seq<Group>, bound: seq<Opened>): (told: seq<Group>)
    ensures |told| == |groups|
  {
    if bound == [] then groups
    else Telling(Told(groups, bound[..|bound| - 1]), bound[|bound| - 1])
  }

  /** One group told the address its listener got. */
  function Telling(groups: seq<Group>, o: Opened): (told: seq<Group>)
    ensures |told| == |groups|
  {
    if o.group < |groups| then groups[o.group := groups[o.group].(listen := Listens(groups[o.group], o.port))]
    else groups
  }

  /** The listener opened for group `g`, if one was. */
  function OpenedFor(bound: seq<Opened>, g: nat): Option<Opened> {
    if bound == [] then None
    else
      var last := bound[|bound| - 1];
      if last.group == g then Some(last) else OpenedFor(bound[..|bound| - 1], g)
  }

  lemma {:induction false} OpenedOnce(bound: seq<Opened>, n: nat, g: nat)
    requires Ascending(bound, n) && g >= n
    ensures OpenedFor(bound, g) == None
    decreases |bound|
  {
    if bound != [] {
      var last := |bound| - 1;
      OpenedOnce(bound[..last], bound[last].group, g);
    }
  }

  /** `bound` opens what has to be opened below `n`, and `now` is `was` told so. */
  ghost predicate BoundTo(was: seq<Group>, now: seq<Group>, bound: seq<Opened>, n: nat) {
    ListenersOf(was, bound, n) && now == Told(was, bound)
  }

  /** A group is told nothing before its turn, and one that opens no listener changes nothing. */
  lemma BoundSkips(was: seq<Group>, now: seq<Group>, bound: seq<Opened>, n: nat)
    requires BoundTo(was, now, bound, n) && n < |was|
    ensures now[n] == was[n]
    ensures !Opens(was[n]) ==> BoundTo(was, now, bound, n + 1)
  {
    ToldExactly(was, bound, n, n);
    OpenedOnce(bound, n, n);
    if !Opens(was[n]) { assert Opening(was, n + 1) == Opening(was, n); }
  }

  lemma ToldMore(groups: seq<Group>, bound: seq<Opened>, o: Opened)
    ensures Told(groups, bound + [o]) == Telling(Told(groups, bound), o)
  {
    assert (bound + [o])[..|bound|] == bound;
  }

  lemma BoundMore(was: seq<Group>, now: seq<Group>, bound: seq<Opened>, o: Opened)
    requires BoundTo(was, now, bound, o.group) && o.group < |was| && Opens(now[o.group])
    ensures BoundTo(was, Telling(now, o), bound + [o], o.group + 1)
  {
    BoundSkips(was, now, bound, o.group);
    ListenersMore(was, bound, o);
    ToldMore(was, bound, o);
  }

  /** A trace that has only opened listeners since `base`: those of `bound`. */
  ghost predicate OnlyBinds(trace: seq<Event>, base: World, bound: seq<Opened>) {
    Observe(trace) == base.(held := Groups(bound)) && BindsFirst(trace) && !Spawns(trace)
  }

  lemma OnlyBindsMore(trace: seq<Event>, base: World, bound: seq<Opened>, o: Opened)
    requires OnlyBinds(trace, base, bound)
    ensures OnlyBinds(trace + [Event.Bound(o.group)], base, bound + [o])
  {
    BindsFirstMore(trace, Event.Bound(o.group));
    assert (trace + [Event.Bound(o.group)])[..|trace|] == trace;
    assert (bound + [o])[..|bound|] == bound;
  }

  /** Told groups differ only in where they listen: at what their listener got, if they have one. */
  lemma {:induction false} ToldExactly(groups: seq<Group>, bound: seq<Opened>, n: nat, g: nat)
    requires Ascending(bound, n) && n <= |groups| && g < |groups|
    ensures Told(groups, bound)[g] ==
      match OpenedFor(bound, g)
      case None => groups[g]
      case Some(o) => groups[g].(listen := Listens(groups[g], o.port))
    decreases |bound|
  {
    if bound != [] {
      var last := bound[|bound| - 1];
      var fewer := bound[..|bound| - 1];
      ToldExactly(groups, fewer, last.group, g);
      if last.group == g { OpenedOnce(fewer, last.group, g); }
    }
  }

  lemma ListenersMore(groups: seq<Group>, bound: seq<Opened>, o: Opened)
    requires o.group < |groups| && ListenersOf(groups, bound, o.group) && Opens(groups[o.group])
    ensures ListenersOf(groups, bound + [o], o.group + 1)
  {
    assert (bound + [o])[..|bound|] == bound;
    assert Opening(groups, o.group + 1) == Opening(groups, o.group) + {o.group};
  }

  /** Where the mounting loops stand: everything before service `s` of group `g` has reported. */
  ghost predicate Mounting(trace: seq<Event>, groups: seq<Group>, g: nat, s: nat, bound: seq<Opened>,
                           endpoints: seq<Endpoint>, tasks: seq<nat>, reports: seq<seq<Endpoint>>) {
    && g <= |groups| && (s > 0 ==> g < |groups| && s <= |groups[g].services|)
    && var n := Nth(groups, g, s);
    && n <= |Placements(groups)|
    && |reports| == n && AllReported(trace, Placements(groups), reports)
    && endpoints == Concat(reports)
    && tasks == Tasks(n)
    && Observe(trace) == World(Groups(bound), Upto(n), Upto(n), {})
    && BindsFirst(trace)
  }

  /** The first `n` bound listeners, each with the address its group asked for and the one it got. */
  ghost predicate Serves(groups: seq<Group>, bound: seq<Opened>, listeners: seq<Listener>, n: nat) {
    && |listeners| == n <= |bound|
    && forall k | 0 <= k < n ::
         && bound[k].group < |groups|
         && listeners[k] == Listener(groups[bound[k].group].addr, groups[bound[k].group].listen, bound[k].group)
  }

  /** The listeners are those of the groups that open one, at the addresses those were told. */
  ghost predicate Listening(groups: seq<Group>, listeners: seq<Listener>) {
    && HeldBy(listeners) == Opening(groups, |groups|)
    && forall l | l in listeners ::
         l.group < |groups| && l.requested == groups[l.group].addr && l.addr == groups[l.group].listen
  }

  /** Where the mounting loops stand among all the services. */
  function Nth(groups: seq<Group>, g: nat, s: nat): nat
    requires g <= |groups|
  {
    |Placements(groups[..g])| + s
  }

  lemma PlacedNext(groups: seq<Group>, g: nat, s: nat)
    requires g < |groups| && s < |groups[g].services|
    ensures Nth(groups, g, s) < |Placements(groups)|
    ensures Placements(groups)[Nth(groups, g, s)] == (groups[g].services[s], groups[g].listen)
  {
    PlacementsMore(groups, g);
    PlacementsGrow(groups, g + 1);
    assert Placements(groups)[Nth(groups, g, s)] == Placements(groups[..g + 1])[Nth(groups, g, s)];
  }

  /** One more service mounted, and the loops stand one service further. */
  lemma MountedOne(trace: seq<Event>, groups: seq<Group>, g: nat, s: nat, bound: seq<Opened>,
                   endpoints: seq<Endpoint>, tasks: seq<nat>, reports: seq<seq<Endpoint>>, found: seq<Endpoint>)
    requires Mounting(trace, groups, g, s, bound, endpoints, tasks, reports)
    requires g < |groups| && s < |groups[g].services|
    ensures var n := |tasks|;
      Mounting(trace + [Spawned(n, groups[g].listen)] + [Reported(n, found)], groups, g, s + 1, bound,
               endpoints + found, tasks + [n], reports + [found])
  {
    var n := |tasks|;
    ConcatMore(reports, found);
    PlacedNext(groups, g, s);
    ReportedMore(trace, Placements(groups), reports, found);
    ObservedMore(trace, n, groups[g].listen, found);
    BindsFirstMore(trace, Spawned(n, groups[g].listen));
    BindsFirstMore(trace + [Spawned(n, groups[g].listen)], Reported(n, found));
    OneTaskMore(n);
  }

  lemma OneTaskMore(n: nat)
    ensures Tasks(n + 1) == Tasks(n) + [n] && Upto(n + 1) == Upto(n) + {n}
  {
  }

  lemma ObservedMore(trace: seq<Event>, n: nat, addr: string, found: seq<Endpoint>)
    ensures var w := Observe(trace);
      Observe(trace + [Spawned(n, addr)] + [Reported(n, found)])
      == w.(running := w.running + {n}, mounted := w.mounted + {n})
  {
    var started := trace + [Spawned(n, addr)];
    assert started[..|trace|] == trace && (started + [Reported(n, found)])[..|started|] == started;
  }

  lemma ReportedMore(trace: seq<Event>, placed: seq<(Service, string)>, reports: seq<seq<Endpoint>>, found: seq<Endpoint>)
    requires AllReported(trace, placed, reports) && |reports| < |placed|
    ensures var n := |reports|;
      AllReported(trace + [Spawned(n, placed[n].1)] + [Reported(n, found)], placed, reports + [found])
  {
    var n := |reports|;
    var mounted := trace + [Spawned(n, placed[n].1)] + [Reported(n, found)];
    assert Spawned(n, placed[n].1) == mounted[|trace|] && Reported(n, found) == mounted[|trace| + 1];
    assert forall e | e in trace :: e in mounted;
  }

  lemma NextGroup(trace: seq<Event>, groups: seq<Group>, g: nat, bound: seq<Opened>,
                  endpoints: seq<Endpoint>, tasks: seq<nat>, reports: seq<seq<Endpoint>>)
    requires g < |groups| && Mounting(trace, groups, g, |groups[g].services|, bound, endpoints, tasks, reports)
    ensures Mounting(trace, groups, g + 1, 0, bound, endpoints, tasks, reports)
  {
    PlacementsMore(groups, g);
  }

  /** Groups told where they listen are the same groups otherwise. */
  ghost predicate OnlyListenDiffers(was: seq<Group>, now: seq<Group>) {
    |now| == |was| && forall g | 0 <= g < |was| :: now[g] == was[g].(listen := now[g].listen)
  }

  lemma ToldOnlyListens(was: seq<Group>, now: seq<Group>, bound: seq<Opened>)
    requires BoundTo(was, now, bound, |was|)
    ensures OnlyListenDiffers(was, now)
  {
    forall g | 0 <= g < |was| ensures now[g] == was[g].(listen := now[g].listen) {
      ToldExactly(was, bound, |was|, g);
    }
  }

  lemma {:induction false} OpeningIgnoresListen(was: seq<Group>, now: seq<Group>, n: nat)
    requires OnlyListenDiffers(was, now) && n <= |was|
    ensures Opening(now, n) == Opening(was, n)
  {
    if n > 0 { OpeningIgnoresListen(was, now, n - 1); }
  }

  /** Telling groups where they listen leaves the grouping as it was. */
  lemma ToldGrouping(services: seq<Service>, shared: string, hostMux: bool,
                     was: seq<Group>, now: seq<Group>, bound: seq<Opened>)
    requires IsGrouping(services, shared, hostMux, was) && BoundTo(was, now, bound, |was|)
    ensures IsGrouping(services, shared, hostMux, now) && ListenersOf(now, bound, |now|)
  {
    ToldOnlyListens(was, now, bound);
    OpeningIgnoresListen(was, now, |was|);
    GroupingIgnoresListen(services, shared, hostMux, was, now);
  }

  lemma GroupingIgnoresListen(services: seq<Service>, shared: string, hostMux: bool, was: seq<Group>, now: seq<Group>)
    requires IsGrouping(services, shared, hostMux, was)
    requires OnlyListenDiffers(was, now)
    ensures IsGrouping(services, shared, hostMux, now)
  {
    forall s | s in services
      ensures exists g :: g in now && g.addr == AddrOf(shared, s)
    {
      var g :| 0 <= g < |was| && was[g].addr == AddrOf(shared, s);
      assert now[g] in now && now[g].addr == AddrOf(shared, s);
    }
  }

  /** Once all have mounted, one more bound listener may accept. */
  lemma AcceptingNext(trace: seq<Event>, n: nat, group: nat)
    requires MountsBeforeAccepting(trace, n)
    requires Observe(trace).mounted == Upto(n) && group in Observe(trace).held
    ensures MountsBeforeAccepting(trace + [Accepting(group)], n)
  {
    var more := trace + [Accepting(group)];
    assert more[..|trace|] == trace;
    assert forall k | 0 <= k < |trace| :: more[k] == trace[k] && more[..k] == trace[..k];
  }

  lemma {:induction false} QuietSoFar(trace: seq<Event>)
    requires Observe(trace).accepting == {}
    ensures forall k | 0 <= k < |trace| :: !trace[k].Accepting?
    decreases |trace|
  {
    if trace != [] {
      var before := trace[..|trace| - 1];
      assert Observe(before).accepting <= Observe(trace).accepting;
      QuietSoFar(before);
      assert forall k | 0 <= k < |before| :: trace[k] == before[k];
    }
  }

  /** Where serving stands: one listener for each of the first bound, accepting, and everything in its order. */
  ghost predicate ServedUpTo(trace: seq<Event>, n: nat, groups: seq<Group>, bound: seq<Opened>, listeners: seq<Listener>) {
    && Serves(groups, bound, listeners, |listeners|)
    && MountsBeforeAccepting(trace, n) && BindsFirst(trace)
    && Observe(trace) == World(Groups(bound), Upto(n), Upto(n), Groups(bound[..|listeners|]))
  }

  lemma ReadyToServe(trace: seq<Event>, n: nat, groups: seq<Group>, bound: seq<Opened>)
    requires BindsFirst(trace) && Observe(trace) == World(Groups(bound), Upto(n), Upto(n), {})
    ensures ServedUpTo(trace, n, groups, bound, [])
  {
    QuietSoFar(trace);
    assert bound[..0] == [];
  }

  lemma ServedOneMore(trace: seq<Event>, n: nat, groups: seq<Group>, bound: seq<Opened>, listeners: seq<Listener>)
    requires ListenersOf(groups, bound, |groups|) && |listeners| < |bound| && ServedUpTo(trace, n, groups, bound, listeners)
    ensures bound[|listeners|].group < |groups|
    ensures var o := bound[|listeners|];
      ServedUpTo(trace + [Accepting(o.group)], n, groups, bound,
                 listeners + [Listener(groups[o.group].addr, groups[o.group].listen, o.group)])
  {
    var k := |listeners|;
    AscendingBelow(bound, |groups|, k);
    GroupsHas(bound, k);
    GroupsMore(bound, k);
    AcceptingNext(trace, n, bound[k].group);
    BindsFirstMore(trace, Accepting(bound[k].group));
    assert (trace + [Accepting(bound[k].group)])[..|trace|] == trace;
  }

  lemma ServedAll(trace: seq<Event>, n: nat, groups: seq<Group>, bound: seq<Opened>, listeners: seq<Listener>)
    requires ListenersOf(groups, bound, |groups|) && |listeners| == |bound| && ServedUpTo(trace, n, groups, bound, listeners)
    ensures Listening(groups, listeners) && HeldBy(listeners) == Groups(bound)
    ensures Observe(trace) == World(Opening(groups, |groups|), Upto(n), Upto(n), Opening(groups, |groups|))
    ensures Holding(Observe(trace), listeners, Tasks(n))
  {
    assert bound[..|bound|] == bound;
    ListeningAll(groups, bound, listeners);
    ServesApart(groups, bound, listeners);
  }

  lemma {:induction false} AscendingApart(bound: seq<Opened>, n: nat, j: nat, k: nat)
    requires Ascending(bound, n) && j < k < |bound|
    ensures bound[j].group < bound[k].group
    decreases |bound|
  {
    var last := |bound| - 1;
    if k < last { AscendingApart(bound[..last], bound[last].group, j, k); }
    else { AscendingBelow(bound[..last], bound[last].group, j); }
  }

  lemma ServesApart(groups: seq<Group>, bound: seq<Opened>, listeners: seq<Listener>)
    requires ListenersOf(groups, bound, |groups|) && Serves(groups, bound, listeners, |bound|)
    ensures Apart(listeners)
  {
    forall j, k | 0 <= j < k < |listeners| ensures listeners[j].group != listeners[k].group {
      AscendingApart(bound, |groups|, j, k);
    }
  }

  lemma ListeningAll(groups: seq<Group>, bound: seq<Opened>, listeners: seq<Listener>)
    requires ListenersOf(groups, bound, |groups|) && Serves(groups, bound, listeners, |bound|)
    ensures Listening(groups, listeners) && Opening(groups, |groups|) == Groups(bound)
  {
    SameGroups(bound, listeners);
    forall l | l in listeners
      ensures l.group < |groups| && l.requested == groups[l.group].addr && l.addr == groups[l.group].listen
    {
      var k :| 0 <= k < |listeners| && listeners[k] == l;
    }
  }

  lemma {:induction false} SameGroups(bound: seq<Opened>, listeners: seq<Listener>)
    requires |listeners| == |bound| && forall k | 0 <= k < |bound| :: listeners[k].group == bound[k].group
    ensures HeldBy(listeners) == Groups(bound)
    decreases |bound|
  {
    if bound != [] { SameGroups(bound[..|bound| - 1], listeners[..|bound| - 1]); }
  }
}
