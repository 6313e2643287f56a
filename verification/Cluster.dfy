/** The primary and its workers in the clustered server: which worker sweeps expired files,
    and how a shutdown deadline reaches every worker before it is signalled. */
module Cluster {
  import opened Common

  const CLUSTER_FORCE_EXIT_MS := 10_000
  const CLUSTER_TEARDOWN_RESERVE_MS := 3_000
  const SHUTDOWN_TIMEOUT_MS := 60_000

  /** Numbered from 1 in order of forking, so an assigned id is never the falsy 0. */
  type WorkerId = nat

  // ----- The worker -----

  /** Joins being configured with being eligible: the sweep starts when both hold, once. */
  datatype Gate = Gate(eligible: bool, configured: bool, starts: nat)

  function MaybeStart(g: Gate): Gate {
    if !g.eligible || g.starts > 0 || !g.configured then g else g.(starts := g.starts + 1)
  }

  function Configure(g: Gate): Gate {
    MaybeStart(g.(configured := true))
  }

  function AssignGate(g: Gate): Gate {
    MaybeStart(g.(eligible := true))
  }

  predicate GateOk(g: Gate) {
    g.starts == if g.eligible && g.configured then 1 else 0
  }

  /** A deadline that is not a finite number travels as None and is ignored. */
  datatype Message = SweepOrder | ShutdownNotice(deadline: Option<int>)

  datatype Worker = Worker(
    connected: bool, online: bool, inbox: multiset<Message>,
    gate: Gate, deadline: Option<int>, shutdownStartedAt: Option<int>)

  function Forked(distributed: bool): Worker {
    Worker(true, false, multiset{}, Gate(distributed, false, 0), None, None)
  }

  function Receive(w: Worker, m: Message): Worker {
    match m
    case SweepOrder => w.(gate := AssignGate(w.gate))
    case ShutdownNotice(d) => if d.Some? then w.(deadline := d) else w
  }

  predicate Acknowledges(m: Message) {
    m.ShutdownNotice? && m.deadline.Some?
  }

  function Max(a: int, b: int): int {
    if a < b then b else a
  }

  function Min(a: int, b: int): int {
    if a < b then a else b
  }

  /** The budget handed to the generation manager at time `now`; None when the worker is not
      shutting down, so that no budget is passed. */
  function SettlementBudget(w: Worker, now: int): Option<int> {
    match w.shutdownStartedAt
    case None => None
    case Some(startedAt) =>
      var remaining := Max(0, SHUTDOWN_TIMEOUT_MS - (now - startedAt));
      var elapsed := Max(0, now - startedAt);
      var primaryRemaining := if w.deadline.Some? then w.deadline.value - now else CLUSTER_FORCE_EXIT_MS - elapsed;
      Some(Max(0, Min(remaining, primaryRemaining) - CLUSTER_TEARDOWN_RESERVE_MS))
  }

  // ----- The primary -----

  /** Why the primary exited: all workers gone, its own timer, or a cache that would not flush. */
  datatype ExitReason = Drained | Forced | CacheFailed

  /** `handshakes` holds, for every worker told the deadline, whether it was signalled. */
  datatype Primary = Primary(
    active: int, listening: set<WorkerId>, sweep: Option<WorkerId>,
    shuttingDown: bool, remaining: int, deadline: Option<int>,
    handshakes: map<WorkerId, bool>, exit: Option<ExitReason>)

  const STARTING := Primary(0, {}, None, false, 0, None, map[], None)

  /** What a handler did: the primary after it, the worker told to sweep, the number of
      workers forked, the workers sent the deadline, and the worker sent SIGTERM. */
  datatype Reaction = Reaction(
    primary: Primary, order: Option<WorkerId>, forks: nat, notify: set<WorkerId>, kill: Option<WorkerId>)

  /** `cluster.workers`: the live workers, each with whether its channel is open. */
  type Pool = map<WorkerId, bool>

  function Still(p: Primary): Reaction {
    Reaction(p, None, 0, {}, None)
  }

  function Connected(pool: Pool): set<WorkerId> {
    set id | id in pool && pool[id]
  }

  ghost predicate IsHighest(ids: set<WorkerId>, m: WorkerId) {
    m in ids && forall i :: i in ids ==> i <= m
  }

  lemma {:induction false} HighestExists(ids: set<WorkerId>)
    requires ids != {}
    ensures exists m :: IsHighest(ids, m)
  {
    var x :| x in ids;
    var rest := ids - {x};
    if rest == {} {
      assert ids == {x};
      assert IsHighest(ids, x);
    } else {
      HighestExists(rest);
      var m :| IsHighest(rest, m);
      assert IsHighest(ids, if m < x then x else m) by {
        forall i | i in ids ensures i <= if m < x then x else m {
          assert i == x || i in rest;
        }
      }
    }
  }

  /** The last of the workers in the order `Object.values` lists them. */
  function Highest(ids: set<WorkerId>): (r: Option<WorkerId>)
    ensures r.None? <==> ids == {}
    ensures r.Some? ==> IsHighest(ids, r.value)
  {
    if ids == {} then None
    else
      HighestExists(ids);
      var m :| m in ids && forall i :: i in ids ==> i <= m;
      Some(m)
  }

  function Candidates(p: Primary, pool: Pool): set<WorkerId> {
    var available := Connected(pool) * p.listening;
    if available != {} then available else Connected(pool)
  }

  function Assign(p: Primary, pool: Pool): Reaction {
    if p.sweep.Some? && p.sweep.value in pool then Still(p)
    else
      var choice := Highest(Candidates(p, pool));
      if choice.None? then Still(p) else Reaction(p.(sweep := choice), choice, 0, {}, None)
  }

  function OnFlushed(p: Primary, ok: bool, n: nat): Reaction {
    if ok then Still(p).(forks := n) else Still(p.(exit := Some(CacheFailed)))
  }

  function OnOnline(p: Primary): Reaction {
    Still(p.(active := p.active + 1))
  }

  function OnListening(p: Primary, pool: Pool, id: WorkerId, n: nat): Reaction {
    var p1 := p.(listening := p.listening + {id});
    if |p1.listening| == n || (p.sweep.None? && p.active >= n) then Assign(p1, pool) else Still(p1)
  }

  /** The worker and its listener are gone; a lost sweep is handed on. */
  function Buried(p: Primary, pool: Pool, id: WorkerId): Reaction {
    var p1 := p.(active := p.active - 1, listening := p.listening - {id});
    if p.sweep == Some(id) then Assign(p1.(sweep := None), pool) else Still(p1)
  }

  function CountedDown(p: Primary): Primary {
    var left := Max(0, p.remaining - 1);
    p.(remaining := left, exit := if left == 0 then Some(Drained) else p.exit)
  }

  /** `pool` no longer holds the worker that exited. */
  function OnExit(p: Primary, pool: Pool, id: WorkerId): Reaction {
    var r := Buried(p, pool, id);
    if p.shuttingDown then r.(primary := CountedDown(r.primary)) else r.(forks := 1)
  }

  function OnSignal(p: Primary, pool: Pool, now: int): Reaction {
    if p.shuttingDown then Still(p)
    else
      var p1 := p.(shuttingDown := true, remaining := |pool|);
      if |pool| == 0 then Still(p1.(exit := Some(Drained)))
      else
        Reaction(
          p1.(deadline := Some(now + CLUSTER_FORCE_EXIT_MS), handshakes := map id | id in pool :: false),
          None, 0, pool.Keys, None)
  }

  /** An acknowledgement or an error on the worker's channel: SIGTERM, once. */
  function Settle(p: Primary, id: WorkerId): Reaction {
    if id in p.handshakes && !p.handshakes[id]
    then Still(p.(handshakes := p.handshakes[id := true])).(kill := Some(id))
    else Still(p)
  }

  function OnTimer(p: Primary, now: int): Reaction {
    if p.deadline.Some? && now >= p.deadline.value then Still(p.(exit := Some(Forced))) else Still(p)
  }

  // ----- The cluster -----

  /** `size` workers are configured; with Redis (`distributed`) every worker may sweep. */
  datatype Config = Config(size: nat, distributed: bool)

  /** Messages under way arrive in any order, or never if the worker dies first.
      `orders`, `acked`, `errored`, `kills` and `stillborn` (the workers that exited without
      ever having come online) record what happened so far. */
  datatype System = System(
    primary: Primary, workers: map<WorkerId, Worker>, nextId: WorkerId, flushed: bool, clock: int,
    acks: multiset<WorkerId>,
    orders: multiset<WorkerId>, acked: set<WorkerId>, errored: set<WorkerId>, kills: multiset<WorkerId>,
    stillborn: nat)

  datatype Event =
    | Flush(ok: bool)
    | Online(id: WorkerId)
    | Listening(id: WorkerId)
    | Disconnect(id: WorkerId)
    | Exit(id: WorkerId)
    | Signal
    | Deliver(id: WorkerId, msg: Message, answered: bool)
    | AckArrives(id: WorkerId)
    | IpcError(id: WorkerId)
    | ConfigureSweep(id: WorkerId)
    | Terminated(id: WorkerId)
    | Timer
    | Tick(ms: nat)

  function Boot(clock: int): System {
    System(STARTING, map[], 1, false, clock, multiset{}, multiset{}, {}, {}, multiset{}, 0)
  }

  function PoolOf(workers: map<WorkerId, Worker>): Pool {
    map id | id in workers :: workers[id].connected
  }

  function Once<T>(x: Option<T>): multiset<T> {
    if x.Some? then multiset{x.value} else multiset{}
  }

  function Mail(r: Reaction, id: WorkerId): multiset<Message> {
    (if r.order == Some(id) then multiset{SweepOrder} else multiset{})
    + (if id in r.notify then multiset{ShutdownNotice(r.primary.deadline)} else multiset{})
  }

  /** A message to a worker whose channel is closed is lost. */
  function Post(w: Worker, mail: multiset<Message>): Worker {
    if w.connected then w.(inbox := w.inbox + mail) else w
  }

  function Delivered(workers: map<WorkerId, Worker>, r: Reaction): map<WorkerId, Worker> {
    map id | id in workers :: Post(workers[id], Mail(r, id))
  }

  function Newcomers(cfg: Config, ids: set<WorkerId>): map<WorkerId, Worker> {
    map id | id in ids :: Forked(cfg.distributed)
  }

  function Workforce(cfg: Config, workers: map<WorkerId, Worker>, nextId: WorkerId, r: Reaction)
    : map<WorkerId, Worker>
  {
    Delivered(workers, r) + Newcomers(cfg, Ids(nextId, r.forks))
  }

  function Ids(from: WorkerId, n: nat): set<WorkerId> {
    if n == 0 then {} else Ids(from, n - 1) + {from + n - 1}
  }

  function Apply(cfg: Config, s: System, r: Reaction): System {
    s.(primary := r.primary,
       workers := Workforce(cfg, s.workers, s.nextId, r),
       nextId := s.nextId + r.forks,
       orders := s.orders + Once(r.order),
       kills := s.kills + Once(r.kill))
  }

  function WithWorker(s: System, id: WorkerId, w: Worker): System {
    s.(workers := s.workers[id := w])
  }

  /** The runtime forgets a worker in the same moment in which its exit event is handled. */
  function Without(s: System, id: WorkerId): System
    requires id in s.workers
  {
    s.(workers := s.workers - {id}, stillborn := s.stillborn + if s.workers[id].online then 0 else 1)
  }

  /** Whether an event can happen: what the runtime guarantees about the order of its events. */
  predicate Possible(s: System, e: Event) {
    match e
    case Flush(_) => !s.flushed
    case Online(id) => id in s.workers && !s.workers[id].online
    case Listening(id) => id in s.workers && s.workers[id].online && s.workers[id].connected
    case Disconnect(id) => id in s.workers
    case Exit(id) => id in s.workers
    case Deliver(id, m, _) => id in s.workers && m in s.workers[id].inbox
    case AckArrives(id) => id in s.acks
    case ConfigureSweep(id) => id in s.workers
    case Terminated(id) => id in s.workers && s.workers[id].shutdownStartedAt.None?
    case IpcError(id) => id in s.primary.handshakes
    case Signal => true
    case Timer => true
    case Tick(_) => true
  }

  function Reacts(cfg: Config, s: System, e: Event): System
    requires Possible(s, e)
  {
    var p := s.primary;
    match e
    case Flush(ok) => Apply(cfg, s, OnFlushed(p, ok, cfg.size)).(flushed := true)
    case Online(id) => Apply(cfg, WithWorker(s, id, s.workers[id].(online := true)), OnOnline(p))
    case Listening(id) => Apply(cfg, s, OnListening(p, PoolOf(s.workers), id, cfg.size))
    case Disconnect(id) => WithWorker(s, id, s.workers[id].(connected := false))
    case Exit(id) =>
      var s1 := Without(s, id);
      Apply(cfg, s1, OnExit(p, PoolOf(s1.workers), id))
    case Signal => Apply(cfg, s, OnSignal(p, PoolOf(s.workers), s.clock))
    case Deliver(id, m, answered) =>
      var w := s.workers[id];
      var s1 := WithWorker(s, id, Receive(w.(inbox := w.inbox - multiset{m}), m));
      if Acknowledges(m) && answered then s1.(acks := s1.acks + multiset{id}) else s1
    case AckArrives(id) =>
      Apply(cfg, s.(acks := s.acks - multiset{id}, acked := s.acked + {id}), Settle(p, id))
    case IpcError(id) => Apply(cfg, s.(errored := s.errored + {id}), Settle(p, id))
    case ConfigureSweep(id) => WithWorker(s, id, s.workers[id].(gate := Configure(s.workers[id].gate)))
    case Terminated(id) => WithWorker(s, id, s.workers[id].(shutdownStartedAt := Some(s.clock)))
    case Timer => Apply(cfg, s, OnTimer(p, s.clock))
    case Tick(ms) => s.(clock := s.clock + ms)
  }

  function Step(cfg: Config, s: System, e: Event): System {
    if s.primary.exit.Some? || !Possible(s, e) then s else Reacts(cfg, s, e)
  }

  function Run(cfg: Config, clock: int, evs: seq<Event>): System {
    if evs == [] then Boot(clock) else Step(cfg, Run(cfg, clock, evs[..|evs| - 1]), evs[|evs| - 1])
  }

  // ----- What forking and posting do to the workers -----

  lemma {:induction false} IdsFacts(from: WorkerId, n: nat)
    ensures forall id :: id in Ids(from, n) <==> from <= id < from + n
    ensures |Ids(from, n)| == n
  {
    if n > 0 {
      IdsFacts(from, n - 1);
    }
  }

  predicate Below(ids: set<WorkerId>, bound: WorkerId) {
    forall id :: id in ids ==> 1 <= id < bound
  }

  lemma KeyCount<K, V>(m: map<K, V>, keys: set<K>)
    requires m.Keys == keys
    ensures |m| == |keys|
  {
  }

  lemma WorkforceKeys(cfg: Config, workers: map<WorkerId, Worker>, nextId: WorkerId, r: Reaction)
    requires Below(workers.Keys, nextId) && nextId >= 1
    ensures Workforce(cfg, workers, nextId, r).Keys == workers.Keys + Ids(nextId, r.forks)
    ensures workers.Keys !! Ids(nextId, r.forks)
    ensures |Workforce(cfg, workers, nextId, r)| == |workers| + r.forks
    ensures Below(Workforce(cfg, workers, nextId, r).Keys, nextId + r.forks)
  {
    IdsFacts(nextId, r.forks);
    assert Delivered(workers, r).Keys == workers.Keys;
    assert Newcomers(cfg, Ids(nextId, r.forks)).Keys == Ids(nextId, r.forks);
    KeyCount(workers, workers.Keys);
    KeyCount(Workforce(cfg, workers, nextId, r), workers.Keys + Ids(nextId, r.forks));
  }

  lemma WorkforceAt(cfg: Config, workers: map<WorkerId, Worker>, nextId: WorkerId, r: Reaction, id: WorkerId)
    requires Below(workers.Keys, nextId) && nextId >= 1
    requires id in Workforce(cfg, workers, nextId, r)
    ensures Workforce(cfg, workers, nextId, r)[id]
         == if id in workers then Post(workers[id], Mail(r, id)) else Forked(cfg.distributed)
  {
    IdsFacts(nextId, r.forks);
  }

  lemma QuietDelivery(workers: map<WorkerId, Worker>, r: Reaction)
    requires r.order.None? && r.notify == {}
    ensures Delivered(workers, r) == workers
  {
    forall id | id in workers ensures Delivered(workers, r)[id] == workers[id] {
      assert Mail(r, id) == multiset{};
    }
  }

  lemma QuietWorkforce(cfg: Config, workers: map<WorkerId, Worker>, nextId: WorkerId, r: Reaction)
    requires r.order.None? && r.forks == 0 && r.notify == {}
    ensures Workforce(cfg, workers, nextId, r) == workers
  {
    QuietDelivery(workers, r);
    assert Newcomers(cfg, Ids(nextId, r.forks)) == map[];
  }

  // ----- The invariants -----

  /** Who is employed: no more workers than configured, exactly as many while it runs. */
  predicate Staffed(cfg: Config, s: System) {
    && s.nextId >= 1 && Below(s.workers.Keys, s.nextId) && s.primary.listening <= s.workers.Keys
    && (!s.flushed ==> s.workers == map[])
    && |s.workers| <= cfg.size
    && (s.flushed && !s.primary.shuttingDown && s.primary.exit.None? ==> |s.workers| == cfg.size)
  }

  predicate Told(s: System, id: WorkerId) {
    id in s.orders
  }

  /** Of the live workers only the assigned one was ever told to sweep, and it was told once. */
  ghost predicate Swept(s: System) {
    && (s.primary.sweep.Some? ==> s.primary.sweep.value in s.workers && Told(s, s.primary.sweep.value))
    && (forall id :: id in s.workers && Told(s, id) ==> s.primary.sweep == Some(id))
    && (forall id: WorkerId :: Told(s, id) ==> id < s.nextId && s.orders[id] == 1)
  }

  predicate Covered(cfg: Config, s: System) {
    |s.primary.listening| >= cfg.size ==> s.primary.sweep.Some?
  }

  predicate Counting(s: System) {
    var p := s.primary;
    && (!p.shuttingDown ==> p.handshakes == map[] && p.deadline.None?)
    && (p.shuttingDown && p.exit.None? ==>
          p.remaining == |s.workers| > 0 && s.workers.Keys <= p.handshakes.Keys && p.deadline.Some?)
    && (p.exit == Some(Drained) ==> s.workers == map[])
    && (p.exit == Some(Forced) ==> p.deadline.Some? && s.clock >= p.deadline.value)
  }

  predicate Signaled(p: Primary, id: WorkerId) {
    id in p.handshakes && p.handshakes[id]
  }

  /** Each worker is signalled exactly once if it acknowledged or its channel failed, and
      never otherwise. */
  ghost predicate Shaken(s: System) {
    && s.acked + s.errored <= s.primary.handshakes.Keys && Below(s.primary.handshakes.Keys, s.nextId)
    && (forall id :: id in s.acks ==> id in s.primary.handshakes)
    && (forall id :: s.kills[id] == if Signaled(s.primary, id) then 1 else 0)
    && (forall id :: Signaled(s.primary, id) <==> id in s.acked + s.errored)
  }

  ghost predicate WorkerOk(distributed: bool, w: Worker, told: bool, deadline: Option<int>, answered: bool) {
    && GateOk(w.gate)
    && (SweepOrder in w.inbox || (w.gate.eligible && !distributed) ==> told)
    && (forall d :: ShutdownNotice(d) in w.inbox ==> d.Some? && d == deadline)
    && (w.deadline.Some? ==> w.deadline == deadline)
    && (answered ==> w.deadline.Some?)
  }

  predicate Answered(s: System, id: WorkerId) {
    id in s.acks || id in s.acked
  }

  ghost predicate AllOk(cfg: Config, s: System) {
    forall id :: id in s.workers ==>
      WorkerOk(cfg.distributed, s.workers[id], Told(s, id), s.primary.deadline, Answered(s, id))
  }

  ghost predicate Inv(cfg: Config, s: System) {
    Staffed(cfg, s) && Swept(s) && Covered(cfg, s) && Counting(s) && Shaken(s) && AllOk(cfg, s)
  }

  // ----- What the handlers do -----

  /** The assigned worker is still there. */
  predicate Held(p: Primary, live: set<WorkerId>) {
    p.sweep.Some? && p.sweep.value in live
  }

  lemma AssignFacts(p: Primary, pool: Pool)
    ensures var r := Assign(p, pool);
      && r.primary == p.(sweep := r.primary.sweep) && r.forks == 0 && r.notify == {} && r.kill.None?
      && (r.order.None? ==> r.primary.sweep == p.sweep)
      && (r.order.Some? ==> r.primary.sweep == r.order && r.order.value in pool && !Held(p, pool.Keys))
  {
  }

  /** The choice: the holder stays; otherwise the last of the connected workers that listen,
      or of the connected ones when none listens. */
  lemma AssignChooses(p: Primary, pool: Pool)
    ensures var r := Assign(p, pool);
      var listeners := Connected(pool) * p.listening;
      && (r.order.None? <==> Held(p, pool.Keys) || Connected(pool) == {})
      && (r.order.Some? ==>
            IsHighest(if listeners != {} then listeners else Connected(pool), r.order.value))
  {
  }

  /** A reaction that only gives an order. */
  predicate OnlyOrders(s: System, r: Reaction) {
    && r.forks == 0 && r.notify == {} && r.kill.None?
    && r.primary == s.primary.(listening := r.primary.listening, active := r.primary.active, sweep := r.primary.sweep)
    && (r.order.None? ==> r.primary.sweep == s.primary.sweep)
    && (r.order.Some? ==> r.primary.sweep == r.order && r.order.value in s.workers && !Held(s.primary, s.workers.Keys))
  }

  lemma ApplyWorkers(cfg: Config, s: System, r: Reaction)
    requires s.nextId >= 1 && Below(s.workers.Keys, s.nextId)
    ensures var s' := Apply(cfg, s, r);
      && s'.workers.Keys == s.workers.Keys + Ids(s.nextId, r.forks)
      && |s'.workers| == |s.workers| + r.forks
      && Below(s'.workers.Keys, s'.nextId)
      && (forall id :: id in s'.workers ==>
            s'.workers[id] == if id in s.workers then Post(s.workers[id], Mail(r, id)) else Forked(cfg.distributed))
  {
    WorkforceKeys(cfg, s.workers, s.nextId, r);
    forall id | id in Apply(cfg, s, r).workers
      ensures Apply(cfg, s, r).workers[id]
           == if id in s.workers then Post(s.workers[id], Mail(r, id)) else Forked(cfg.distributed)
    {
      WorkforceAt(cfg, s.workers, s.nextId, r, id);
    }
  }

  lemma TellingOk(s: System, s': System, order: Option<WorkerId>)
    requires Swept(s) && Below(s.workers.Keys, s.nextId)
    requires s'.workers.Keys == s.workers.Keys && s'.nextId == s.nextId && s'.orders == s.orders + Once(order)
    requires order.None? ==> s'.primary.sweep == s.primary.sweep
    requires order.Some? ==> s'.primary.sweep == order && order.value in s.workers && !Held(s.primary, s.workers.Keys)
    ensures Swept(s')
  {
    forall id: WorkerId | Told(s', id) ensures id < s'.nextId && s'.orders[id] == 1 {
      assert Told(s, id) || order == Some(id);
    }
    forall id | id in s'.workers && Told(s', id) ensures s'.primary.sweep == Some(id) {
      assert Told(s, id) || order == Some(id);
    }
  }

  lemma PostOk(
    distributed: bool, w: Worker, told: bool, told': bool, deadline: Option<int>, deadline': Option<int>,
    answered: bool, mail: multiset<Message>)
    requires WorkerOk(distributed, w, told, deadline, answered)
    requires told ==> told'
    requires deadline.Some? ==> deadline' == deadline
    requires SweepOrder in mail ==> told'
    requires forall d :: ShutdownNotice(d) in mail ==> d.Some? && d == deadline'
    ensures WorkerOk(distributed, Post(w, mail), told', deadline', answered)
  {
  }

  lemma ApplyAllOk(cfg: Config, s: System, r: Reaction)
    requires s.nextId >= 1 && Below(s.workers.Keys, s.nextId) && AllOk(cfg, s)
    requires s.primary.deadline.Some? ==> r.primary.deadline == s.primary.deadline
    requires r.notify != {} ==> r.primary.deadline.Some?
    requires forall id :: id in Ids(s.nextId, r.forks) ==> !Answered(s, id)
    ensures AllOk(cfg, Apply(cfg, s, r))
  {
    ApplyWorkers(cfg, s, r);
    var s' := Apply(cfg, s, r);
    forall id | id in s'.workers
      ensures WorkerOk(cfg.distributed, s'.workers[id], Told(s', id), s'.primary.deadline, Answered(s', id))
    {
      if id in s.workers {
        MailFacts(s, r, id);
        PostOk(cfg.distributed, s.workers[id], Told(s, id), Told(s', id), s.primary.deadline, s'.primary.deadline,
               Answered(s, id), Mail(r, id));
      }
    }
  }

  lemma MailFacts(s: System, r: Reaction, id: WorkerId)
    requires r.notify != {} ==> r.primary.deadline.Some?
    ensures SweepOrder in Mail(r, id) ==> id in s.orders + Once(r.order)
    ensures forall d :: ShutdownNotice(d) in Mail(r, id) ==> d.Some? && d == r.primary.deadline
  {
  }

  lemma OrdersKeep(cfg: Config, s: System, r: Reaction)
    requires Inv(cfg, s) && OnlyOrders(s, r)
    requires s.primary.listening <= r.primary.listening <= s.workers.Keys
    requires |r.primary.listening| >= cfg.size ==> r.primary.sweep.Some?
    ensures Inv(cfg, Apply(cfg, s, r))
  {
    ApplyWorkers(cfg, s, r);
    assert Ids(s.nextId, r.forks) == {};
    ApplyAllOk(cfg, s, r);
    OrderTells(cfg, s, Apply(cfg, s, r), r);
  }

  lemma OrderTells(cfg: Config, s: System, s': System, r: Reaction)
    requires Staffed(cfg, s) && Swept(s) && Counting(s) && Shaken(s) && OnlyOrders(s, r) && s' == Apply(cfg, s, r)
    requires s'.workers.Keys == s.workers.Keys && |s'.workers| == |s.workers|
    ensures Swept(s') && Counting(s') && Shaken(s')
  {
    TellingOk(s, s', r.order);
    assert s'.kills == s.kills;
    CountingKept(s, s');
    ShakenKept(s, s');
  }

  lemma CountingKept(s: System, s': System)
    requires Counting(s) && s'.workers.Keys == s.workers.Keys && |s'.workers| == |s.workers|
    requires s'.primary.shuttingDown == s.primary.shuttingDown && s'.primary.remaining == s.primary.remaining
    requires s'.primary.handshakes == s.primary.handshakes && s'.primary.deadline == s.primary.deadline
    requires s'.primary.exit == s.primary.exit && s'.clock >= s.clock
    ensures Counting(s')
  {
  }

  lemma ShakenKept(s: System, s': System)
    requires Shaken(s) && s'.primary.handshakes == s.primary.handshakes && s'.kills == s.kills
    requires s'.nextId >= s.nextId && s'.acks == s.acks && s'.acked == s.acked && s'.errored == s.errored
    ensures Shaken(s')
  {
  }

  // ----- Each event keeps the invariants -----

  lemma FlushKeeps(cfg: Config, s: System, ok: bool)
    requires Inv(cfg, s) && cfg.size >= 1 && !s.flushed && s.primary.exit.None?
    ensures Inv(cfg, Apply(cfg, s, OnFlushed(s.primary, ok, cfg.size)).(flushed := true))
  {
    var r := OnFlushed(s.primary, ok, cfg.size);
    ApplyWorkers(cfg, s, r);
    IdsFacts(s.nextId, r.forks);
    assert |s.workers| == 0;
    ApplyAllOk(cfg, s, r);
    var s' := Apply(cfg, s, r).(flushed := true);
    assert s'.primary.listening == {};
    ShakenKept(s, s');
    assert AllOk(cfg, Apply(cfg, s, r));
    AllOkTransfer(cfg, Apply(cfg, s, r), s');
    NobodyTold(s, s');
  }

  lemma AllOkTransfer(cfg: Config, s: System, s': System)
    requires AllOk(cfg, s) && s'.workers == s.workers && s'.primary == s.primary
    requires s'.orders == s.orders && s'.acks == s.acks && s'.acked == s.acked
    ensures AllOk(cfg, s')
  {
    forall id | id in s'.workers
      ensures WorkerOk(cfg.distributed, s'.workers[id], Told(s', id), s'.primary.deadline, Answered(s', id))
    {
      assert Told(s', id) == Told(s, id) && Answered(s', id) == Answered(s, id);
    }
  }

  lemma NobodyTold(s: System, s': System)
    requires Swept(s) && s.primary.sweep.None?
    requires s'.orders == s.orders && s'.primary.sweep.None? && s'.nextId >= s.nextId
    requires forall id :: id in s'.workers ==> id in s.workers || id >= s.nextId
    ensures Swept(s')
  {
    forall id: WorkerId | Told(s', id) ensures id < s'.nextId && s'.orders[id] == 1 {
      assert Told(s, id);
    }
    forall id | id in s'.workers && Told(s', id) ensures s'.primary.sweep == Some(id) {
      assert Told(s, id);
    }
  }

  lemma PoolFacts(workers: map<WorkerId, Worker>)
    ensures PoolOf(workers).Keys == workers.Keys && |PoolOf(workers)| == |workers|
    ensures forall id :: id in Connected(PoolOf(workers)) <==> id in workers && workers[id].connected
  {
    KeyCount(PoolOf(workers), workers.Keys);
    KeyCount(workers, workers.Keys);
  }

  /** One more listener: the sweep is assigned as soon as all configured workers listen. */
  lemma ListeningFacts(p: Primary, pool: Pool, id: WorkerId, n: nat)
    requires |p.listening| >= n ==> p.sweep.Some?
    requires id in pool && pool[id]
    ensures var r := OnListening(p, pool, id, n);
      && r.primary == p.(listening := p.listening + {id}, sweep := r.primary.sweep)
      && r.forks == 0 && r.notify == {} && r.kill.None?
      && (r.order.None? ==> r.primary.sweep == p.sweep)
      && (r.order.Some? ==> r.primary.sweep == r.order && r.order.value in pool && !Held(p, pool.Keys))
      && (|p.listening + {id}| == n ==> r.primary.sweep.Some?)
  {
    var p1 := p.(listening := p.listening + {id});
    AssignFacts(p1, pool);
    AssignChooses(p1, pool);
    assert id in Connected(pool);
  }

  lemma ListeningKeeps(cfg: Config, s: System, id: WorkerId, r: Reaction)
    requires Inv(cfg, s) && cfg.size >= 1 && Possible(s, Listening(id))
    requires r == OnListening(s.primary, PoolOf(s.workers), id, cfg.size)
    ensures Inv(cfg, Apply(cfg, s, r))
  {
    PoolFacts(s.workers);
    ListeningFacts(s.primary, PoolOf(s.workers), id, cfg.size);
    KeyCount(s.workers, s.workers.Keys);
    SubsetSize(s.primary.listening + {id}, s.workers.Keys);
    OrdersKeep(cfg, s, r);
  }

  /** What the exit of worker `id` does, given the other live workers. */
  predicate ExitReaction(p: Primary, live: set<WorkerId>, id: WorkerId, r: Reaction) {
    && r.primary.listening == p.listening - {id}
    && r.primary.handshakes == p.handshakes && r.primary.deadline == p.deadline
    && r.primary.shuttingDown == p.shuttingDown
    && r.notify == {} && r.kill.None? && r.forks == (if p.shuttingDown then 0 else 1)
    && (r.order.None? ==> r.primary.sweep == if p.sweep == Some(id) then None else p.sweep)
    && (r.order.Some? ==> p.sweep == Some(id) && r.primary.sweep == r.order && r.order.value in live)
    && (p.shuttingDown ==> r.primary.remaining == Max(0, p.remaining - 1))
    && (p.shuttingDown ==> r.primary.exit == if r.primary.remaining == 0 then Some(Drained) else p.exit)
    && (!p.shuttingDown ==> r.primary.exit == p.exit)
  }

  lemma ExitFacts(p: Primary, pool: Pool, id: WorkerId)
    ensures ExitReaction(p, pool.Keys, id, OnExit(p, pool, id))
  {
    AssignFacts(p.(active := p.active - 1, listening := p.listening - {id}, sweep := None), pool);
  }

  lemma ExitSwept(s: System, s': System, id: WorkerId, order: Option<WorkerId>)
    requires Swept(s) && Below(s.workers.Keys, s.nextId) && id in s.workers
    requires s'.nextId >= s.nextId && s'.orders == s.orders + Once(order)
    requires forall k :: k in s'.workers <==> (k in s.workers && k != id) || s.nextId <= k < s'.nextId
    requires order.None? ==> s'.primary.sweep == if s.primary.sweep == Some(id) then None else s.primary.sweep
    requires order.Some? ==>
      s.primary.sweep == Some(id) && s'.primary.sweep == order && order.value in s.workers && order.value != id
    ensures Swept(s')
  {
    forall k: WorkerId | Told(s', k) ensures k < s'.nextId && s'.orders[k] == 1 {
      assert Told(s, k) || order == Some(k);
    }
    forall k | k in s'.workers && Told(s', k) ensures s'.primary.sweep == Some(k) {
      assert Told(s, k) || order == Some(k);
    }
  }

  lemma ExitWorkers(cfg: Config, s: System, id: WorkerId, r: Reaction)
    requires s.nextId >= 1 && Below(s.workers.Keys, s.nextId) && id in s.workers
    ensures var s' := Apply(cfg, Without(s, id), r);
      && (forall k :: k in s'.workers <==> (k in s.workers && k != id) || s.nextId <= k < s'.nextId)
      && |s'.workers| == |s.workers| - 1 + r.forks
      && Below(s'.workers.Keys, s'.nextId)
  {
    WorkforceKeys(cfg, s.workers - {id}, s.nextId, r);
    IdsFacts(s.nextId, r.forks);
    KeyCount(s.workers, s.workers.Keys);
    KeyCount(s.workers - {id}, s.workers.Keys - {id});
  }

  lemma ExitStaffed(cfg: Config, s: System, s': System, id: WorkerId, r: Reaction)
    requires Staffed(cfg, s) && Covered(cfg, s) && Counting(s)
    requires cfg.size >= 1 && id in s.workers && s.primary.exit.None?
    requires ExitReaction(s.primary, s.workers.Keys - {id}, id, r)
    requires s' == Apply(cfg, Without(s, id), r)
    ensures Staffed(cfg, s') && Covered(cfg, s') && Counting(s')
  {
    ExitWorkers(cfg, s, id, r);
    KeyCount(s.workers, s.workers.Keys);
    assert id in s.workers.Keys && |s.workers.Keys - {id}| == |s.workers| - 1;
    assert s'.primary.listening <= s.workers.Keys - {id};
    SubsetSize(s'.primary.listening, s.workers.Keys - {id});
  }

  lemma ExitKeeps(cfg: Config, s: System, s': System, id: WorkerId, r: Reaction)
    requires Inv(cfg, s) && cfg.size >= 1 && id in s.workers && s.primary.exit.None?
    requires ExitReaction(s.primary, s.workers.Keys - {id}, id, r)
    requires s' == Apply(cfg, Without(s, id), r)
    ensures Inv(cfg, s')
  {
    ExitStaffed(cfg, s, s', id, r);
    ExitAllOk(cfg, s, id, r);
    ExitWorkers(cfg, s, id, r);
    assert s'.kills == s.kills;
    ShakenKept(s, s');
    ExitSwept(s, s', id, r.order);
  }

  lemma Unanswered(s: System, id: WorkerId)
    requires Shaken(s) && id >= s.nextId
    ensures !Answered(s, id)
  {
  }

  lemma WithoutAllOk(cfg: Config, s: System, id: WorkerId)
    requires AllOk(cfg, s) && id in s.workers
    ensures AllOk(cfg, Without(s, id))
  {
    var s1 := Without(s, id);
    forall k | k in s1.workers
      ensures WorkerOk(cfg.distributed, s1.workers[k], Told(s1, k), s1.primary.deadline, Answered(s1, k))
    {
      assert k in s.workers && Told(s1, k) == Told(s, k) && Answered(s1, k) == Answered(s, k);
    }
  }

  lemma ExitAllOk(cfg: Config, s: System, id: WorkerId, r: Reaction)
    requires Inv(cfg, s) && id in s.workers
    requires ExitReaction(s.primary, s.workers.Keys - {id}, id, r)
    ensures AllOk(cfg, Apply(cfg, Without(s, id), r))
  {
    IdsFacts(s.nextId, r.forks);
    WithoutAllOk(cfg, s, id);
    var s1 := Without(s, id);
    forall k | k in Ids(s.nextId, r.forks) ensures !Answered(s1, k) {
      Unanswered(s, k);
    }
    ApplyAllOk(cfg, s1, r);
  }

  lemma SignalStaffs(cfg: Config, s: System, r: Reaction)
    requires Staffed(cfg, s) && Covered(cfg, s) && Counting(s) && s.primary.exit.None?
    requires r == OnSignal(s.primary, PoolOf(s.workers), s.clock)
    ensures var s' := Apply(cfg, s, r); Staffed(cfg, s') && Covered(cfg, s') && Counting(s')
  {
    PoolFacts(s.workers);
    ApplyWorkers(cfg, s, r);
    IdsFacts(s.nextId, r.forks);
  }

  lemma SignalFacts(p: Primary, pool: Pool, now: int)
    ensures var r := OnSignal(p, pool, now);
      && r.order.None? && r.kill.None? && r.forks == 0
      && r.primary.sweep == p.sweep
      && (p.shuttingDown ==> r.primary == p)
      && (r.notify != {} ==> r.primary.deadline.Some?)
      && (!p.shuttingDown && p.deadline.None? && p.handshakes == map[] ==>
            && r.primary.handshakes.Keys <= pool.Keys
            && forall id :: id in r.primary.handshakes ==> !r.primary.handshakes[id])
  {
  }

  lemma SignalKeeps(cfg: Config, s: System, r: Reaction)
    requires Inv(cfg, s) && s.primary.exit.None?
    requires r == OnSignal(s.primary, PoolOf(s.workers), s.clock)
    ensures Inv(cfg, Apply(cfg, s, r))
  {
    SignalStaffs(cfg, s, r);
    PoolFacts(s.workers);
    SignalFacts(s.primary, PoolOf(s.workers), s.clock);
    SignalTells(cfg, s, r);
  }

  lemma SignalTells(cfg: Config, s: System, r: Reaction)
    requires Inv(cfg, s) && r.order.None? && r.kill.None? && r.forks == 0
    requires r.primary.sweep == s.primary.sweep
    requires s.primary.shuttingDown ==> r.primary == s.primary
    requires r.notify != {} ==> r.primary.deadline.Some?
    requires !s.primary.shuttingDown ==>
      && r.primary.handshakes.Keys <= s.workers.Keys
      && forall id :: id in r.primary.handshakes ==> !r.primary.handshakes[id]
    ensures var s' := Apply(cfg, s, r); Swept(s') && Shaken(s') && AllOk(cfg, s')
  {
    ApplyWorkers(cfg, s, r);
    IdsFacts(s.nextId, r.forks);
    var s' := Apply(cfg, s, r);
    assert s'.kills == s.kills;
    TellingOk(s, s', None);
    ApplyAllOk(cfg, s, r);
    if s.primary.shuttingDown {
      ShakenKept(s, s');
    } else {
      SignalShakes(s, s');
    }
  }

  lemma SignalShakes(s: System, s': System)
    requires Shaken(s) && s.primary.handshakes == map[] && s'.nextId == s.nextId
    requires s'.kills == s.kills && s'.acks == s.acks && s'.acked == s.acked && s'.errored == s.errored
    requires Below(s'.primary.handshakes.Keys, s'.nextId)
    requires forall id :: id in s'.primary.handshakes ==> !s'.primary.handshakes[id]
    ensures Shaken(s')
  {
  }

  /** An acknowledgement or a channel error: the same handler signals the worker, once. */
  lemma SettleKeeps(cfg: Config, s: System, s1: System, id: WorkerId)
    requires Inv(cfg, s) && id in s.primary.handshakes
    requires s1 == s.(acks := s1.acks, acked := s1.acked, errored := s1.errored)
    requires s1.acked + s1.errored == s.acked + s.errored + {id}
    requires forall k :: k in s1.acks ==> k in s.acks
    requires forall k :: Answered(s1, k) ==> Answered(s, k)
    ensures Inv(cfg, Apply(cfg, s1, Settle(s.primary, id)))
  {
    var s' := Apply(cfg, s1, Settle(s.primary, id));
    SettleApplied(cfg, s1, s', id);
    SettleShakes(s, s', id);
    SameWorkforceKeeps(cfg, s, s');
  }

  lemma SettleApplied(cfg: Config, s: System, s': System, id: WorkerId)
    requires s' == Apply(cfg, s, Settle(s.primary, id))
    ensures s' == s.(primary := s'.primary, kills := s.kills + Once(Settle(s.primary, id).kill))
    ensures s'.primary == s.primary.(handshakes := s'.primary.handshakes)
    ensures s'.primary.handshakes.Keys == s.primary.handshakes.Keys
  {
    QuietWorkforce(cfg, s.workers, s.nextId, Settle(s.primary, id));
    assert s.orders + Once(Settle(s.primary, id).order) == s.orders;
  }

  lemma SameWorkforceKeeps(cfg: Config, s: System, s': System)
    requires Inv(cfg, s) && Shaken(s')
    requires s'.workers == s.workers && s'.orders == s.orders && s'.nextId == s.nextId
    requires s'.flushed == s.flushed && s'.clock == s.clock
    requires s'.primary == s.primary.(handshakes := s'.primary.handshakes)
    requires s'.primary.handshakes.Keys == s.primary.handshakes.Keys
    requires forall k :: Answered(s', k) ==> Answered(s, k)
    ensures Inv(cfg, s')
  {
    TellingOk(s, s', None);
    SettleAllOk(cfg, s, s');
    assert s.primary.handshakes == map[] ==> s'.primary.handshakes == map[] by {
      if s.primary.handshakes == map[] {
        assert s'.primary.handshakes.Keys == {};
      }
    }
  }

  lemma SettleAllOk(cfg: Config, s: System, s': System)
    requires AllOk(cfg, s)
    requires s'.workers == s.workers && s'.orders == s.orders && s'.primary.deadline == s.primary.deadline
    requires forall k :: Answered(s', k) ==> Answered(s, k)
    ensures AllOk(cfg, s')
  {
    forall k | k in s'.workers
      ensures WorkerOk(cfg.distributed, s'.workers[k], Told(s', k), s'.primary.deadline, Answered(s', k))
    {
      assert Told(s', k) == Told(s, k);
    }
  }

  lemma SettleShakes(s: System, s': System, id: WorkerId)
    requires Shaken(s) && id in s.primary.handshakes && s'.nextId == s.nextId
    requires s'.primary == Settle(s.primary, id).primary && s'.kills == s.kills + Once(Settle(s.primary, id).kill)
    requires s'.acked + s'.errored == s.acked + s.errored + {id}
    requires forall k :: k in s'.acks ==> k in s.acks
    ensures Shaken(s')
  {
    forall k ensures Signaled(s'.primary, k) <==> k in s'.acked + s'.errored {
      assert Signaled(s'.primary, k) <==> Signaled(s.primary, k) || k == id;
      assert Signaled(s.primary, k) <==> k in s.acked + s.errored;
    }
  }

  lemma QuietKeeps(cfg: Config, s: System, p: Primary)
    requires Inv(cfg, s) && s.primary.exit.None?
    requires p == s.primary.(active := p.active, exit := p.exit)
    requires p.exit.None? || (p.exit == Some(Forced) && p.deadline.Some? && s.clock >= p.deadline.value)
    ensures Inv(cfg, Apply(cfg, s, Still(p)))
  {
    var s' := Apply(cfg, s, Still(p));
    QuietWorkforce(cfg, s.workers, s.nextId, Still(p));
    assert s'.workers == s.workers && s'.orders == s.orders && s'.kills == s.kills;
    TellingOk(s, s', None);
    ShakenKept(s, s');
    SettleAllOk(cfg, s, s');
  }

  /** A change to one worker, possibly together with its acknowledgement. */
  lemma WorkerKeeps(cfg: Config, s: System, s': System, id: WorkerId, w: Worker)
    requires Inv(cfg, s) && id in s.workers
    requires s' == WithWorker(s, id, w).(acks := s'.acks)
    requires s'.acks == s.acks || (s'.acks == s.acks + multiset{id} && id in s.primary.handshakes)
    requires WorkerOk(cfg.distributed, w, Told(s, id), s.primary.deadline, Answered(s', id))
    ensures Inv(cfg, s')
  {
    assert s'.workers.Keys == s.workers.Keys;
    KeyCount(s'.workers, s.workers.Keys);
    KeyCount(s.workers, s.workers.Keys);
    TellingOk(s, s', None);
    CountingKept(s, s');
    WorkerAllOk(cfg, s, s', id, w);
    AckShakes(s, s', id);
  }

  lemma WorkerAllOk(cfg: Config, s: System, s': System, id: WorkerId, w: Worker)
    requires AllOk(cfg, s) && id in s.workers
    requires s' == WithWorker(s, id, w).(acks := s'.acks)
    requires s'.acks == s.acks || s'.acks == s.acks + multiset{id}
    requires WorkerOk(cfg.distributed, w, Told(s, id), s.primary.deadline, Answered(s', id))
    ensures AllOk(cfg, s')
  {
    forall k | k in s'.workers
      ensures WorkerOk(cfg.distributed, s'.workers[k], Told(s', k), s'.primary.deadline, Answered(s', k))
    {
      assert Told(s', k) == Told(s, k);
      if k != id {
        assert s'.workers[k] == s.workers[k] && Answered(s', k) == Answered(s, k);
      }
    }
  }

  lemma AckShakes(s: System, s': System, id: WorkerId)
    requires Shaken(s) && s' == s.(workers := s'.workers, acks := s'.acks)
    requires s'.acks == s.acks || (s'.acks == s.acks + multiset{id} && id in s.primary.handshakes)
    ensures Shaken(s')
  {
    forall k | k in s'.acks ensures k in s'.primary.handshakes {
      assert k in s.acks || k == id;
    }
  }

  lemma ReceiveOk(distributed: bool, w: Worker, m: Message, told: bool, deadline: Option<int>, answered: bool)
    requires WorkerOk(distributed, w, told, deadline, answered) && m in w.inbox
    ensures var w' := Receive(w.(inbox := w.inbox - multiset{m}), m);
      WorkerOk(distributed, w', told, deadline, answered || Acknowledges(m))
  {
    var rest := w.inbox - multiset{m};
    assert forall x :: x in rest ==> x in w.inbox;
  }

  lemma DeliverKeeps(cfg: Config, s: System, e: Event)
    requires Inv(cfg, s) && s.primary.exit.None? && e.Deliver? && Possible(s, e)
    ensures Inv(cfg, Reacts(cfg, s, e))
  {
    var w := s.workers[e.id];
    assert WorkerOk(cfg.distributed, w, Told(s, e.id), s.primary.deadline, Answered(s, e.id));
    ReceiveOk(cfg.distributed, w, e.msg, Told(s, e.id), s.primary.deadline, Answered(s, e.id));
    var s' := Reacts(cfg, s, e);
    var w' := Receive(w.(inbox := w.inbox - multiset{e.msg}), e.msg);
    if Acknowledges(e.msg) {
      assert ShutdownNotice(e.msg.deadline) in w.inbox;
      assert s.primary.shuttingDown;
      assert e.id in s.workers.Keys;
    }
    assert s' == WithWorker(s, e.id, w').(acks := s'.acks);
    assert Answered(s', e.id) ==> Answered(s, e.id) || Acknowledges(e.msg);
    WorkerKeeps(cfg, s, s', e.id, w');
  }

  lemma LocalKeeps(cfg: Config, s: System, e: Event)
    requires Inv(cfg, s) && Possible(s, e) && (e.Disconnect? || e.ConfigureSweep? || e.Terminated?)
    ensures Inv(cfg, Reacts(cfg, s, e))
  {
    var s' := Reacts(cfg, s, e);
    var w := s.workers[e.id];
    assert WorkerOk(cfg.distributed, w, Told(s, e.id), s.primary.deadline, Answered(s, e.id));
    WorkerKeeps(cfg, s, s', e.id, s'.workers[e.id]);
  }

  lemma OnlineKeeps(cfg: Config, s: System, id: WorkerId)
    requires Inv(cfg, s) && s.primary.exit.None? && Possible(s, Online(id))
    ensures Inv(cfg, Reacts(cfg, s, Online(id)))
  {
    var w, w' := s.workers[id], s.workers[id].(online := true);
    assert WorkerOk(cfg.distributed, w, Told(s, id), s.primary.deadline, Answered(s, id));
    UpdatedKeeps(cfg, s, WithWorker(s, id, w'), id, w');
  }

  lemma UpdatedKeeps(cfg: Config, s: System, s1: System, id: WorkerId, w: Worker)
    requires Inv(cfg, s) && s.primary.exit.None? && id in s.workers && s1 == WithWorker(s, id, w)
    requires WorkerOk(cfg.distributed, w, Told(s, id), s.primary.deadline, Answered(s, id))
    ensures Inv(cfg, Apply(cfg, s1, OnOnline(s.primary)))
  {
    WorkerKeeps(cfg, s, s1, id, w);
    QuietKeeps(cfg, s1, OnOnline(s.primary).primary);
  }

  lemma TickKeeps(cfg: Config, s: System, ms: nat)
    requires Inv(cfg, s)
    ensures Inv(cfg, s.(clock := s.clock + ms))
  {
    var s' := s.(clock := s.clock + ms);
    TellingOk(s, s', None);
    ShakenKept(s, s');
    SettleAllOk(cfg, s, s');
  }

  lemma AckKeeps(cfg: Config, s: System, id: WorkerId)
    requires Inv(cfg, s) && id in s.acks
    ensures Inv(cfg, Reacts(cfg, s, AckArrives(id)))
  {
    var s1 := s.(acks := s.acks - multiset{id}, acked := s.acked + {id});
    assert forall k :: k in s1.acks ==> k in s.acks;
    SettleKeeps(cfg, s, s1, id);
  }

  lemma ErrorKeeps(cfg: Config, s: System, id: WorkerId)
    requires Inv(cfg, s) && id in s.primary.handshakes
    ensures Inv(cfg, Reacts(cfg, s, IpcError(id)))
  {
    SettleKeeps(cfg, s, s.(errored := s.errored + {id}), id);
  }

  lemma ExitHere(s: System, id: WorkerId, r: Reaction)
    requires r == OnExit(s.primary, PoolOf(s.workers - {id}), id)
    ensures ExitReaction(s.primary, s.workers.Keys - {id}, id, r)
  {
    var pool := PoolOf(s.workers - {id});
    PoolFacts(s.workers - {id});
    assert pool.Keys == s.workers.Keys - {id};
    ExitFacts(s.primary, pool, id);
  }

  lemma ExitEventKeeps(cfg: Config, s: System, id: WorkerId, r: Reaction)
    requires Inv(cfg, s) && cfg.size >= 1 && s.primary.exit.None? && id in s.workers
    requires r == OnExit(s.primary, PoolOf(s.workers - {id}), id)
    ensures Inv(cfg, Apply(cfg, Without(s, id), r))
  {
    ExitHere(s, id, r);
    ExitKeeps(cfg, s, Apply(cfg, Without(s, id), r), id, r);
  }

  lemma PrimaryKeeps(cfg: Config, s: System, e: Event)
    requires Inv(cfg, s) && cfg.size >= 1 && s.primary.exit.None? && Possible(s, e)
    requires e.Flush? || e.Listening? || e.Signal? || e.Timer?
    ensures Inv(cfg, Reacts(cfg, s, e))
  {
    match e
    case Flush(ok) => FlushKeeps(cfg, s, ok);
    case Listening(id) => ListeningKeeps(cfg, s, id, OnListening(s.primary, PoolOf(s.workers), id, cfg.size));
    case Signal => SignalKeeps(cfg, s, OnSignal(s.primary, PoolOf(s.workers), s.clock));
    case Timer => QuietKeeps(cfg, s, OnTimer(s.primary, s.clock).primary);
  }

  lemma EventKeeps(cfg: Config, s: System, e: Event)
    requires Inv(cfg, s) && cfg.size >= 1 && s.primary.exit.None? && Possible(s, e)
    ensures Inv(cfg, Reacts(cfg, s, e))
  {
    match e
    case Online(id) => OnlineKeeps(cfg, s, id);
    case Exit(id) => ExitEventKeeps(cfg, s, id, OnExit(s.primary, PoolOf(s.workers - {id}), id));
    case Deliver(_, _, _) => DeliverKeeps(cfg, s, e);
    case AckArrives(id) => AckKeeps(cfg, s, id);
    case IpcError(id) => ErrorKeeps(cfg, s, id);
    case Tick(ms) => TickKeeps(cfg, s, ms);
    case Disconnect(_) => LocalKeeps(cfg, s, e);
    case ConfigureSweep(_) => LocalKeeps(cfg, s, e);
    case Terminated(_) => LocalKeeps(cfg, s, e);
    case Flush(_) => PrimaryKeeps(cfg, s, e);
    case Listening(_) => PrimaryKeeps(cfg, s, e);
    case Signal => PrimaryKeeps(cfg, s, e);
    case Timer => PrimaryKeeps(cfg, s, e);
  }

  lemma StepKeeps(cfg: Config, s: System, e: Event)
    requires Inv(cfg, s) && cfg.size >= 1
    ensures Inv(cfg, Step(cfg, s, e))
  {
    if s.primary.exit.None? && Possible(s, e) {
      EventKeeps(cfg, s, e);
    }
  }

  lemma {:induction false} RunKeeps(cfg: Config, clock: int, evs: seq<Event>)
    requires cfg.size >= 1
    ensures Inv(cfg, Run(cfg, clock, evs))
  {
    if evs != [] {
      RunKeeps(cfg, clock, evs[..|evs| - 1]);
      StepKeeps(cfg, Run(cfg, clock, evs[..|evs| - 1]), evs[|evs| - 1]);
    }
  }

  /** Some schedule of events leads here. */
  ghost predicate Reachable(cfg: Config, s: System) {
    exists clock: int, evs: seq<Event> :: s == Run(cfg, clock, evs)
  }

  lemma ReachableKeeps(cfg: Config, s: System)
    requires cfg.size >= 1 && Reachable(cfg, s)
    ensures Inv(cfg, s)
  {
    var clock: int, evs: seq<Event> :| s == Run(cfg, clock, evs);
    RunKeeps(cfg, clock, evs);
  }

  // ----- One sweep worker -----

  /** In every run without Redis at most one live worker has started the sweep, it is the
      assigned one, it started it once, and no worker was ever told twice. */
  lemma AtMostOneSweeper(cfg: Config, s: System, a: WorkerId, b: WorkerId)
    requires cfg.size >= 1 && !cfg.distributed && Reachable(cfg, s)
    requires a in s.workers && b in s.workers && s.workers[a].gate.starts > 0 && s.workers[b].gate.starts > 0
    ensures a == b && s.primary.sweep == Some(a) && s.workers[a].gate.starts == 1 && s.orders[a] == 1
  {
    ReachableKeeps(cfg, s);
    SweeperIsAssigned(cfg, s, a);
    SweeperIsAssigned(cfg, s, b);
  }

  lemma SweeperIsAssigned(cfg: Config, s: System, a: WorkerId)
    requires Inv(cfg, s) && !cfg.distributed && a in s.workers && s.workers[a].gate.starts > 0
    ensures s.primary.sweep == Some(a) && s.workers[a].gate.starts == 1 && s.orders[a] == 1
  {
    assert WorkerOk(cfg.distributed, s.workers[a], Told(s, a), s.primary.deadline, Answered(s, a));
    assert Told(s, a);
  }

  /** The live workers that were told to sweep are the assigned one or nobody. */
  lemma OnlyTheAssignedWasTold(cfg: Config, s: System)
    requires cfg.size >= 1 && Reachable(cfg, s)
    ensures (set id | id in s.workers && id in s.orders)
         == if s.primary.sweep.Some? then {s.primary.sweep.value} else {}
    ensures forall id: WorkerId :: s.orders[id] <= 1
  {
    ReachableKeeps(cfg, s);
    assert forall id :: id in s.workers && id in s.orders ==> Told(s, id);
    forall id: WorkerId ensures s.orders[id] <= 1 {
      assert Told(s, id) || s.orders[id] == 0;
    }
  }

  /** Once all configured workers listen, one live worker is assigned. */
  lemma OneIsAssignedOnceAllListen(cfg: Config, s: System)
    requires cfg.size >= 1 && Reachable(cfg, s) && |s.primary.listening| >= cfg.size
    ensures s.primary.listening == s.workers.Keys && |s.workers| == cfg.size
    ensures s.primary.sweep.Some? && s.primary.sweep.value in s.workers
  {
    ReachableKeeps(cfg, s);
    KeyCount(s.workers, s.workers.Keys);
    SubsetSize(s.primary.listening, s.workers.Keys);
  }

  /** The death of the sweep worker hands the sweep on at once: to the last of the connected
      workers that listen, failing that of the connected ones; it lapses only when no other
      worker is connected. The death of any other worker moves nothing. */
  lemma SweepIsHandedOn(cfg: Config, s: System, id: WorkerId)
    requires s.primary.exit.None? && id in s.workers
    ensures var s' := Step(cfg, s, Exit(id));
      var others := set k | k in s.workers && k != id && s.workers[k].connected;
      var listeners := others * s.primary.listening;
      && (s.primary.sweep != Some(id) ==> s'.primary.sweep == s.primary.sweep && s'.orders == s.orders)
      && (s.primary.sweep == Some(id) && others == {} ==> s'.primary.sweep.None?)
      && (s.primary.sweep == Some(id) && others != {} ==>
            && s'.primary.sweep.Some?
            && IsHighest(if listeners != {} then listeners else others, s'.primary.sweep.value)
            && s'.orders == s.orders + multiset{s'.primary.sweep.value})
  {
    var others := set k | k in s.workers && k != id && s.workers[k].connected;
    OthersConnected(s.workers, id, others);
    BuriedChooses(s.primary, PoolOf(s.workers - {id}), id, others);
    ExitApplied(cfg, s, id, OnExit(s.primary, PoolOf(s.workers - {id}), id));
  }

  lemma OthersConnected(workers: map<WorkerId, Worker>, id: WorkerId, others: set<WorkerId>)
    requires others == set k | k in workers && k != id && workers[k].connected
    ensures Connected(PoolOf(workers - {id})) == others && id !in PoolOf(workers - {id})
  {
    PoolFacts(workers - {id});
  }

  lemma ExitApplied(cfg: Config, s: System, id: WorkerId, r: Reaction)
    requires s.primary.exit.None? && id in s.workers
    requires r == OnExit(s.primary, PoolOf(s.workers - {id}), id)
    ensures Step(cfg, s, Exit(id)).primary == r.primary
    ensures Step(cfg, s, Exit(id)).orders == s.orders + Once(r.order)
  {
  }

  lemma BuriedChooses(p: Primary, pool: Pool, id: WorkerId, others: set<WorkerId>)
    requires id !in pool && others == Connected(pool)
    ensures var r := OnExit(p, pool, id);
      var listeners := others * p.listening;
      && (p.sweep != Some(id) ==> r.primary.sweep == p.sweep && r.order.None?)
      && (p.sweep == Some(id) && others == {} ==> r.primary.sweep.None? && r.order.None?)
      && (p.sweep == Some(id) && others != {} ==>
            && r.primary.sweep.Some? && r.order == r.primary.sweep
            && IsHighest(if listeners != {} then listeners else others, r.primary.sweep.value))
  {
    var p1 := p.(active := p.active - 1, listening := p.listening - {id}, sweep := None);
    AssignFacts(p1, pool);
    AssignChooses(p1, pool);
    assert others * p1.listening == others * p.listening;
  }

  function OnlineIds(workers: map<WorkerId, Worker>): set<WorkerId> {
    set id | id in workers && workers[id].online
  }

  /** The primary's count of workers is too low by the workers that died before coming online. */
  predicate Drifted(s: System) {
    s.primary.active == |OnlineIds(s.workers)| - s.stillborn
  }

  lemma ReactionDrift(cfg: Config, s: System, r: Reaction)
    requires s.nextId >= 1 && Below(s.workers.Keys, s.nextId)
    ensures OnlineIds(Apply(cfg, s, r).workers) == OnlineIds(s.workers)
  {
    var after := Workforce(cfg, s.workers, s.nextId, r);
    WorkforceKeys(cfg, s.workers, s.nextId, r);
    forall id | id in after ensures after[id].online <==> id in s.workers && s.workers[id].online {
      WorkforceAt(cfg, s.workers, s.nextId, r, id);
    }
    SameOnline(s.workers, after);
  }

  lemma SameOnline(before: map<WorkerId, Worker>, after: map<WorkerId, Worker>)
    requires before.Keys <= after.Keys
    requires forall id :: id in after ==> (after[id].online <==> id in before && before[id].online)
    ensures OnlineIds(after) == OnlineIds(before)
  {
    assert forall id :: id in before ==> id in before.Keys;
  }

  lemma ActiveOf(p: Primary, pool: Pool, id: WorkerId, n: nat, now: int)
    ensures OnListening(p, pool, id, n).primary.active == p.active
    ensures OnExit(p, pool, id).primary.active == p.active - 1
    ensures OnSignal(p, pool, now).primary.active == p.active
    ensures OnTimer(p, now).primary.active == p.active && Settle(p, id).primary.active == p.active
  {
    AssignFacts(p.(listening := p.listening + {id}), pool);
    AssignFacts(p.(active := p.active - 1, listening := p.listening - {id}, sweep := None), pool);
  }

  lemma ReactDrifts(cfg: Config, s: System, s1: System, r: Reaction)
    requires s.nextId >= 1 && Below(s.workers.Keys, s.nextId) && Drifted(s)
    requires s1.workers == s.workers && s1.nextId == s.nextId && s1.stillborn == s.stillborn
    requires r.primary.active == s.primary.active
    ensures Drifted(Apply(cfg, s1, r))
  {
    ReactionDrift(cfg, s1, r);
  }

  lemma ExitDrifts(cfg: Config, s: System, id: WorkerId, r: Reaction)
    requires s.nextId >= 1 && Below(s.workers.Keys, s.nextId) && Drifted(s) && id in s.workers
    requires r.primary.active == s.primary.active - 1
    ensures Drifted(Apply(cfg, Without(s, id), r))
  {
    ReactionDrift(cfg, Without(s, id), r);
    assert OnlineIds(s.workers - {id}) == OnlineIds(s.workers) - {id};
  }

  lemma OnlineDrifts(cfg: Config, s: System, id: WorkerId)
    requires s.nextId >= 1 && Below(s.workers.Keys, s.nextId) && Drifted(s) && Possible(s, Online(id))
    ensures Drifted(Reacts(cfg, s, Online(id)))
  {
    var s1 := WithWorker(s, id, s.workers[id].(online := true));
    assert s1.workers.Keys == s.workers.Keys;
    assert OnlineIds(s1.workers) == OnlineIds(s.workers) + {id};
    ReactionDrift(cfg, s1, OnOnline(s.primary));
  }

  lemma LocalDrifts(cfg: Config, s: System, e: Event)
    requires Drifted(s) && Possible(s, e)
    requires e.Disconnect? || e.Deliver? || e.ConfigureSweep? || e.Terminated? || e.Tick?
    ensures Drifted(Reacts(cfg, s, e))
  {
    assert OnlineIds(Reacts(cfg, s, e).workers) == OnlineIds(s.workers);
  }

  lemma EventDrifts(cfg: Config, s: System, e: Event)
    requires s.nextId >= 1 && Below(s.workers.Keys, s.nextId) && Drifted(s) && Possible(s, e)
    ensures Drifted(Reacts(cfg, s, e))
  {
    var p, pool := s.primary, PoolOf(s.workers);
    match e
    case Flush(ok) => ReactDrifts(cfg, s, s, OnFlushed(p, ok, cfg.size));
    case Online(id) => OnlineDrifts(cfg, s, id);
    case Listening(id) =>
      ActiveOf(p, pool, id, cfg.size, s.clock);
      ReactDrifts(cfg, s, s, OnListening(p, pool, id, cfg.size));
    case Exit(id) =>
      ActiveOf(p, PoolOf(s.workers - {id}), id, cfg.size, s.clock);
      ExitDrifts(cfg, s, id, OnExit(p, PoolOf(s.workers - {id}), id));
    case Signal =>
      ActiveOf(p, pool, 0, cfg.size, s.clock);
      ReactDrifts(cfg, s, s, OnSignal(p, pool, s.clock));
    case AckArrives(id) =>
      ReactDrifts(cfg, s, s.(acks := s.acks - multiset{id}, acked := s.acked + {id}), Settle(p, id));
    case IpcError(id) => ReactDrifts(cfg, s, s.(errored := s.errored + {id}), Settle(p, id));
    case Timer => ReactDrifts(cfg, s, s, OnTimer(p, s.clock));
    case Disconnect(_) => LocalDrifts(cfg, s, e);
    case Deliver(_, _, _) => LocalDrifts(cfg, s, e);
    case ConfigureSweep(_) => LocalDrifts(cfg, s, e);
    case Terminated(_) => LocalDrifts(cfg, s, e);
    case Tick(_) => LocalDrifts(cfg, s, e);
  }

  lemma {:induction false} RunDrifts(cfg: Config, clock: int, evs: seq<Event>)
    requires cfg.size >= 1
    ensures Drifted(Run(cfg, clock, evs))
  {
    if evs == [] {
      assert OnlineIds(map[]) == {};
    } else {
      var front, e := evs[..|evs| - 1], evs[|evs| - 1];
      RunSnoc(cfg, clock, evs);
      RunKeeps(cfg, clock, front);
      RunDrifts(cfg, clock, front);
      StepDrifts(cfg, Run(cfg, clock, front), e);
    }
  }

  lemma StepDrifts(cfg: Config, s: System, e: Event)
    requires Inv(cfg, s) && Drifted(s)
    ensures Drifted(Step(cfg, s, e))
  {
    if s.primary.exit.None? && Possible(s, e) {
      EventDrifts(cfg, s, e);
    }
  }

  /** `activeWorkers` is the number of live workers that are online if and only if no worker
      ever died before coming online; each that did leaves it one too low for good. */
  lemma ActiveCountsOnlineIff(cfg: Config, s: System)
    requires cfg.size >= 1 && Reachable(cfg, s)
    ensures s.primary.active == |OnlineIds(s.workers)| - s.stillborn
    ensures s.primary.active == |OnlineIds(s.workers)| <==> s.stillborn == 0
  {
    var clock: int, evs: seq<Event> :| s == Run(cfg, clock, evs);
    RunDrifts(cfg, clock, evs);
  }

  /** The sweep is assigned as soon as a worker listens while the count of online workers
      stands at the configured number. */
  lemma AssignedWhenAllOnline(cfg: Config, s: System, id: WorkerId)
    requires s.primary.exit.None? && Possible(s, Listening(id)) && s.primary.active >= cfg.size
    ensures Step(cfg, s, Listening(id)).primary.sweep.Some?
  {
    PoolFacts(s.workers);
    var p1 := s.primary.(listening := s.primary.listening + {id});
    AssignFacts(p1, PoolOf(s.workers));
    AssignChooses(p1, PoolOf(s.workers));
    assert id in Connected(PoolOf(s.workers));
  }

  // ----- Shutdown -----

  /** The signal gives every live worker a handshake and the one deadline, ten seconds ahead,
      and the deadline is on its way to every worker whose channel is open. */
  lemma SignalReachesEveryone(cfg: Config, s: System, s': System, id: WorkerId)
    requires s.nextId >= 1 && Below(s.workers.Keys, s.nextId) && s.primary.exit.None? && !s.primary.shuttingDown
    requires id in s.workers && s' == Step(cfg, s, Signal)
    ensures s'.primary.deadline == Some(s.clock + CLUSTER_FORCE_EXIT_MS)
    ensures s'.primary.handshakes.Keys == s.workers.Keys && !s'.primary.handshakes[id]
    ensures id in s'.workers
    ensures s.workers[id].connected ==> ShutdownNotice(s'.primary.deadline) in s'.workers[id].inbox
  {
    var r := OnSignal(s.primary, PoolOf(s.workers), s.clock);
    SignalApplies(cfg, s, s', r);
    SignalHere(s, id, r);
    NoticeGoesOut(cfg, s, r, id);
  }

  lemma SignalApplies(cfg: Config, s: System, s': System, r: Reaction)
    requires s.primary.exit.None? && s' == Step(cfg, s, Signal)
    requires r == OnSignal(s.primary, PoolOf(s.workers), s.clock)
    ensures s' == Apply(cfg, s, r)
  {
  }

  lemma SignalHere(s: System, id: WorkerId, r: Reaction)
    requires id in s.workers && !s.primary.shuttingDown && r == OnSignal(s.primary, PoolOf(s.workers), s.clock)
    ensures r.notify == s.workers.Keys && r.primary.deadline == Some(s.clock + CLUSTER_FORCE_EXIT_MS)
    ensures r.primary.handshakes.Keys == s.workers.Keys && !r.primary.handshakes[id]
  {
    PoolFacts(s.workers);
    NotAlone(s.workers, id);
    SignalNotifies(s.primary, PoolOf(s.workers), s.clock);
  }

  lemma NoticeGoesOut(cfg: Config, s: System, r: Reaction, id: WorkerId)
    requires s.nextId >= 1 && Below(s.workers.Keys, s.nextId) && id in s.workers && id in r.notify
    ensures var s' := Apply(cfg, s, r);
      id in s'.workers && (s.workers[id].connected ==> ShutdownNotice(r.primary.deadline) in s'.workers[id].inbox)
  {
    WorkforceKeys(cfg, s.workers, s.nextId, r);
    WorkforceAt(cfg, s.workers, s.nextId, r, id);
  }

  lemma NotAlone<T>(m: map<WorkerId, T>, id: WorkerId)
    requires id in m
    ensures |m| != 0
  {
  }

  lemma SignalNotifies(p: Primary, pool: Pool, now: int)
    requires !p.shuttingDown && |pool| != 0
    ensures var r := OnSignal(p, pool, now);
      && r.notify == pool.Keys && r.primary.deadline == Some(now + CLUSTER_FORCE_EXIT_MS)
      && r.primary.handshakes.Keys == pool.Keys && forall id :: id in pool ==> !r.primary.handshakes[id]
  {
  }

  /** While shutting down the primary counts exactly the live workers: those told the deadline
      minus those gone since. It exits by itself only when none is left, and by its timer
      never before the deadline. */
  lemma EarlyExitIsSafe(cfg: Config, s: System)
    requires cfg.size >= 1 && Reachable(cfg, s)
    ensures var gone := s.primary.handshakes.Keys - s.workers.Keys;
      s.primary.shuttingDown && s.primary.exit.None? ==>
        s.primary.remaining == |s.workers| == |s.primary.handshakes| - |gone| && s.primary.remaining > 0
    ensures s.primary.exit == Some(Drained) ==> s.workers == map[]
    ensures s.primary.exit == Some(Forced) ==> s.primary.deadline.Some? && s.clock >= s.primary.deadline.value
  {
    ReachableKeeps(cfg, s);
    KeyCount(s.primary.handshakes, s.primary.handshakes.Keys);
    KeyCount(s.workers, s.workers.Keys);
    if s.primary.shuttingDown && s.primary.exit.None? {
      assert s.primary.handshakes.Keys == s.workers.Keys + (s.primary.handshakes.Keys - s.workers.Keys);
    }
  }

  predicate Winding(s: System, s': System) {
    && s'.primary.shuttingDown && s'.nextId == s.nextId && s'.workers.Keys <= s.workers.Keys
    && s'.primary.deadline == s.primary.deadline
    && s'.primary.handshakes.Keys == s.primary.handshakes.Keys
  }

  predicate Closing(s: System) {
    s.nextId >= 1 && Below(s.workers.Keys, s.nextId) && s.primary.shuttingDown && (s.primary.exit.None? ==> s.flushed)
  }

  /** Any reaction that forks nobody and leaves the shutdown as it is. */
  lemma ReactionWinds(cfg: Config, s: System, s1: System, r: Reaction)
    requires Closing(s) && s1.primary == s.primary && s1.workers.Keys <= s.workers.Keys && s1.nextId == s.nextId
    requires r.forks == 0 && r.primary.shuttingDown && r.primary.deadline == s.primary.deadline
    requires r.primary.handshakes.Keys == s.primary.handshakes.Keys
    ensures Winding(s, Apply(cfg, s1, r))
  {
    WorkforceKeys(cfg, s1.workers, s1.nextId, r);
  }

  lemma LocalWinds(cfg: Config, s: System, e: Event)
    requires Closing(s) && Possible(s, e)
    requires e.Disconnect? || e.Deliver? || e.ConfigureSweep? || e.Terminated? || e.Tick?
    ensures Winding(s, Reacts(cfg, s, e))
  {
    assert (e.Disconnect? || e.Deliver? || e.ConfigureSweep? || e.Terminated?) ==>
      s.workers.Keys + {e.id} == s.workers.Keys;
  }

  lemma EventWinds(cfg: Config, s: System, e: Event)
    requires Closing(s) && s.primary.exit.None? && Possible(s, e)
    ensures Winding(s, Reacts(cfg, s, e))
  {
    match e
    case Exit(id) => ExitWinds(cfg, s, id, OnExit(s.primary, PoolOf(s.workers - {id}), id));
    case Listening(id) => ListeningWinds(cfg, s, id, OnListening(s.primary, PoolOf(s.workers), id, cfg.size));
    case AckArrives(id) =>
      ReactionWinds(cfg, s, s.(acks := s.acks - multiset{id}, acked := s.acked + {id}), Settle(s.primary, id));
    case IpcError(id) => ReactionWinds(cfg, s, s.(errored := s.errored + {id}), Settle(s.primary, id));
    case Online(id) =>
      ReactionWinds(cfg, s, WithWorker(s, id, s.workers[id].(online := true)), OnOnline(s.primary));
    case Signal => ReactionWinds(cfg, s, s, Still(s.primary));
    case Timer => ReactionWinds(cfg, s, s, OnTimer(s.primary, s.clock));
    case Disconnect(_) => LocalWinds(cfg, s, e);
    case Deliver(_, _, _) => LocalWinds(cfg, s, e);
    case ConfigureSweep(_) => LocalWinds(cfg, s, e);
    case Terminated(_) => LocalWinds(cfg, s, e);
    case Tick(_) => LocalWinds(cfg, s, e);
  }

  lemma StepWinds(cfg: Config, s: System, e: Event)
    requires Closing(s)
    ensures Winding(s, Step(cfg, s, e))
  {
    if s.primary.exit.None? && Possible(s, e) {
      EventWinds(cfg, s, e);
    }
  }

  lemma ClosingHolds(cfg: Config, s: System)
    requires Inv(cfg, s) && s.primary.shuttingDown
    ensures Closing(s)
  {
  }

  lemma WindingTransitive(a: System, b: System, c: System)
    requires Winding(a, b) && Winding(b, c)
    ensures Winding(a, c)
  {
  }

  lemma ExitWinds(cfg: Config, s: System, id: WorkerId, r: Reaction)
    requires Closing(s) && id in s.workers
    requires r == OnExit(s.primary, PoolOf(s.workers - {id}), id)
    ensures Winding(s, Apply(cfg, Without(s, id), r))
  {
    ExitHere(s, id, r);
    ReactionWinds(cfg, s, Without(s, id), r);
  }

  lemma ListeningWinds(cfg: Config, s: System, id: WorkerId, r: Reaction)
    requires Closing(s) && r == OnListening(s.primary, PoolOf(s.workers), id, cfg.size)
    ensures Winding(s, Apply(cfg, s, r))
  {
    AssignFacts(s.primary.(listening := s.primary.listening + {id}), PoolOf(s.workers));
    ReactionWinds(cfg, s, s, r);
  }

  lemma WindsOn(cfg: Config, a: System, s: System, e: Event)
    requires Winding(a, s) && Inv(cfg, s)
    ensures Winding(a, Step(cfg, s, e))
  {
    ClosingHolds(cfg, s);
    StepWinds(cfg, s, e);
    WindingTransitive(a, s, Step(cfg, s, e));
  }

  /** From the shutdown signal on no worker is forked any more, the set of live workers only
      shrinks, and the deadline stands. */
  lemma NothingForkedInShutdown(cfg: Config, clock: int, evs: seq<Event>, i: nat)
    requires cfg.size >= 1 && i <= |evs| && Run(cfg, clock, evs[..i]).primary.shuttingDown
    ensures Winding(Run(cfg, clock, evs[..i]), Run(cfg, clock, evs))
  {
    WindsFrom(cfg, clock, evs, i, Run(cfg, clock, evs[..i]));
  }

  lemma {:induction false} WindsFrom(cfg: Config, clock: int, evs: seq<Event>, i: nat, start: System)
    requires cfg.size >= 1 && i <= |evs| && start == Run(cfg, clock, evs[..i]) && start.primary.shuttingDown
    ensures Winding(start, Run(cfg, clock, evs))
  {
    if i == |evs| {
      assert evs[..i] == evs;
    } else {
      var front, last := evs[..|evs| - 1], evs[|evs| - 1];
      assert front[..i] == evs[..i];
      WindsFrom(cfg, clock, front, i, start);
      RunKeeps(cfg, clock, front);
      WindsOn(cfg, start, Run(cfg, clock, front), last);
      RunSnoc(cfg, clock, evs);
    }
  }

  lemma RunSnoc(cfg: Config, clock: int, evs: seq<Event>)
    requires |evs| > 0
    ensures Run(cfg, clock, evs) == Step(cfg, Run(cfg, clock, evs[..|evs| - 1]), evs[|evs| - 1])
  {
  }

  /** Each worker is signalled at most once, and exactly if it acknowledged the deadline or its
      channel failed; a live worker that acknowledged holds the primary's own deadline. */
  lemma EverySignalWasEarned(cfg: Config, s: System, id: WorkerId)
    requires cfg.size >= 1 && Reachable(cfg, s)
    ensures s.kills[id] <= 1
    ensures s.kills[id] == 1 <==> id in s.acked || id in s.errored
    ensures id in s.acked && id in s.workers ==>
      s.workers[id].deadline.Some? && s.workers[id].deadline == s.primary.deadline
  {
    ReachableKeeps(cfg, s);
    assert Signaled(s.primary, id) <==> id in s.acked + s.errored;
    if id in s.workers {
      assert WorkerOk(cfg.distributed, s.workers[id], Told(s, id), s.primary.deadline, Answered(s, id));
    }
  }

  /** Whatever was scheduled, a worker that acknowledged spends no budget within the reserve
      before the primary's force exit. */
  lemma BudgetHonoursForceExit(cfg: Config, s: System, id: WorkerId, budget: int)
    requires cfg.size >= 1 && Reachable(cfg, s)
    requires id in s.acked && id in s.workers
    requires SettlementBudget(s.workers[id], s.clock) == Some(budget) && budget > 0
    ensures s.primary.deadline.Some?
    ensures s.clock + budget <= s.primary.deadline.value - CLUSTER_TEARDOWN_RESERVE_MS
  {
    EverySignalWasEarned(cfg, s, id);
  }

  /** Without the primary's deadline a positive budget, measured from the moment the worker
      itself saw the signal, honours the reserve exactly when the worker did not lag behind
      the primary. */
  lemma FallbackHonoursReserveIff(w: Worker, now: int, signalledAt: int)
    requires w.deadline.None? && w.shutdownStartedAt.Some? && w.shutdownStartedAt.value <= now
    requires SettlementBudget(w, now).value > 0
    ensures now + SettlementBudget(w, now).value <= signalledAt + CLUSTER_FORCE_EXIT_MS - CLUSTER_TEARDOWN_RESERVE_MS
       <==> w.shutdownStartedAt.value <= signalledAt
  {
  }

  // ----- The processes -----

  class FileSweep {
    var eligible: bool
    var configured: bool
    var starts: nat

    function View(): Gate
      reads this
    {
      Gate(eligible, configured, starts)
    }

    constructor (distributed: bool)
      ensures View() == Gate(distributed, false, 0)
    {
      eligible, configured, starts := distributed, false, 0;
    }

    method TryStart()
      modifies this
      ensures View() == MaybeStart(old(View()))
    {
      if !eligible || starts > 0 || !configured {
        return;
      }
      starts := starts + 1;
    }

    method SetOptions()
      modifies this
      ensures View() == Configure(old(View()))
    {
      configured := true;
      TryStart();
    }

    method Assign()
      modifies this
      ensures View() == AssignGate(old(View()))
    {
      eligible := true;
      TryStart();
    }
  }

  class WorkerProcess {
    const sweep: FileSweep
    var clusterShutdownDeadlineAt: Option<int>
    var shutdownStartedAt: Option<int>

    constructor (distributed: bool)
      ensures fresh(sweep) && sweep.View() == Gate(distributed, false, 0)
      ensures clusterShutdownDeadlineAt.None? && shutdownStartedAt.None?
    {
      sweep := new FileSweep(distributed);
      clusterShutdownDeadlineAt, shutdownStartedAt := None, None;
    }

    /** This process as the cluster sees it. */
    function View(w: Worker): Worker
      reads this, sweep
    {
      w.(gate := sweep.View(), deadline := clusterShutdownDeadlineAt, shutdownStartedAt := shutdownStartedAt)
    }

    /** `ack` says that an acknowledgement goes back to the primary. */
    method OnMessage(m: Message, ghost w: Worker) returns (ack: bool)
      requires w == View(w)
      modifies this, sweep
      ensures View(w) == Receive(w, m) && ack == Acknowledges(m)
    {
      match m
      case SweepOrder =>
        sweep.Assign();
        ack := false;
      case ShutdownNotice(deadlineAt) =>
        ack := deadlineAt.Some?;
        if ack {
          clusterShutdownDeadlineAt := deadlineAt;
        }
    }

    method DestroyGenerationJobManager(now: int, ghost w: Worker) returns (settlementBudget: Option<int>)
      requires w == View(w)
      ensures settlementBudget == SettlementBudget(w, now)
    {
      if shutdownStartedAt.None? {
        return None;
      }
      var remaining := Max(0, SHUTDOWN_TIMEOUT_MS - (now - shutdownStartedAt.value));
      var elapsed := Max(0, now - shutdownStartedAt.value);
      var primaryRemaining := CLUSTER_FORCE_EXIT_MS - elapsed;
      if clusterShutdownDeadlineAt.Some? {
        primaryRemaining := clusterShutdownDeadlineAt.value - now;
      }
      settlementBudget := Some(Max(0, Min(remaining, primaryRemaining) - CLUSTER_TEARDOWN_RESERVE_MS));
    }
  }

  class PrimaryProcess {
    var activeWorkers: int
    var listeningWorkers: set<WorkerId>
    var retentionSweepWorkerId: Option<WorkerId>
    var shuttingDown: bool
    var remainingShutdownWorkers: int
    var deadlineAt: Option<int>
    /** For every worker told the deadline, the `signaled` flag its handlers close over. */
    var signaled: map<WorkerId, bool>
    var exit: Option<ExitReason>

    function View(): Primary
      reads this
    {
      Primary(activeWorkers, listeningWorkers, retentionSweepWorkerId,
              shuttingDown, remainingShutdownWorkers, deadlineAt, signaled, exit)
    }

    constructor ()
      ensures View() == STARTING
    {
      activeWorkers, listeningWorkers, retentionSweepWorkerId := 0, {}, None;
      shuttingDown, remainingShutdownWorkers, deadlineAt, signaled, exit := false, 0, None, map[], None;
    }

    method AssignRetentionSweepWorker(pool: Pool) returns (order: Option<WorkerId>)
      modifies this
      ensures Reaction(View(), order, 0, {}, None) == Assign(old(View()), pool)
    {
      if retentionSweepWorkerId.Some? && retentionSweepWorkerId.value in pool {
        return None;
      }
      var available := Connected(pool) * listeningWorkers;
      order := Highest(if available != {} then available else Connected(pool));
      if order.Some? {
        retentionSweepWorkerId := order;
      }
    }

    method OnWorkerOnline()
      modifies this
      ensures View() == OnOnline(old(View())).primary
    {
      activeWorkers := activeWorkers + 1;
    }

    method OnWorkerListening(pool: Pool, id: WorkerId, workers: nat) returns (order: Option<WorkerId>)
      modifies this
      ensures Reaction(View(), order, 0, {}, None) == OnListening(old(View()), pool, id, workers)
    {
      listeningWorkers := listeningWorkers + {id};
      order := None;
      if |listeningWorkers| == workers || (retentionSweepWorkerId.None? && activeWorkers >= workers) {
        order := AssignRetentionSweepWorker(pool);
      }
    }

    method OnWorkerExit(pool: Pool, id: WorkerId) returns (order: Option<WorkerId>, forks: nat)
      modifies this
      ensures Reaction(View(), order, forks, {}, None) == OnExit(old(View()), pool, id)
    {
      activeWorkers, listeningWorkers := activeWorkers - 1, listeningWorkers - {id};
      order, forks := None, 0;
      if retentionSweepWorkerId == Some(id) {
        retentionSweepWorkerId := None;
        order := AssignRetentionSweepWorker(pool);
      }
      if shuttingDown {
        remainingShutdownWorkers := Max(0, remainingShutdownWorkers - 1);
        if remainingShutdownWorkers == 0 {
          exit := Some(Drained);
        }
      } else {
        forks := 1;
      }
    }

    method SignalWorker(id: WorkerId) returns (kill: Option<WorkerId>)
      modifies this
      ensures Reaction(View(), None, 0, {}, kill) == Settle(old(View()), id)
    {
      kill := None;
      if id in signaled && !signaled[id] {
        signaled := signaled[id := true];
        kill := Some(id);
      }
    }

    method Shutdown(pool: Pool, now: int) returns (notified: set<WorkerId>)
      modifies this
      ensures Reaction(View(), None, 0, notified, None) == OnSignal(old(View()), pool, now)
    {
      notified := {};
      if shuttingDown {
        return;
      }
      shuttingDown, remainingShutdownWorkers := true, |pool|;
      if remainingShutdownWorkers == 0 {
        exit := Some(Drained);
        return;
      }
      deadlineAt := Some(now + CLUSTER_FORCE_EXIT_MS);
      var handed: map<WorkerId, bool> := map[];
      var liveWorkers := pool.Keys;
      while notified != liveWorkers
        invariant notified <= liveWorkers
        invariant handed == map id | id in notified :: false
        decreases |liveWorkers - notified|
      {
        var id :| id in liveWorkers - notified;
        handed := handed[id := false];
        notified := notified + {id};
      }
      signaled := handed;
      assert signaled == map id | id in pool :: false;
    }
  }
}
