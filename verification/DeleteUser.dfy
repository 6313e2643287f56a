/** Deleting an account from the command line: a fence on the user, reversible suspension of
    the schedules, a drain of active deliveries, the deletions, and the compensations that run
    when the deletion did not commit. Every await may fail before or after taking effect, and
    other processes act between any two of them. */
module DeleteUser {
  import opened Common

  const USER_DELETION_FENCE_STALE_MS := 900_000
  const TRIGGER_DRAIN_TIMEOUT_MS := 35_000
  const TRIGGER_DRAIN_POLL_MS := 100
  const RESTORE_ATTEMPTS := 3

  type Time = int
  type Id = nat
  type Token = nat

  // ----- Schedules -----

  datatype Suspension = Suspension(token: Token, enabled: bool, nextRunAt: Option<Time>)

  datatype Schedule = Schedule(
    enabled: bool, nextRunAt: Option<Time>, suspension: Option<Suspension>, deleting: bool)

  type Schedules = map<Id, Schedule>

  predicate Carries(s: Schedule, token: Token) {
    s.suspension.Some? && s.suspension.value.token == token
  }

  predicate Suspendable(s: Schedule, token: Token) {
    !s.deleting && !Carries(s, token)
  }

  /** An abandoned attempt's snapshot is carried forward under the new token. */
  function SuspendRow(s: Schedule, token: Token): Schedule {
    var snapshot :=
      match s.suspension
      case Some(existing) => existing.(token := token)
      case None => Suspension(token, s.enabled, s.nextRunAt);
    s.(enabled := false, nextRunAt := None, suspension := Some(snapshot))
  }

  function RestoreRow(s: Schedule): Schedule {
    match s.suspension
    case Some(snapshot) => s.(enabled := snapshot.enabled, nextRunAt := snapshot.nextRunAt, suspension := None)
    case None => s
  }

  /** The unordered bulk write lands on the rows in `landed`. */
  function SuspendAll(rows: Schedules, token: Token, landed: set<Id>): Schedules {
    map id | id in rows ::
      if id in landed && Suspendable(rows[id], token) then SuspendRow(rows[id], token) else rows[id]
  }

  predicate Restorable(s: Schedule, token: Token) {
    Carries(s, token) && !s.deleting
  }

  function RestoreAll(rows: Schedules, token: Token, landed: set<Id>): Schedules {
    map id | id in rows ::
      if id in landed && Restorable(rows[id], token) then RestoreRow(rows[id]) else rows[id]
  }

  /** No row that could be restored is still suspended under `token`. */
  predicate NoneSuspended(rows: Schedules, token: Token) {
    forall id :: id in rows ==> !Restorable(rows[id], token)
  }

  /** Which rows each attempt of a restore lands on; true when the attempt also succeeds. */
  datatype Attempt = Attempt(ok: bool, landed: set<Id>)

  function RestoreOnce(rows: Schedules, token: Token, a: Attempt): Schedules {
    RestoreAll(rows, token, if a.ok then rows.Keys else a.landed)
  }

  /** A suspension that landed on some rows, then restores that landed on some rows, the last
      one on all: every row is as it was, and a row left over from an abandoned attempt is as it
      was then or as it was before that attempt. */
  lemma SuspendRestoreRoundTrip(rows: Schedules, token: Token, landed: set<Id>, tries: seq<Attempt>)
    requires forall id :: id in rows ==> !Carries(rows[id], token)
    requires |tries| > 0 && tries[|tries| - 1].ok
    ensures var after := RestoreTries(SuspendAll(rows, token, landed), token, tries);
      && after.Keys == rows.Keys
      && NoneSuspended(after, token)
      && (forall id :: id in rows ==>
            after[id] == if id in landed && !rows[id].deleting then RestoreRow(rows[id]) else rows[id])
      && (forall id :: id in rows && rows[id].suspension.None? ==> after[id] == rows[id])
  {
    var n := |tries| - 1;
    var before := RestoreTries(SuspendAll(rows, token, landed), token, tries[..n]);
    TriesKeep(rows, token, landed, tries[..n]);
    assert RestoreTries(SuspendAll(rows, token, landed), token, tries) == RestoreOnce(before, token, tries[n]);
    forall id | id in rows
      ensures RestoreOnce(before, token, tries[n])[id]
           == if id in landed && !rows[id].deleting then RestoreRow(rows[id]) else rows[id]
    {
      assert MidwayRow(rows[id], before[id], token, id in landed);
    }
  }

  function RestoreTries(rows: Schedules, token: Token, tries: seq<Attempt>): Schedules {
    if tries == [] then rows
    else RestoreOnce(RestoreTries(rows, token, tries[..|tries| - 1]), token, tries[|tries| - 1])
  }

  predicate MidwayRow(orig: Schedule, row: Schedule, token: Token, landed: bool) {
    if landed && !orig.deleting then row == SuspendRow(orig, token) || row == RestoreRow(orig) else row == orig
  }

  lemma {:induction false} TriesKeep(rows: Schedules, token: Token, landed: set<Id>, tries: seq<Attempt>)
    requires forall id :: id in rows ==> !Carries(rows[id], token)
    ensures RestoreTries(SuspendAll(rows, token, landed), token, tries).Keys == rows.Keys
    ensures forall id :: id in rows ==>
      MidwayRow(rows[id], RestoreTries(SuspendAll(rows, token, landed), token, tries)[id], token, id in landed)
  {
    if tries != [] {
      TriesKeep(rows, token, landed, tries[..|tries| - 1]);
    }
  }

  // ----- The database -----

  /** A trigger delivery: when its admission was closed, and whether it counts as active. */
  datatype Delivery = Delivery(closedAt: Option<Time>, active: bool)

  type Deliveries = map<Id, Delivery>

  /** The user document, its deletion fence, the purge marker, the deliveries, the schedules, the
      collections still holding data, and the records of code environments. */
  datatype Store = Store(
    user: bool, fence: Option<Time>, purge: Option<Time>,
    deliveries: Deliveries, schedules: Schedules, data: set<string>, environments: set<Id>)

  predicate NoneActive(deliveries: Deliveries) {
    forall d :: d in deliveries ==> !deliveries[d].active
  }

  predicate OwnsFence(st: Store, stamp: Option<Time>) {
    st.user && stamp.Some? && st.fence == stamp
  }

  predicate CanBegin(st: Store) {
    st.user && st.fence.None?
  }

  predicate CanRecover(st: Store, now: Time) {
    st.user && st.fence.Some? && st.fence.value <= now - USER_DELETION_FENCE_STALE_MS
  }

  function CloseAdmission(deliveries: Deliveries, stamp: Option<Time>): Deliveries {
    map id | id in deliveries :: deliveries[id].(closedAt := stamp)
  }

  function ReopenAdmission(deliveries: Deliveries, stamp: Option<Time>): Deliveries {
    map id | id in deliveries ::
      if deliveries[id].closedAt == stamp then deliveries[id].(closedAt := None) else deliveries[id]
  }

  function Without(deliveries: Deliveries, gone: set<Id>): Deliveries {
    map id | id in deliveries && id !in gone :: deliveries[id]
  }

  /** The first `steps` of the two writes: the marker, then the admissions. */
  function ArmPurge(st: Store, stamp: Option<Time>, steps: nat): Store {
    if !OwnsFence(st, stamp) then st
    else
      var st1 := if steps >= 1 then st.(purge := stamp) else st;
      if steps >= 2 then st1.(deliveries := CloseAdmission(st1.deliveries, stamp)) else st1
  }

  /** The first `steps` of the two writes: the admissions, then the marker. */
  function DisarmPurge(st: Store, stamp: Option<Time>, steps: nat): Store {
    if !OwnsFence(st, stamp) then st
    else
      var st1 := if steps >= 1 then st.(deliveries := ReopenAdmission(st.deliveries, stamp)) else st;
      if steps >= 2 && st1.purge == stamp then st1.(purge := None) else st1
  }

  function ReleaseFence(st: Store, stamp: Option<Time>): Store {
    if OwnsFence(st, stamp) then st.(fence := None) else st
  }

  // ----- One deletion -----

  /** Where the program is: the await it performs next. */
  datatype Pc =
    | Begin | BeginCheck | Confirm | Recover | RecoverCheck
    | Arm | Suspend | Drain | Abort | Configure
    | Erase | EraseSchedules | LeaveGroups | Commit
    | Revoke | EraseEnvironments | EraseDeliveries
    | Restore(attempt: nat) | Disarm | Release | Done

  /** What happened, for stating properties: the stamps this process chose, the one it last
      wrote, the schedules as they were when it suspended them and when that was, what was
      lost on the way and what was reported. */
  datatype History = History(
    stamps: set<Time>, mine: Option<Time>, missing: bool,
    orig: Schedules, restored: Schedules, suspendedAt: Time,
    sawZero: bool, erased: bool, released: bool, lostRecovery: bool, lostCommit: bool, revoked: bool,
    restoreFailed: bool, disarmFailed: bool, releaseFailed: bool)

  const NOTHING_YET :=
    History({}, None, false, map[], map[], 0, false, false, false, false, false, false, false, false, false)

  datatype Machine = Machine(
    store: Store, pc: Pc, shared: bool, offline: bool, id: Token,
    fence: Option<Time>, token: Option<Token>, deadline: Time, userDeleted: bool, threw: bool,
    log: History)

  /** Without the shared store the operator has confirmed that everything else is stopped.
      `id` is the token this process will draw. */
  function Start(st: Store, shared: bool, id: Token): Machine {
    Machine(st, Begin, shared, !shared, id, None, None, 0, false, false, NOTHING_YET)
  }

  /** How an await ends: normally, or failing after the first `steps` of its writes, or, for a
      write over many rows, after landing on the rows or collections in the sets. */
  datatype Outcome = Outcome(
    ok: bool, steps: nat, rows: set<Id>, collections: set<string>, now: Time, yes: bool)

  /** The `finally` block is entered at its first await that applies. */
  function Cleanup(m: Machine): Pc {
    if m.token.Some? && !m.userDeleted then Restore(1)
    else if m.fence.Some? && !m.userDeleted then Disarm
    else Done
  }

  function Throw(m: Machine): Machine {
    m.(threw := true, pc := Cleanup(m))
  }

  function AfterRestore(m: Machine): Machine {
    m.(pc := if m.fence.Some? && !m.userDeleted then Disarm else Done)
  }

  function BeginStep(m: Machine, o: Outcome): Machine {
    var writes := CanBegin(m.store) && (o.ok || o.steps >= 1);
    var m1 := m.(
      fence := Some(o.now),
      store := if writes then m.store.(fence := Some(o.now)) else m.store,
      log := m.log.(stamps := m.log.stamps + {o.now}, mine := if writes then Some(o.now) else m.log.mine));
    if !o.ok then Throw(m1) else m1.(pc := if writes then Arm else BeginCheck)
  }

  function BeginCheckStep(m: Machine, o: Outcome): Machine {
    if !o.ok then Throw(m)
    else if m.store.user then m.(fence := None, pc := if m.offline then Recover else Confirm)
    else m.(fence := None, pc := AfterDrain(m), log := m.log.(missing := true))
  }

  /** Live generations are aborted through the shared store only. */
  function AfterDrain(m: Machine): Pc {
    if m.shared then Abort else Configure
  }

  function ConfirmStep(m: Machine, o: Outcome): Machine {
    if o.ok && o.yes then m.(offline := true, pc := Recover) else Throw(m)
  }

  function RecoverStep(m: Machine, o: Outcome): Machine {
    var writes := CanRecover(m.store, o.now) && (o.ok || o.steps >= 1);
    var m1 := m.(
      store := if writes then m.store.(fence := Some(o.now)) else m.store,
      log := m.log.(stamps := if writes then m.log.stamps + {o.now} else m.log.stamps,
                    mine := if writes then Some(o.now) else m.log.mine,
                    lostRecovery := writes && !o.ok));
    if !o.ok then Throw(m1)
    else if writes then m1.(fence := Some(o.now), pc := Arm)
    else m1.(pc := RecoverCheck)
  }

  function ArmStep(m: Machine, o: Outcome): Machine {
    var m1 := m.(store := ArmPurge(m.store, m.fence, if o.ok then 2 else o.steps));
    if o.ok && OwnsFence(m.store, m.fence) then m1.(pc := Suspend) else Throw(m1)
  }

  function SuspendStep(m: Machine, o: Outcome): Machine {
    var landed := if o.ok then m.store.schedules.Keys else o.rows;
    var m1 := m.(
      token := Some(m.id),
      store := m.store.(schedules := SuspendAll(m.store.schedules, m.id, landed)),
      deadline := o.now + TRIGGER_DRAIN_TIMEOUT_MS,
      log := m.log.(orig := m.store.schedules, suspendedAt := o.now));
    if !o.ok then Throw(m1) else m1.(pc := if m.shared then Drain else Configure)
  }

  /** One poll: it counts the active deliveries. */
  function DrainStep(m: Machine, o: Outcome): Machine {
    if !o.ok then Throw(m)
    else if NoneActive(m.store.deliveries) then m.(pc := Abort, log := m.log.(sawZero := true))
    else if o.now >= m.deadline then Throw(m)
    else m
  }

  function EraseStep(m: Machine, o: Outcome): Machine {
    var m1 := m.(
      store := m.store.(data := if o.ok then {} else m.store.data - o.collections),
      log := m.log.(erased := true));
    if o.ok then m1.(pc := EraseSchedules) else Throw(m1)
  }

  function Minus(rows: Schedules, gone: set<Id>): Schedules {
    map id | id in rows && id !in gone :: rows[id]
  }

  function EraseSchedulesStep(m: Machine, o: Outcome): Machine {
    var gone := if o.ok then m.store.schedules.Keys else o.rows;
    var m1 := m.(store := m.store.(schedules := Minus(m.store.schedules, gone)));
    if o.ok then m1.(pc := LeaveGroups) else Throw(m1)
  }

  /** Fails as well when the user document is already gone. */
  function CommitStep(m: Machine, o: Outcome): Machine {
    var deletes := m.store.user && (o.ok || o.steps >= 1);
    var m1 := m.(
      store := if deletes then m.store.(user := false, fence := None) else m.store,
      log := m.log.(lostCommit := deletes && !o.ok));
    if o.ok && deletes then m1.(userDeleted := true, pc := Revoke) else Throw(m1)
  }

  /** A failure is swallowed, and keeps the records of the environments. */
  function RevokeStep(m: Machine, o: Outcome): Machine {
    if o.ok then m.(pc := EraseEnvironments, log := m.log.(revoked := true)) else m.(pc := EraseDeliveries)
  }

  /** A failure is swallowed. */
  function EraseEnvironmentsStep(m: Machine, o: Outcome): Machine {
    m.(store := m.store.(environments := if o.ok then {} else m.store.environments - o.rows), pc := EraseDeliveries)
  }

  /** The deliveries, some of them if that fails, and only then the purge marker. */
  function EraseDeliveriesStep(m: Machine, o: Outcome): Machine {
    var gone := if o.ok || o.steps >= 1 then m.store.deliveries.Keys else o.rows;
    var m1 := m.(store := m.store.(
      deliveries := Without(m.store.deliveries, gone),
      purge := if o.ok || o.steps >= 2 then None else m.store.purge));
    if o.ok then m1.(pc := Done) else Throw(m1)
  }

  function WithRows(m: Machine, rows: Schedules): Machine {
    m.(store := m.store.(schedules := rows),
       log := m.log.(restored := m.log.restored + Changed(m.store.schedules, rows)))
  }

  /** Three attempts; the failure of the last is reported and does not stop the rest. */
  function RestoreEnds(m: Machine, k: nat, ok: bool): Machine {
    if ok then AfterRestore(m)
    else if k < RESTORE_ATTEMPTS then m.(pc := Restore(k + 1))
    else AfterRestore(m.(log := m.log.(restoreFailed := true)))
  }

  function RestoreStep(m: Machine, k: nat, o: Outcome): Machine {
    RestoreEnds(WithRows(m, RestoreOnce(m.store.schedules, m.id, Attempt(o.ok, o.rows))), k, o.ok)
  }

  function Changed(before: Schedules, after: Schedules): Schedules {
    map id | id in before && id in after && before[id] != after[id] :: after[id]
  }

  function DisarmStep(m: Machine, o: Outcome): Machine {
    m.(store := DisarmPurge(m.store, m.fence, if o.ok then 2 else o.steps),
       pc := Release,
       log := m.log.(disarmFailed := !o.ok))
  }

  function ReleaseStep(m: Machine, o: Outcome): Machine {
    var st := if o.ok || o.steps >= 1 then ReleaseFence(m.store, m.fence) else m.store;
    m.(store := st, pc := Done,
       log := m.log.(released := st != m.store, releaseFailed := !o.ok))
  }

  /** Steps that touch nothing in the store: they go on or throw. */
  function Proceed(m: Machine, o: Outcome, next: Pc): Machine {
    if o.ok then m.(pc := next) else Throw(m)
  }

  function Own(m: Machine, o: Outcome): Machine {
    match m.pc
    case Begin => BeginStep(m, o)
    case BeginCheck => BeginCheckStep(m, o)
    case Confirm => ConfirmStep(m, o)
    case Recover => RecoverStep(m, o)
    case RecoverCheck => Throw(m)
    case Arm => ArmStep(m, o)
    case Suspend => SuspendStep(m, o)
    case Drain => DrainStep(m, o)
    case Abort => Proceed(m, o, Configure)
    case Configure => Proceed(m, o, Erase)
    case Erase => EraseStep(m, o)
    case EraseSchedules => EraseSchedulesStep(m, o)
    case LeaveGroups => Proceed(m, o, Commit)
    case Commit => CommitStep(m, o)
    case Revoke => RevokeStep(m, o)
    case EraseEnvironments => EraseEnvironmentsStep(m, o)
    case EraseDeliveries => EraseDeliveriesStep(m, o)
    case Restore(k) => RestoreStep(m, k, o)
    case Disarm => DisarmStep(m, o)
    case Release => ReleaseStep(m, o)
    case Done => m
  }

  // ----- Runs, with other processes in between -----

  predicate ClosedBy(d: Delivery, stamps: set<Time>) {
    d.closedAt.Some? && d.closedAt.value in stamps
  }

  /** What other processes may do to the store: anything, except use this process's token or
      stamps, touch a row suspended under its token other than by deleting it, or bring the
      user back. */
  ghost predicate Others(m: Machine, st: Store) {
    && (st.user ==> m.store.user)
    && (st.fence.Some? && st.fence.value in m.log.stamps ==> st.fence == m.store.fence)
    && (st.purge.Some? && st.purge.value in m.log.stamps ==> st.purge == m.store.purge)
    && (forall d :: d in st.deliveries && ClosedBy(st.deliveries[d], m.log.stamps) ==>
          d in m.store.deliveries && m.store.deliveries[d].closedAt == st.deliveries[d].closedAt)
    && (forall id :: id in st.schedules && Carries(st.schedules[id], m.id) ==>
          id in m.store.schedules && SameBut(m.store.schedules[id], st.schedules[id]))
  }

  predicate SameBut(before: Schedule, after: Schedule) {
    after == before || after == before.(deleting := true)
  }

  datatype Event = Ours(o: Outcome) | Theirs(st: Store)

  /** The clock never shows this process the time another process has just written into the
      fence. Recovery needs no such assumption: what it replaces is stale. */
  predicate FreshStamp(m: Machine, o: Outcome) {
    m.pc.Begin? ==> m.store.fence != Some(o.now)
  }

  ghost predicate Possible(m: Machine, e: Event) {
    match e
    case Ours(o) => FreshStamp(m, o)
    case Theirs(st) => Others(m, st)
  }

  /** An event that is not possible does not happen. */
  ghost function Step(m: Machine, e: Event): Machine {
    if !Possible(m, e) then m
    else
      match e
      case Ours(o) => Own(m, o)
      case Theirs(st) => m.(store := st)
  }

  ghost function Run(m: Machine, evs: seq<Event>): Machine {
    if evs == [] then m else Step(Run(m, evs[..|evs| - 1]), evs[|evs| - 1])
  }

  /** A start at which neither the store nor its schedules know this process. */
  predicate Unknown(st: Store, id: Token) {
    forall k :: k in st.schedules ==> !Carries(st.schedules[k], id)
  }

  // ----- What every run keeps -----

  predicate Opening(pc: Pc) {
    pc.Begin? || pc.BeginCheck? || pc.Confirm? || pc.Recover? || pc.RecoverCheck?
  }

  predicate Fenced(pc: Pc) {
    pc.Arm? || pc.Suspend? || pc.Drain?
  }

  predicate Erasing(pc: Pc) {
    pc.Abort? || pc.Configure? || pc.Erase? || pc.EraseSchedules? || pc.LeaveGroups? || pc.Commit?
  }

  predicate AfterCommit(pc: Pc) {
    pc.Revoke? || pc.EraseEnvironments? || pc.EraseDeliveries?
  }

  predicate PcOk(m: Machine) {
    && (m.token.Some? ==> m.token == Some(m.id))
    && (Opening(m.pc) ==> m.log.mine.None? && m.token.None? && !m.log.missing && !m.log.erased && !m.log.sawZero)
    && (m.pc.Confirm? || m.pc.Recover? || m.pc.RecoverCheck? ==> m.fence.None?)
    && (m.pc.Recover? || m.pc.RecoverCheck? ==> m.offline)
    && (Fenced(m.pc) ==> m.fence.Some? && !m.log.missing && !m.log.erased && !m.log.sawZero)
    && (m.pc.Arm? || m.pc.Suspend? ==> m.token.None?)
    && (m.pc.Drain? ==> m.token.Some? && m.shared && m.deadline == m.log.suspendedAt + TRIGGER_DRAIN_TIMEOUT_MS)
    && (m.pc.Abort? ==> m.shared)
    && (Fenced(m.pc) || Erasing(m.pc) ==> m.fence == m.log.mine)
    && (m.log.missing ==> !m.store.user && m.log.mine.None?)
    && (Erasing(m.pc) ==> m.log.missing == m.fence.None? && m.log.missing == m.token.None?)
    && (Erasing(m.pc) ==> m.log.sawZero == (m.shared && !m.log.missing))
    && (m.pc.Restore? ==> m.token.Some? && 1 <= m.pc.attempt <= RESTORE_ATTEMPTS)
    && (m.pc.Disarm? || m.pc.Release? ==> m.fence.Some?)
    && (AfterCommit(m.pc) ==> m.userDeleted)
    && (m.userDeleted ==> AfterCommit(m.pc) || m.pc.Done?)
    && (m.userDeleted ==> !m.log.lostCommit)
    && (Opening(m.pc) || Fenced(m.pc) || Erasing(m.pc) || AfterCommit(m.pc) ==> !m.threw && !m.log.lostCommit)
    && (m.pc.EraseEnvironments? ==> m.log.revoked)
    && (m.log.erased ==> m.log.missing == m.log.mine.None?)
    && (m.log.missing ==> m.fence.None? && m.token.None?)
    && (m.log.erased ==> m.log.sawZero == (m.shared && !m.log.missing))
    && (m.log.released ==> m.pc.Done? && !m.userDeleted)
  }

  predicate FenceOk(m: Machine) {
    && (m.fence.Some? ==> m.fence.value in m.log.stamps)
    && (m.log.mine.Some? ==> m.log.mine.value in m.log.stamps)
    && (m.store.fence.Some? && m.store.fence.value in m.log.stamps ==> m.store.fence == m.log.mine)
    && (OwnsFence(m.store, m.log.mine) && !m.pc.Done? ==> m.fence == m.log.mine || m.log.lostRecovery)
    && (OwnsFence(m.store, m.log.mine) && m.pc.Done? ==> m.log.lostRecovery || m.log.releaseFailed)
    && (m.userDeleted ==> !m.store.user)
  }

  predicate NoneClosed(deliveries: Deliveries, stamp: Option<Time>) {
    forall d :: d in deliveries ==> deliveries[d].closedAt != stamp
  }

  predicate PurgeOk(m: Machine) {
    m.pc.Release? && OwnsFence(m.store, m.fence) && !m.log.disarmFailed ==>
      m.store.purge != m.fence && NoneClosed(m.store.deliveries, m.fence)
  }

  predicate RowOk(m: Machine, k: Id)
    requires k in m.store.schedules
  {
    Carries(m.store.schedules[k], m.id) ==>
      && m.token.Some? && k in m.log.orig && Suspendable(m.log.orig[k], m.id)
      && SameBut(SuspendRow(m.log.orig[k], m.id), m.store.schedules[k])
  }

  predicate RowsOk(m: Machine) {
    && (forall k :: k in m.store.schedules ==> RowOk(m, k))
    && (m.token.None? ==> m.log.restored == map[])
    && (forall k :: k in m.log.restored ==> k in m.log.orig && m.log.restored[k] == RestoreRow(m.log.orig[k]))
  }

  predicate SettledRows(m: Machine) {
    m.token.None? || m.log.restoreFailed || NoneSuspended(m.store.schedules, m.id)
  }

  predicate RestoredOk(m: Machine) {
    (m.pc.Disarm? || m.pc.Release? || (m.pc.Done? && !m.userDeleted)) ==> SettledRows(m)
  }

  predicate Inv(m: Machine) {
    Sound(m) && RowsOk(m) && RestoredOk(m)
  }

  predicate Sound(m: Machine) {
    PcOk(m) && FenceOk(m) && PurgeOk(m)
  }

  lemma BeginSound(m: Machine, o: Outcome)
    requires Sound(m) && m.pc.Begin? && FreshStamp(m, o)
    ensures Sound(BeginStep(m, o))
  {
  }

  lemma BeginCheckSound(m: Machine, o: Outcome)
    requires Sound(m) && m.pc.BeginCheck?
    ensures Sound(BeginCheckStep(m, o))
  {
  }

  lemma ConfirmSound(m: Machine, o: Outcome)
    requires Sound(m) && m.pc.Confirm?
    ensures Sound(ConfirmStep(m, o))
  {
  }

  lemma RecoverSound(m: Machine, o: Outcome)
    requires Sound(m) && m.pc.Recover?
    ensures Sound(RecoverStep(m, o))
  {
  }

  lemma ArmSound(m: Machine, o: Outcome)
    requires Sound(m) && m.pc.Arm?
    ensures Sound(ArmStep(m, o))
  {
  }

  lemma SuspendSound(m: Machine, o: Outcome)
    requires Sound(m) && m.pc.Suspend?
    ensures Sound(SuspendStep(m, o))
  {
  }

  lemma DrainSound(m: Machine, o: Outcome)
    requires Sound(m) && m.pc.Drain?
    ensures Sound(DrainStep(m, o))
  {
  }

  lemma EraseSound(m: Machine, o: Outcome)
    requires Sound(m) && m.pc.Erase?
    ensures Sound(EraseStep(m, o))
  {
  }

  lemma EraseSchedulesSound(m: Machine, o: Outcome)
    requires Sound(m) && m.pc.EraseSchedules?
    ensures Sound(EraseSchedulesStep(m, o))
  {
  }

  lemma CommitSound(m: Machine, o: Outcome)
    requires Sound(m) && m.pc.Commit?
    ensures Sound(CommitStep(m, o))
  {
  }

  lemma RowsKeepSound(m: Machine, rows: Schedules)
    requires Sound(m)
    ensures Sound(WithRows(m, rows)) && WithRows(m, rows).pc == m.pc
  {
    var m' := WithRows(m, rows);
    assert m' == m.(store := m'.store, log := m.log.(restored := m'.log.restored));
    assert m'.store == m.store.(schedules := rows);
  }

  lemma RestoreEndsSound(m: Machine, k: nat, ok: bool)
    requires Sound(m) && m.pc == Restore(k)
    ensures Sound(RestoreEnds(m, k, ok))
  {
  }

  lemma RestoreSound(m: Machine, o: Outcome)
    requires Sound(m) && m.pc.Restore?
    ensures Sound(RestoreStep(m, m.pc.attempt, o))
  {
    var rows := RestoreOnce(m.store.schedules, m.id, Attempt(o.ok, o.rows));
    RowsKeepSound(m, rows);
    RestoreEndsSound(WithRows(m, rows), m.pc.attempt, o.ok);
  }

  lemma DisarmSound(m: Machine, o: Outcome)
    requires Sound(m) && m.pc.Disarm?
    ensures Sound(DisarmStep(m, o))
  {
  }

  lemma ReleaseSound(m: Machine, o: Outcome)
    requires Sound(m) && m.pc.Release?
    ensures Sound(ReleaseStep(m, o))
  {
  }

  /** Steps that do not touch the store. */
  lemma LocalSound(m: Machine, o: Outcome, next: Pc)
    requires Sound(m)
    requires match m.pc
      case Abort => next == Configure
      case Configure => next == Erase
      case LeaveGroups => next == Commit
      case _ => false
    ensures Sound(Proceed(m, o, next))
  {
  }

  lemma RefusedSound(m: Machine)
    requires Sound(m) && m.pc.RecoverCheck?
    ensures Sound(Throw(m))
  {
  }

  lemma AfterCommitSound(m: Machine, o: Outcome)
    requires Sound(m)
    ensures m.pc.Revoke? ==> Sound(RevokeStep(m, o))
    ensures m.pc.EraseEnvironments? ==> Sound(EraseEnvironmentsStep(m, o))
    ensures m.pc.EraseDeliveries? ==> Sound(EraseDeliveriesStep(m, o))
  {
  }

  lemma OwnSound(m: Machine, o: Outcome)
    requires Sound(m) && FreshStamp(m, o)
    ensures Sound(Own(m, o))
  {
    match m.pc
    case Done =>
    case Revoke => AfterCommitSound(m, o);
    case EraseEnvironments => AfterCommitSound(m, o);
    case EraseDeliveries => AfterCommitSound(m, o);
    case RecoverCheck => RefusedSound(m);
    case Abort => LocalSound(m, o, Configure);
    case Configure => LocalSound(m, o, Erase);
    case LeaveGroups => LocalSound(m, o, Commit);
    case Begin => BeginSound(m, o);
    case BeginCheck => BeginCheckSound(m, o);
    case Confirm => ConfirmSound(m, o);
    case Recover => RecoverSound(m, o);
    case Arm => ArmSound(m, o);
    case Suspend => SuspendSound(m, o);
    case Drain => DrainSound(m, o);
    case Erase => EraseSound(m, o);
    case EraseSchedules => EraseSchedulesSound(m, o);
    case Commit => CommitSound(m, o);
    case Restore(_) => RestoreSound(m, o);
    case Disarm => DisarmSound(m, o);
    case Release => ReleaseSound(m, o);
  }

  lemma TheirsOk(m: Machine, st: Store)
    requires Inv(m) && Others(m, st)
    ensures Inv(m.(store := st))
  {
    var m' := m.(store := st);
    forall k | k in st.schedules ensures RowOk(m', k) {
      if Carries(st.schedules[k], m.id) {
        assert RowOk(m, k);
      }
    }
  }

  lemma SuspendRowsOk(m: Machine, o: Outcome)
    requires PcOk(m) && RowsOk(m) && m.pc.Suspend?
    ensures RowsOk(SuspendStep(m, o))
  {
    var m' := SuspendStep(m, o);
    forall k | k in m'.store.schedules ensures RowOk(m', k) {
      assert RowOk(m, k);
    }
  }

  lemma RestoreRowsOk(m: Machine, rows: Schedules, a: Attempt)
    requires RowsOk(m) && m.token.Some? && rows == RestoreOnce(m.store.schedules, m.id, a)
    ensures RowsOk(WithRows(m, rows))
    ensures a.ok ==> NoneSuspended(rows, m.id)
  {
    var m' := WithRows(m, rows);
    forall k | k in m'.store.schedules ensures RowOk(m', k) {
      assert RowOk(m, k);
    }
    forall k | k in m'.log.restored
      ensures k in m'.log.orig && m'.log.restored[k] == RestoreRow(m'.log.orig[k])
    {
      if k in Changed(m.store.schedules, rows) {
        assert RowOk(m, k) && Restorable(m.store.schedules[k], m.id);
      }
    }
  }

  lemma RestoreStepRows(m: Machine, o: Outcome)
    requires PcOk(m) && RowsOk(m) && m.pc.Restore?
    ensures RowsOk(RestoreStep(m, m.pc.attempt, o)) && RestoredOk(RestoreStep(m, m.pc.attempt, o))
  {
    var a := Attempt(o.ok, o.rows);
    var rows := RestoreOnce(m.store.schedules, m.id, a);
    RestoreRowsOk(m, rows, a);
    EndsRows(WithRows(m, rows), m.pc.attempt, o.ok);
  }

  lemma EndsRows(m: Machine, k: nat, ok: bool)
    requires RowsOk(m) && m.pc == Restore(k) && (ok ==> NoneSuspended(m.store.schedules, m.id))
    ensures RowsOk(RestoreEnds(m, k, ok)) && RestoredOk(RestoreEnds(m, k, ok))
  {
    SameRows(m, RestoreEnds(m, k, ok));
  }

  lemma SameRows(m: Machine, m': Machine)
    requires RowsOk(m) && (m.token.Some? ==> m'.token.Some?) && (m'.token.Some? ==> m.token.Some?) && m'.id == m.id
    requires m'.store.schedules == m.store.schedules || Shrunk(m.store.schedules, m'.store.schedules)
    requires m'.log.orig == m.log.orig && m'.log.restored == m.log.restored
    ensures RowsOk(m')
  {
    forall k | k in m'.store.schedules ensures RowOk(m', k) {
      assert RowOk(m, k);
    }
  }

  predicate Shrunk(rows: Schedules, rows': Schedules) {
    forall k :: k in rows' ==> k in rows && rows'[k] == rows[k]
  }

  predicate LeavesRows(m: Machine, m': Machine) {
    && m'.token == m.token && m'.id == m.id && m'.shared == m.shared
    && m'.log.orig == m.log.orig && m'.log.restored == m.log.restored
    && m'.log.restoreFailed == m.log.restoreFailed && m'.log.erased == (m.log.erased || m.pc.Erase?)
    && (m'.store.schedules == m.store.schedules || Shrunk(m.store.schedules, m'.store.schedules))
  }

  lemma BeginLeavesRows(m: Machine, o: Outcome)
    requires m.pc.Begin?
    ensures LeavesRows(m, BeginStep(m, o))
  {
  }

  lemma BeginCheckLeavesRows(m: Machine, o: Outcome)
    requires m.pc.BeginCheck?
    ensures LeavesRows(m, BeginCheckStep(m, o))
  {
  }

  lemma ConfirmLeavesRows(m: Machine, o: Outcome)
    requires m.pc.Confirm?
    ensures LeavesRows(m, ConfirmStep(m, o))
  {
  }

  lemma RecoverLeavesRows(m: Machine, o: Outcome)
    requires m.pc.Recover?
    ensures LeavesRows(m, RecoverStep(m, o))
  {
    assert RecoverStep(m, o).store.schedules == m.store.schedules;
  }

  lemma ArmLeavesRows(m: Machine, o: Outcome)
    requires m.pc.Arm?
    ensures LeavesRows(m, ArmStep(m, o))
  {
  }

  lemma DrainLeavesRows(m: Machine, o: Outcome)
    requires m.pc.Drain?
    ensures LeavesRows(m, DrainStep(m, o))
  {
  }

  lemma EraseLeavesRows(m: Machine, o: Outcome)
    requires m.pc.Erase?
    ensures LeavesRows(m, EraseStep(m, o))
  {
  }

  lemma EraseSchedulesLeavesRows(m: Machine, o: Outcome)
    requires m.pc.EraseSchedules?
    ensures LeavesRows(m, EraseSchedulesStep(m, o))
  {
  }

  lemma CommitLeavesRows(m: Machine, o: Outcome)
    requires m.pc.Commit?
    ensures LeavesRows(m, CommitStep(m, o))
  {
  }

  lemma DisarmLeavesRows(m: Machine, o: Outcome)
    requires m.pc.Disarm?
    ensures LeavesRows(m, DisarmStep(m, o))
  {
  }

  lemma ReleaseLeavesRows(m: Machine, o: Outcome)
    requires m.pc.Release?
    ensures LeavesRows(m, ReleaseStep(m, o))
  {
  }

  lemma AfterCommitLeavesRows(m: Machine, o: Outcome)
    ensures m.pc.Revoke? ==> LeavesRows(m, RevokeStep(m, o))
    ensures m.pc.EraseEnvironments? ==> LeavesRows(m, EraseEnvironmentsStep(m, o))
    ensures m.pc.EraseDeliveries? ==> LeavesRows(m, EraseDeliveriesStep(m, o))
  {
  }

  lemma LocalLeavesRows(m: Machine, o: Outcome, next: Pc)
    requires !m.pc.Erase?
    ensures LeavesRows(m, Proceed(m, o, next)) && LeavesRows(m, Throw(m))
  {
    assert Throw(m) == m.(threw := true, pc := Cleanup(m));
  }

  /** A step that neither suspends nor restores. */
  lemma OtherRows(m: Machine, o: Outcome)
    requires !m.pc.Suspend? && !m.pc.Restore?
    ensures LeavesRows(m, Own(m, o))
  {
    match m.pc
    case RecoverCheck => LocalLeavesRows(m, o, Done);
    case Revoke => AfterCommitLeavesRows(m, o);
    case EraseEnvironments => AfterCommitLeavesRows(m, o);
    case EraseDeliveries => AfterCommitLeavesRows(m, o);
    case Done =>
    case Abort => LocalLeavesRows(m, o, Configure);
    case Configure => LocalLeavesRows(m, o, Erase);
    case LeaveGroups => LocalLeavesRows(m, o, Commit);
    case Begin => BeginLeavesRows(m, o);
    case BeginCheck => BeginCheckLeavesRows(m, o);
    case Confirm => ConfirmLeavesRows(m, o);
    case Recover => RecoverLeavesRows(m, o);
    case Arm => ArmLeavesRows(m, o);
    case Drain => DrainLeavesRows(m, o);
    case Erase => EraseLeavesRows(m, o);
    case EraseSchedules => EraseSchedulesLeavesRows(m, o);
    case Commit => CommitLeavesRows(m, o);
    case Disarm => DisarmLeavesRows(m, o);
    case Release => ReleaseLeavesRows(m, o);
  }

  lemma OtherRestored(m: Machine, o: Outcome)
    requires PcOk(m) && RestoredOk(m) && !m.pc.Suspend? && !m.pc.Restore?
    ensures RestoredOk(Own(m, o))
  {
    OtherRows(m, o);
    EntersCleanup(m, o);
  }

  predicate Cleaning(m: Machine) {
    m.pc.Disarm? || m.pc.Release? || (m.pc.Done? && !m.userDeleted)
  }

  /** The cleanup goes past the restore only when there was nothing to restore. */
  lemma EntersCleanup(m: Machine, o: Outcome)
    requires PcOk(m) && !m.pc.Suspend? && !m.pc.Restore?
    ensures Cleaning(Own(m, o)) ==> m.token.None? || Cleaning(m)
  {
    if Erasing(m.pc) {
      ErasingEntersCleanup(m, o);
    } else if AfterCommit(m.pc) {
      OwnAfterCommit(m, o);
      AfterCommitKeepsLog(m, o);
    } else if m.pc.Drain? {
      DrainEntersCleanup(m, o);
    }
  }

  lemma ErasingEntersCleanup(m: Machine, o: Outcome)
    requires PcOk(m) && Erasing(m.pc)
    ensures Cleaning(Own(m, o)) ==> m.token.None?
  {
  }

  lemma DrainEntersCleanup(m: Machine, o: Outcome)
    requires PcOk(m) && m.pc.Drain?
    ensures !Cleaning(DrainStep(m, o))
  {
  }

  lemma OursOk(m: Machine, o: Outcome)
    requires Inv(m) && FreshStamp(m, o)
    ensures Inv(Own(m, o))
  {
    OwnSound(m, o);
    OursRows(m, o);
  }

  lemma OursRows(m: Machine, o: Outcome)
    requires PcOk(m) && RowsOk(m) && RestoredOk(m)
    ensures RowsOk(Own(m, o)) && RestoredOk(Own(m, o))
  {
    match m.pc
    case Suspend =>
      SuspendRowsOk(m, o);
      SuspendRestored(m, o);
    case Restore(_) => RestoreStepRows(m, o);
    case _ =>
      OtherRows(m, o);
      SameRows(m, Own(m, o));
      OtherRestored(m, o);
  }

  lemma SuspendRestored(m: Machine, o: Outcome)
    requires PcOk(m) && m.pc.Suspend?
    ensures RestoredOk(SuspendStep(m, o))
  {
  }

  lemma {:induction false} RunKeeps(m: Machine, evs: seq<Event>)
    requires Inv(m)
    ensures Inv(Run(m, evs))
  {
    if evs != [] {
      RunKeeps(m, evs[..|evs| - 1]);
      StepKeeps(Run(m, evs[..|evs| - 1]), evs[|evs| - 1]);
    }
  }

  lemma StepKeeps(m: Machine, e: Event)
    requires Inv(m)
    ensures Inv(Step(m, e))
  {
    if Possible(m, e) {
      match e
      case Ours(o) => OursOk(m, o);
      case Theirs(st) => TheirsOk(m, st);
    }
  }

  lemma StartOk(st: Store, shared: bool, id: Token)
    requires Unknown(st, id)
    ensures Inv(Start(st, shared, id))
  {
    forall k | k in st.schedules ensures RowOk(Start(st, shared, id), k) {
    }
  }

  // ----- Safety of every run -----

  /** Some run with some interference leads here. */
  ghost predicate Reachable(m: Machine) {
    exists st: Store, evs: seq<Event> :: Unknown(st, m.id) && m == Run(Start(st, m.shared, m.id), evs)
  }

  lemma ReachableKeeps(m: Machine)
    requires Reachable(m)
    ensures Inv(m)
  {
    var st: Store, evs: seq<Event> :| Unknown(st, m.id) && m == Run(Start(st, m.shared, m.id), evs);
    StartOk(st, m.shared, m.id);
    RunKeeps(Start(st, m.shared, m.id), evs);
  }

  /** While the fence is about to be released, and after it was, every schedule suspended by
      this process is restored to what it was before, or the failure has been reported. */
  lemma RestoredBeforeRelease(m: Machine)
    requires Reachable(m)
    ensures m.pc.Release? || m.log.released || (m.pc.Done? && !m.userDeleted) ==>
      m.token.None? || m.log.restoreFailed || NoneSuspended(m.store.schedules, m.id)
    ensures forall k :: k in m.log.restored ==>
      k in m.log.orig && m.log.restored[k] == RestoreRow(m.log.orig[k])
    ensures forall k :: k in m.log.restored && m.log.orig[k].suspension.None? ==> m.log.restored[k] == m.log.orig[k]
  {
    ReachableKeeps(m);
  }

  lemma SameIdStep(m: Machine, o: Outcome)
    ensures FreshOwn(m, o).id == m.id
  {
    if !m.pc.Suspend? && !m.pc.Restore? {
      OtherRows(m, o);
    }
  }

  /** What one own step may do to the fence of a living user: it stays, or this process takes
      over a stale one the operator confirmed as abandoned, or it releases the one it wrote
      itself, or the user is deleted with it. */
  lemma ForeignFenceIsNeverReleased(m: Machine, o: Outcome)
    requires Reachable(m) && FreshStamp(m, o) && m.store.user && m.store.fence.Some?
    ensures var m' := Own(m, o);
      || m'.store.fence == m.store.fence
      || !m'.store.user
      || (m.pc.Recover? && m.offline && m.store.fence.value <= o.now - USER_DELETION_FENCE_STALE_MS
          && m'.store.fence == Some(o.now))
      || (m.pc.Release? && !m.userDeleted && m.store.fence == m.log.mine && m'.store.fence.None?)
  {
    ReachableKeeps(m);
    if m.pc.Restore? {
      RestoreLeavesFence(m, o);
    } else if Erasing(m.pc) {
      ErasingLeavesFence(m, o);
    } else if Opening(m.pc) {
      OpeningLeavesFence(m, o);
    } else {
      RestLeavesFence(m, o);
    }
  }

  lemma OpeningLeavesFence(m: Machine, o: Outcome)
    requires PcOk(m) && Opening(m.pc) && m.store.user && m.store.fence.Some?
    ensures var m' := Own(m, o);
      m'.store == m.store
      || (m.pc.Recover? && m.offline && m.store.fence.value <= o.now - USER_DELETION_FENCE_STALE_MS
          && m'.store.fence == Some(o.now))
  {
  }

  lemma RestLeavesFence(m: Machine, o: Outcome)
    requires PcOk(m) && FenceOk(m) && !Opening(m.pc) && !Erasing(m.pc) && !m.pc.Restore?
    requires m.store.user && m.store.fence.Some?
    ensures var m' := Own(m, o);
      m'.store.fence == m.store.fence
      || (m.pc.Release? && !m.userDeleted && m.store.fence == m.log.mine && m'.store.fence.None?)
  {
  }

  lemma RestoreLeavesFence(m: Machine, o: Outcome)
    requires m.pc.Restore?
    ensures Own(m, o).store.fence == m.store.fence && Own(m, o).store.user == m.store.user
  {
  }

  lemma ErasingLeavesFence(m: Machine, o: Outcome)
    requires Erasing(m.pc)
    ensures Own(m, o).store.fence == m.store.fence || !Own(m, o).store.user
  {
  }

  /** Without that assumption on the clock: when the first write fails before taking effect,
      the cleanup releases the other process's fence if and only if it bears the same
      millisecond. */
  lemma FailedBeginReleasesIff(
    st: Store, shared: bool, id: Token, failed: Outcome, disarmed: Outcome, released: Outcome)
    requires st.user && st.fence.Some? && !failed.ok && released.ok
    ensures var m1 := Own(Start(st, shared, id), failed);
      var m2 := Own(m1, disarmed);
      var m3 := Own(m2, released);
      m3.pc == Done && (m3.store.fence.None? <==> st.fence == Some(failed.now))
  {
  }

  /** When a run ends and the fence this process wrote still stands, the release failed and was
      reported, or a recovery took effect whose answer was lost. */
  lemma FenceIsReleasedUnless(m: Machine)
    requires Reachable(m) && m.pc.Done? && OwnsFence(m.store, m.log.mine)
    ensures m.log.lostRecovery || m.log.releaseFailed
  {
    ReachableKeeps(m);
  }

  /** A recovery ends with its own fence left behind if and only if it replaced the stale fence
      and then failed: the variable the cleanup looks at is assigned only afterwards. */
  lemma RecoveryLeaksIff(m: Machine, o: Outcome)
    requires Reachable(m) && m.pc.Recover?
    ensures var m' := Own(m, o);
      m'.pc.Done? && OwnsFence(m'.store, m'.log.mine) <==> !o.ok && o.steps >= 1 && CanRecover(m.store, o.now)
  {
    ReachableKeeps(m);
  }

  /** The purge is disarmed and the admissions reopened before the fence is released, unless
      that failed and was reported. */
  lemma DisarmedBeforeRelease(m: Machine)
    requires Reachable(m) && m.pc.Release? && OwnsFence(m.store, m.fence) && !m.log.disarmFailed
    ensures m.store.purge != m.fence && NoneClosed(m.store.deliveries, m.fence)
  {
    ReachableKeeps(m);
  }

  /** After the user is deleted no compensation runs any more, in any run and whatever other
      processes do. */
  lemma CommitIsFinal(m: Machine, evs: seq<Event>)
    requires Reachable(m) && m.userDeleted
    ensures var m' := Run(m, evs);
      && m'.userDeleted && !m'.store.user && (AfterCommit(m'.pc) || m'.pc.Done?)
      && NothingCompensated(m, m')
  {
    ReachableKeeps(m);
    CommittedRun(m, evs);
  }

  /** Between the two nothing was restored, disarmed or released, nor tried and reported. */
  predicate NothingCompensated(m: Machine, m': Machine) {
    && m'.log.restored == m.log.restored && m'.log.released == m.log.released
    && m'.log.restoreFailed == m.log.restoreFailed && m'.log.disarmFailed == m.log.disarmFailed
    && m'.log.releaseFailed == m.log.releaseFailed
  }

  lemma {:induction false} CommittedRun(m: Machine, evs: seq<Event>)
    requires Inv(m) && m.userDeleted
    ensures var m' := Run(m, evs);
      && Inv(m') && m'.userDeleted && !m'.store.user && (AfterCommit(m'.pc) || m'.pc.Done?)
      && NothingCompensated(m, m')
  {
    if evs != [] {
      var front := Run(m, evs[..|evs| - 1]);
      CommittedRun(m, evs[..|evs| - 1]);
      StepKeeps(front, evs[|evs| - 1]);
      CommittedStep(front, evs[|evs| - 1]);
    }
  }

  lemma CommittedStep(m: Machine, e: Event)
    requires m.userDeleted && (AfterCommit(m.pc) || m.pc.Done?)
    ensures Step(m, e).userDeleted && NothingCompensated(m, Step(m, e))
  {
    if e.Ours? {
      AfterCommitKeepsLog(m, e.o);
      OwnAfterCommit(m, e.o);
    }
  }

  lemma AfterCommitKeepsLog(m: Machine, o: Outcome)
    ensures forall m' :: m' in {RevokeStep(m, o), EraseEnvironmentsStep(m, o), EraseDeliveriesStep(m, o)} ==>
      m'.userDeleted == m.userDeleted && NothingCompensated(m, m')
  {
  }

  lemma OwnAfterCommit(m: Machine, o: Outcome)
    ensures m.pc.Revoke? ==> Own(m, o) == RevokeStep(m, o)
    ensures m.pc.EraseEnvironments? ==> Own(m, o) == EraseEnvironmentsStep(m, o)
    ensures m.pc.EraseDeliveries? ==> Own(m, o) == EraseDeliveriesStep(m, o)
    ensures m.pc.Done? ==> Own(m, o) == m
  {
  }

  /** What this process still writes then: neither user, fence, schedules nor data, but the
      records of the environments, once their workers were revoked, and then the deliveries and
      the purge marker, which goes last. */
  lemma CommittedWritesOnly(m: Machine, o: Outcome)
    requires Reachable(m) && m.userDeleted
    ensures var st, st' := m.store, Own(m, o).store;
      && st' == st.(environments := st'.environments, deliveries := st'.deliveries, purge := st'.purge)
      && (st'.environments != st.environments ==> m.log.revoked && m.pc.EraseEnvironments?)
      && (st'.deliveries != st.deliveries || st'.purge != st.purge ==> m.pc.EraseDeliveries?)
      && (st'.purge != st.purge ==> st'.purge.None? && st'.deliveries == map[])
  {
    ReachableKeeps(m);
  }

  lemma UserGoneStaysInert(m: Machine, o: Outcome)
    requires !m.store.user && (m.pc.Disarm? || m.pc.Release? || m.pc.Restore?)
    ensures Own(m, o).store == m.store.(schedules := Own(m, o).store.schedules)
    ensures !m.pc.Restore? ==> Own(m, o).store == m.store
  {
  }

  /** With the shared store this process erases data of an account only after it acquired the
      fence and a count of its active deliveries came back zero; when it erases without a zero
      count the user document is already gone. */
  lemma DrainedBeforeErasing(m: Machine)
    requires Reachable(m) && m.log.erased && m.shared
    ensures m.log.sawZero <==> m.log.mine.Some?
    ensures !m.log.sawZero ==> !m.store.user
  {
    ReachableKeeps(m);
  }

  /** The drain goes on exactly while a delivery is active and the time since the suspension is
      not up; only with no active delivery the deletion proceeds, and otherwise it is undone. */
  lemma DrainWaitsIff(m: Machine, o: Outcome)
    requires Reachable(m) && m.pc.Drain? && o.ok
    ensures Own(m, o) == m <==> !NoneActive(m.store.deliveries) && o.now < m.log.suspendedAt + TRIGGER_DRAIN_TIMEOUT_MS
    ensures Own(m, o).pc.Abort? <==> NoneActive(m.store.deliveries)
    ensures Own(m, o) == m || Own(m, o).pc == Abort || Own(m, o).pc == Restore(1)
  {
    ReachableKeeps(m);
  }

  /** The exception happens: with the user gone the erasures run without suspending or draining. */
  lemma MissingUserErasesUndrained(st: Store, id: Token, o: Outcome)
    requires !st.user && o.ok
    ensures var m := Own(Own(Own(Own(Own(Start(st, true, id), o), o), o), o), o);
      m.log.missing && m.log.erased && !m.log.sawZero && m.store.data == {}
  {
  }

  // ----- A run nobody interferes with -----

  function Alone(m: Machine, script: seq<Outcome>): Machine {
    if script == [] then m else Own(Alone(m, script[..|script| - 1]), script[|script| - 1])
  }

  /** The same, on a clock that never shows a time another process wrote into the fence. */
  function Undisturbed(m: Machine, script: seq<Outcome>): Machine {
    if script == [] then m
    else FreshOwn(Undisturbed(m, script[..|script| - 1]), script[|script| - 1])
  }

  function FreshOwn(m: Machine, o: Outcome): Machine {
    if FreshStamp(m, o) then Own(m, o) else m
  }

  predicate Emptied(pc: Pc) {
    pc.EraseSchedules? || pc.LeaveGroups? || pc.Commit?
  }

  predicate AloneOk(m: Machine) {
    && (Emptied(m.pc) || m.userDeleted ==> m.store.data == {})
    && (m.pc.LeaveGroups? || m.pc.Commit? || m.userDeleted ==> m.store.schedules == map[])
    && (Fenced(m.pc) ==> OwnsFence(m.store, m.fence))
    && (Erasing(m.pc) && !m.log.missing ==> OwnsFence(m.store, m.fence))
    && (Erasing(m.pc) && !m.log.missing && m.shared ==> NoneActive(m.store.deliveries))
    && (m.pc.Suspend? || m.pc.Drain? || (Erasing(m.pc) && !m.log.missing) || AfterCommit(m.pc) || m.log.lostCommit ==>
          m.store.purge.Some? && m.store.purge == m.log.mine)
    && (m.userDeleted ==> (m.store.purge.Some? && m.store.purge == m.log.mine) || Cleared(m.store))
    && (m.userDeleted && m.pc.Done? && !m.threw ==> Cleared(m.store))
    && (m.log.lostCommit ==> !m.store.user && !m.userDeleted)
  }

  predicate Cleared(st: Store) {
    st.purge.None? && st.deliveries == map[]
  }

  lemma BeginAlone(m: Machine, o: Outcome)
    requires Inv(m) && AloneOk(m) && m.pc.Begin? && FreshStamp(m, o)
    ensures AloneOk(BeginStep(m, o))
  {
  }

  lemma BeginCheckAlone(m: Machine, o: Outcome)
    requires Inv(m) && AloneOk(m) && m.pc.BeginCheck?
    ensures AloneOk(BeginCheckStep(m, o))
  {
  }

  lemma RecoverAlone(m: Machine, o: Outcome)
    requires Inv(m) && AloneOk(m) && m.pc.Recover?
    ensures AloneOk(RecoverStep(m, o))
  {
  }

  lemma ArmAlone(m: Machine, o: Outcome)
    requires Inv(m) && AloneOk(m) && m.pc.Arm?
    ensures AloneOk(ArmStep(m, o))
  {
  }

  lemma SuspendAlone(m: Machine, o: Outcome)
    requires Inv(m) && AloneOk(m) && m.pc.Suspend?
    ensures AloneOk(SuspendStep(m, o))
  {
  }

  lemma QuietAlone(m: Machine, o: Outcome)
    requires Inv(m) && AloneOk(m) && (m.pc.Confirm? || m.pc.RecoverCheck? || m.pc.Drain?)
    ensures AloneOk(Own(m, o))
  {
  }

  lemma EarlyAlone(m: Machine, o: Outcome)
    requires Inv(m) && AloneOk(m) && FreshStamp(m, o) && (Opening(m.pc) || Fenced(m.pc))
    ensures AloneOk(Own(m, o))
  {
    match m.pc
    case Begin => BeginAlone(m, o);
    case BeginCheck => BeginCheckAlone(m, o);
    case Recover => RecoverAlone(m, o);
    case Arm => ArmAlone(m, o);
    case Suspend => SuspendAlone(m, o);
    case Confirm => QuietAlone(m, o);
    case RecoverCheck => QuietAlone(m, o);
    case Drain => QuietAlone(m, o);
  }

  lemma ErasuresAlone(m: Machine, o: Outcome)
    requires Inv(m) && AloneOk(m)
    ensures m.pc.Erase? ==> AloneOk(EraseStep(m, o))
    ensures m.pc.EraseSchedules? ==> AloneOk(EraseSchedulesStep(m, o))
  {
  }

  lemma CommitAlone(m: Machine, o: Outcome)
    requires Inv(m) && AloneOk(m) && m.pc.Commit?
    ensures AloneOk(CommitStep(m, o))
  {
  }

  lemma PassingAlone(m: Machine, o: Outcome, next: Pc)
    requires Inv(m) && AloneOk(m)
    requires match m.pc
      case Abort => next == Configure
      case Configure => next == Erase
      case LeaveGroups => next == Commit
      case _ => false
    ensures AloneOk(Proceed(m, o, next))
  {
  }

  lemma ErasingAlone(m: Machine, o: Outcome)
    requires Inv(m) && AloneOk(m) && Erasing(m.pc)
    ensures AloneOk(Own(m, o))
  {
    match m.pc
    case Erase => ErasuresAlone(m, o);
    case EraseSchedules => ErasuresAlone(m, o);
    case Commit => CommitAlone(m, o);
    case Abort => PassingAlone(m, o, Configure);
    case Configure => PassingAlone(m, o, Erase);
    case LeaveGroups => PassingAlone(m, o, Commit);
  }

  lemma AfterCommitAlone(m: Machine, o: Outcome)
    requires Inv(m) && AloneOk(m)
    ensures m.pc.Revoke? ==> AloneOk(RevokeStep(m, o))
    ensures m.pc.EraseEnvironments? ==> AloneOk(EraseEnvironmentsStep(m, o))
    ensures m.pc.EraseDeliveries? ==> AloneOk(EraseDeliveriesStep(m, o))
  {
  }

  lemma ReleasingAlone(m: Machine, o: Outcome)
    requires Inv(m) && AloneOk(m)
    ensures m.pc.Disarm? ==> AloneOk(DisarmStep(m, o))
    ensures m.pc.Release? ==> AloneOk(ReleaseStep(m, o))
  {
  }

  lemma EndingAlone(m: Machine, o: Outcome)
    requires Inv(m) && AloneOk(m) && (AfterCommit(m.pc) || m.pc.Disarm? || m.pc.Release? || m.pc.Done?)
    ensures AloneOk(Own(m, o))
  {
    if AfterCommit(m.pc) {
      AfterCommitAlone(m, o);
      OwnAfterCommit(m, o);
    } else {
      ReleasingAlone(m, o);
    }
  }

  lemma RowsKeepAlone(m: Machine, rows: Schedules)
    requires AloneOk(m) && m.pc.Restore? && !m.userDeleted
    ensures AloneOk(WithRows(m, rows))
  {
    var m' := WithRows(m, rows);
    assert m' == m.(store := m'.store, log := m.log.(restored := m'.log.restored));
    assert m'.store == m.store.(schedules := rows);
  }

  lemma RestoreEndsAlone(m: Machine, k: nat, ok: bool)
    requires AloneOk(m) && m.pc == Restore(k) && !m.userDeleted
    ensures AloneOk(RestoreEnds(m, k, ok))
  {
  }

  lemma RestoringAlone(m: Machine, o: Outcome)
    requires Inv(m) && AloneOk(m) && m.pc.Restore?
    ensures AloneOk(RestoreStep(m, m.pc.attempt, o))
  {
    var rows := RestoreOnce(m.store.schedules, m.id, Attempt(o.ok, o.rows));
    RowsKeepAlone(m, rows);
    RestoreEndsAlone(WithRows(m, rows), m.pc.attempt, o.ok);
  }

  /** Some undisturbed run leads from `st` here. */
  ghost predicate ReachableAlone(st: Store, m: Machine) {
    exists script: seq<Outcome> :: m == Undisturbed(Start(st, m.shared, m.id), script)
  }

  /** What the program computes on a script of outcomes is such a run, if the clock behaves. */
  lemma {:induction false} AloneIsUndisturbed(m: Machine, script: seq<Outcome>)
    requires forall i :: 0 <= i < |script| ==> FreshStamp(Alone(m, script[..i]), script[i])
    ensures Alone(m, script) == Undisturbed(m, script)
  {
    if script != [] {
      var front := script[..|script| - 1];
      forall i | 0 <= i < |front| ensures FreshStamp(Alone(m, front[..i]), front[i]) {
        assert front[..i] == script[..i];
      }
      AloneIsUndisturbed(m, front);
    }
  }

  lemma {:induction false} AloneKeeps(m: Machine, script: seq<Outcome>)
    requires Inv(m) && AloneOk(m)
    ensures Inv(Undisturbed(m, script)) && AloneOk(Undisturbed(m, script))
  {
    if script != [] {
      AloneKeeps(m, script[..|script| - 1]);
      OneAlone(Undisturbed(m, script[..|script| - 1]), script[|script| - 1]);
    }
  }

  lemma OneAlone(m: Machine, o: Outcome)
    requires Inv(m) && AloneOk(m)
    ensures Inv(FreshOwn(m, o)) && AloneOk(FreshOwn(m, o))
  {
    if FreshStamp(m, o) {
      OursOk(m, o);
      OwnAlone(m, o);
    }
  }

  lemma OwnAlone(m: Machine, o: Outcome)
    requires Inv(m) && AloneOk(m) && FreshStamp(m, o)
    ensures AloneOk(Own(m, o))
  {
    if Opening(m.pc) || Fenced(m.pc) {
      EarlyAlone(m, o);
    } else if Erasing(m.pc) {
      ErasingAlone(m, o);
    } else if m.pc.Restore? {
      RestoringAlone(m, o);
    } else {
      EndingAlone(m, o);
    }
  }

  lemma ReachableAloneKeeps(st: Store, m: Machine)
    requires Unknown(st, m.id) && ReachableAlone(st, m)
    ensures Inv(m) && AloneOk(m)
  {
    var script: seq<Outcome> :| m == Undisturbed(Start(st, m.shared, m.id), script);
    StartOk(st, m.shared, m.id);
    AloneKeeps(Start(st, m.shared, m.id), script);
  }

  /** Alone, a committed deletion leaves no user, no data and no schedules. The purge of the
      deliveries stays armed until all of them are gone; when nothing failed after the commit
      neither a delivery nor the marker is left, and when something failed the marker is still
      armed or everything was already cleared. */
  lemma CommitMeansEverythingGone(st: Store, m: Machine)
    requires Unknown(st, m.id) && ReachableAlone(st, m) && m.userDeleted
    ensures !m.store.user && m.store.data == {} && m.store.schedules == map[]
    ensures m.pc.Done? && !m.threw ==> Cleared(m.store)
    ensures m.store.purge.None? ==> m.store.deliveries == map[]
    ensures m.store.purge.Some? ==> m.store.purge == m.log.mine && (m.pc.Done? ==> m.threw)
  {
    ReachableAloneKeeps(st, m);
  }

  /** Alone, when the last step fails the marker stays armed if and only if its own deletion had
      not landed yet. */
  lemma FailedAftercareStaysArmedIff(st: Store, m: Machine, o: Outcome)
    requires Unknown(st, m.id) && ReachableAlone(st, m) && m.pc.EraseDeliveries? && !o.ok
    ensures var m' := Own(m, o);
      && m'.pc.Done? && m'.threw && m'.userDeleted
      && (m'.store.purge.Some? <==> o.steps < 2)
      && (m'.store.purge.Some? ==> m'.store.purge == m.log.mine)
  {
    ReachableAloneKeeps(st, m);
  }

  /** Alone, when the user was deleted but the answer was lost, the compensations run and leave
      the purge armed, so that it can be finished. */
  lemma LostCommitKeepsThePurge(st: Store, m: Machine)
    requires Unknown(st, m.id) && ReachableAlone(st, m) && m.log.lostCommit
    ensures !m.store.user && !m.userDeleted && m.store.purge.Some? && m.store.purge == m.log.mine
  {
    ReachableAloneKeeps(st, m);
  }

  /** Alone and with the shared store, no delivery is active while the data of an account this
      process had fenced is erased. */
  lemma NothingActiveWhileErasing(st: Store, m: Machine)
    requires Unknown(st, m.id) && ReachableAlone(st, m) && m.shared
    requires m.pc.Erase? && m.log.mine.Some?
    ensures NoneActive(m.store.deliveries)
  {
    ReachableAloneKeeps(st, m);
  }

  predicate RowTrace(before: Schedule, row: Schedule, id: Token, suspended: bool) {
    || row == before
    || (suspended && Suspendable(before, id) && (row == SuspendRow(before, id) || row == RestoreRow(before)))
  }

  predicate RowsTrace(m: Machine, st: Store) {
    && m.store.schedules.Keys == st.schedules.Keys
    && (forall k :: k in st.schedules ==> RowTrace(st.schedules[k], m.store.schedules[k], m.id, m.token.Some?))
  }

  predicate DeliveryTrace(before: Delivery, row: Delivery, stamp: Option<Time>) {
    row == before || row == before.(closedAt := None) || row == before.(closedAt := stamp)
  }

  predicate DeliveriesTrace(before: Deliveries, after: Deliveries, stamp: Option<Time>) {
    after.Keys == before.Keys && forall d :: d in before ==> DeliveryTrace(before[d], after[d], stamp)
  }

  /** Before the first erasure everything this process wrote is its own to take back. */
  predicate Reversible(m: Machine, st: Store) {
    && m.store.user == st.user && !m.userDeleted && m.store.data == st.data && m.store.environments == st.environments
    && !AfterCommit(m.pc) && !Emptied(m.pc) && !m.log.lostCommit
    && (m.log.mine.None? ==>
          && !OwnsFence(m.store, m.fence) && !m.log.lostRecovery
          && m.store.fence == st.fence && m.store.purge == st.purge && m.store.deliveries == st.deliveries)
    && (m.log.mine.Some? ==> st.user && (m.log.lostRecovery || m.fence == m.log.mine))
    && (m.log.lostRecovery ==> m.pc.Done?)
    && (m.log.mine.Some? && !m.pc.Done? ==> m.store.fence == m.log.mine)
    && (m.log.mine.Some? && m.pc.Done? && !m.log.lostRecovery && !m.log.releaseFailed ==> m.store.fence.None?)
    && (m.store.purge == st.purge || m.store.purge == m.log.mine || m.store.purge.None?)
    && DeliveriesTrace(st.deliveries, m.store.deliveries, m.log.mine)
    && ((m.pc.Release? || m.pc.Done?) && !m.log.lostRecovery && !m.log.disarmFailed ==>
          && (m.store.purge == st.purge || m.store.purge.None?)
          && DeliveriesTrace(st.deliveries, m.store.deliveries, None))
  }

  predicate Trace(m: Machine, st: Store) {
    !m.log.erased ==> Reversible(m, st) && RowsTrace(m, st)
  }

  lemma BeginReversible(m: Machine, st: Store, o: Outcome)
    requires PcOk(m) && Reversible(m, st) && m.pc.Begin? && FreshStamp(m, o)
    ensures Reversible(BeginStep(m, o), st)
  {
  }

  lemma BeginCheckReversible(m: Machine, st: Store, o: Outcome)
    requires PcOk(m) && Reversible(m, st) && m.pc.BeginCheck?
    ensures Reversible(BeginCheckStep(m, o), st)
  {
  }

  lemma RecoverReversible(m: Machine, st: Store, o: Outcome)
    requires PcOk(m) && Reversible(m, st) && m.pc.Recover?
    ensures Reversible(RecoverStep(m, o), st)
  {
  }

  lemma ArmReversible(m: Machine, st: Store, o: Outcome)
    requires PcOk(m) && Reversible(m, st) && m.pc.Arm?
    ensures Reversible(ArmStep(m, o), st)
  {
  }

  lemma DisarmReversible(m: Machine, st: Store, o: Outcome)
    requires PcOk(m) && Reversible(m, st) && m.pc.Disarm?
    ensures Reversible(DisarmStep(m, o), st)
  {
  }

  lemma ReleaseReversible(m: Machine, st: Store, o: Outcome)
    requires PcOk(m) && Reversible(m, st) && m.pc.Release?
    ensures Reversible(ReleaseStep(m, o), st)
  {
  }

  lemma SuspendReversible(m: Machine, st: Store, o: Outcome)
    requires PcOk(m) && Reversible(m, st) && m.pc.Suspend?
    ensures Reversible(SuspendStep(m, o), st)
  {
  }

  lemma MiddleReversible(m: Machine, st: Store, o: Outcome)
    requires PcOk(m) && Reversible(m, st)
    requires m.pc.Confirm? || m.pc.RecoverCheck? || m.pc.Drain? || m.pc.Abort? || m.pc.Configure? || m.pc.Done?
    ensures Reversible(Own(m, o), st)
  {
  }

  lemma RestoreReversible(m: Machine, st: Store, o: Outcome)
    requires PcOk(m) && Reversible(m, st) && m.pc.Restore?
    ensures Reversible(RestoreStep(m, m.pc.attempt, o), st)
  {
    var rows := RestoreOnce(m.store.schedules, m.id, Attempt(o.ok, o.rows));
    var m1 := WithRows(m, rows);
    assert m1.store == m.store.(schedules := rows);
    assert m1 == m.(store := m1.store, log := m.log.(restored := m1.log.restored));
    EndsReversible(m1, st, m.pc.attempt, o.ok);
  }

  lemma EndsReversible(m: Machine, st: Store, k: nat, ok: bool)
    requires Reversible(m, st) && m.pc == Restore(k) && (m.token.Some? ==> m.token == Some(m.id))
    ensures Reversible(RestoreEnds(m, k, ok), st)
  {
  }

  lemma SuspendTrace(m: Machine, st: Store, o: Outcome)
    requires RowsTrace(m, st) && m.pc.Suspend? && m.token.None?
    ensures RowsTrace(SuspendStep(m, o), st)
  {
    var m' := SuspendStep(m, o);
    forall k | k in st.schedules ensures RowTrace(st.schedules[k], m'.store.schedules[k], m.id, true) {
      assert RowTrace(st.schedules[k], m.store.schedules[k], m.id, false);
    }
  }

  lemma RowsRestored(m: Machine, st: Store, rows: Schedules, a: Attempt)
    requires RowsTrace(m, st) && m.token.Some? && Unknown(st, m.id)
    requires rows == RestoreOnce(m.store.schedules, m.id, a)
    ensures RowsTrace(WithRows(m, rows), st)
  {
    forall k | k in st.schedules ensures RowTrace(st.schedules[k], rows[k], m.id, true) {
      assert RowTrace(st.schedules[k], m.store.schedules[k], m.id, true);
    }
  }

  lemma RestoreTrace(m: Machine, st: Store, o: Outcome)
    requires RowsTrace(m, st) && m.pc.Restore? && m.token.Some? && Unknown(st, m.id)
    ensures RowsTrace(RestoreStep(m, m.pc.attempt, o), st)
  {
    var a := Attempt(o.ok, o.rows);
    var rows := RestoreOnce(m.store.schedules, m.id, a);
    RowsRestored(m, st, rows, a);
    var m1, m' := WithRows(m, rows), RestoreStep(m, m.pc.attempt, o);
    assert m'.store == m1.store && m'.id == m1.id && m'.token == m1.token;
  }

  lemma RowsStay(m: Machine, st: Store, o: Outcome)
    requires RowsTrace(m, st) && (Opening(m.pc) || m.pc.Arm? || Middle(m.pc))
    ensures RowsTrace(Own(m, o), st)
  {
    SchedulesStay(m, o);
    var m' := Own(m, o);
    forall k | k in st.schedules ensures RowTrace(st.schedules[k], m'.store.schedules[k], m'.id, m'.token.Some?) {
      assert RowTrace(st.schedules[k], m.store.schedules[k], m.id, m.token.Some?);
    }
  }

  predicate Middle(pc: Pc) {
    pc.Drain? || pc.Abort? || pc.Configure? || pc.Disarm? || pc.Release? || pc.Done?
  }

  predicate SameSchedules(m: Machine, m': Machine) {
    m'.store.schedules == m.store.schedules && m'.id == m.id && m'.token == m.token
  }

  lemma OpeningKeepsSchedules(m: Machine, o: Outcome)
    ensures SameSchedules(m, BeginStep(m, o)) && SameSchedules(m, BeginCheckStep(m, o))
    ensures SameSchedules(m, ConfirmStep(m, o)) && SameSchedules(m, Throw(m))
  {
  }

  lemma RecoverKeepsSchedules(m: Machine, o: Outcome)
    ensures SameSchedules(m, RecoverStep(m, o))
  {
  }

  lemma MiddleKeepsSchedules(m: Machine, o: Outcome, next: Pc)
    ensures SameSchedules(m, DrainStep(m, o)) && SameSchedules(m, Proceed(m, o, next))
  {
  }

  lemma PurgeKeepsSchedules(m: Machine, o: Outcome)
    ensures SameSchedules(m, ArmStep(m, o)) && SameSchedules(m, DisarmStep(m, o)) && SameSchedules(m, ReleaseStep(m, o))
  {
  }

  lemma SchedulesStay(m: Machine, o: Outcome)
    requires Opening(m.pc) || m.pc.Arm? || Middle(m.pc)
    ensures SameSchedules(m, Own(m, o))
  {
    if Opening(m.pc) {
      OpeningKeepsSchedules(m, o);
      RecoverKeepsSchedules(m, o);
    } else {
      MiddleKeepsSchedules(m, o, if m.pc.Abort? then Configure else Erase);
      PurgeKeepsSchedules(m, o);
    }
  }

  lemma ErasedStays(m: Machine, o: Outcome)
    ensures m.log.erased || m.pc.Erase? ==> Own(m, o).log.erased
  {
    if !m.pc.Suspend? && !m.pc.Restore? {
      OtherRows(m, o);
    }
  }

  lemma TraceStep(m: Machine, st: Store, o: Outcome)
    requires Inv(m) && Trace(m, st) && Unknown(st, m.id) && FreshStamp(m, o)
    ensures Trace(Own(m, o), st)
  {
    ErasedStays(m, o);
    if !Own(m, o).log.erased {
      match m.pc
      case Suspend =>
        SuspendReversible(m, st, o);
        SuspendTrace(m, st, o);
      case Restore(_) =>
        RestoreReversible(m, st, o);
        RestoreTrace(m, st, o);
      case _ =>
        RowsStay(m, st, o);
        RestReversible(m, st, o);
    }
  }

  lemma RestReversible(m: Machine, st: Store, o: Outcome)
    requires PcOk(m) && Reversible(m, st) && FreshStamp(m, o)
    requires !m.pc.Suspend? && !m.pc.Restore? && !m.pc.Erase?
    ensures Reversible(Own(m, o), st)
  {
    match m.pc
    case Begin => BeginReversible(m, st, o);
    case BeginCheck => BeginCheckReversible(m, st, o);
    case Recover => RecoverReversible(m, st, o);
    case Arm => ArmReversible(m, st, o);
    case Disarm => DisarmReversible(m, st, o);
    case Release => ReleaseReversible(m, st, o);
    case _ => MiddleReversible(m, st, o);
  }

  lemma {:induction false} AloneId(m: Machine, script: seq<Outcome>)
    ensures Undisturbed(m, script).id == m.id
  {
    if script != [] {
      AloneId(m, script[..|script| - 1]);
      SameIdStep(Undisturbed(m, script[..|script| - 1]), script[|script| - 1]);
    }
  }

  lemma StartTrace(st: Store, shared: bool, id: Token)
    ensures Trace(Start(st, shared, id), st)
  {
  }

  lemma OneTrace(m: Machine, st: Store, o: Outcome)
    requires Inv(m) && Trace(m, st) && Unknown(st, m.id)
    ensures Inv(FreshOwn(m, o)) && Trace(FreshOwn(m, o), st)
  {
    if FreshStamp(m, o) {
      OursOk(m, o);
      TraceStep(m, st, o);
    }
  }

  lemma {:induction false} TraceRun(st: Store, m: Machine, script: seq<Outcome>)
    requires Inv(m) && Trace(m, st) && Unknown(st, m.id)
    ensures Inv(Undisturbed(m, script)) && Trace(Undisturbed(m, script), st)
  {
    if script != [] {
      TraceRun(st, m, script[..|script| - 1]);
      AloneId(m, script[..|script| - 1]);
      OneTrace(Undisturbed(m, script[..|script| - 1]), st, script[|script| - 1]);
    }
  }

  /** Alone, a deletion that fails before the first erasure and whose compensations succeed
      leaves the account as it was: user, data, environments, and every schedule and delivery;
      its own fence, marker and closed admissions are gone. Two improvements may remain when an
      abandoned attempt had left its traces: a stale fence or an old marker can be gone, and what
      that attempt had suspended or closed can be restored or reopened. */
  lemma FailedDeletionLeavesNoTrace(st: Store, m: Machine)
    requires Unknown(st, m.id) && ReachableAlone(st, m) && m.pc.Done? && !m.log.erased
    requires !m.log.restoreFailed && !m.log.disarmFailed && !m.log.releaseFailed && !m.log.lostRecovery
    ensures m.store.user == st.user && m.store.data == st.data && m.store.environments == st.environments
    ensures m.store.fence == if m.log.mine.None? then st.fence else None
    ensures m.store.purge == st.purge || m.store.purge.None?
    ensures m.store.deliveries.Keys == st.deliveries.Keys
    ensures forall d :: d in st.deliveries ==>
      m.store.deliveries[d] == st.deliveries[d] || m.store.deliveries[d] == st.deliveries[d].(closedAt := None)
    ensures m.store.schedules.Keys == st.schedules.Keys
    ensures forall k :: k in st.schedules ==>
      m.store.schedules[k] == st.schedules[k] || m.store.schedules[k] == RestoreRow(st.schedules[k])
  {
    var script: seq<Outcome> :| m == Undisturbed(Start(st, m.shared, m.id), script);
    StartOk(st, m.shared, m.id);
    StartTrace(st, m.shared, m.id);
    TraceRun(st, Start(st, m.shared, m.id), script);
    forall k | k in st.schedules
      ensures m.store.schedules[k] == st.schedules[k] || m.store.schedules[k] == RestoreRow(st.schedules[k])
    {
      assert RowTrace(st.schedules[k], m.store.schedules[k], m.id, m.token.Some?);
    }
    forall d | d in st.deliveries
      ensures m.store.deliveries[d] == st.deliveries[d] || m.store.deliveries[d] == st.deliveries[d].(closedAt := None)
    {
      assert DeliveryTrace(st.deliveries[d], m.store.deliveries[d], None);
    }
  }

  /** Without traces of an abandoned attempt the account is exactly as it was. */
  lemma FailedDeletionRestoresExactly(st: Store, m: Machine)
    requires Unknown(st, m.id) && ReachableAlone(st, m) && m.pc.Done? && !m.log.erased
    requires !m.log.restoreFailed && !m.log.disarmFailed && !m.log.releaseFailed && !m.log.lostRecovery
    requires st.fence.None? && st.purge.None?
    requires forall d :: d in st.deliveries ==> st.deliveries[d].closedAt.None?
    requires forall k :: k in st.schedules ==> st.schedules[k].suspension.None?
    ensures m.store == st
  {
    FailedDeletionLeavesNoTrace(st, m);
    assert m.store.deliveries == st.deliveries && m.store.schedules == st.schedules;
  }

  // ----- The program -----

  /** What a poll of the drain loop answers: the active deliveries, and how long it took. */
  datatype Poll = Poll(active: nat, took: nat)

  /** The polling loop: it ends within the timeout, one pause and the last answer; drained exactly
      when the last count was zero; and it never gives up before the deadline. */
  method DrainDeliveries(answers: nat -> Poll, start: Time) returns (drained: bool, polls: nat, now: Time)
    ensures polls >= 1 && (forall i :: 0 <= i < polls - 1 ==> answers(i).active > 0)
    ensures drained <==> answers(polls - 1).active == 0
    ensures !drained ==> now >= start + TRIGGER_DRAIN_TIMEOUT_MS
    ensures now - answers(polls - 1).took < start + TRIGGER_DRAIN_TIMEOUT_MS + TRIGGER_DRAIN_POLL_MS
    ensures TRIGGER_DRAIN_POLL_MS * (polls - 1) < TRIGGER_DRAIN_TIMEOUT_MS + TRIGGER_DRAIN_POLL_MS
  {
    var deadline := start + TRIGGER_DRAIN_TIMEOUT_MS;
    var answer := answers(0);
    now, polls := start + answer.took, 1;
    while answer.active > 0
      invariant polls >= 1 && answer == answers(polls - 1)
      invariant forall i :: 0 <= i < polls - 1 ==> answers(i).active > 0
      invariant start + TRIGGER_DRAIN_POLL_MS * (polls - 1) <= now
      invariant polls > 1 ==> TRIGGER_DRAIN_POLL_MS * (polls - 2) < TRIGGER_DRAIN_TIMEOUT_MS
      invariant now - answer.took < deadline + TRIGGER_DRAIN_POLL_MS
      decreases TRIGGER_DRAIN_TIMEOUT_MS + TRIGGER_DRAIN_POLL_MS - TRIGGER_DRAIN_POLL_MS * (polls - 1)
    {
      if now >= deadline {
        return false, polls, now;
      }
      answer := answers(polls);
      now, polls := now + TRIGGER_DRAIN_POLL_MS + answer.took, polls + 1;
    }
    drained := true;
  }

  /** How a stretch of the program ends: it goes on, it threw, or the process was killed, which
      is where the script of outcomes ends. */
  datatype Flow = Next | Thrown | Killed

  lemma AloneSnoc(m: Machine, script: seq<Outcome>, n: nat)
    requires n < |script|
    ensures Alone(m, script[..n + 1]) == Own(Alone(m, script[..n]), script[n])
  {
    assert script[..n + 1][..n] == script[..n];
  }

  lemma {:induction false} DoneStays(m: Machine, script: seq<Outcome>, n: nat)
    requires n <= |script| && Alone(m, script[..n]).pc.Done?
    ensures Alone(m, script) == Alone(m, script[..n])
    decreases |script| - n
  {
    if n == |script| {
      assert script[..n] == script;
    } else {
      AloneSnoc(m, script, n);
      DoneStays(m, script, n + 1);
    }
  }

  /** The program in its own order: the statements of the `try`, then its `finally`. The variables
      are those of the source; where the machine stands (`pc`) and its history are ghosts. */
  class AccountDeletion {
    const shared: bool
    const id: Token
    const script: seq<Outcome>
    var pos: nat
    var store: Store
    var allProcessesStopped: bool
    var deletionFence: Option<Time>
    var scheduleSuspensionToken: Option<Token>
    var deadline: Time
    var userDeleted: bool
    ghost const origin: Machine
    ghost var pc: Pc
    ghost var threw: bool
    ghost var log: History

    ghost function View(): Machine
      reads this
    {
      Machine(store, pc, shared, allProcessesStopped, id, deletionFence, scheduleSuspensionToken,
              deadline, userDeleted, threw, log)
    }

    /** So far the program did what the machine does on the outcomes taken. */
    ghost predicate Valid()
      reads this
    {
      pos <= |script| && View() == Alone(origin, script[..pos])
    }

    constructor (store: Store, shared: bool, id: Token, script: seq<Outcome>)
      ensures Valid() && pos == 0 && View() == origin == Start(store, shared, id) && this.script == script
    {
      this.store, this.shared, this.id, this.script, pos := store, shared, id, script, 0;
      allProcessesStopped, deletionFence, scheduleSuspensionToken := !shared, None, None;
      deadline, userDeleted, origin := 0, false, Start(store, shared, id);
      pc, threw, log := Pc.Begin, false, NOTHING_YET;
    }

    /** The outcome of the next await, if the process lives to see it. */
    method Await() returns (o: Option<Outcome>)
      requires Valid()
      modifies this`pos
      ensures if o.None? then pos == old(pos) == |script|
              else pos == old(pos) + 1 && pos <= |script| && o.value == script[old(pos)]
    {
      if pos == |script| {
        return None;
      }
      o, pos := Some(script[pos]), pos + 1;
    }

    /** A step of the machine for the outcome just taken. */
    lemma Took(before: Machine, o: Outcome)
      requires 0 < pos <= |script| && o == script[pos - 1]
      requires before == Alone(origin, script[..pos - 1]) && View() == Own(before, o)
      ensures Valid()
    {
      AloneSnoc(origin, script, pos - 1);
    }

    ghost method Throws()
      modifies this`pc, this`threw
      ensures View() == Throw(old(View()))
    {
      pc, threw := Cleanup(View()), true;
    }

    // ----- The awaits -----

    method BeginUserDeletion(o: Outcome) returns (flow: Flow, acquired: bool)
      modifies this`deletionFence, this`store, this`pc, this`threw, this`log
      ensures View() == BeginStep(old(View()), o)
      ensures flow == (if o.ok then Next else Thrown) && (o.ok ==> (acquired <==> pc == Arm))
    {
      deletionFence := Some(o.now);
      acquired := CanBegin(store) && (o.ok || o.steps >= 1);
      log := log.(stamps := log.stamps + {o.now});
      if acquired {
        store, log := store.(fence := deletionFence), log.(mine := deletionFence);
      }
      if !o.ok {
        Throws();
        return Thrown, acquired;
      }
      pc := if acquired then Pc.Arm else BeginCheck;
      return Next, acquired;
    }

    method UserExists(o: Outcome) returns (flow: Flow, found: bool)
      modifies this`deletionFence, this`pc, this`threw, this`log
      ensures View() == BeginCheckStep(old(View()), o)
      ensures flow == (if o.ok then Next else Thrown) && found == store.user
    {
      found := store.user;
      if !o.ok {
        Throws();
        return Thrown, found;
      }
      deletionFence := None;
      if found {
        pc := if allProcessesStopped then Pc.Recover else Confirm;
      } else {
        pc, log := AfterDrain(View()), log.(missing := true);
      }
      flow := Next;
    }

    method ConfirmRecovery(o: Outcome) returns (flow: Flow)
      modifies this`allProcessesStopped, this`pc, this`threw
      ensures View() == ConfirmStep(old(View()), o)
      ensures flow == if o.ok && o.yes then Next else Thrown
    {
      if !(o.ok && o.yes) {
        Throws();
        return Thrown;
      }
      allProcessesStopped, pc := true, Pc.Recover;
      flow := Next;
    }

    /** `deletionFence` is assigned only once the answer is in. */
    method RecoverFence(o: Outcome) returns (flow: Flow, acquired: bool)
      modifies this`deletionFence, this`store, this`pc, this`threw, this`log
      ensures View() == RecoverStep(old(View()), o)
      ensures flow == (if o.ok then Next else Thrown) && (o.ok ==> (acquired <==> pc == Arm))
    {
      acquired := CanRecover(store, o.now) && (o.ok || o.steps >= 1);
      log := log.(lostRecovery := acquired && !o.ok);
      if acquired {
        store := store.(fence := Some(o.now));
        log := log.(mine := Some(o.now), stamps := log.stamps + {o.now});
      }
      if !o.ok {
        Throws();
        return Thrown, acquired;
      }
      if acquired {
        deletionFence, pc := Some(o.now), Pc.Arm;
      } else {
        pc := RecoverCheck;
      }
      flow := Next;
    }

    method PreparePurge(o: Outcome) returns (flow: Flow)
      modifies this`store, this`pc, this`threw
      ensures View() == ArmStep(old(View()), o)
      ensures flow == if o.ok && OwnsFence(old(store), deletionFence) then Next else Thrown
    {
      var owns := OwnsFence(store, deletionFence);
      store := ArmPurge(store, deletionFence, if o.ok then 2 else o.steps);
      if !o.ok || !owns {
        Throws();
        return Thrown;
      }
      pc := Pc.Suspend;
      flow := Next;
    }

    method SuspendSchedules(o: Outcome) returns (flow: Flow)
      modifies this`scheduleSuspensionToken, this`store, this`deadline, this`pc, this`threw, this`log
      ensures View() == SuspendStep(old(View()), o)
      ensures flow == if o.ok then Next else Thrown
    {
      scheduleSuspensionToken, log := Some(id), log.(orig := store.schedules, suspendedAt := o.now);
      store := store.(schedules := SuspendAll(store.schedules, id, if o.ok then store.schedules.Keys else o.rows));
      deadline := o.now + TRIGGER_DRAIN_TIMEOUT_MS;
      if !o.ok {
        Throws();
        return Thrown;
      }
      pc := if shared then Pc.Drain else Configure;
      flow := Next;
    }

    method CountActive(o: Outcome) returns (flow: Flow, drained: bool)
      requires pc == Pc.Drain
      modifies this`pc, this`threw, this`log
      ensures View() == DrainStep(old(View()), o)
      ensures flow == Next ==> (drained <==> pc == Abort) && (!drained ==> pc == old(pc))
      ensures flow == Thrown ==> View() == Throw(old(View()))
      ensures flow != Killed
    {
      drained := NoneActive(store.deliveries);
      if !o.ok || (!drained && o.now >= deadline) {
        Throws();
        return Thrown, drained;
      }
      if drained {
        pc, log := Abort, log.(sawZero := true);
      }
      flow := Next;
    }

    /** Awaits that write nothing here: aborting generations, reading the configuration, leaving
        the groups. */
    method Pass(o: Outcome, ghost next: Pc) returns (flow: Flow)
      modifies this`pc, this`threw
      ensures View() == Proceed(old(View()), o, next)
      ensures flow == if o.ok then Next else Thrown
    {
      if !o.ok {
        Throws();
        return Thrown;
      }
      pc := next;
      flow := Next;
    }

    method EraseData(o: Outcome) returns (flow: Flow)
      modifies this`store, this`pc, this`threw, this`log
      ensures View() == EraseStep(old(View()), o)
      ensures flow == if o.ok then Next else Thrown
    {
      store, log := store.(data := if o.ok then {} else store.data - o.collections), log.(erased := true);
      flow := Pass(o, EraseSchedules);
    }

    method DeleteSchedules(o: Outcome) returns (flow: Flow)
      modifies this`store, this`pc, this`threw
      ensures View() == EraseSchedulesStep(old(View()), o)
      ensures flow == if o.ok then Next else Thrown
    {
      store := store.(schedules := Minus(store.schedules, if o.ok then store.schedules.Keys else o.rows));
      flow := Pass(o, LeaveGroups);
    }

    method DeleteUserById(o: Outcome) returns (flow: Flow)
      modifies this`store, this`userDeleted, this`pc, this`threw, this`log
      ensures View() == CommitStep(old(View()), o)
      ensures flow == (if o.ok && old(store).user then Next else Thrown)
    {
      var deletes := store.user && (o.ok || o.steps >= 1);
      log := log.(lostCommit := deletes && !o.ok);
      if deletes {
        store := store.(user := false, fence := None);
      }
      if !o.ok || !deletes {
        Throws();
        return Thrown;
      }
      userDeleted, pc := true, Revoke;
      flow := Next;
    }

    method RevokeWorkers(o: Outcome) returns (safe: bool)
      modifies this`pc, this`log
      ensures View() == RevokeStep(old(View()), o) && safe == o.ok
    {
      safe := o.ok;
      pc := if safe then EraseEnvironments else EraseDeliveries;
      log := if safe then log.(revoked := true) else log;
    }

    method DeleteEnvironments(o: Outcome)
      modifies this`store, this`pc
      ensures View() == EraseEnvironmentsStep(old(View()), o)
    {
      store := store.(environments := if o.ok then {} else store.environments - o.rows);
      pc := EraseDeliveries;
    }

    method DeleteDeliveries(o: Outcome) returns (flow: Flow)
      modifies this`store, this`pc, this`threw
      ensures View() == EraseDeliveriesStep(old(View()), o)
      ensures flow == if o.ok then Next else Thrown
    {
      var gone := if o.ok || o.steps >= 1 then store.deliveries.Keys else o.rows;
      store := store.(deliveries := Without(store.deliveries, gone));
      if o.ok || o.steps >= 2 {
        store := store.(purge := None);
      }
      flow := Pass(o, Done);
    }

    /** One attempt; the program makes at most three and reports the failure of the last. */
    method RestoreSchedules(attempt: nat, o: Outcome) returns (restored: bool)
      modifies this`store, this`pc, this`log
      ensures View() == RestoreStep(old(View()), attempt, o) && restored == o.ok
    {
      var rows := RestoreOnce(store.schedules, id, Attempt(o.ok, o.rows));
      log := log.(restored := log.restored + Changed(store.schedules, rows));
      store := store.(schedules := rows);
      restored := o.ok;
      if !restored && attempt < RESTORE_ATTEMPTS {
        pc := Restore(attempt + 1);
      } else {
        log := if restored then log else log.(restoreFailed := true);
        pc := AfterRestore(View()).pc;
      }
    }

    method CancelPurge(o: Outcome)
      modifies this`store, this`pc, this`log
      ensures View() == DisarmStep(old(View()), o)
    {
      store := DisarmPurge(store, deletionFence, if o.ok then 2 else o.steps);
      pc, log := Pc.Release, log.(disarmFailed := !o.ok);
    }

    method CancelFence(o: Outcome)
      modifies this`store, this`pc, this`log
      ensures View() == ReleaseStep(old(View()), o)
    {
      ghost var before := store;
      if o.ok || o.steps >= 1 {
        store := ReleaseFence(store, deletionFence);
      }
      pc, log := Done, log.(released := store != before, releaseFailed := !o.ok);
    }

    // ----- The statements of the `try` -----

    /** What every stretch keeps and how it may end. */
    ghost predicate Ends(flow: Flow)
      reads this
    {
      && Valid()
      && (flow == Killed ==> pos == |script|)
      && (flow == Thrown ==> pc == Cleanup(View()))
    }

    /** `deletionFence` names the fence afterwards, or nothing when the user is missing. */
    method AcquireFence() returns (flow: Flow)
      requires Valid() && pc == Begin && scheduleSuspensionToken.None? && !userDeleted
      modifies this
      ensures Ends(flow) && scheduleSuspensionToken.None? && !userDeleted
      ensures flow == Next ==> pc == (if deletionFence.Some? then Arm else AfterDrain(View()))
    {
      var o := Await();
      if o.None? {
        return Killed;
      }
      ghost var before := View();
      var acquired;
      flow, acquired := BeginUserDeletion(o.value);
      Took(before, o.value);
      if flow == Next && !acquired {
        flow := JudgeStandingFence();
      }
    }

    method JudgeStandingFence() returns (flow: Flow)
      requires Valid() && pc == BeginCheck && scheduleSuspensionToken.None? && !userDeleted
      modifies this
      ensures Ends(flow) && scheduleSuspensionToken.None? && !userDeleted
      ensures flow == Next ==> pc == (if deletionFence.Some? then Arm else AfterDrain(View()))
    {
      var o := Await();
      if o.None? {
        return Killed;
      }
      ghost var before := View();
      var inProgress;
      flow, inProgress := UserExists(o.value);
      Took(before, o.value);
      if flow == Next && inProgress {
        flow := TakeOver();
      }
    }

    method TakeOver() returns (flow: Flow)
      requires Valid() && pc == (if allProcessesStopped then Recover else Confirm)
      requires deletionFence.None? && scheduleSuspensionToken.None? && !userDeleted
      modifies this
      ensures Ends(flow) && scheduleSuspensionToken.None? && !userDeleted
      ensures flow == Next ==> pc == Arm && deletionFence.Some?
    {
      if !allProcessesStopped {
        var o := Await();
        if o.None? {
          return Killed;
        }
        ghost var before := View();
        flow := ConfirmRecovery(o.value);
        Took(before, o.value);
        if flow == Thrown {
          return;
        }
      }
      flow := RecoverOrRefuse();
    }

    method RecoverOrRefuse() returns (flow: Flow)
      requires Valid() && pc == Recover && deletionFence.None? && scheduleSuspensionToken.None? && !userDeleted
      modifies this
      ensures Ends(flow) && scheduleSuspensionToken.None? && !userDeleted
      ensures flow == Next ==> pc == Arm && deletionFence.Some?
    {
      var o := Await();
      if o.None? {
        return Killed;
      }
      ghost var before := View();
      var acquired;
      flow, acquired := RecoverFence(o.value);
      Took(before, o.value);
      if flow == Next && !acquired {
        flow := Refuse();
      }
    }

    /** Whether the user is missing or the fence not stale, it throws. */
    method Refuse() returns (flow: Flow)
      requires Valid() && pc == RecoverCheck
      modifies this`pos, this`pc, this`threw
      ensures Ends(flow) && flow != Next
    {
      var o := Await();
      if o.None? {
        return Killed;
      }
      ghost var before := View();
      Throws();
      Took(before, o.value);
      flow := Thrown;
    }

    /** Arms the purge, suspends the schedules, and drains the deliveries. */
    method Quiesce() returns (flow: Flow)
      requires Valid() && pc == Arm && deletionFence.Some? && !userDeleted
      modifies this
      ensures Ends(flow) && !userDeleted && (flow == Next ==> pc == AfterDrain(View()))
    {
      flow := AwaitPreparePurge();
      if flow == Next {
        flow := AwaitSuspend();
      }
      if flow == Next && shared {
        flow := Drain();
      }
    }

    method AwaitPreparePurge() returns (flow: Flow)
      requires Valid() && pc == Arm
      modifies this`pos, this`store, this`pc, this`threw
      ensures Ends(flow) && (flow == Next ==> pc == Pc.Suspend)
    {
      var o := Await();
      if o.None? {
        return Killed;
      }
      ghost var before := View();
      flow := PreparePurge(o.value);
      Took(before, o.value);
    }

    method AwaitSuspend() returns (flow: Flow)
      requires Valid() && pc == Pc.Suspend && !userDeleted
      modifies this
      ensures Ends(flow) && !userDeleted && (flow == Next ==> pc == if shared then Pc.Drain else Configure)
    {
      var o := Await();
      if o.None? {
        return Killed;
      }
      ghost var before := View();
      flow := SuspendSchedules(o.value);
      Took(before, o.value);
    }

    /** Polls until no delivery is active, throwing once the deadline is past. */
    method Drain() returns (flow: Flow)
      requires Valid() && pc == Pc.Drain && shared && !userDeleted
      modifies this
      ensures Ends(flow) && !userDeleted && (flow == Next ==> pc == Abort)
    {
      var drained := false;
      flow := Next;
      while !drained && flow == Next
        invariant Ends(flow) && !userDeleted
        invariant flow == Next ==> pc == (if drained then Abort else Pc.Drain)
        decreases |script| - pos, if flow == Next then 1 else 0
      {
        flow, drained := AwaitCount();
      }
    }

    method AwaitCount() returns (flow: Flow, drained: bool)
      requires Valid() && pc == Pc.Drain && !userDeleted
      modifies this`pos, this`pc, this`threw, this`log
      ensures Ends(flow) && (flow == Next ==> pc == if drained then Abort else Pc.Drain)
      ensures flow != Killed ==> pos > old(pos)
      ensures flow == Killed ==> pos == old(pos)
    {
      var o := Await();
      if o.None? {
        return Killed, false;
      }
      ghost var before := View();
      flow, drained := CountActive(o.value);
      Took(before, o.value);
    }

    method AwaitPass(ghost next: Pc) returns (flow: Flow)
      requires Valid()
      requires match pc
        case Abort => next == Configure
        case Configure => next == Erase
        case LeaveGroups => next == Commit
        case _ => false
      modifies this`pos, this`pc, this`threw
      ensures Ends(flow) && (flow == Next ==> pc == next)
    {
      var o := Await();
      if o.None? {
        return Killed;
      }
      ghost var before := View();
      flow := Pass(o.value, next);
      assert Own(before, o.value) == Proceed(before, o.value, next);
      Took(before, o.value);
    }

    /** Aborts the live generations and reads the configuration. */
    method Prepare() returns (flow: Flow)
      requires Valid() && pc == AfterDrain(View()) && !userDeleted
      modifies this
      ensures Ends(flow) && !userDeleted && (flow == Next ==> pc == Erase)
    {
      flow := Next;
      if shared {
        flow := AwaitPass(Configure);
      }
      if flow == Next {
        flow := AwaitPass(Erase);
      }
    }

    method EraseAll() returns (flow: Flow)
      requires Valid() && pc == Erase && !userDeleted
      modifies this
      ensures Ends(flow) && !userDeleted && (flow == Next ==> pc == Commit)
    {
      flow := AwaitEraseData();
      if flow == Next {
        flow := AwaitDeleteSchedules();
      }
      if flow == Next {
        flow := AwaitPass(Commit);
      }
    }

    method AwaitEraseData() returns (flow: Flow)
      requires Valid() && pc == Erase
      modifies this`pos, this`store, this`pc, this`threw, this`log
      ensures Ends(flow) && (flow == Next ==> pc == EraseSchedules)
    {
      var o := Await();
      if o.None? {
        return Killed;
      }
      ghost var before := View();
      flow := EraseData(o.value);
      Took(before, o.value);
    }

    method AwaitDeleteSchedules() returns (flow: Flow)
      requires Valid() && pc == EraseSchedules
      modifies this`pos, this`store, this`pc, this`threw
      ensures Ends(flow) && (flow == Next ==> pc == LeaveGroups)
    {
      var o := Await();
      if o.None? {
        return Killed;
      }
      ghost var before := View();
      flow := DeleteSchedules(o.value);
      Took(before, o.value);
    }

    method CommitAndFollowUp() returns (flow: Flow)
      requires Valid() && pc == Commit && !userDeleted
      modifies this
      ensures Ends(flow) && (flow == Next ==> pc == Done && userDeleted)
    {
      var o := Await();
      if o.None? {
        return Killed;
      }
      ghost var before := View();
      flow := DeleteUserById(o.value);
      Took(before, o.value);
      if flow == Next {
        flow := FollowUp();
      }
    }

    /** Failing to revoke the workers or to delete the environments' records is swallowed. */
    method FollowUp() returns (flow: Flow)
      requires Valid() && pc == Revoke && userDeleted
      modifies this
      ensures Ends(flow) && (flow == Next ==> pc == Done && userDeleted)
    {
      var codeEnvironmentCleanupSafe;
      flow, codeEnvironmentCleanupSafe := AwaitRevoke();
      if flow == Next && codeEnvironmentCleanupSafe {
        flow := AwaitDeleteEnvironments();
      }
      if flow == Next {
        flow := AwaitDeleteDeliveries();
      }
    }

    method AwaitRevoke() returns (flow: Flow, safe: bool)
      requires Valid() && pc == Revoke
      modifies this`pos, this`pc, this`log
      ensures Ends(flow) && flow != Thrown
      ensures flow == Next ==> pc == if safe then EraseEnvironments else EraseDeliveries
    {
      var o := Await();
      if o.None? {
        return Killed, false;
      }
      ghost var before := View();
      safe := RevokeWorkers(o.value);
      Took(before, o.value);
      flow := Next;
    }

    method AwaitDeleteEnvironments() returns (flow: Flow)
      requires Valid() && pc == EraseEnvironments
      modifies this`pos, this`store, this`pc
      ensures Ends(flow) && flow != Thrown && (flow == Next ==> pc == EraseDeliveries)
    {
      var o := Await();
      if o.None? {
        return Killed;
      }
      ghost var before := View();
      DeleteEnvironments(o.value);
      Took(before, o.value);
      flow := Next;
    }

    method AwaitDeleteDeliveries() returns (flow: Flow)
      requires Valid() && pc == EraseDeliveries
      modifies this`pos, this`store, this`pc, this`threw
      ensures Ends(flow) && (flow == Next ==> pc == Done)
    {
      var o := Await();
      if o.None? {
        return Killed;
      }
      ghost var before := View();
      flow := DeleteDeliveries(o.value);
      Took(before, o.value);
    }

    method Try() returns (flow: Flow)
      requires Valid() && pc == Begin && scheduleSuspensionToken.None? && !userDeleted
      modifies this
      ensures Ends(flow) && (flow == Next ==> pc == Done && userDeleted)
    {
      flow := AcquireFence();
      if flow == Next && deletionFence.Some? {
        flow := Quiesce();
      }
      if flow == Next {
        flow := Prepare();
      }
      if flow == Next {
        flow := EraseAll();
      }
      if flow == Next {
        flow := CommitAndFollowUp();
      }
    }

    // ----- The `finally` -----

    /** Restores the schedules before it releases the fence. */
    method Finally()
      requires Valid() && pc == Cleanup(View())
      modifies this
      ensures Valid() && (pos < |script| ==> pc == Done)
    {
      if scheduleSuspensionToken.Some? && !userDeleted {
        RestoreUserSchedules();
      }
      if deletionFence.Some? && !userDeleted && pos < |script| {
        ReleaseEverything();
      }
    }

    method RestoreUserSchedules()
      requires Valid() && pc == Restore(1) && !userDeleted
      modifies this`pos, this`store, this`pc, this`log
      ensures Valid()
      ensures pos < |script| ==> pc == (if deletionFence.Some? then Pc.Disarm else Done)
    {
      var restored, attempt := false, 1;
      while !restored && attempt <= RESTORE_ATTEMPTS
        invariant Valid() && 1 <= attempt <= RESTORE_ATTEMPTS + 1
        invariant pc == if !restored && attempt <= RESTORE_ATTEMPTS then Restore(attempt)
                        else if deletionFence.Some? then Pc.Disarm else Done
      {
        if pos == |script| {
          return;
        }
        restored := AwaitRestore(attempt);
        attempt := attempt + 1;
      }
    }

    method AwaitRestore(attempt: nat) returns (restored: bool)
      requires Valid() && pos < |script| && pc == Restore(attempt) && !userDeleted
      modifies this`pos, this`store, this`pc, this`log
      ensures Valid()
      ensures pc == if !restored && attempt < RESTORE_ATTEMPTS then Restore(attempt + 1)
                    else if deletionFence.Some? then Pc.Disarm else Done
    {
      var o := Await();
      ghost var before := View();
      restored := RestoreSchedules(attempt, o.value);
      Took(before, o.value);
    }

    method ReleaseEverything()
      requires Valid() && pc == Pc.Disarm
      modifies this
      ensures Valid() && (pos < |script| ==> pc == Done)
    {
      if pos < |script| {
        AwaitCancelPurge();
      }
      if pos < |script| {
        AwaitCancelFence();
      }
    }

    method AwaitCancelPurge()
      requires Valid() && pos < |script| && pc == Pc.Disarm
      modifies this`pos, this`store, this`pc, this`log
      ensures Valid() && pc == Pc.Release
    {
      var o := Await();
      ghost var before := View();
      CancelPurge(o.value);
      Took(before, o.value);
    }

    method AwaitCancelFence()
      requires Valid() && pos < |script| && pc == Pc.Release
      modifies this`pos, this`store, this`pc, this`log
      ensures Valid() && pc == Done
    {
      var o := Await();
      ghost var before := View();
      CancelFence(o.value);
      Took(before, o.value);
    }

    /** The whole program: whatever the script of outcomes, and wherever it ends, it does exactly
        what the machine does. */
    method DeleteAccount()
      requires Valid() && pos == 0 && pc == Begin && scheduleSuspensionToken.None? && !userDeleted
      modifies this
      ensures View() == Alone(origin, script)
    {
      var flow := Try();
      if flow == Thrown {
        Finally();
      }
      if pos < |script| {
        DoneStays(origin, script, pos);
      } else {
        assert script[..pos] == script;
      }
    }
  }
}
