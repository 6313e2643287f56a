/** Violation counts per type, the shared violation log, and the bans that follow when a count
    crosses a multiple of the ban interval. */
module Violations {
  import opened Common

  type UserId = string
  type ViolationType = string
  type Time = int

  /** The type whose count store is the shared log itself. */
  const GENERAL := "general"

  datatype Config = Config(banEnabled: bool, interval: real, banTtl: int, redis: bool)

  /** The awaits of one call, in order. */
  datatype Point = GetCount | SetCount | Sessions | BanUser | BanAddress | GetLog | SetLog

  /** An await may throw, without or after taking effect. */
  datatype Fault = NoFault | FailsAt(point: Point, landed: bool)

  /** One reported violation; `kind` and `duration` are what its message carries, and `fault` is
      the await that throws if the call gets there. */
  datatype Call = Call(
    user: Option<UserId>, ip: Option<string>, violation: ViolationType, kind: ViolationType,
    duration: Option<int>, score: real, now: Time, fault: Fault)

  /** A message as it is stored, without its user id. `violation` and `user` name the call it
      came from; they are not stored and serve to state properties. */
  datatype Entry = Entry(
    violation: ViolationType, user: UserId,
    kind: ViolationType, prev: real, count: real, date: Time, ban: bool, banDuration: Option<int>)

  /** For a banned address the record also names the user. */
  datatype BanRecord = BanRecord(
    kind: ViolationType, user: Option<UserId>, count: real, duration: int, expiresAt: Time)

  datatype Slot = Slot(violation: ViolationType, key: string)

  /** `signedOut` lists the users whose sessions were deleted, in order. */
  datatype Stores = Stores(
    counts: map<Slot, real>, logs: map<string, seq<Entry>>, bans: map<string, BanRecord>, signedOut: seq<UserId>)

  const EMPTY := Stores(map[], map[], map[], [])

  function KeyFor(cfg: Config, violation: ViolationType, user: UserId): string {
    if cfg.redis then violation + ":" + user else user
  }

  function CountOf(s: Stores, cfg: Config, violation: ViolationType, user: UserId): real {
    var slot := Slot(violation, KeyFor(cfg, violation, user));
    if slot in s.counts then s.counts[slot] else 0.0
  }

  function LogAt(s: Stores, key: string): seq<Entry> {
    if key in s.logs then s.logs[key] else []
  }

  function Threshold(x: real, interval: real): int
    requires interval > 0.0
  {
    (x / interval).Floor
  }

  predicate Crosses(cfg: Config, prev: real, count: real)
    requires cfg.interval > 0.0
  {
    cfg.banEnabled && Threshold(prev, cfg.interval) < Threshold(count, cfg.interval)
  }

  /** The message's own duration unless it is missing or zero. */
  function DurationOf(cfg: Config, c: Call): int {
    if c.duration.Some? && c.duration.value != 0 then c.duration.value else cfg.banTtl
  }

  predicate Bans(cfg: Config, c: Call, prev: real, count: real)
    requires cfg.interval > 0.0
  {
    Crosses(cfg, prev, count) && DurationOf(cfg, c) > 0
  }

  /** The record for the user, or, naming the user, for the address. */
  function RecordFor(cfg: Config, c: Call, user: Option<UserId>, count: real): BanRecord {
    BanRecord(c.kind, user, count, DurationOf(cfg, c), c.now + DurationOf(cfg, c))
  }

  predicate Known(c: Call) {
    c.user.Some? && c.user.value != ""
  }

  function EntryFor(cfg: Config, c: Call, prev: real): Entry
    requires cfg.interval > 0.0 && Known(c)
  {
    var count := prev + c.score;
    var bans := Bans(cfg, c, prev, count);
    Entry(c.violation, c.user.value, c.kind, prev, count, c.now, bans, if bans then Some(DurationOf(cfg, c)) else None)
  }

  predicate HasAddress(c: Call) {
    c.ip.Some? && c.ip.value != ""
  }

  /** The call gets as far as wanting this await, were none to throw. */
  predicate Wants(cfg: Config, c: Call, prev: real, p: Point)
    requires cfg.interval > 0.0
  {
    match p
    case Sessions => Crosses(cfg, prev, prev + c.score)
    case BanUser => Bans(cfg, c, prev, prev + c.score)
    case BanAddress => Bans(cfg, c, prev, prev + c.score) && HasAddress(c)
    case _ => true
  }

  function Rank(p: Point): nat {
    match p
    case GetCount => 0
    case SetCount => 1
    case Sessions => 2
    case BanUser => 3
    case BanAddress => 4
    case GetLog => 5
    case SetLog => 6
  }

  predicate Throws(cfg: Config, s: Stores, c: Call)
    requires cfg.interval > 0.0
  {
    && Known(c) && c.fault.FailsAt?
    && Wants(cfg, c, CountOf(s, cfg, c.violation, c.user.value), c.fault.point)
  }

  /** The await takes effect: the call wants it and did not throw before it. */
  predicate Takes(cfg: Config, s: Stores, c: Call, p: Point)
    requires cfg.interval > 0.0
  {
    && Known(c) && Wants(cfg, c, CountOf(s, cfg, c.violation, c.user.value), p)
    && (Throws(cfg, s, c) ==> Rank(p) < Rank(c.fault.point) || (p == c.fault.point && c.fault.landed))
  }

  /** A call without a user does nothing; one that throws leaves what it had written. */
  function Step(cfg: Config, s: Stores, c: Call): Stores
    requires cfg.interval > 0.0
  {
    if !Known(c) then s
    else
      var user := c.user.value;
      var key := KeyFor(cfg, c.violation, user);
      var prev := CountOf(s, cfg, c.violation, user);
      var count := prev + c.score;
      var bans := if Takes(cfg, s, c, BanUser) then s.bans[user := RecordFor(cfg, c, None, count)] else s.bans;
      Stores(
        if Takes(cfg, s, c, SetCount) then s.counts[Slot(c.violation, key) := count] else s.counts,
        if Takes(cfg, s, c, SetLog) then s.logs[key := LogAt(s, key) + [EntryFor(cfg, c, prev)]] else s.logs,
        if Takes(cfg, s, c, BanAddress) then bans[c.ip.value := RecordFor(cfg, c, c.user, count)] else bans,
        if Takes(cfg, s, c, Sessions) then s.signedOut + [user] else s.signedOut)
  }

  function Run(cfg: Config, calls: seq<Call>): Stores
    requires cfg.interval > 0.0
  {
    if calls == [] then EMPTY else Step(cfg, Run(cfg, calls[..|calls| - 1]), calls[|calls| - 1])
  }

  // ----- Thresholds -----

  function Multiple(k: int, interval: real): real {
    k as real * interval
  }

  lemma MultipleMonotone(j: int, k: int, interval: real)
    requires j <= k && interval > 0.0
    ensures Multiple(j, interval) <= Multiple(k, interval)
  {
    Scaled(j as real, k as real, interval);
  }

  lemma MultipleNext(k: int, interval: real)
    ensures Multiple(k + 1, interval) == Multiple(k, interval) + interval
  {
    assert (k + 1) as real == k as real + 1.0;
  }

  lemma Scaled(a: real, b: real, interval: real)
    requires interval > 0.0
    ensures a <= b ==> a * interval <= b * interval
    ensures a < b ==> a * interval < b * interval
  {
  }

  predicate Brackets(k: int, x: real, interval: real) {
    Multiple(k, interval) <= x < Multiple(k + 1, interval)
  }

  lemma Quotient(x: real, interval: real)
    requires interval > 0.0
    ensures (x / interval) * interval == x
  {
  }

  lemma Between(x: real, q: real, k: int, interval: real)
    requires interval > 0.0 && q * interval == x && k as real <= q < (k + 1) as real
    ensures Brackets(k, x, interval)
  {
    Scaled(k as real, q, interval);
    Scaled(q, (k + 1) as real, interval);
  }

  lemma ThresholdBrackets(x: real, interval: real)
    requires interval > 0.0
    ensures Brackets(Threshold(x, interval), x, interval)
  {
    Quotient(x, interval);
    Between(x, x / interval, Threshold(x, interval), interval);
  }

  ghost predicate MultipleWithin(prev: real, count: real, interval: real) {
    exists k: int :: prev < Multiple(k, interval) <= count
  }

  lemma MultipleWithinIff(prev: real, count: real, a: int, b: int, interval: real)
    requires interval > 0.0 && Brackets(a, prev, interval) && Brackets(b, count, interval)
    ensures a < b <==> MultipleWithin(prev, count, interval)
  {
    if a < b {
      MultipleMonotone(a + 1, b, interval);
      assert prev < Multiple(b, interval) <= count;
    } else {
      forall k: int ensures !(prev < Multiple(k, interval) <= count) {
        if k <= a {
          MultipleMonotone(k, a, interval);
        } else {
          MultipleMonotone(b + 1, k, interval);
        }
      }
    }
  }

  /** The count crosses the threshold if and only if a multiple of the interval lies in
      (prev, count], whatever the signs. */
  lemma CrossesIffMultiple(prev: real, count: real, interval: real)
    requires interval > 0.0
    ensures Threshold(prev, interval) < Threshold(count, interval) <==> MultipleWithin(prev, count, interval)
  {
    ThresholdBrackets(prev, interval);
    ThresholdBrackets(count, interval);
    MultipleWithinIff(prev, count, Threshold(prev, interval), Threshold(count, interval), interval);
  }

  lemma ThresholdMonotone(x: real, y: real, interval: real)
    requires interval > 0.0 && x <= y
    ensures Threshold(x, interval) <= Threshold(y, interval)
  {
    CrossesIffMultiple(y, x, interval);
  }

  /** A rise of at most one interval crosses at most one threshold. */
  lemma ThresholdRise(x: real, y: real, interval: real)
    requires interval > 0.0 && y - x <= interval
    ensures Threshold(y, interval) <= Threshold(x, interval) + 1
  {
    ThresholdBrackets(x, interval);
    ThresholdBrackets(y, interval);
    OneStep(x, y, Threshold(x, interval), Threshold(y, interval), interval);
  }

  lemma OneStep(x: real, y: real, a: int, b: int, interval: real)
    requires interval > 0.0 && y - x <= interval && Brackets(a, x, interval) && Brackets(b, y, interval)
    ensures b <= a + 1
  {
    MultipleNext(a + 1, interval);
    if a + 2 <= b {
      MultipleMonotone(a + 2, b, interval);
    }
  }

  // ----- Runs -----

  predicate Of(c: Call, violation: ViolationType, user: UserId) {
    Known(c) && c.violation == violation && c.user.value == user
  }

  /** A call of this user and type whose count was written. */
  predicate Counted(c: Call, violation: ViolationType, user: UserId) {
    && Of(c, violation, user)
    && !(c.fault.FailsAt? && (c.fault.point == GetCount || (c.fault.point == SetCount && !c.fault.landed)))
  }

  function Total(calls: seq<Call>, violation: ViolationType, user: UserId): real {
    if calls == [] then 0.0
    else
      var n := |calls| - 1;
      Total(calls[..n], violation, user) + (if Counted(calls[n], violation, user) then calls[n].score else 0.0)
  }

  lemma OtherSlot(cfg: Config, v: ViolationType, u: UserId, w: ViolationType, x: UserId)
    requires Slot(v, KeyFor(cfg, v, u)) == Slot(w, KeyFor(cfg, w, x))
    ensures v == w && u == x
  {
    if cfg.redis {
      var a, b := v + ":" + u, w + ":" + x;
      assert a[|v| + 1..] == u && b[|w| + 1..] == x;
    }
  }

  /** In every run, whatever fails and however users and types alternate, the stored count is
      the sum of the scores of that user's calls of that type whose write landed. */
  lemma {:induction false} CountIsTheSum(cfg: Config, calls: seq<Call>, violation: ViolationType, user: UserId)
    requires cfg.interval > 0.0 && user != ""
    ensures CountOf(Run(cfg, calls), cfg, violation, user) == Total(calls, violation, user)
  {
    if calls != [] {
      var n := |calls| - 1;
      CountIsTheSum(cfg, calls[..n], violation, user);
      CountStep(cfg, Run(cfg, calls[..n]), calls[n], violation, user);
    }
  }

  lemma CountStep(cfg: Config, s: Stores, c: Call, violation: ViolationType, user: UserId)
    requires cfg.interval > 0.0 && user != ""
    ensures CountOf(Step(cfg, s, c), cfg, violation, user)
         == CountOf(s, cfg, violation, user) + (if Counted(c, violation, user) then c.score else 0.0)
  {
    if Known(c) && !Of(c, violation, user) {
      var mine := Slot(violation, KeyFor(cfg, violation, user));
      var theirs := Slot(c.violation, KeyFor(cfg, c.violation, c.user.value));
      if mine == theirs {
        OtherSlot(cfg, violation, user, c.violation, c.user.value);
      }
    }
  }

  /** The entries of one user and type, in the shared log, in order. */
  function Mine(log: seq<Entry>, violation: ViolationType, user: UserId): seq<Entry> {
    if log == [] then []
    else
      var n := |log| - 1;
      Mine(log[..n], violation, user)
      + (if log[n].violation == violation && log[n].user == user then [log[n]] else [])
  }

  function LogOf(cfg: Config, s: Stores, violation: ViolationType, user: UserId): seq<Entry> {
    Mine(LogAt(s, KeyFor(cfg, violation, user)), violation, user)
  }

  lemma MineSnoc(log: seq<Entry>, e: Entry, violation: ViolationType, user: UserId)
    ensures Mine(log + [e], violation, user)
         == Mine(log, violation, user) + (if e.violation == violation && e.user == user then [e] else [])
  {
    assert (log + [e])[..|log|] == log;
  }

  /** A call appends to the log of its own user and type, and to no other, if it gets there. */
  lemma LogStep(cfg: Config, s: Stores, c: Call, violation: ViolationType, user: UserId)
    requires cfg.interval > 0.0
    ensures LogOf(cfg, Step(cfg, s, c), violation, user)
         == LogOf(cfg, s, violation, user)
            + (if Of(c, violation, user) && Takes(cfg, s, c, SetLog)
               then [EntryFor(cfg, c, CountOf(s, cfg, violation, user))] else [])
  {
    var s' := Step(cfg, s, c);
    var mine := KeyFor(cfg, violation, user);
    if Takes(cfg, s, c, SetLog) {
      var key := KeyFor(cfg, c.violation, c.user.value);
      var e := EntryFor(cfg, c, CountOf(s, cfg, c.violation, c.user.value));
      StepLogs(cfg, s, c);
      assert LogAt(s', mine) == if mine == key then LogAt(s, mine) + [e] else LogAt(s, mine);
      MineSnoc(LogAt(s, mine), e, violation, user);
    } else {
      assert s'.logs == s.logs;
      assert LogAt(s', mine) == LogAt(s, mine);
    }
  }

  lemma StepLogs(cfg: Config, s: Stores, c: Call)
    requires cfg.interval > 0.0 && Takes(cfg, s, c, SetLog)
    ensures var key := KeyFor(cfg, c.violation, c.user.value);
      var e := EntryFor(cfg, c, CountOf(s, cfg, c.violation, c.user.value));
      Step(cfg, s, c).logs == s.logs[key := LogAt(s, key) + [e]]
  {
  }

  /** Each entry starts where the previous one ended, the first at zero. */
  predicate Chained(log: seq<Entry>) {
    && (|log| > 0 ==> log[0].prev == 0.0)
    && (forall i :: 0 <= i < |log| - 1 ==> log[i + 1].prev == log[i].count)
  }

  function Last(log: seq<Entry>): real {
    if log == [] then 0.0 else log[|log| - 1].count
  }

  /** A call that moved the count and left no entry: it threw in between. */
  predicate Slips(cfg: Config, s: Stores, c: Call)
    requires cfg.interval > 0.0
  {
    Takes(cfg, s, c, SetCount) && !Takes(cfg, s, c, SetLog)
  }

  predicate SlipsOf(cfg: Config, s: Stores, c: Call, violation: ViolationType, user: UserId)
    requires cfg.interval > 0.0
  {
    Of(c, violation, user) && Slips(cfg, s, c)
  }

  /** No call of this user and type slips; what others do is of no account. */
  ghost predicate NoneSlips(cfg: Config, calls: seq<Call>, violation: ViolationType, user: UserId)
    requires cfg.interval > 0.0
  {
    forall i :: 0 <= i < |calls| ==> !SlipAt(cfg, calls, i, violation, user)
  }

  predicate SlipAt(cfg: Config, calls: seq<Call>, i: nat, violation: ViolationType, user: UserId)
    requires cfg.interval > 0.0 && i < |calls|
  {
    SlipsOf(cfg, Run(cfg, calls[..i]), calls[i], violation, user)
  }

  lemma SlipAtFront(cfg: Config, calls: seq<Call>, n: nat, i: nat, violation: ViolationType, user: UserId)
    requires cfg.interval > 0.0 && i < n <= |calls|
    ensures SlipAt(cfg, calls[..n], i, violation, user) == SlipAt(cfg, calls, i, violation, user)
  {
    assert calls[..n][..i] == calls[..i];
  }

  lemma NoneSlipsSnoc(cfg: Config, calls: seq<Call>, violation: ViolationType, user: UserId)
    requires cfg.interval > 0.0 && |calls| > 0
    ensures var n := |calls| - 1;
      NoneSlips(cfg, calls, violation, user) <==>
        NoneSlips(cfg, calls[..n], violation, user)
        && !SlipsOf(cfg, Run(cfg, calls[..n]), calls[n], violation, user)
  {
    var n := |calls| - 1;
    forall i | 0 <= i < n
      ensures SlipAt(cfg, calls[..n], i, violation, user) == SlipAt(cfg, calls, i, violation, user)
    {
      SlipAtFront(cfg, calls, n, i, violation, user);
    }
    assert SlipAt(cfg, calls, n, violation, user) == SlipsOf(cfg, Run(cfg, calls[..n]), calls[n], violation, user);
  }

  /** The calls of one user and type whose count was written, in order. */
  function CallsOf(calls: seq<Call>, violation: ViolationType, user: UserId): seq<Call> {
    if calls == [] then []
    else
      var n := |calls| - 1;
      CallsOf(calls[..n], violation, user) + (if Counted(calls[n], violation, user) then [calls[n]] else [])
  }

  predicate Records(cfg: Config, e: Entry, c: Call)
    requires cfg.interval > 0.0
  {
    Known(c) && e == EntryFor(cfg, c, e.prev)
  }

  ghost predicate RecordsAll(cfg: Config, log: seq<Entry>, calls: seq<Call>)
    requires cfg.interval > 0.0
  {
    |log| == |calls| && forall i :: 0 <= i < |log| ==> Records(cfg, log[i], calls[i])
  }

  ghost predicate InStep(cfg: Config, s: Stores, violation: ViolationType, user: UserId, calls: seq<Call>)
    requires cfg.interval > 0.0
  {
    var log := LogOf(cfg, s, violation, user);
    Chained(log) && Last(log) == CountOf(s, cfg, violation, user) && RecordsAll(cfg, log, calls)
  }

  /** The two stores are in step for a user and a type if and only if no call of theirs slipped
      in between: then the shared log holds one entry for each counted call, in order, each
      starting from the count before it, and the last one holds the stored count. */
  lemma LogChainsIff(cfg: Config, calls: seq<Call>, violation: ViolationType, user: UserId)
    requires cfg.interval > 0.0 && user != ""
    ensures InStep(cfg, Run(cfg, calls), violation, user, CallsOf(calls, violation, user))
       <==> NoneSlips(cfg, calls, violation, user)
  {
    EntriesAtMost(cfg, calls, violation, user);
    if NoneSlips(cfg, calls, violation, user) {
      LogChains(cfg, calls, violation, user);
    }
  }

  /** Every slip leaves the log one entry short, for good. */
  lemma {:induction false} EntriesAtMost(cfg: Config, calls: seq<Call>, violation: ViolationType, user: UserId)
    requires cfg.interval > 0.0 && user != ""
    ensures |LogOf(cfg, Run(cfg, calls), violation, user)| <= |CallsOf(calls, violation, user)|
    ensures |LogOf(cfg, Run(cfg, calls), violation, user)| == |CallsOf(calls, violation, user)|
       <==> NoneSlips(cfg, calls, violation, user)
  {
    if calls != [] {
      var n := |calls| - 1;
      EntriesAtMost(cfg, calls[..n], violation, user);
      NoneSlipsSnoc(cfg, calls, violation, user);
      LogStep(cfg, Run(cfg, calls[..n]), calls[n], violation, user);
      CountedTakes(cfg, Run(cfg, calls[..n]), calls[n], violation, user);
    }
  }

  lemma CountedTakes(cfg: Config, s: Stores, c: Call, violation: ViolationType, user: UserId)
    requires cfg.interval > 0.0
    ensures Counted(c, violation, user) <==> Of(c, violation, user) && Takes(cfg, s, c, SetCount)
    ensures Takes(cfg, s, c, SetLog) ==> Takes(cfg, s, c, SetCount)
  {
  }

  lemma {:induction false} LogChains(cfg: Config, calls: seq<Call>, violation: ViolationType, user: UserId)
    requires cfg.interval > 0.0 && user != "" && NoneSlips(cfg, calls, violation, user)
    ensures InStep(cfg, Run(cfg, calls), violation, user, CallsOf(calls, violation, user))
  {
    if calls != [] {
      var n := |calls| - 1;
      NoneSlipsSnoc(cfg, calls, violation, user);
      LogChains(cfg, calls[..n], violation, user);
      ChainStep(cfg, Run(cfg, calls[..n]), calls[n], violation, user, CallsOf(calls[..n], violation, user));
    }
  }

  lemma ChainStep(cfg: Config, s: Stores, c: Call, violation: ViolationType, user: UserId, calls: seq<Call>)
    requires cfg.interval > 0.0 && user != "" && !SlipsOf(cfg, s, c, violation, user)
    requires InStep(cfg, s, violation, user, calls)
    ensures InStep(cfg, Step(cfg, s, c), violation, user, calls + (if Counted(c, violation, user) then [c] else []))
  {
    CountStep(cfg, s, c, violation, user);
    LogStep(cfg, s, c, violation, user);
    CountedTakes(cfg, s, c, violation, user);
    if Counted(c, violation, user) {
      RecordSnoc(cfg, LogOf(cfg, s, violation, user), calls, c, CountOf(s, cfg, violation, user));
    }
  }

  lemma RecordSnoc(cfg: Config, log: seq<Entry>, calls: seq<Call>, c: Call, prev: real)
    requires cfg.interval > 0.0 && Known(c) && Chained(log) && Last(log) == prev && RecordsAll(cfg, log, calls)
    ensures var log' := log + [EntryFor(cfg, c, prev)];
      Chained(log') && Last(log') == prev + c.score && RecordsAll(cfg, log', calls + [c])
  {
  }

  function RunFrom(cfg: Config, s: Stores, calls: seq<Call>): Stores
    requires cfg.interval > 0.0
  {
    if calls == [] then s else Step(cfg, RunFrom(cfg, s, calls[..|calls| - 1]), calls[|calls| - 1])
  }

  predicate NeverNegative(calls: seq<Call>) {
    forall i :: 0 <= i < |calls| ==> calls[i].score >= 0.0
  }

  lemma {:induction false} CountNeverFalls(
    cfg: Config, s: Stores, calls: seq<Call>, violation: ViolationType, user: UserId)
    requires cfg.interval > 0.0 && user != "" && NeverNegative(calls)
    ensures CountOf(RunFrom(cfg, s, calls), cfg, violation, user) >= CountOf(s, cfg, violation, user)
  {
    if calls != [] {
      var n := |calls| - 1;
      CountNeverFalls(cfg, s, calls[..n], violation, user);
      CountStep(cfg, RunFrom(cfg, s, calls[..n]), calls[n], violation, user);
    }
  }

  /** The ban a call was to bring is lost: its count was written, and it threw before the ban. */
  predicate LosesItsBan(cfg: Config, s: Stores, c: Call)
    requires cfg.interval > 0.0
  {
    && Throws(cfg, s, c) && Takes(cfg, s, c, SetCount)
    && Wants(cfg, c, CountOf(s, cfg, c.violation, c.user.value), BanUser) && !Takes(cfg, s, c, BanUser)
  }

  /** Such a call bans nobody and leaves no entry, and if no later score is negative no later
      call crosses the multiples it had crossed: they are never acted on again. */
  lemma AThrowLosesTheBan(cfg: Config, s: Stores, c: Call, later: seq<Call>, next: Call)
    requires cfg.interval > 0.0 && LosesItsBan(cfg, s, c)
    requires NeverNegative(later) && Of(next, c.violation, c.user.value)
    ensures Step(cfg, s, c).bans == s.bans && Step(cfg, s, c).logs == s.logs
    ensures var user := c.user.value;
      var prev := CountOf(s, cfg, c.violation, user);
      var now := CountOf(RunFrom(cfg, Step(cfg, s, c), later), cfg, c.violation, user);
      && MultipleWithin(prev, prev + c.score, cfg.interval)
      && (forall k: int :: prev < Multiple(k, cfg.interval) <= prev + c.score ==>
            !(now < Multiple(k, cfg.interval) <= now + next.score))
  {
    var user := c.user.value;
    var prev := CountOf(s, cfg, c.violation, user);
    CountStep(cfg, s, c, c.violation, user);
    CountedTakes(cfg, s, c, c.violation, user);
    CountNeverFalls(cfg, Step(cfg, s, c), later, c.violation, user);
    CrossesIffMultiple(prev, prev + c.score, cfg.interval);
  }

  /** A negative score in between can bring the lost multiple back. */
  lemma ANegativeScoreBringsTheBanBack(ttl: int)
    requires ttl > 0
    ensures var cfg := Config(true, 20.0, ttl, false);
      var lost := Call(Some("u"), None, "logins", "logins", None, 20.0, 0, FailsAt(Sessions, false));
      var down := lost.(score := -5.0, fault := NoFault);
      var up := down.(score := 5.0);
      LosesItsBan(cfg, EMPTY, lost) && "u" !in Run(cfg, [lost]).bans && "u" in Run(cfg, [lost, down, up]).bans
  {
    var cfg := Config(true, 20.0, ttl, false);
    var lost := Call(Some("u"), None, "logins", "logins", None, 20.0, 0, FailsAt(Sessions, false));
    var down := lost.(score := -5.0, fault := NoFault);
    var up := down.(score := 5.0);
    RunSnoc(cfg, [], lost);
    RunSnoc(cfg, [lost], down);
    RunSnoc(cfg, [lost, down], up);
    assert [] + [lost] == [lost] && [lost] + [down] == [lost, down] && [lost, down] + [up] == [lost, down, up];
    var s1, s2 := Run(cfg, [lost]), Run(cfg, [lost, down]);
    assert CountOf(s1, cfg, "logins", "u") == 20.0;
    assert CountOf(s2, cfg, "logins", "u") == 15.0;
    assert Takes(cfg, s2, up, BanUser);
  }

  lemma RunSnoc(cfg: Config, calls: seq<Call>, c: Call)
    requires cfg.interval > 0.0
    ensures Run(cfg, calls + [c]) == Step(cfg, Run(cfg, calls), c)
  {
    assert (calls + [c])[..|calls|] == calls;
  }

  // ----- Bans -----

  /** Banned with this record, but for the user it names. */
  predicate Banned(s: Stores, who: string, record: BanRecord) {
    who in s.bans && s.bans[who].(user := None) == record.(user := None)
  }

  /** A call that does not throw bans exactly when bans are enabled, the duration is positive,
      and a multiple of the interval lies in (prev, count]; then the user, and the address if
      there is one, are banned until the duration has passed. */
  lemma BansIffMultipleCrossed(cfg: Config, s: Stores, c: Call)
    requires cfg.interval > 0.0 && Known(c) && !Throws(cfg, s, c)
    ensures var user := c.user.value; var prev := CountOf(s, cfg, c.violation, user); var s' := Step(cfg, s, c);
      var log := LogOf(cfg, s', c.violation, user);
      var multiple := MultipleWithin(prev, prev + c.score, cfg.interval);
      && |log| > 0
      && (log[|log| - 1].ban <==> cfg.banEnabled && DurationOf(cfg, c) > 0 && multiple)
      && (log[|log| - 1].ban ==>
            var d := DurationOf(cfg, c);
            var record := BanRecord(c.kind, None, prev + c.score, d, c.now + d);
            Banned(s', user, record) && (HasAddress(c) ==> Banned(s', c.ip.value, record)))
      && (!log[|log| - 1].ban ==> s'.bans == s.bans)
      && (s'.signedOut == if cfg.banEnabled && multiple then s.signedOut + [user] else s.signedOut)
  {
    var user := c.user.value;
    var prev := CountOf(s, cfg, c.violation, user);
    CrossesIffMultiple(prev, prev + c.score, cfg.interval);
    LastEntry(cfg, s, c);
    BansWritten(cfg, s, c, prev);
  }

  lemma LastEntry(cfg: Config, s: Stores, c: Call)
    requires cfg.interval > 0.0 && Known(c) && !Throws(cfg, s, c)
    ensures var user := c.user.value; var log := LogOf(cfg, Step(cfg, s, c), c.violation, user);
      |log| > 0 && log[|log| - 1] == EntryFor(cfg, c, CountOf(s, cfg, c.violation, user))
  {
    LogStep(cfg, s, c, c.violation, c.user.value);
  }

  lemma BansWritten(cfg: Config, s: Stores, c: Call, prev: real)
    requires cfg.interval > 0.0 && Known(c) && !Throws(cfg, s, c)
    requires prev == CountOf(s, cfg, c.violation, c.user.value)
    ensures var s' := Step(cfg, s, c); var user := c.user.value; var record := RecordFor(cfg, c, None, prev + c.score);
      && (Bans(cfg, c, prev, prev + c.score) ==>
            Banned(s', user, record) && (HasAddress(c) ==> Banned(s', c.ip.value, record)))
      && (!Bans(cfg, c, prev, prev + c.score) ==> s'.bans == s.bans)
      && s'.signedOut == if Crosses(cfg, prev, prev + c.score) then s.signedOut + [user] else s.signedOut
  {
  }

  function BanCount(log: seq<Entry>): nat {
    if log == [] then 0
    else BanCount(log[..|log| - 1]) + (if log[|log| - 1].ban then 1 else 0)
  }

  /** Every entry bans when it crosses. */
  ghost predicate BansWhenCrossing(log: seq<Entry>, interval: real)
    requires interval > 0.0
  {
    forall i :: 0 <= i < |log| ==>
      (log[i].ban <==> Threshold(log[i].prev, interval) < Threshold(log[i].count, interval))
  }

  predicate Rising(log: seq<Entry>) {
    forall i :: 0 <= i < |log| ==> log[i].prev <= log[i].count
  }

  predicate SingleSteps(log: seq<Entry>, interval: real)
    requires interval > 0.0
  {
    forall i :: 0 <= i < |log| ==> Threshold(log[i].count, interval) - Threshold(log[i].prev, interval) <= 1
  }

  lemma ZeroThreshold(interval: real)
    requires interval > 0.0
    ensures Threshold(0.0, interval) == 0
  {
  }

  lemma {:induction false} BansOfChain(log: seq<Entry>, interval: real)
    requires interval > 0.0 && Chained(log) && Rising(log) && BansWhenCrossing(log, interval)
    ensures BanCount(log) <= Threshold(Last(log), interval)
    ensures BanCount(log) == Threshold(Last(log), interval) <==> SingleSteps(log, interval)
  {
    ZeroThreshold(interval);
    if log != [] {
      var n := |log| - 1;
      BansOfChain(log[..n], interval);
      assert Last(log[..n]) == log[n].prev;
      ThresholdMonotone(log[n].prev, log[n].count, interval);
      assert SingleSteps(log, interval) <==>
        SingleSteps(log[..n], interval) && Threshold(log[n].count, interval) - Threshold(log[n].prev, interval) <= 1;
    }
  }

  ghost predicate BansAreOn(cfg: Config, calls: seq<Call>) {
    cfg.banEnabled && forall i :: 0 <= i < |calls| ==> DurationOf(cfg, calls[i]) > 0 && calls[i].score >= 0.0
  }

  lemma {:induction false} CallsOfAre(cfg: Config, calls: seq<Call>, violation: ViolationType, user: UserId)
    requires BansAreOn(cfg, calls)
    ensures BansAreOn(cfg, CallsOf(calls, violation, user))
    ensures forall i :: 0 <= i < |CallsOf(calls, violation, user)| ==> CallsOf(calls, violation, user)[i] in calls
  {
    if calls != [] {
      CallsOfAre(cfg, calls[..|calls| - 1], violation, user);
    }
  }

  /** The entries of one user and type after a run of calls with non-negative scores in which
      bans are on and no call of theirs slips. */
  ghost predicate Logged(cfg: Config, calls: seq<Call>, violation: ViolationType, user: UserId, log: seq<Entry>)
    requires cfg.interval > 0.0
  {
    && user != "" && NoneSlips(cfg, calls, violation, user) && BansAreOn(cfg, calls)
    && log == LogOf(cfg, Run(cfg, calls), violation, user)
  }

  /** Over a whole run the bans of one user and type number at most the multiples of the
      interval in the total; they number exactly that if and only if no single call crossed
      two of them, so in particular when no score exceeds the interval. */
  lemma BansNumberTheMultiples(cfg: Config, calls: seq<Call>, violation: ViolationType, user: UserId, log: seq<Entry>)
    requires cfg.interval > 0.0 && Logged(cfg, calls, violation, user, log)
    ensures var most := Threshold(Total(calls, violation, user), cfg.interval);
      && BanCount(log) <= most
      && (BanCount(log) == most <==> SingleSteps(log, cfg.interval))
      && ((forall i :: 0 <= i < |calls| ==> calls[i].score <= cfg.interval) ==> BanCount(log) == most)
  {
    LogChains(cfg, calls, violation, user);
    CountIsTheSum(cfg, calls, violation, user);
    CallsOfAre(cfg, calls, violation, user);
    EntriesRise(cfg, log, CallsOf(calls, violation, user));
    BansOfChain(log, cfg.interval);
    if forall i :: 0 <= i < |calls| ==> calls[i].score <= cfg.interval {
      SmallScores(cfg, log, CallsOf(calls, violation, user));
    }
  }

  lemma EntriesRise(cfg: Config, log: seq<Entry>, calls: seq<Call>)
    requires cfg.interval > 0.0 && RecordsAll(cfg, log, calls) && BansAreOn(cfg, calls)
    ensures Rising(log) && BansWhenCrossing(log, cfg.interval)
  {
    forall i | 0 <= i < |log|
      ensures log[i].prev <= log[i].count
      ensures log[i].ban <==> Threshold(log[i].prev, cfg.interval) < Threshold(log[i].count, cfg.interval)
    {
      assert Records(cfg, log[i], calls[i]);
    }
  }

  lemma SmallScores(cfg: Config, log: seq<Entry>, calls: seq<Call>)
    requires cfg.interval > 0.0 && RecordsAll(cfg, log, calls)
    requires forall i :: 0 <= i < |calls| ==> calls[i].score <= cfg.interval
    ensures SingleSteps(log, cfg.interval)
  {
    forall i | 0 <= i < |log|
      ensures Threshold(log[i].count, cfg.interval) - Threshold(log[i].prev, cfg.interval) <= 1
    {
      assert Records(cfg, log[i], calls[i]);
      ThresholdRise(log[i].prev, log[i].count, cfg.interval);
    }
  }

  /** Whose calls banned someone. */
  predicate Banner(cfg: Config, s: Stores, c: Call, who: string)
    requires cfg.interval > 0.0
  {
    && Known(c) && (c.user.value == who || c.ip == Some(who))
    && var prev := CountOf(s, cfg, c.violation, c.user.value);
       Bans(cfg, c, prev, prev + c.score)
  }

  /** Only a user whose own call crossed a threshold, or the address it came from, is banned. */
  lemma {:induction false} NobodyElseIsBanned(cfg: Config, calls: seq<Call>, who: string)
    requires cfg.interval > 0.0 && who in Run(cfg, calls).bans
    ensures exists i :: 0 <= i < |calls| && Banner(cfg, Run(cfg, calls[..i]), calls[i], who)
  {
    var n := |calls| - 1;
    assert calls[..n] == calls[..|calls| - 1];
    if who in Run(cfg, calls[..n]).bans {
      NobodyElseIsBanned(cfg, calls[..n], who);
      var i :| 0 <= i < n && Banner(cfg, Run(cfg, calls[..n][..i]), calls[..n][i], who);
      assert calls[..n][..i] == calls[..i];
    } else {
      assert Banner(cfg, Run(cfg, calls[..n]), calls[n], who);
    }
  }

  // ----- The program -----

  predicate Fails(c: Call, p: Point) {
    c.fault.FailsAt? && c.fault.point == p
  }

  /** A call that fails at the count writes the count or nothing. */
  lemma FailsAtCount(cfg: Config, s: Stores, c: Call)
    requires cfg.interval > 0.0 && Known(c)
    ensures Fails(c, GetCount) ==> Step(cfg, s, c) == s
    ensures Fails(c, SetCount) ==> Step(cfg, s, c) == s.(counts := Step(cfg, s, c).counts)
    ensures Takes(cfg, s, c, SetCount) <==> !Fails(c, GetCount) && c.fault != FailsAt(SetCount, false)
  {
  }

  /** The log is written last, by a call that fails nowhere before it. */
  lemma TakesLogIff(cfg: Config, s: Stores, c: Call)
    requires cfg.interval > 0.0 && Known(c)
    ensures Takes(cfg, s, c, SetLog) <==>
      !(Throws(cfg, s, c) && c.fault.point != SetLog) && c.fault != FailsAt(SetLog, false)
  {
  }

  class ViolationStores {
    var counts: map<Slot, real>
    var logs: map<string, seq<Entry>>
    var bans: map<string, BanRecord>
    var signedOut: seq<UserId>

    function View(): Stores
      reads this
    {
      Stores(counts, logs, bans, signedOut)
    }

    constructor ()
      ensures View() == EMPTY
    {
      counts, logs, bans, signedOut := map[], map[], map[], [];
    }

    /** `threw` says that an await failed; otherwise the message may have gained a ban and its
        duration. */
    method BanViolation(cfg: Config, c: Call, message: Entry, ghost s: Stores) returns (threw: bool, message': Entry)
      requires cfg.interval > 0.0 && Known(c) && message.prev == CountOf(s, cfg, c.violation, c.user.value)
      requires message == EntryFor(cfg, c, message.prev).(ban := false, banDuration := None)
      requires Throws(cfg, s, c) ==> Rank(c.fault.point) > Rank(SetCount)
      requires bans == s.bans && signedOut == s.signedOut
      modifies this`bans, this`signedOut
      ensures threw <==> Throws(cfg, s, c) && Rank(c.fault.point) <= Rank(BanAddress)
      ensures !threw ==> message' == EntryFor(cfg, c, message.prev)
      ensures signedOut == Step(cfg, s, c).signedOut && bans == Step(cfg, s, c).bans
    {
      threw, message' := false, message;
      if !cfg.banEnabled {
        return;
      }
      var prevThreshold := (message.prev / cfg.interval).Floor;
      var currentThreshold := (message.count / cfg.interval).Floor;
      if prevThreshold >= currentThreshold {
        return;
      }
      if c.fault != FailsAt(Sessions, false) {
        signedOut := signedOut + [c.user.value];
      }
      if Fails(c, Sessions) {
        return true, message;
      }
      var duration := DurationOf(cfg, c);
      if duration <= 0 {
        return;
      }
      var expiresAt := c.now + duration;
      if c.fault != FailsAt(BanUser, false) {
        bans := bans[c.user.value := BanRecord(c.kind, None, message.count, duration, expiresAt)];
      }
      if Fails(c, BanUser) {
        return true, message;
      }
      if HasAddress(c) {
        if c.fault != FailsAt(BanAddress, false) {
          bans := bans[c.ip.value := BanRecord(c.kind, c.user, message.count, duration, expiresAt)];
        }
        if Fails(c, BanAddress) {
          return true, message;
        }
      }
      message' := message.(ban := true, banDuration := Some(duration));
    }

    method LogViolation(cfg: Config, c: Call)
      requires cfg.interval > 0.0 && c.violation != GENERAL
      modifies this
      ensures View() == Step(cfg, old(View()), c)
    {
      if !Known(c) {
        return;
      }
      FailsAtCount(cfg, View(), c);
      if Fails(c, GetCount) {
        return;
      }
      var key := KeyFor(cfg, c.violation, c.user.value);
      var slot := Slot(c.violation, key);
      var userViolations := if slot in counts then counts[slot] else 0.0;
      var violationCount := userViolations + c.score;
      if c.fault != FailsAt(SetCount, false) {
        counts := counts[slot := violationCount];
      }
      if Fails(c, SetCount) {
        return;
      }
      var message := Entry(c.violation, c.user.value, c.kind, userViolations, violationCount, c.now, false, None);
      var threw, message' := BanViolation(cfg, c, message, old(View()));
      if !threw {
        AppendToLog(cfg, c, key, message', old(View()));
      }
    }

    method AppendToLog(cfg: Config, c: Call, key: string, message: Entry, ghost s: Stores)
      requires cfg.interval > 0.0 && Known(c) && key == KeyFor(cfg, c.violation, c.user.value)
      requires message == EntryFor(cfg, c, CountOf(s, cfg, c.violation, c.user.value))
      requires Throws(cfg, s, c) ==> Rank(c.fault.point) >= Rank(GetLog)
      requires logs == s.logs
      modifies this`logs
      ensures logs == Step(cfg, s, c).logs
    {
      TakesLogIff(cfg, s, c);
      if Fails(c, GetLog) || c.fault == FailsAt(SetLog, false) {
        return;
      }
      StepLogs(cfg, s, c);
      var userLogs := if key in logs then logs[key] else [];
      logs := logs[key := userLogs + [message]];
    }
  }
}
