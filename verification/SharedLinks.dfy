/** The migration that turns the `isPublic` field of shared links into entries of the access
    control list, in batches whose bulk writes may fail in part or entirely. */
module SharedLinks {
  import opened Common

  type LinkId = nat
  type User = nat
  type Time = int

  /** The `isPublic` field: absent, true, false, or present with another value such as null. */
  datatype Flag = Missing | True | False | Other

  datatype Link = Link(user: Option<User>, isPublic: Flag, tenant: Option<string>, expiredAt: Option<Time>)

  type Links = map<LinkId, Link>

  /** What identifies an entry: the owner of a link, or the public. */
  datatype Key = Owner(link: LinkId, user: User) | Public(link: LinkId)

  datatype Role = OwnerRole | ViewerRole

  /** `role` stands for the role id and its permission bits. */
  datatype Entry = Entry(
    role: Role, grantedBy: Option<User>, grantedAt: Time, expiredAt: Option<Time>,
    userModel: bool, tenant: Option<string>)

  type Acl = map<Key, Entry>

  function Find(acl: Acl, k: Key): Option<Entry> {
    if k in acl then Some(acl[k]) else None
  }

  /** The upsert for `k`: some fields are always set, `expiredAt` and `grantedBy` only when the
      link has them, and the rest only on insertion. */
  function Upserted(prior: Option<Entry>, link: Link, k: Key, now: Time): Entry {
    var base := prior.GetOr(Entry(OwnerRole, None, 0, None, k.Owner?, link.tenant));
    base.(
      role := if k.Owner? then OwnerRole else ViewerRole,
      grantedBy := if k.Owner? then Some(k.user) else if link.user.Some? then link.user else base.grantedBy,
      grantedAt := now,
      expiredAt := if link.expiredAt.Some? then link.expiredAt else base.expiredAt)
  }

  /** The grants the migration makes: the owner, if known, and the public unless the field is
      absent or false. */
  predicate Wanted(links: Links, k: Key) {
    k.link in links &&
    match k
    case Owner(id, user) => links[id].user == Some(user)
    case Public(id) => links[id].isPublic.True? || links[id].isPublic.Other?
  }

  // ----- One bulk write -----

  /** The operations for one link, owner first. */
  function OpsOf(links: Links, id: LinkId): seq<Key>
    requires id in links
  {
    (if links[id].user.Some? then [Owner(id, links[id].user.value)] else [])
    + (if Wanted(links, Public(id)) then [Public(id)] else [])
  }

  predicate Known(links: Links, batch: seq<LinkId>) {
    forall i :: 0 <= i < |batch| ==> batch[i] in links
  }

  function OpsOfBatch(links: Links, batch: seq<LinkId>): seq<Key>
    requires Known(links, batch)
  {
    if batch == [] then []
    else OpsOfBatch(links, batch[..|batch| - 1]) + OpsOf(links, batch[|batch| - 1])
  }

  /** How a bulk write ends: well, with an error that lists write errors, or with one that does
      not. Either kind of error may come after landing at any indices, and the indices that the
      first kind lists need not be those that did not land: the list can even be empty. */
  datatype Bulk =
    | AllOk
    | WriteErrors(landed: set<nat>, listed: set<nat>)
    | Total(landed: set<nat>)

  predicate LandsAt(bulk: Bulk, i: nat) {
    match bulk
    case AllOk => true
    case WriteErrors(landed, _) => i in landed
    case Total(landed) => i in landed
  }

  type Clock = LinkId -> Time

  function Upsert(acl: Acl, links: Links, k: Key, at: Clock): Acl
    requires k.link in links
  {
    acl[k := Upserted(Find(acl, k), links[k.link], k, at(k.link))]
  }

  predicate OnLinks(links: Links, ops: seq<Key>) {
    forall i :: 0 <= i < |ops| ==> ops[i].link in links
  }

  function ApplyOps(acl: Acl, links: Links, ops: seq<Key>, bulk: Bulk, at: Clock): Acl
    requires OnLinks(links, ops)
  {
    if ops == [] then acl
    else
      var n := |ops| - 1;
      var before := ApplyOps(acl, links, ops[..n], bulk, at);
      if LandsAt(bulk, n) then Upsert(before, links, ops[n], at) else before
  }

  function LandedKeys(ops: seq<Key>, bulk: Bulk): set<Key> {
    if ops == [] then {}
    else
      var n := |ops| - 1;
      LandedKeys(ops[..n], bulk) + (if LandsAt(bulk, n) then {ops[n]} else {})
  }

  /** The links of the listed operations, looked up by index. */
  function FailedBy(ops: seq<Key>, listed: set<nat>): set<LinkId> {
    if ops == [] then {}
    else
      var n := |ops| - 1;
      FailedBy(ops[..n], listed) + (if n in listed then {ops[n].link} else {})
  }

  /** The links of the operations that did not land. */
  function Unlanded(ops: seq<Key>, bulk: Bulk): set<LinkId> {
    if ops == [] then {}
    else
      var n := |ops| - 1;
      Unlanded(ops[..n], bulk) + (if LandsAt(bulk, n) then {} else {ops[n].link})
  }

  /** The links with an operation that did not land and none that is listed. */
  function Silent(ops: seq<Key>, bulk: Bulk): set<LinkId> {
    if bulk.WriteErrors? then Unlanded(ops, bulk) - FailedBy(ops, bulk.listed) else {}
  }

  function Ids(batch: seq<LinkId>): set<LinkId> {
    if batch == [] then {} else Ids(batch[..|batch| - 1]) + {batch[|batch| - 1]}
  }

  function FailedLinks(batch: seq<LinkId>, ops: seq<Key>, bulk: Bulk): set<LinkId> {
    if ops == [] then {}
    else
      match bulk
      case AllOk => {}
      case WriteErrors(_, listed) => FailedBy(ops, listed)
      case Total(_) => Ids(batch)
  }

  // ----- The cursor -----

  /** `landed` collects the keys whose upsert landed and `silent` the links that failed without
      being listed, for stating properties. */
  datatype Progress = Progress(
    acl: Acl, failed: set<LinkId>, batch: seq<LinkId>, done: nat, landed: set<Key>, silent: set<LinkId>)

  function Process(links: Links, p: Progress, batch: seq<LinkId>, bulk: Bulk, at: Clock): Progress
    requires Known(links, batch)
  {
    var ops := OpsOfBatch(links, batch);
    OpsOnLinks(links, batch);
    Progress(ApplyOps(p.acl, links, ops, bulk, at), p.failed + FailedLinks(batch, ops, bulk), [], p.done + 1,
             p.landed + LandedKeys(ops, bulk), p.silent + Silent(ops, bulk))
  }

  /** Reading the links in the cursor's order, flushing whenever the batch is large enough. */
  function Cursor(links: Links, acl: Acl, order: seq<LinkId>, size: int, bulks: nat -> Bulk, at: Clock): (p: Progress)
    requires Known(links, order)
    ensures Known(links, p.batch)
  {
    if order == [] then Progress(acl, {}, [], 0, {}, {})
    else
      var n := |order| - 1;
      var p := Cursor(links, acl, order[..n], size, bulks, at);
      var batch := p.batch + [order[n]];
      if |batch| >= size then Process(links, p, batch, bulks(p.done), at) else p.(batch := batch)
  }

  function Finish(links: Links, p: Progress, bulks: nat -> Bulk, at: Clock): Progress
    requires Known(links, p.batch)
  {
    if |p.batch| > 0 then Process(links, p, p.batch, bulks(p.done), at) else p
  }

  lemma {:induction false} OpsOnLinks(links: Links, batch: seq<LinkId>)
    requires Known(links, batch)
    ensures OnLinks(links, OpsOfBatch(links, batch))
  {
    if batch != [] {
      OpsOnLinks(links, batch[..|batch| - 1]);
    }
  }

  // ----- What one bulk write does -----

  /** From `acl` to `after`: exactly the upserts in `landed`. */
  ghost predicate Effect(links: Links, acl: Acl, after: Acl, landed: set<Key>, at: Clock) {
    && (forall k :: k in landed ==> k.link in links)
    && (forall k :: k in landed && k.link in links ==>
          Find(after, k) == Some(Upserted(Find(acl, k), links[k.link], k, at(k.link))))
    && (forall k :: k !in landed ==> Find(after, k) == Find(acl, k))
  }

  /** What an upsert leaves of an entry already there: its tenant and principal model always,
      its expiry and granter unless the link has its own; the role goes by the key. */
  lemma UpsertRespects(prior: Option<Entry>, link: Link, k: Key, now: Time)
    ensures var e := Upserted(prior, link, k, now);
      && (e.role == OwnerRole <==> k.Owner?) && e.grantedAt == now
      && (k.Owner? ==> e.grantedBy == Some(k.user))
      && (e.expiredAt.None? <==> link.expiredAt.None? && (prior.None? || prior.value.expiredAt.None?))
      && (link.expiredAt.Some? ==> e.expiredAt == link.expiredAt)
      && (prior.Some? ==> e.tenant == prior.value.tenant && e.userModel == prior.value.userModel)
      && (prior.None? ==> e.tenant == link.tenant && e.userModel == k.Owner?)
      && (k.Public? && link.user.None? && prior.Some? ==> e.grantedBy == prior.value.grantedBy)
  {
  }

  lemma UpsertTwice(prior: Option<Entry>, link: Link, k: Key, now: Time)
    ensures Upserted(Some(Upserted(prior, link, k, now)), link, k, now) == Upserted(prior, link, k, now)
  {
  }

  lemma EffectUpsert(links: Links, acl: Acl, mid: Acl, landed: set<Key>, k: Key, at: Clock)
    requires Effect(links, acl, mid, landed, at) && k.link in links
    ensures Effect(links, acl, Upsert(mid, links, k, at), landed + {k}, at)
  {
    UpsertTwice(Find(acl, k), links[k.link], k, at(k.link));
  }

  lemma {:induction false} OpsEffect(
    acl0: Acl, acl: Acl, links: Links, ops: seq<Key>, bulk: Bulk, at: Clock, landed: set<Key>)
    requires OnLinks(links, ops) && Effect(links, acl0, acl, landed, at)
    ensures Effect(links, acl0, ApplyOps(acl, links, ops, bulk, at), landed + LandedKeys(ops, bulk), at)
  {
    if ops == [] {
      assert landed + LandedKeys(ops, bulk) == landed;
    } else {
      var n := |ops| - 1;
      var front := ops[..n];
      OpsEffect(acl0, acl, links, front, bulk, at, landed);
      if LandsAt(bulk, n) {
        EffectUpsert(links, acl0, ApplyOps(acl, links, front, bulk, at), landed + LandedKeys(front, bulk), ops[n], at);
        assert landed + LandedKeys(front, bulk) + {ops[n]} == landed + LandedKeys(ops, bulk);
      } else {
        assert LandedKeys(ops, bulk) == LandedKeys(front, bulk);
      }
    }
  }

  lemma {:induction false} LandedHas(ops: seq<Key>, bulk: Bulk, k: Key)
    ensures k in LandedKeys(ops, bulk) <==> exists i :: 0 <= i < |ops| && LandsAt(bulk, i) && ops[i] == k
  {
    if ops != [] {
      var n := |ops| - 1;
      LandedHas(ops[..n], bulk, k);
      assert forall i :: 0 <= i < n ==> ops[..n][i] == ops[i];
      assert LandsAt(bulk, n) && ops[n] == k ==> k in LandedKeys(ops, bulk);
    }
  }

  /** A link counts as failed if and only if one of its own operations is listed. */
  lemma {:induction false} AttributionIsExact(ops: seq<Key>, listed: set<nat>, id: LinkId)
    ensures id in FailedBy(ops, listed) <==> exists i :: 0 <= i < |ops| && i in listed && ops[i].link == id
  {
    if ops != [] {
      var n := |ops| - 1;
      AttributionIsExact(ops[..n], listed, id);
      assert forall i :: 0 <= i < n ==> ops[..n][i] == ops[i];
      assert n in listed && ops[n].link == id ==> id in FailedBy(ops, listed);
    }
  }

  lemma {:induction false} UnlandedHas(ops: seq<Key>, bulk: Bulk, id: LinkId)
    ensures id in Unlanded(ops, bulk) <==> exists i :: 0 <= i < |ops| && !LandsAt(bulk, i) && ops[i].link == id
  {
    if ops != [] {
      var n := |ops| - 1;
      UnlandedHas(ops[..n], bulk, id);
      assert forall i :: 0 <= i < n ==> ops[..n][i] == ops[i];
      assert !LandsAt(bulk, n) && ops[n].link == id ==> id in Unlanded(ops, bulk);
    }
  }

  /** A link fails in silence if and only if the error lists write errors, one of its operations
      did not land, and none of its operations is listed. */
  lemma SilentIff(ops: seq<Key>, bulk: Bulk, id: LinkId)
    ensures id in Silent(ops, bulk) <==>
      && bulk.WriteErrors?
      && (exists i :: 0 <= i < |ops| && !LandsAt(bulk, i) && ops[i].link == id)
      && !(exists i :: 0 <= i < |ops| && i in bulk.listed && ops[i].link == id)
  {
    UnlandedHas(ops, bulk, id);
    if bulk.WriteErrors? {
      AttributionIsExact(ops, bulk.listed, id);
    }
  }

  lemma {:induction false} IdsHas(batch: seq<LinkId>, id: LinkId)
    ensures id in Ids(batch) <==> id in batch
  {
    if batch != [] {
      IdsHas(batch[..|batch| - 1], id);
    }
  }

  /** The operations of a batch are exactly the wanted grants of its links. */
  lemma {:induction false} OpsAreWanted(links: Links, batch: seq<LinkId>, k: Key)
    requires Known(links, batch)
    ensures k in OpsOfBatch(links, batch) <==> Wanted(links, k) && k.link in batch
  {
    if batch != [] {
      var n := |batch| - 1;
      OpsAreWanted(links, batch[..n], k);
      assert batch == batch[..n] + [batch[n]];
      assert k in OpsOf(links, batch[n]) <==> Wanted(links, k) && k.link == batch[n];
    }
  }

  /** Every wanted grant of a batch lands, or its link counts as failed, or it failed in
      silence. */
  lemma NothingIsForgotten(links: Links, batch: seq<LinkId>, bulk: Bulk, k: Key)
    requires Known(links, batch) && Wanted(links, k) && k.link in batch
    ensures var ops := OpsOfBatch(links, batch);
      k in LandedKeys(ops, bulk) || k.link in FailedLinks(batch, ops, bulk) || k.link in Silent(ops, bulk)
  {
    var ops := OpsOfBatch(links, batch);
    OpsAreWanted(links, batch, k);
    var i :| 0 <= i < |ops| && ops[i] == k;
    LandedHas(ops, bulk, k);
    IdsHas(batch, k.link);
    UnlandedHas(ops, bulk, k.link);
  }

  lemma ChargedAreInBatch(links: Links, batch: seq<LinkId>, bulk: Bulk, id: LinkId)
    requires Known(links, batch)
    requires var ops := OpsOfBatch(links, batch); id in FailedLinks(batch, ops, bulk) || id in Silent(ops, bulk)
    ensures id in batch
  {
    var ops := OpsOfBatch(links, batch);
    IdsHas(batch, id);
    if bulk.WriteErrors? {
      AttributionIsExact(ops, bulk.listed, id);
      UnlandedHas(ops, bulk, id);
      var i :| 0 <= i < |ops| && ops[i].link == id;
      OpsAreWanted(links, batch, ops[i]);
    }
  }

  predicate Distinct<T(==)>(xs: seq<T>) {
    forall i, j :: 0 <= i < j < |xs| ==> xs[i] != xs[j]
  }

  lemma {:induction false} OpsAreDistinct(links: Links, batch: seq<LinkId>)
    requires Known(links, batch) && Distinct(batch)
    ensures Distinct(OpsOfBatch(links, batch))
  {
    if batch != [] {
      var n := |batch| - 1;
      var front, last := OpsOfBatch(links, batch[..n]), OpsOf(links, batch[n]);
      OpsAreDistinct(links, batch[..n]);
      forall i, j | 0 <= i < |front| && 0 <= j < |last| ensures front[i] != last[j] {
        OpsAreWanted(links, batch[..n], front[i]);
      }
      DistinctConcat(front, last);
    }
  }

  lemma DistinctConcat<T>(xs: seq<T>, ys: seq<T>)
    requires Distinct(xs) && Distinct(ys)
    requires forall i, j :: 0 <= i < |xs| && 0 <= j < |ys| ==> xs[i] != ys[j]
    ensures Distinct(xs + ys)
  {
  }

  /** A link that failed in silence has a wanted grant that did not land, and is not charged. */
  lemma SilentMeans(links: Links, batch: seq<LinkId>, bulk: Bulk, id: LinkId) returns (k: Key)
    requires Known(links, batch) && Distinct(batch) && id in Silent(OpsOfBatch(links, batch), bulk)
    ensures var ops := OpsOfBatch(links, batch);
      Wanted(links, k) && k.link == id && k !in LandedKeys(ops, bulk) && id !in FailedLinks(batch, ops, bulk)
  {
    var ops := OpsOfBatch(links, batch);
    UnlandedHas(ops, bulk, id);
    var i :| 0 <= i < |ops| && !LandsAt(bulk, i) && ops[i].link == id;
    k := ops[i];
    OpsAreWanted(links, batch, k);
    OpsAreDistinct(links, batch);
    LandedHas(ops, bulk, k);
  }

  // ----- What a whole pass does -----

  ghost predicate Accounted(links: Links, seen: seq<LinkId>, p: Progress) {
    && (forall k :: k in p.landed ==> Wanted(links, k) && k.link in seen)
    && (forall k :: Wanted(links, k) && k.link in seen && k !in p.landed ==> k.link in p.failed || k.link in p.silent)
    && (forall id :: id in p.failed || id in p.silent ==> id in seen)
  }

  lemma ProcessAccounts(links: Links, seen: seq<LinkId>, p: Progress, batch: seq<LinkId>, bulk: Bulk, at: Clock)
    requires Known(links, batch) && Accounted(links, seen, p)
    ensures Accounted(links, seen + batch, Process(links, p, batch, bulk, at))
  {
    var p' := Process(links, p, batch, bulk, at);
    var ops := OpsOfBatch(links, batch);
    forall k | k in p'.landed ensures Wanted(links, k) && k.link in seen + batch {
      LandedHas(ops, bulk, k);
      OpsAreWanted(links, batch, k);
    }
    forall k | Wanted(links, k) && k.link in seen + batch && k !in p'.landed
      ensures k.link in p'.failed || k.link in p'.silent
    {
      if k.link in batch {
        NothingIsForgotten(links, batch, bulk, k);
      }
    }
    forall id | id in p'.failed || id in p'.silent ensures id in seen + batch {
      if id !in p.failed && id !in p.silent {
        ChargedAreInBatch(links, batch, bulk, id);
      }
    }
  }

  /** Some wanted grant of the link did not land, and the link is not charged. */
  ghost predicate Forgotten(links: Links, p: Progress, id: LinkId) {
    id !in p.failed && exists k :: Wanted(links, k) && k.link == id && k !in p.landed
  }

  ghost predicate SilentAreForgotten(links: Links, p: Progress) {
    forall id :: id in p.silent ==> Forgotten(links, p, id)
  }

  lemma ProcessForgets(links: Links, seen: seq<LinkId>, p: Progress, batch: seq<LinkId>, bulk: Bulk, at: Clock)
    requires Known(links, batch) && Distinct(seen + batch) && Accounted(links, seen, p) && SilentAreForgotten(links, p)
    ensures SilentAreForgotten(links, Process(links, p, batch, bulk, at))
  {
    var p' := Process(links, p, batch, bulk, at);
    var ops := OpsOfBatch(links, batch);
    Apart(seen, batch);
    forall id | id in p'.silent ensures Forgotten(links, p', id) {
      if id in p.silent {
        assert Forgotten(links, p, id);
        var k :| Wanted(links, k) && k.link == id && k !in p.landed;
        StaysUnlanded(links, batch, bulk, k);
        NotCharged(links, batch, bulk, id);
      } else {
        ChargedAreInBatch(links, batch, bulk, id);
        var k := SilentMeans(links, batch, bulk, id);
        assert Wanted(links, k) && k.link == id && k !in p'.landed;
      }
    }
  }

  lemma Apart(seen: seq<LinkId>, batch: seq<LinkId>)
    requires Distinct(seen + batch)
    ensures Distinct(batch) && forall id :: id in seen ==> id !in batch
  {
    var all := seen + batch;
    forall i, j | 0 <= i < j < |batch| ensures batch[i] != batch[j] {
      assert all[|seen| + i] == batch[i] && all[|seen| + j] == batch[j];
    }
    forall i, j | 0 <= i < |seen| && 0 <= j < |batch| ensures seen[i] != batch[j] {
      assert all[i] == seen[i] && all[|seen| + j] == batch[j];
    }
  }

  lemma StaysUnlanded(links: Links, batch: seq<LinkId>, bulk: Bulk, k: Key)
    requires Known(links, batch) && k.link !in batch
    ensures k !in LandedKeys(OpsOfBatch(links, batch), bulk)
  {
    LandedHas(OpsOfBatch(links, batch), bulk, k);
    OpsAreWanted(links, batch, k);
  }

  lemma NotCharged(links: Links, batch: seq<LinkId>, bulk: Bulk, id: LinkId)
    requires Known(links, batch) && id !in batch
    ensures id !in FailedLinks(batch, OpsOfBatch(links, batch), bulk)
  {
    if id in FailedLinks(batch, OpsOfBatch(links, batch), bulk) {
      ChargedAreInBatch(links, batch, bulk, id);
    }
  }

  lemma ProcessEffect(links: Links, acl: Acl, p: Progress, batch: seq<LinkId>, bulk: Bulk, at: Clock)
    requires Known(links, batch) && Effect(links, acl, p.acl, p.landed, at)
    ensures var p' := Process(links, p, batch, bulk, at); Effect(links, acl, p'.acl, p'.landed, at)
  {
    OpsOnLinks(links, batch);
    OpsEffect(acl, p.acl, links, OpsOfBatch(links, batch), bulk, at, p.landed);
  }

  /** `seen` is the part of the order already processed. */
  ghost predicate CursorOk(
    links: Links, acl: Acl, order: seq<LinkId>, size: int, at: Clock, seen: seq<LinkId>, p: Progress) {
    && order == seen + p.batch && Accounted(links, seen, p) && Effect(links, acl, p.acl, p.landed, at)
    && (|p.batch| < size || p.batch == [])
  }

  lemma FlushOk(
    links: Links, acl: Acl, order: seq<LinkId>, size: int, at: Clock, seen: seq<LinkId>, p: Progress,
    batch: seq<LinkId>, bulk: Bulk)
    requires Known(links, batch) && Accounted(links, seen, p) && Effect(links, acl, p.acl, p.landed, at)
    requires order == seen + batch
    ensures CursorOk(links, acl, order, size, at, order, Process(links, p, batch, bulk, at))
  {
    ProcessAccounts(links, seen, p, batch, bulk, at);
    ProcessEffect(links, acl, p, batch, bulk, at);
    assert order == order + [];
  }

  lemma {:induction false} CursorFacts(
    links: Links, acl: Acl, order: seq<LinkId>, size: int, bulks: nat -> Bulk, at: Clock) returns (seen: seq<LinkId>)
    requires Known(links, order)
    ensures CursorOk(links, acl, order, size, at, seen, Cursor(links, acl, order, size, bulks, at))
  {
    if order == [] {
      return [];
    }
    var n := |order| - 1;
    var before := CursorFacts(links, acl, order[..n], size, bulks, at);
    var p := Cursor(links, acl, order[..n], size, bulks, at);
    var batch := p.batch + [order[n]];
    assert order == before + batch;
    if |batch| >= size {
      FlushOk(links, acl, order, size, at, before, p, batch, bulks(p.done));
      return order;
    }
    assert Accounted(links, before, p.(batch := batch));
    return before;
  }

  function Pass(links: Links, acl: Acl, order: seq<LinkId>, size: int, bulks: nat -> Bulk, at: Clock): Progress
    requires Known(links, order)
  {
    Finish(links, Cursor(links, acl, order, size, bulks, at), bulks, at)
  }

  /** A pass over the links: each wanted grant of each link lands, or is charged to its link, or
      its link failed in silence, and nothing else in the list changes. */
  lemma PassFacts(links: Links, acl: Acl, order: seq<LinkId>, size: int, bulks: nat -> Bulk, at: Clock)
    requires Known(links, order)
    ensures var p := Pass(links, acl, order, size, bulks, at);
      Accounted(links, order, p) && Effect(links, acl, p.acl, p.landed, at)
  {
    var seen := CursorFacts(links, acl, order, size, bulks, at);
    var p := Cursor(links, acl, order, size, bulks, at);
    if |p.batch| > 0 {
      ProcessAccounts(links, seen, p, p.batch, bulks(p.done), at);
      ProcessEffect(links, acl, p, p.batch, bulks(p.done), at);
    } else {
      assert seen == order;
    }
  }

  /** When the cursor returns no link twice, the links that failed in silence are exactly those
      with a wanted grant that did not land and that are not charged. */
  lemma SilentIffForgotten(
    links: Links, acl: Acl, order: seq<LinkId>, size: int, bulks: nat -> Bulk, at: Clock, id: LinkId)
    requires Known(links, order) && Distinct(order) && id in order
    ensures var p := Pass(links, acl, order, size, bulks, at);
      id in p.silent <==> Forgotten(links, p, id)
  {
    PassFacts(links, acl, order, size, bulks, at);
    var seen := CursorFacts(links, acl, order, size, bulks, at);
    CursorForgets(links, acl, order, size, bulks, at);
    var p := Cursor(links, acl, order, size, bulks, at);
    if |p.batch| > 0 {
      ProcessForgets(links, seen, p, p.batch, bulks(p.done), at);
    }
  }

  lemma {:induction false} CursorForgets(
    links: Links, acl: Acl, order: seq<LinkId>, size: int, bulks: nat -> Bulk, at: Clock)
    requires Known(links, order) && Distinct(order)
    ensures SilentAreForgotten(links, Cursor(links, acl, order, size, bulks, at))
  {
    if order != [] {
      var n := |order| - 1;
      CursorForgets(links, acl, order[..n], size, bulks, at);
      var before := CursorFacts(links, acl, order[..n], size, bulks, at);
      var p := Cursor(links, acl, order[..n], size, bulks, at);
      var batch := p.batch + [order[n]];
      assert order == before + batch;
      if |batch| >= size {
        ProcessForgets(links, before, p, batch, bulks(p.done), at);
      } else {
        SameForgotten(links, p, p.(batch := batch));
      }
    }
  }

  lemma SameForgotten(links: Links, p: Progress, p': Progress)
    requires SilentAreForgotten(links, p) && p' == p.(batch := p'.batch)
    ensures SilentAreForgotten(links, p')
  {
    forall id | id in p'.silent ensures Forgotten(links, p', id) {
      assert Forgotten(links, p, id);
    }
  }

  // ----- A run of the migration -----

  datatype State = State(links: Links, acl: Acl)

  /** Removing the field may itself fail after reaching some links. */
  datatype Removal = Removed | PartlyRemoved(reached: set<LinkId>)

  predicate Reaches(removal: Removal, id: LinkId) {
    removal.Removed? || id in removal.reached
  }

  function WithoutFlag(links: Links, failed: set<LinkId>, removal: Removal): Links {
    map id | id in links ::
      if id !in failed && Reaches(removal, id) then links[id].(isPublic := Missing) else links[id]
  }

  /** What one run meets: the order of the cursor, the number of links after which it breaks
      off if it does, the configured batch size, the outcome of each bulk write and of the
      removal, and the times it reads. */
  datatype Conditions = Conditions(
    order: seq<LinkId>, cut: Option<nat>, size: int, bulks: nat -> Bulk, removal: Removal, at: Clock)

  predicate HasHidden(links: Links) {
    exists id :: id in links && links[id].isPublic.False?
  }

  ghost predicate Visits(c: Conditions, links: Links) {
    forall id :: id in c.order <==> id in links
  }

  ghost predicate Clean(c: Conditions) {
    c.removal.Removed? && c.cut.None? && forall i :: c.bulks(i) == AllOk
  }

  /** Failing to read on, or to remove the field, ends the run with an exception. */
  datatype Report = Aborted | NothingToDo | Threw | Ran(failed: set<LinkId>)

  /** What the cursor returned before it broke off. */
  function ReadOf(order: seq<LinkId>, cut: Option<nat>): seq<LinkId> {
    if cut.Some? && cut.value < |order| then order[..cut.value] else order
  }

  function Migrate(s: State, force: bool, c: Conditions): (State, Report)
    requires Visits(c, s.links)
  {
    if HasHidden(s.links) && !force then (s, Aborted)
    else if s.links == map[] then (s, NothingToDo)
    else if c.cut.Some? then
      (State(s.links, Cursor(s.links, s.acl, ReadOf(c.order, c.cut), c.size, c.bulks, c.at).acl), Threw)
    else
      var p := Pass(s.links, s.acl, c.order, c.size, c.bulks, c.at);
      (State(WithoutFlag(s.links, p.failed, c.removal), p.acl), if c.removal.Removed? then Ran(p.failed) else Threw)
  }

  /** The run got as far as removing the field, with `p` done. */
  ghost predicate Finishes(s: State, force: bool, c: Conditions, p: Progress)
    requires Visits(c, s.links)
  {
    && (HasHidden(s.links) ==> force) && s.links != map[] && c.cut.None?
    && p == Pass(s.links, s.acl, c.order, c.size, c.bulks, c.at)
  }

  function Timeless(e: Option<Entry>): Option<Entry> {
    match e
    case Some(entry) => Some(entry.(grantedAt := 0))
    case None => None
  }

  /** The entry under a key, but for the time it was granted. */
  function Grant(acl: Acl, k: Key): Option<Entry> {
    Timeless(Find(acl, k))
  }

  /** The same up to the times of granting. */
  ghost predicate SameGrants(a: Acl, b: Acl) {
    forall k :: Grant(a, k) == Grant(b, k)
  }

  lemma FinishFacts(s: State, force: bool, c: Conditions, p: Progress)
    requires Visits(c, s.links) && Finishes(s, force, c, p)
    ensures Migrate(s, force, c).0 == State(WithoutFlag(s.links, p.failed, c.removal), p.acl)
    ensures Accounted(s.links, c.order, p) && Effect(s.links, s.acl, p.acl, p.landed, c.at)
  {
    PassFacts(s.links, s.acl, c.order, c.size, c.bulks, c.at);
  }

  /** The grant an upsert leaves under `k`, whenever it runs. */
  function Granted(acl: Acl, links: Links, k: Key): Option<Entry>
    requires k.link in links
  {
    Some(Upserted(Find(acl, k), links[k.link], k, 0))
  }

  /** Whatever fails, each key either keeps its grant or has the one the migration makes, only
      wanted keys change, and of the links only the field. */
  ghost predicate Between(s0: State, s: State) {
    && s.links.Keys == s0.links.Keys
    && (forall id :: id in s0.links ==>
          s.links[id] == s0.links[id] || s.links[id] == s0.links[id].(isPublic := Missing))
    && (forall k :: !Wanted(s0.links, k) ==> Grant(s.acl, k) == Grant(s0.acl, k))
    && (forall k :: Wanted(s0.links, k) ==>
          Grant(s.acl, k) == Grant(s0.acl, k) || Grant(s.acl, k) == Granted(s0.acl, s0.links, k))
  }

  /** Every grant that is no longer called for, its field being gone, has been made. */
  ghost predicate Lossless(s0: State, s: State) {
    forall k :: Wanted(s0.links, k) && !Wanted(s.links, k) ==> Grant(s.acl, k) == Granted(s0.acl, s0.links, k)
  }

  lemma LandedGrant(links: Links, acl: Acl, after: Acl, landed: set<Key>, at: Clock, k: Key)
    requires Effect(links, acl, after, landed, at)
    ensures k in landed ==> k.link in links && Grant(after, k) == Granted(acl, links, k)
    ensures k !in landed ==> Grant(after, k) == Grant(acl, k)
  {
    assert k in landed ==> Find(after, k) == Some(Upserted(Find(acl, k), links[k.link], k, at(k.link)));
    assert k !in landed ==> Find(after, k) == Find(acl, k);
  }

  /** A run leaves every other key and every other field untouched, whatever fails, and it
      loses no grant if no link failed in silence. */
  lemma RunKeepsBetween(s: State, force: bool, c: Conditions)
    requires Visits(c, s.links)
    ensures Between(s, Migrate(s, force, c).0)
    ensures Candid(s, force, c) ==> Lossless(s, Migrate(s, force, c).0)
    ensures Migrate(s, force, c).1.Aborted? || Migrate(s, force, c).1.NothingToDo? ==> Migrate(s, force, c).0 == s
  {
    var p := Pass(s.links, s.acl, c.order, c.size, c.bulks, c.at);
    if Finishes(s, force, c, p) {
      FinishFacts(s, force, c, p);
      FinishBetween(s, c, p);
    } else if c.cut.Some? {
      CutBetween(s, c);
    }
  }

  /** In this run no link fails in silence. */
  ghost predicate Candid(s: State, force: bool, c: Conditions)
    requires Visits(c, s.links)
  {
    forall p :: Finishes(s, force, c, p) ==> p.silent == {}
  }

  lemma EffectBetween(s: State, acl: Acl, landed: set<Key>, at: Clock)
    requires Effect(s.links, s.acl, acl, landed, at) && forall k :: k in landed ==> Wanted(s.links, k)
    ensures forall k :: !Wanted(s.links, k) ==> Grant(acl, k) == Grant(s.acl, k)
    ensures forall k :: Wanted(s.links, k) ==>
      Grant(acl, k) == Grant(s.acl, k) || Grant(acl, k) == Granted(s.acl, s.links, k)
    ensures forall k :: k in landed ==> Grant(acl, k) == Granted(s.acl, s.links, k)
  {
    forall k
      ensures !Wanted(s.links, k) ==> Grant(acl, k) == Grant(s.acl, k)
      ensures Wanted(s.links, k) ==> Grant(acl, k) == Grant(s.acl, k) || Grant(acl, k) == Granted(s.acl, s.links, k)
      ensures k in landed ==> Grant(acl, k) == Granted(s.acl, s.links, k)
    {
      LandedGrant(s.links, s.acl, acl, landed, at, k);
    }
  }

  lemma FinishBetween(s: State, c: Conditions, p: Progress)
    requires Visits(c, s.links)
    requires Accounted(s.links, c.order, p) && Effect(s.links, s.acl, p.acl, p.landed, c.at)
    ensures var s' := State(WithoutFlag(s.links, p.failed, c.removal), p.acl);
      Between(s, s') && (p.silent == {} ==> Lossless(s, s'))
  {
    EffectBetween(s, p.acl, p.landed, c.at);
  }

  lemma CutBetween(s: State, c: Conditions)
    requires Visits(c, s.links)
    ensures var acl := Cursor(s.links, s.acl, ReadOf(c.order, c.cut), c.size, c.bulks, c.at).acl;
      Between(s, State(s.links, acl)) && Lossless(s, State(s.links, acl))
  {
    var p := Cursor(s.links, s.acl, ReadOf(c.order, c.cut), c.size, c.bulks, c.at);
    var seen := CursorFacts(s.links, s.acl, ReadOf(c.order, c.cut), c.size, c.bulks, c.at);
    EffectBetween(s, p.acl, p.landed, c.at);
  }

  /** From which links a run that gets that far removes the field: exactly from those it reaches
      and does not charge. Of these links all own grants have landed if and only if the link did
      not fail in silence. */
  lemma FlagGoesOnlyWhenGrantedIff(s: State, force: bool, c: Conditions, p: Progress, id: LinkId)
    requires Visits(c, s.links) && Distinct(c.order) && Finishes(s, force, c, p)
    requires id in s.links && !s.links[id].isPublic.Missing?
    ensures var s' := Migrate(s, force, c).0;
      && (s'.links[id].isPublic.Missing? <==> id !in p.failed && Reaches(c.removal, id))
      && (s'.links[id].isPublic.Missing? ==>
            ((forall k :: Wanted(s.links, k) && k.link == id ==> k in p.landed) <==> id !in p.silent))
      && (forall k :: k in p.landed && Wanted(s.links, k) ==>
            Find(s'.acl, k) == Some(Upserted(Find(s.acl, k), s.links[k.link], k, c.at(k.link))))
      && (forall k :: k !in p.landed ==> Find(s'.acl, k) == Find(s.acl, k))
  {
    FinishFacts(s, force, c, p);
    SilentIffForgotten(s.links, s.acl, c.order, c.size, c.bulks, c.at, id);
  }

  /** When every error lists all that did not land, no link fails in silence. */
  lemma FullListsAreCandid(s: State, force: bool, c: Conditions)
    requires Visits(c, s.links)
    requires forall b :: c.bulks(b).WriteErrors? ==> forall i: nat :: i in c.bulks(b).landed || i in c.bulks(b).listed
    ensures Candid(s, force, c)
  {
    var p := Cursor(s.links, s.acl, c.order, c.size, c.bulks, c.at);
    CursorCandid(s.links, s.acl, c.order, c.size, c.bulks, c.at);
    if |p.batch| > 0 {
      FullListSilencesNobody(OpsOfBatch(s.links, p.batch), c.bulks(p.done));
    }
  }

  lemma FullListSilencesNobody(ops: seq<Key>, bulk: Bulk)
    requires bulk.WriteErrors? ==> forall i: nat :: i in bulk.landed || i in bulk.listed
    ensures Silent(ops, bulk) == {}
  {
    forall id | id in Silent(ops, bulk) ensures false {
      SilentIff(ops, bulk, id);
    }
  }

  lemma {:induction false} CursorCandid(
    links: Links, acl: Acl, order: seq<LinkId>, size: int, bulks: nat -> Bulk, at: Clock)
    requires Known(links, order)
    requires forall b :: bulks(b).WriteErrors? ==> forall i: nat :: i in bulks(b).landed || i in bulks(b).listed
    ensures Cursor(links, acl, order, size, bulks, at).silent == {}
  {
    if order != [] {
      var n := |order| - 1;
      CursorCandid(links, acl, order[..n], size, bulks, at);
      var p := Cursor(links, acl, order[..n], size, bulks, at);
      FullListSilencesNobody(OpsOfBatch(links, p.batch + [order[n]]), bulks(p.done));
    }
  }

  lemma {:induction false} CleanCursorFailsNothing(
    links: Links, acl: Acl, order: seq<LinkId>, size: int, bulks: nat -> Bulk, at: Clock)
    requires Known(links, order) && forall i :: bulks(i) == AllOk
    ensures Cursor(links, acl, order, size, bulks, at).failed == {}
    ensures Cursor(links, acl, order, size, bulks, at).silent == {}
  {
    if order != [] {
      CleanCursorFailsNothing(links, acl, order[..|order| - 1], size, bulks, at);
    }
  }

  /** A run without failures makes exactly the wanted grants, changes no other entry, and
      removes the field from every link. */
  lemma CleanRunMigrates(s: State, force: bool, c: Conditions)
    requires Visits(c, s.links) && Clean(c) && Migrate(s, force, c).1.Ran?
    ensures var (s', report) := Migrate(s, force, c);
      && report == Ran({})
      && (forall k :: Grant(s'.acl, k) == if Wanted(s.links, k) then Granted(s.acl, s.links, k) else Grant(s.acl, k))
      && (forall k :: Wanted(s.links, k) ==> k in s'.acl && s'.acl[k].grantedAt == c.at(k.link))
      && s'.links == map id | id in s.links :: s.links[id].(isPublic := Missing)
  {
    CleanCursorFailsNothing(s.links, s.acl, c.order, c.size, c.bulks, c.at);
    var p := Pass(s.links, s.acl, c.order, c.size, c.bulks, c.at);
    FinishFacts(s, force, c, p);
    assert p.failed == {} && p.silent == {};
    CleanAcl(s, c, p);
  }

  lemma CleanAcl(s: State, c: Conditions, p: Progress)
    requires Visits(c, s.links) && p.failed == {} && p.silent == {}
    requires Accounted(s.links, c.order, p) && Effect(s.links, s.acl, p.acl, p.landed, c.at)
    ensures forall k :: Grant(p.acl, k) == if Wanted(s.links, k) then Granted(s.acl, s.links, k) else Grant(s.acl, k)
    ensures forall k :: Wanted(s.links, k) ==> k in p.acl && p.acl[k].grantedAt == c.at(k.link)
  {
    forall k ensures Grant(p.acl, k) == if Wanted(s.links, k) then Granted(s.acl, s.links, k) else Grant(s.acl, k)
      ensures Wanted(s.links, k) ==> k in p.acl && p.acl[k].grantedAt == c.at(k.link)
    {
      assert k in p.landed <==> Wanted(s.links, k);
      LandedGrant(s.links, s.acl, p.acl, p.landed, c.at, k);
      assert k in p.landed ==> Find(p.acl, k) == Some(Upserted(Find(s.acl, k), s.links[k.link], k, c.at(k.link)));
    }
  }

  /** Without failures neither the batch size nor the order of the cursor matters. */
  lemma BatchSizeDoesNotMatter(s: State, force: bool, c: Conditions, d: Conditions)
    requires Visits(c, s.links) && Clean(c) && Visits(d, s.links) && Clean(d)
    ensures var (s1, r1) := Migrate(s, force, c); var (s2, r2) := Migrate(s, force, d);
      r1 == r2 && s1.links == s2.links && SameGrants(s1.acl, s2.acl)
  {
    if Migrate(s, force, c).1.Ran? {
      CleanRunMigrates(s, force, c);
      CleanRunMigrates(s, force, d);
    }
  }

  // ----- Runs after failures -----

  lemma GrantedTwice(s0: State, s: State, k: Key)
    requires Between(s0, s) && Wanted(s.links, k)
    ensures Wanted(s0.links, k) && Granted(s.acl, s.links, k) == Granted(s0.acl, s0.links, k)
  {
    WantedShrinks(s0, s, k);
    SameUpsert(Find(s.acl, k), Find(s0.acl, k), s.links[k.link], s0.links[k.link], k);
  }

  lemma SameUpsert(now: Option<Entry>, prior: Option<Entry>, link: Link, link0: Link, k: Key)
    requires link == link0 || link == link0.(isPublic := Missing)
    requires Timeless(now) == Timeless(prior) || Timeless(now) == Some(Upserted(prior, link0, k, 0))
    ensures Upserted(now, link, k, 0) == Upserted(prior, link0, k, 0)
  {
  }

  lemma BetweenTransitive(s0: State, s1: State, s2: State)
    requires Between(s0, s1) && Between(s1, s2)
    ensures Between(s0, s2)
    ensures Lossless(s0, s1) && Lossless(s1, s2) ==> Lossless(s0, s2)
  {
    forall k
      ensures !Wanted(s0.links, k) ==> Grant(s2.acl, k) == Grant(s0.acl, k)
      ensures Wanted(s0.links, k) ==>
        Grant(s2.acl, k) == Grant(s0.acl, k) || Grant(s2.acl, k) == Granted(s0.acl, s0.links, k)
      ensures Lossless(s0, s1) && Lossless(s1, s2) && Wanted(s0.links, k) && !Wanted(s2.links, k) ==>
        Grant(s2.acl, k) == Granted(s0.acl, s0.links, k)
    {
      WantedShrinks(s0, s1, k);
      WantedShrinks(s1, s2, k);
      if Wanted(s1.links, k) {
        GrantedTwice(s0, s1, k);
      }
    }
  }

  lemma WantedShrinks(s0: State, s: State, k: Key)
    requires Between(s0, s)
    ensures Wanted(s.links, k) ==> Wanted(s0.links, k)
  {
  }

  ghost predicate AllVisit(cs: seq<Conditions>, links: Links) {
    forall i :: 0 <= i < |cs| ==> Visits(cs[i], links)
  }

  /** Any number of runs, one after the other. */
  function Runs(s: State, force: bool, cs: seq<Conditions>): (r: State)
    requires AllVisit(cs, s.links)
    ensures r.links.Keys == s.links.Keys
  {
    if cs == [] then s
    else
      var before := Runs(s, force, cs[..|cs| - 1]);
      Migrate(before, force, cs[|cs| - 1]).0
  }

  /** In none of the runs a link fails in silence. */
  ghost predicate AllCandid(s: State, force: bool, cs: seq<Conditions>)
    requires AllVisit(cs, s.links)
  {
    cs == []
    || (AllCandid(s, force, cs[..|cs| - 1]) && Candid(Runs(s, force, cs[..|cs| - 1]), force, cs[|cs| - 1]))
  }

  lemma {:induction false} RunsBetween(s: State, force: bool, cs: seq<Conditions>)
    requires AllVisit(cs, s.links)
    ensures Between(s, Runs(s, force, cs))
    ensures AllCandid(s, force, cs) ==> Lossless(s, Runs(s, force, cs))
    ensures !HasHidden(s.links) ==> !HasHidden(Runs(s, force, cs).links)
  {
    if cs != [] {
      var n := |cs| - 1;
      RunsBetween(s, force, cs[..n]);
      var before := Runs(s, force, cs[..n]);
      RunKeepsBetween(before, force, cs[n]);
      BetweenTransitive(s, before, Migrate(before, force, cs[n]).0);
    }
  }

  /** Any number of runs, whatever failed in them, leads from `s` to `mid`. */
  ghost predicate Leads(s: State, force: bool, mid: State) {
    exists cs: seq<Conditions> :: AllVisit(cs, s.links) && mid == Runs(s, force, cs)
  }

  ghost predicate LeadsCandidly(s: State, force: bool, mid: State) {
    exists cs: seq<Conditions> :: AllVisit(cs, s.links) && AllCandid(s, force, cs) && mid == Runs(s, force, cs)
  }

  lemma LeadsBetween(s: State, force: bool, mid: State)
    requires Leads(s, force, mid)
    ensures Between(s, mid) && (!HasHidden(s.links) ==> !HasHidden(mid.links))
  {
    var cs: seq<Conditions> :| AllVisit(cs, s.links) && mid == Runs(s, force, cs);
    RunsBetween(s, force, cs);
  }

  /** After any number of failed runs, one run without failures ends like a single run without
      failures, with the same report and the same fields; and it leaves the same grants if and
      only if the failed runs removed no field whose grant they had not made. */
  lemma RerunConvergesIff(s: State, force: bool, mid: State, c: Conditions, single: Conditions)
    requires Leads(s, force, mid)
    requires Visits(c, mid.links) && Clean(c) && Visits(single, s.links) && Clean(single)
    requires !Migrate(s, force, single).1.Aborted?
    ensures var (s1, r1) := Migrate(mid, force, c); var (s2, r2) := Migrate(s, force, single);
      r1 == r2 && s1.links == s2.links && (SameGrants(s1.acl, s2.acl) <==> Lossless(s, mid))
  {
    LeadsBetween(s, force, mid);
    CleanConverges(s, mid, force, c, single);
  }

  /** So it converges whenever no link failed in silence. */
  lemma RerunConverges(s: State, force: bool, mid: State, c: Conditions, single: Conditions)
    requires LeadsCandidly(s, force, mid)
    requires Visits(c, mid.links) && Clean(c) && Visits(single, s.links) && Clean(single)
    requires !Migrate(s, force, single).1.Aborted?
    ensures var (s1, r1) := Migrate(mid, force, c); var (s2, r2) := Migrate(s, force, single);
      r1 == r2 && s1.links == s2.links && SameGrants(s1.acl, s2.acl)
  {
    var cs: seq<Conditions> :| AllVisit(cs, s.links) && AllCandid(s, force, cs) && mid == Runs(s, force, cs);
    RunsBetween(s, force, cs);
    CleanConverges(s, mid, force, c, single);
  }

  /** It need not otherwise: an error that lists nothing costs a public link its grant, and no
      rerun brings it back. */
  lemma AnEmptyListLosesTheGrant(at: Clock, c: Conditions)
    requires var links := map[0 := Link(None, True, None, None)]; Visits(c, links) && Clean(c)
    ensures var s := State(map[0 := Link(None, True, None, None)], map[]);
      var failing := Conditions([0], None, 100, (i: nat) => WriteErrors({}, {}), Removed, at);
      && Visits(failing, s.links)
      && var mid := Migrate(s, false, failing).0;
         && mid.links[0].isPublic.Missing? && Public(0) !in mid.acl
         && Visits(c, mid.links) && Public(0) !in Migrate(mid, false, c).0.acl
         && Public(0) in Migrate(s, false, c).0.acl
  {
    var s := State(map[0 := Link(None, True, None, None)], map[]);
    var failing := Conditions([0], None, 100, (i: nat) => WriteErrors({}, {}), Removed, at);
    var mid := Migrate(s, false, failing).0;
    assert [0][..0] == [];
    assert OpsOfBatch(s.links, [0]) == [Public(0)];
    assert [Public(0)][..0] == [];
    assert mid.links == map[0 := Link(None, Missing, None, None)] && mid.acl == map[];
    CleanRunMigrates(mid, false, c);
    CleanRunMigrates(s, false, c);
    assert !Wanted(mid.links, Public(0)) && Wanted(s.links, Public(0));
    assert Grant(Migrate(mid, false, c).0.acl, Public(0)) == Grant(mid.acl, Public(0));
  }

  lemma CleanConverges(s: State, mid: State, force: bool, c: Conditions, single: Conditions)
    requires Between(s, mid) && (!HasHidden(s.links) ==> !HasHidden(mid.links))
    requires Visits(c, mid.links) && Clean(c) && Visits(single, s.links) && Clean(single)
    requires !Migrate(s, force, single).1.Aborted?
    ensures var (s1, r1) := Migrate(mid, force, c); var (s2, r2) := Migrate(s, force, single);
      r1 == r2 && s1.links == s2.links && (SameGrants(s1.acl, s2.acl) <==> Lossless(s, mid))
  {
    if s.links == map[] {
      assert mid.links == map[];
      EmptyConverges(s, mid);
    } else {
      assert mid.links != map[] by {
        assert mid.links.Keys == s.links.Keys;
      }
      CleanRunMigrates(mid, force, c);
      CleanRunMigrates(s, force, single);
      GrantsConverge(s, mid, Migrate(mid, force, c).0.acl, Migrate(s, force, single).0.acl);
      FieldsConverge(s, mid);
    }
  }

  lemma FieldsConverge(s0: State, s: State)
    requires Between(s0, s)
    ensures (map id | id in s.links :: s.links[id].(isPublic := Missing))
         == (map id | id in s0.links :: s0.links[id].(isPublic := Missing))
  {
  }

  lemma GrantsConverge(s0: State, s: State, a: Acl, b: Acl)
    requires Between(s0, s)
    requires forall k :: Grant(a, k) == if Wanted(s.links, k) then Granted(s.acl, s.links, k) else Grant(s.acl, k)
    requires forall k :: Grant(b, k) == if Wanted(s0.links, k) then Granted(s0.acl, s0.links, k) else Grant(s0.acl, k)
    ensures SameGrants(a, b) <==> Lossless(s0, s)
  {
    forall k
      ensures Wanted(s0.links, k) && !Wanted(s.links, k) ==>
        (Grant(a, k) == Grant(b, k) <==> Grant(s.acl, k) == Granted(s0.acl, s0.links, k))
      ensures !(Wanted(s0.links, k) && !Wanted(s.links, k)) ==> Grant(a, k) == Grant(b, k)
    {
      WantedShrinks(s0, s, k);
      if Wanted(s.links, k) {
        GrantedTwice(s0, s, k);
      }
    }
  }

  lemma EmptyConverges(s0: State, s: State)
    requires Between(s0, s) && s0.links == map[]
    ensures SameGrants(s.acl, s0.acl) && Lossless(s0, s)
  {
    forall k ensures Grant(s.acl, k) == Grant(s0.acl, k) {
      assert !Wanted(s0.links, k);
    }
  }

  /** One more run without failures changes nothing but the times of granting. */
  lemma AnotherRunChangesNothing(s: State, force: bool, c: Conditions, d: Conditions)
    requires Visits(c, s.links) && Clean(c) && Visits(d, s.links) && Clean(d)
    ensures var (s1, _) := Migrate(s, force, c);
      var (s2, _) := Migrate(s1, force, d);
      s2.links == s1.links && SameGrants(s2.acl, s1.acl)
  {
    if Migrate(s, force, c).1.Ran? {
      var s1 := Migrate(s, force, c).0;
      var p := Pass(s.links, s.acl, c.order, c.size, c.bulks, c.at);
      CleanCursorFailsNothing(s.links, s.acl, c.order, c.size, c.bulks, c.at);
      FinishFacts(s, force, c, p);
      FinishBetween(s, c, p);
      CleanConverges(s, s1, force, d, c);
    }
  }

  /** A link marked non-public gets no public grant, even when forced, and an entry already
      there stays; a link without an owner gets no owner grant. */
  lemma OnlyWantedGrants(s: State, force: bool, after: State, k: Key)
    requires Leads(s, force, after) && k.link in s.links
    requires match k
      case Owner(id, user) => s.links[id].user != Some(user)
      case Public(id) => s.links[id].isPublic.False? || s.links[id].isPublic.Missing?
    ensures Grant(after.acl, k) == Grant(s.acl, k)
  {
    LeadsBetween(s, force, after);
    assert !Wanted(s.links, k);
  }

  /** Over any runs, whatever fails in them, no entry is lost, none changes its tenant or its
      principal model, and none loses its expiry. */
  lemma NoEntryIsLost(s: State, force: bool, after: State, k: Key)
    requires Leads(s, force, after) && k in s.acl
    ensures k in after.acl
    ensures after.acl[k].tenant == s.acl[k].tenant && after.acl[k].userModel == s.acl[k].userModel
    ensures s.acl[k].expiredAt.Some? ==> after.acl[k].expiredAt.Some?
  {
    LeadsBetween(s, force, after);
    if Wanted(s.links, k) {
      UpsertRespects(Find(s.acl, k), s.links[k.link], k, 0);
    }
  }

  // ----- The program -----

  class SharedLinkMigration {
    var links: Links
    var acl: Acl
    var failedLinkIds: set<LinkId>
    var batchIndex: nat
    ghost var landed: set<Key>
    ghost var silent: set<LinkId>

    constructor (s: State)
      ensures links == s.links && acl == s.acl && IsFresh()
    {
      links, acl, failedLinkIds, batchIndex, landed, silent := s.links, s.acl, {}, 0, {}, {};
    }

    ghost predicate IsFresh()
      reads this
    {
      failedLinkIds == {} && batchIndex == 0 && landed == {} && silent == {}
    }

    ghost function View(batch: seq<LinkId>): Progress
      reads this
    {
      Progress(acl, failedLinkIds, batch, batchIndex, landed, silent)
    }

    /** The operations of a batch, and for each the link it concerns. */
    method BuildOps(batch: seq<LinkId>) returns (bulkOps: seq<Key>, opIndexToLinkId: seq<LinkId>)
      requires Known(links, batch)
      ensures bulkOps == OpsOfBatch(links, batch)
      ensures |opIndexToLinkId| == |bulkOps|
      ensures forall i :: 0 <= i < |bulkOps| ==> opIndexToLinkId[i] == bulkOps[i].link
    {
      bulkOps, opIndexToLinkId := [], [];
      for i := 0 to |batch|
        invariant bulkOps == OpsOfBatch(links, batch[..i])
        invariant |opIndexToLinkId| == |bulkOps|
        invariant forall j :: 0 <= j < |bulkOps| ==> opIndexToLinkId[j] == bulkOps[j].link
      {
        var linkId := batch[i];
        var link := links[linkId];
        ghost var before := bulkOps;
        if link.user.Some? {
          opIndexToLinkId := opIndexToLinkId + [linkId];
          bulkOps := bulkOps + [Owner(linkId, link.user.value)];
        }
        if !link.isPublic.Missing? && !link.isPublic.False? {
          opIndexToLinkId := opIndexToLinkId + [linkId];
          bulkOps := bulkOps + [Public(linkId)];
        }
        assert bulkOps == before + OpsOf(links, linkId);
        assert batch[..i + 1][..i] == batch[..i];
      }
      assert batch[..|batch|] == batch;
    }

    method BulkWrite(ops: seq<Key>, bulk: Bulk, at: Clock)
      requires OnLinks(links, ops)
      modifies this`acl, this`landed, this`silent
      ensures acl == ApplyOps(old(acl), links, ops, bulk, at)
      ensures landed == old(landed) + LandedKeys(ops, bulk) && silent == old(silent) + Silent(ops, bulk)
    {
      for i := 0 to |ops|
        invariant acl == ApplyOps(old(acl), links, ops[..i], bulk, at) && landed == old(landed) && silent == old(silent)
      {
        assert ops[..i + 1][..i] == ops[..i];
        if LandsAt(bulk, i) {
          acl := Upsert(acl, links, ops[i], at);
        }
      }
      assert ops[..|ops|] == ops;
      landed, silent := landed + LandedKeys(ops, bulk), silent + Silent(ops, bulk);
    }

    /** The links behind the failing indices. */
    method FailuresOf(opIndexToLinkId: seq<LinkId>, listed: set<nat>, ghost ops: seq<Key>) returns (ids: set<LinkId>)
      requires |opIndexToLinkId| == |ops|
      requires forall i :: 0 <= i < |ops| ==> opIndexToLinkId[i] == ops[i].link
      ensures ids == FailedBy(ops, listed)
    {
      ids := {};
      for i := 0 to |opIndexToLinkId|
        invariant ids == FailedBy(ops[..i], listed)
      {
        assert ops[..i + 1][..i] == ops[..i];
        if i in listed {
          ids := ids + {opIndexToLinkId[i]};
        }
      }
      assert ops[..|ops|] == ops;
    }

    method ProcessBatch(batch: seq<LinkId>, bulk: Bulk, at: Clock)
      requires Known(links, batch)
      modifies this`acl, this`failedLinkIds, this`batchIndex, this`landed, this`silent
      ensures View([]) == Process(links, old(View([])), batch, bulk, at)
    {
      batchIndex := batchIndex + 1;
      var bulkOps, opIndexToLinkId := BuildOps(batch);
      OpsOnLinks(links, batch);
      BulkWrite(bulkOps, bulk, at);
      if bulkOps == [] {
        return;
      }
      match bulk
      case AllOk =>
      case WriteErrors(_, listed) =>
        var ids := FailuresOf(opIndexToLinkId, listed, bulkOps);
        failedLinkIds := failedLinkIds + ids;
      case Total(_) =>
        failedLinkIds := failedLinkIds + Ids(batch);
    }

    method ReadLinks(c: Conditions, order: seq<LinkId>) returns (batch: seq<LinkId>)
      requires Known(links, order) && IsFresh()
      modifies this`acl, this`failedLinkIds, this`batchIndex, this`landed, this`silent
      ensures View(batch) == Cursor(links, old(acl), order, c.size, c.bulks, c.at)
    {
      batch := [];
      for i := 0 to |order|
        invariant View(batch) == Cursor(links, old(acl), order[..i], c.size, c.bulks, c.at)
      {
        assert order[..i + 1][..i] == order[..i];
        ghost var before := View(batch);
        batch := batch + [order[i]];
        if |batch| >= c.size {
          ProcessBatch(batch, c.bulks(batchIndex), c.at);
          batch := [];
        }
      }
      assert order[..|order|] == order;
    }

    method Run(force: bool, c: Conditions) returns (report: Report)
      requires Visits(c, links) && IsFresh()
      modifies this
      ensures (State(links, acl), report) == Migrate(old(State(links, acl)), force, c)
    {
      if HasHidden(links) && !force {
        return Aborted;
      }
      if links == map[] {
        return NothingToDo;
      }
      var batch := ReadLinks(c, ReadOf(c.order, c.cut));
      if c.cut.Some? {
        return Threw;
      }
      if |batch| > 0 {
        ProcessBatch(batch, c.bulks(batchIndex), c.at);
      }
      links := WithoutFlag(links, failedLinkIds, c.removal);
      report := if c.removal.Removed? then Ran(failedLinkIds) else Threw;
    }
  }
}
