/** The batched reset of the search-index flag over the documents that retention leaves
    visible, and the environment integers that configure it. */
module MeiliReset {
  import opened Common
  import opened Decimals

  // ----- Environment integers -----

  const DEFAULT_BATCH_SIZE: nat := 1000

  /** White space and line terminators of the language. */
  predicate IsSpace(c: char) {
    var code := c as int;
    || 9 <= code <= 13 || code == 32 || code == 160 || code == 0x1680 || 0x2000 <= code <= 0x200a
    || code == 0x2028 || code == 0x2029 || code == 0x202f || code == 0x205f || code == 0x3000 || code == 0xfeff
  }

  /** The first position from `i` on that holds no space. */
  function SpaceEnd(s: string, i: nat): (r: nat)
    requires i <= |s|
    ensures i <= r <= |s|
    decreases |s| - i
  {
    if i < |s| && IsSpace(s[i]) then SpaceEnd(s, i + 1) else i
  }

  function DigitValue(c: char): nat
    requires IsDigit(c)
  {
    c as nat - '0' as nat
  }

  /** Where the digits from `i` on end. */
  function DigitsEnd(s: string, i: nat): (r: nat)
    requires i <= |s|
    ensures i <= r <= |s|
    ensures forall k :: i <= k < r ==> IsDigit(s[k])
    ensures r < |s| ==> !IsDigit(s[r])
    decreases |s| - i
  {
    if i < |s| && IsDigit(s[i]) then DigitsEnd(s, i + 1) else i
  }

  function ValueOf(digits: string): nat
    requires forall i :: 0 <= i < |digits| ==> IsDigit(digits[i])
  {
    if digits == "" then 0
    else 10 * ValueOf(digits[..|digits| - 1]) + DigitValue(digits[|digits| - 1])
  }

  function ParseDigits(s: string, i: nat): Option<nat>
    requires i <= |s|
  {
    var end := DigitsEnd(s, i);
    if end == i then None else Some(ValueOf(s[i..end]))
  }

  function Negated(v: Option<nat>): Option<int> {
    match v
    case None => None
    case Some(n) => Some(0 - n)
  }

  /** `parseInt(s, 10)`; None is NaN. */
  function ParseInt(s: string): Option<int> {
    var i := SpaceEnd(s, 0);
    if i < |s| && s[i] == '-' then Negated(ParseDigits(s, i + 1))
    else if i < |s| && s[i] == '+' then ParseDigits(s, i + 1)
    else ParseDigits(s, i)
  }

  function ParseEnvInt(value: Option<string>, default: nat): nat {
    if value.None? || value.value == "" then default
    else
      match ParseInt(value.value)
      case None => default
      case Some(v) => if v < 0 then default else v
  }

  lemma {:induction false} ValueOfDecimal(n: nat)
    ensures forall i :: 0 <= i < |Decimal(n)| ==> IsDigit(Decimal(n)[i])
    ensures ValueOf(Decimal(n)) == n
  {
    DecimalDigits(n);
    var d := Decimal(n);
    if n >= 10 {
      ValueOfDecimal(n / 10);
      assert d[..|d| - 1] == Decimal(n / 10);
    } else {
      assert d[..|d| - 1] == "";
    }
  }

  lemma ParseAt(s: string, i: nat, n: nat)
    requires i + |Decimal(n)| <= |s| && s[i..i + |Decimal(n)|] == Decimal(n)
    requires i + |Decimal(n)| < |s| ==> !IsDigit(s[i + |Decimal(n)|])
    ensures ParseDigits(s, i) == Some(n)
  {
    ValueOfDecimal(n);
    DecimalDigits(n);
    var d := Decimal(n);
    assert forall k :: 0 <= k < |d| ==> s[i + k] == d[k];
    assert forall k :: i <= k < i + |d| ==> s[k] == d[k - i];
    assert DigitsEnd(s, i) == i + |d|;
  }

  /** A value written in decimal, whatever follows it that is not a digit, is read back; written
      with a minus it is refused unless it is zero. */
  lemma EnvIntRoundTrip(n: nat, rest: string, default: nat)
    requires rest == "" || !IsDigit(rest[0])
    ensures ParseEnvInt(Some(Decimal(n) + rest), default) == n
    ensures ParseEnvInt(Some("-" + (Decimal(n) + rest)), default) == if n == 0 then 0 else default
  {
    var d := Decimal(n);
    var s, t := d + rest, "-" + (d + rest);
    DecimalDigits(n);
    assert s[0] == d[0];
    assert s[0..0 + |d|] == d && t[1..1 + |d|] == d;
    ParseAt(s, 0, n);
    ParseAt(t, 1, n);
  }

  function BatchSize(value: Option<string>): (size: nat)
    ensures size >= 1
  {
    var parsed := ParseEnvInt(value, DEFAULT_BATCH_SIZE);
    if parsed == 0 then DEFAULT_BATCH_SIZE else parsed
  }

  // ----- The collection -----

  type Id = nat
  type Time = int

  /** A boolean field: absent or null, false, or true. */
  datatype Field = Unset | False | True

  datatype Doc = Doc(meiliIndex: Field, isTemporary: Field, expiredAt: Option<Time>)

  type Docs = map<Id, Doc>

  predicate Visible(d: Doc, now: Time) {
    || (d.isTemporary.False? && (d.expiredAt.None? || d.expiredAt.value > now))
    || (d.isTemporary.Unset? && d.expiredAt.None?)
  }

  predicate Pending(d: Doc, now: Time) {
    Visible(d, now) && !d.meiliIndex.False?
  }

  function Matching(docs: Docs, now: Time): set<Id> {
    set id | id in docs && Pending(docs[id], now)
  }

  function Reset(docs: Docs, ids: set<Id>): Docs {
    map id | id in docs :: if id in ids then docs[id].(meiliIndex := False) else docs[id]
  }

  function Min(a: nat, b: nat): nat {
    if a < b then a else b
  }

  lemma ResetTwice(docs: Docs, a: set<Id>, b: set<Id>)
    ensures Reset(Reset(docs, a), b) == Reset(docs, a + b)
  {
  }

  /** What a reset leaves to do: a document only leaves the set by being reset or by expiring. */
  lemma MatchingAfterReset(docs: Docs, ids: set<Id>, now: Time, later: Time)
    requires now <= later
    ensures Matching(Reset(docs, ids), later) == Matching(docs, later) - ids
    ensures Matching(docs, later) <= Matching(docs, now)
  {
  }

  /** What a run of the loop has done when it has reset `done`, at time `now`: only documents
      that were pending at the start, each counted once. */
  ghost predicate Progress(docs0: Docs, docs: Docs, start: Time, now: Time, done: set<Id>, total: nat) {
    && start <= now
    && docs == Reset(docs0, done)
    && done <= Matching(docs0, start)
    && total == |done|
  }

  lemma ProgressStep(
    docs0: Docs, docs: Docs, start: Time, now: Time, later: Time, done: set<Id>, total: nat, ids: set<Id>)
    requires Progress(docs0, docs, start, now, done, total) && now <= later && ids <= Matching(docs, later)
    ensures ids !! done
    ensures Progress(docs0, Reset(docs, ids), start, later, done + ids, total + |ids|)
  {
    MatchingAfterReset(docs0, done, start, later);
    ResetTwice(docs0, done, ids);
  }

  /** The last batch was not full, so it held everything that was pending. */
  lemma LastBatchLeavesNothing(docs: Docs, now: Time, ids: set<Id>, size: nat)
    requires ids <= Matching(docs, now) && |ids| == Min(size, |Matching(docs, now)|) && |ids| < size
    ensures ids == Matching(docs, now) && Matching(Reset(docs, ids), now) == {}
  {
    SubsetSize(ids, Matching(docs, now));
    MatchingAfterReset(docs, ids, now, now);
  }

  /** A finished loop against one bulk update: it reset everything that is still visible at the
      end and was pending at the start, nothing else, and nothing is left. */
  ghost predicate Finished(docs0: Docs, docs: Docs, start: Time, end: Time, total: nat) {
    && (exists done: set<Id> ::
          Matching(docs0, end) <= done && done <= Matching(docs0, start)
          && docs == Reset(docs0, done) && total == |done|)
    && Matching(docs, end) == {}
  }

  /** When nothing pending expires while the loop runs, it is one bulk update of everything
      pending, and returns how many documents that is. */
  lemma BatchedIsOneUpdate(docs0: Docs, docs: Docs, start: Time, end: Time, total: nat)
    requires Finished(docs0, docs, start, end, total) && Matching(docs0, end) == Matching(docs0, start)
    ensures docs == Reset(docs0, Matching(docs0, start)) && total == |Matching(docs0, start)|
  {
    var done: set<Id> :| Matching(docs0, end) <= done && done <= Matching(docs0, start)
      && docs == Reset(docs0, done) && total == |done|;
    assert done == Matching(docs0, start);
  }

  /** Hidden documents, and documents already reset, are left exactly as they were. */
  lemma HiddenStayAsTheyAre(docs0: Docs, docs: Docs, start: Time, end: Time, total: nat, id: Id)
    requires Finished(docs0, docs, start, end, total) && id in docs0 && !Pending(docs0[id], start)
    ensures id in docs && docs[id] == docs0[id]
  {
  }

  /** However often the loop was cut short before, a loop that finishes leaves the same: what
      was reset in between makes no difference to documents that stay visible. */
  lemma RerunCompletes(docs0: Docs, cut: set<Id>, docs: Docs, start: Time, later: Time, end: Time, total: nat)
    requires start <= later <= end
    requires cut <= Matching(docs0, start) && Finished(Reset(docs0, cut), docs, later, end, total)
    ensures Finished(docs0, docs, start, end, total + |cut|)
  {
    var done: set<Id> :| Matching(Reset(docs0, cut), end) <= done && done <= Matching(Reset(docs0, cut), later)
      && docs == Reset(Reset(docs0, cut), done) && total == |done|;
    MatchingAfterReset(docs0, cut, start, later);
    MatchingAfterReset(docs0, cut, start, end);
    ResetTwice(docs0, cut, done);
    assert |cut + done| == |cut| + |done|;
    var all := cut + done;
    assert Matching(docs0, end) <= all && all <= Matching(docs0, start)
      && docs == Reset(docs0, all) && total + |cut| == |all|;
  }

  // ----- The program -----

  /** When a call to the database fails: the n-th find, or the n-th update after reaching some
      of its documents. */
  datatype Fault = NoFault | FindFails(batch: nat) | UpdateFails(batch: nat, reached: set<Id>)

  class Collection {
    var docs: Docs

    constructor (docs: Docs)
      ensures this.docs == docs
    {
      this.docs := docs;
    }

    /** Any documents that match, as many as the limit allows. */
    method Find(now: Time, limit: nat) returns (ids: set<Id>)
      ensures ids <= Matching(docs, now) && |ids| == Min(limit, |Matching(docs, now)|)
    {
      var rest := Matching(docs, now);
      ids := {};
      while rest != {} && |ids| < limit
        invariant ids !! rest && ids + rest == Matching(docs, now)
        invariant |ids| <= limit && |ids| + |rest| == |Matching(docs, now)|
        decreases rest
      {
        var id :| id in rest;
        rest := rest - {id};
        ids := ids + {id};
      }
    }

    method UpdateMany(ids: set<Id>) returns (modified: nat)
      requires forall id :: id in ids ==> id in docs && !docs[id].meiliIndex.False?
      modifies this
      ensures docs == Reset(old(docs), ids) && modified == |ids|
    {
      docs := Reset(docs, ids);
      modified := |ids|;
    }

    /** The loop, on any clock that does not run backwards. It always ends; without a fault
        nothing pending is left, and with one what was done so far stands and is reported. */
    method BatchResetMeiliFlags(configured: Option<string>, clock: nat -> Time, fault: Fault)
      returns (ok: bool, total: nat, ghost end: Time)
      requires forall i: nat, j: nat :: i <= j ==> clock(i) <= clock(j)
      modifies this
      ensures ok ==> Finished(old(docs), docs, clock(0), end, total)
      ensures !ok ==> exists done: set<Id> ::
        done <= Matching(old(docs), clock(0)) && docs == Reset(old(docs), done) && total <= |done|
      ensures fault.NoFault? ==> ok
    {
      var size := BatchSize(configured);
      var hasMore, batch := true, 0;
      ghost var done: set<Id> := {};
      total := 0;
      end := clock(0);
      assert docs == Reset(docs, {});
      while hasMore
        invariant Progress(old(docs), docs, clock(0), end, done, total)
        invariant end <= clock(batch)
        invariant !hasMore ==> Matching(docs, end) == {}
        decreases hasMore, Matching(docs, end)
      {
        if fault == FindFails(batch) {
          return false, total, end;
        }
        var now := clock(batch);
        var ids := Find(now, size);
        MatchingAfterReset(docs, ids, end, now);
        if ids == {} {
          end := now;
          break;
        }
        ProgressStep(old(docs), docs, clock(0), end, now, done, total, ids);
        if fault.UpdateFails? && fault.batch == batch {
          var reached := fault.reached * ids;
          ProgressStep(old(docs), docs, clock(0), end, now, done, total, reached);
          var _ := UpdateMany(reached);
          return false, total, now;
        }
        var modified := UpdateMany(ids);
        total, done, end := total + modified, done + ids, now;
        if |ids| < size {
          LastBatchLeavesNothing(Reset(old(docs), done - ids), now, ids, size);
          hasMore := false;
        }
        batch := batch + 1;
      }
      MatchingAfterReset(old(docs), done, clock(0), end);
      ok := true;
    }
  }
}
