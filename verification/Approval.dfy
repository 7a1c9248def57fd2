/**
  The approval gate for destructive tools: a store of records that expire, and the gate that
  creates, transitions and enforces them. Values stand for their JSON text.
*/
module Approval {
  import opened Errors
  import opened CacheKeys

  datatype State = Pending | Approved | Denied

  /** A pending-approval record; who asked and when is carried along unread. */
  datatype Record = Record(id: string, caller: string, createdAt: string, state: State, approver: Option<string>)

  datatype Stored = Stored(record: Record, expiresAt: real)

  type Store = map<string, Stored>

  const APPROVAL_TTL_SECONDS := 3600

  /** What an attempt to run a destructive tool gets. */
  datatype Ruling = Pass | AwaitApproval(record: Record) | Refused

  function ApprovalId(digest: string -> string, r: Request): string {
    "atlas:approval:" + r.tenant + ":" + r.tool + ":" + digest(r.args)
  }

  function Live(store: Store, key: string, now: real): Option<Record> {
    if key in store && store[key].expiresAt >= now then Some(store[key].record) else None
  }

  /** The store after a get: an expired record is dropped. */
  function AfterGet(store: Store, key: string, now: real): Store {
    if Live(store, key, now).Some? then store else store - {key}
  }

  function AfterSet(store: Store, key: string, record: Record, now: real): Store {
    store[key := Stored(record, now + APPROVAL_TTL_SECONDS as real)]
  }

  function Enforced(store: Store, key: string, caller: string, createdAt: string, now: real): (Store, Ruling) {
    match Live(store, key, now)
    case Some(record) =>
      (store, match record.state case Approved => Pass case Denied => Refused case Pending => AwaitApproval(record))
    case None =>
      var record := Record(key, caller, createdAt, Pending, None);
      (AfterSet(store, key, record, now), AwaitApproval(record))
  }

  /** Approving or denying; None is the approval_not_found error. */
  function Transitioned(store: Store, key: string, state: State, approver: string, now: real): (Store, Option<Record>) {
    match Live(store, key, now)
    case Some(record) =>
      var updated := record.(state := state, approver := Some(approver));
      (AfterSet(store, key, updated, now), Some(updated))
    case None => (AfterGet(store, key, now), None)
  }

  class InMemoryApprovalStore {
    var store: Store

    constructor ()
      ensures store == map[]
    {
      store := map[];
    }

    method Get(key: string, now: real) returns (record: Option<Record>)
      modifies this
      ensures record == Live(old(store), key, now) && store == AfterGet(old(store), key, now)
    {
      if key !in store {
        assert store - {key} == store;
        return None;
      }
      if store[key].expiresAt < now {
        store := store - {key};
        return None;
      }
      return Some(store[key].record);
    }

    method Set(key: string, record: Record, ttl: int, now: real)
      modifies this
      ensures store == old(store)[key := Stored(record, now + ttl as real)]
    {
      store := store[key := Stored(record, now + ttl as real)];
    }
  }

  class ApprovalGate {
    const records: InMemoryApprovalStore

    constructor ()
      ensures fresh(records) && records.store == map[]
    {
      records := new InMemoryApprovalStore();
    }

    method Enforce(digest: string -> string, r: Request, caller: string, createdAt: string, now: real)
      returns (ruling: Ruling)
      modifies records
      ensures (records.store, ruling) == Enforced(old(records.store), ApprovalId(digest, r), caller, createdAt, now)
    {
      var key := ApprovalId(digest, r);
      var found := records.Get(key, now);
      if found.Some? {
        if found.value.state.Approved? {
          return Pass;
        }
        if found.value.state.Denied? {
          return Refused;
        }
        return AwaitApproval(found.value);
      }
      var record := Record(key, caller, createdAt, Pending, None);
      records.Set(key, record, APPROVAL_TTL_SECONDS, now);
      assert records.store == AfterSet(old(records.store), key, record, now);
      return AwaitApproval(record);
    }

    method Transition(id: string, state: State, approver: string, now: real) returns (updated: Option<Record>)
      modifies records
      ensures (records.store, updated) == Transitioned(old(records.store), id, state, approver, now)
    {
      var found := records.Get(id, now);
      if found.None? {
        return None;
      }
      var record := found.value.(state := state, approver := Some(approver));
      records.Set(id, record, APPROVAL_TTL_SECONDS, now);
      return Some(record);
    }

    method Approve(id: string, approver: string, now: real) returns (updated: Option<Record>)
      modifies records
      ensures (records.store, updated) == Transitioned(old(records.store), id, Approved, approver, now)
    {
      updated := Transition(id, Approved, approver, now);
    }

    method Deny(id: string, approver: string, now: real) returns (updated: Option<Record>)
      modifies records
      ensures (records.store, updated) == Transitioned(old(records.store), id, Denied, approver, now)
    {
      updated := Transition(id, Denied, approver, now);
    }
  }

  // ---------------------------------------------------------------------------------
  // Whole runs of the gate
  // ---------------------------------------------------------------------------------

  datatype Event =
    | Enforce(request: Request, caller: string, createdAt: string, at: real)
    | Decide(id: string, approve: bool, approver: string, at: real)

  ghost predicate TimesSorted(es: seq<Event>) {
    forall i, j :: 0 <= i < j < |es| ==> es[i].at <= es[j].at
  }

  function Verdict(e: Event): State
    requires e.Decide?
  {
    if e.approve then Approved else Denied
  }

  function Step(digest: string -> string, store: Store, e: Event): Store {
    match e
    case Enforce(r, caller, createdAt, at) => Enforced(store, ApprovalId(digest, r), caller, createdAt, at).0
    case Decide(id, _, approver, at) => Transitioned(store, id, Verdict(e), approver, at).0
  }

  function After(digest: string -> string, es: seq<Event>): Store {
    if es == [] then map[] else Step(digest, After(digest, es[..|es| - 1]), es[|es| - 1])
  }

  /** A human decision that took effect: the record existed and had not expired. */
  predicate Takes(digest: string -> string, es: seq<Event>, i: nat, key: string)
    requires i < |es|
  {
    es[i].Decide? && es[i].id == key && Live(After(digest, es[..i]), key, es[i].at).Some?
  }

  /** The index of the last decision on `key` that took effect. */
  function LastDecision(digest: string -> string, es: seq<Event>, key: string): Option<nat>
    ensures LastDecision(digest, es, key).Some? ==> LastDecision(digest, es, key).value < |es|
    ensures LastDecision(digest, es, key).Some? ==> es[LastDecision(digest, es, key).value].Decide?
  {
    if es == [] then None
    else if Takes(digest, es, |es| - 1, key) then Some(|es| - 1)
    else LastDecision(digest, es[..|es| - 1], key)
  }

  /** What the store knows of `key`: a decided record is the last decision, until it expires. */
  ghost predicate Remembers(digest: string -> string, es: seq<Event>, key: string, now: real) {
    var store := After(digest, es);
    match LastDecision(digest, es, key)
    case None => key in store ==> store[key].record.state.Pending?
    case Some(i) =>
      var expiry := es[i].at + APPROVAL_TTL_SECONDS as real;
      && (key in store && !store[key].record.state.Pending? ==>
            && store[key].record.state == Verdict(es[i]) && store[key].expiresAt == expiry
            && store[key].record.approver == Some(es[i].approver))
      && (key !in store || store[key].record.state.Pending? ==> expiry < now)
  }

  lemma RemembersStep(digest: string -> string, es: seq<Event>, e: Event, key: string)
    requires Remembers(digest, es, key, e.at)
    ensures Remembers(digest, es + [e], key, e.at)
  {
  }

  lemma {:induction false} AlwaysRemembers(digest: string -> string, es: seq<Event>, key: string, now: real)
    requires TimesSorted(es) && forall i :: 0 <= i < |es| ==> es[i].at <= now
    ensures Remembers(digest, es, key, now)
  {
    if es != [] {
      var earlier, e := es[..|es| - 1], es[|es| - 1];
      assert es == earlier + [e];
      AlwaysRemembers(digest, earlier, key, e.at);
      RemembersStep(digest, earlier, e, key);
    }
  }

  /** Over every run, an attempt passes at `now` if and only if the last decision that took
      effect on its record was an approval no more than the ttl ago. */
  lemma PassIffApproved(digest: string -> string, es: seq<Event>, r: Request, caller: string, createdAt: string,
                        now: real)
    requires TimesSorted(es) && forall i :: 0 <= i < |es| ==> es[i].at <= now
    ensures var last := LastDecision(digest, es, ApprovalId(digest, r));
            Enforced(After(digest, es), ApprovalId(digest, r), caller, createdAt, now).1.Pass?
            <==> last.Some? && es[last.value].approve && now <= es[last.value].at + APPROVAL_TTL_SECONDS as real
  {
    AlwaysRemembers(digest, es, ApprovalId(digest, r), now);
  }

  /** It is refused if and only if that decision was a denial no more than the ttl ago. */
  lemma RefusedIffDenied(digest: string -> string, es: seq<Event>, r: Request, caller: string, createdAt: string,
                         now: real)
    requires TimesSorted(es) && forall i :: 0 <= i < |es| ==> es[i].at <= now
    ensures var last := LastDecision(digest, es, ApprovalId(digest, r));
            Enforced(After(digest, es), ApprovalId(digest, r), caller, createdAt, now).1.Refused?
            <==> last.Some? && !es[last.value].approve && now <= es[last.value].at + APPROVAL_TTL_SECONDS as real
  {
    AlwaysRemembers(digest, es, ApprovalId(digest, r), now);
  }

  /** And it has to wait if and only if no decision took effect within the ttl. */
  lemma WaitsIffUndecided(digest: string -> string, es: seq<Event>, r: Request, caller: string, createdAt: string,
                          now: real)
    requires TimesSorted(es) && forall i :: 0 <= i < |es| ==> es[i].at <= now
    ensures var last := LastDecision(digest, es, ApprovalId(digest, r));
            Enforced(After(digest, es), ApprovalId(digest, r), caller, createdAt, now).1.AwaitApproval?
            <==> last.None? || now > es[last.value].at + APPROVAL_TTL_SECONDS as real
  {
    AlwaysRemembers(digest, es, ApprovalId(digest, r), now);
  }

  // ---------------------------------------------------------------------------------
  // Which records are alive, and whose they are
  // ---------------------------------------------------------------------------------

  /** When the record was last stored anew, and the attempt it was created for: an attempt that finds
      none creates it, and a decision that finds it renews it. */
  function Origin(digest: string -> string, es: seq<Event>, key: string): Option<(real, string, string)> {
    if es == [] then None
    else
      var before, last := Origin(digest, es[..|es| - 1], key), es[|es| - 1];
      var alive := before.Some? && last.at <= before.value.0 + APPROVAL_TTL_SECONDS as real;
      match last
      case Enforce(r, caller, createdAt, at) =>
        if ApprovalId(digest, r) == key && !alive then Some((at, caller, createdAt)) else before
      case Decide(id, _, _, at) => if id == key && alive then Some((at, before.value.1, before.value.2)) else before
  }

  predicate Alive(digest: string -> string, es: seq<Event>, key: string, now: real) {
    var origin := Origin(digest, es, key);
    origin.Some? && now <= origin.value.0 + APPROVAL_TTL_SECONDS as real
  }

  /** The store holds what the log says of the record, unless that has expired. */
  ghost predicate Recorded(digest: string -> string, es: seq<Event>, key: string, now: real) {
    var store, origin := After(digest, es), Origin(digest, es, key);
    if key in store then
      && origin == Some((store[key].expiresAt - APPROVAL_TTL_SECONDS as real, store[key].record.caller,
                         store[key].record.createdAt))
      && store[key].record.id == key
    else origin.None? || origin.value.0 + APPROVAL_TTL_SECONDS as real < now
  }

  lemma RecordedStep(digest: string -> string, es: seq<Event>, e: Event, key: string)
    requires Recorded(digest, es, key, e.at)
    ensures Recorded(digest, es + [e], key, e.at)
  {
    assert (es + [e])[..|es|] == es;
  }

  lemma {:induction false} AlwaysRecorded(digest: string -> string, es: seq<Event>, key: string, now: real)
    requires TimesSorted(es) && forall i :: 0 <= i < |es| ==> es[i].at <= now
    ensures Recorded(digest, es, key, now)
  {
    if es != [] {
      var earlier, e := es[..|es| - 1], es[|es| - 1];
      assert es == earlier + [e];
      AlwaysRecorded(digest, earlier, key, e.at);
      RecordedStep(digest, earlier, e, key);
    }
  }

  /** Over every run, an attempt that has to wait waits for a pending record of its own id: the one an
      earlier attempt created, while that is alive, and otherwise a new one in its own name. */
  lemma WaitsForItsRecord(digest: string -> string, es: seq<Event>, r: Request, caller: string, createdAt: string,
                          now: real)
    requires TimesSorted(es) && forall i :: 0 <= i < |es| ==> es[i].at <= now
    requires Enforced(After(digest, es), ApprovalId(digest, r), caller, createdAt, now).1.AwaitApproval?
    ensures var key, origin := ApprovalId(digest, r), Origin(digest, es, ApprovalId(digest, r));
            var record := Enforced(After(digest, es), key, caller, createdAt, now).1.record;
            && record.id == key && record.state.Pending?
            && (Alive(digest, es, key, now) ==> (record.caller, record.createdAt) == (origin.value.1, origin.value.2))
            && (!Alive(digest, es, key, now) ==> record == Record(key, caller, createdAt, Pending, None))
  {
    AlwaysRecorded(digest, es, ApprovalId(digest, r), now);
  }

  /** A decision takes effect if and only if the record is alive, and then its maker is told the
      decided record; otherwise that there is none. */
  lemma DecisionIsTold(digest: string -> string, es: seq<Event>, key: string, state: State, approver: string, now: real)
    requires TimesSorted(es) && forall i :: 0 <= i < |es| ==> es[i].at <= now
    ensures var told := Transitioned(After(digest, es), key, state, approver, now).1;
            if Alive(digest, es, key, now) then
              && told.Some? && told.value.id == key && told.value.state == state
              && told.value.approver == Some(approver) && told.value.caller == Origin(digest, es, key).value.1
            else told.None?
  {
    AlwaysRecorded(digest, es, key, now);
  }

  lemma TakesIffAlive(digest: string -> string, es: seq<Event>, i: nat, key: string)
    requires TimesSorted(es) && i < |es|
    ensures Takes(digest, es, i, key) <==> es[i].Decide? && es[i].id == key && Alive(digest, es[..i], key, es[i].at)
  {
    AlwaysRecorded(digest, es[..i], key, es[i].at);
  }

  /** Retrying while the record is pending changes nothing, not even its expiry. */
  lemma RetryChangesNothing(digest: string -> string, es: seq<Event>, r: Request, caller: string, createdAt: string,
                            now: real)
    requires Live(After(digest, es), ApprovalId(digest, r), now).Some?
    ensures After(digest, es + [Enforce(r, caller, createdAt, now)]) == After(digest, es)
  {
  }

  /** The part of an id, or of a cache key, after its fixed prefix. */
  function CallName(digest: string -> string, r: Request): string {
    r.tenant + ":" + r.tool + ":" + digest(r.args)
  }

  lemma IdIsPrefixed(digest: string -> string, r: Request)
    ensures ApprovalId(digest, r) == "atlas:approval:" + CallName(digest, r)
    ensures CacheKey(digest, r) == "atlas:" + CallName(digest, r)
  {
  }

  /** With colon-free tools the record is that of the very call: same tenant, tool and arguments. */
  lemma ApprovalIdInjective(digest: string -> string, r: Request, q: Request)
    requires Injective(digest) && Hex(digest) && ColonFree(r.tool) && ColonFree(q.tool)
    requires ApprovalId(digest, r) == ApprovalId(digest, q)
    ensures r == q
  {
    IdIsPrefixed(digest, r);
    IdIsPrefixed(digest, q);
    Unprefix("atlas:approval:", CallName(digest, r), CallName(digest, q));
    KeyInjective(digest, r, q);
  }

  /** Whatever the names, records are shared exactly as cache keys are. */
  lemma ApprovalIdsEqualIff(digest: string -> string, r: Request, q: Request)
    requires Injective(digest) && Hex(digest)
    ensures ApprovalId(digest, r) == ApprovalId(digest, q) <==>
            FullName(r.tenant, r.tool) == FullName(q.tenant, q.tool) && r.args == q.args
  {
    IdIsPrefixed(digest, r);
    IdIsPrefixed(digest, q);
    KeysEqualIff(digest, r, q);
    if ApprovalId(digest, r) == ApprovalId(digest, q) {
      Unprefix("atlas:approval:", CallName(digest, r), CallName(digest, q));
    }
    if CacheKey(digest, r) == CacheKey(digest, q) {
      Unprefix("atlas:", CallName(digest, r), CallName(digest, q));
    }
  }
}
