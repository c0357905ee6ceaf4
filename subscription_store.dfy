/** The `pmp_push_subscriptions` table. Rows are keyed by their endpoint (the
    upsert conflict target) and carry a store-generated id (the key the
    broadcaster deletes by). The store itself is a foreign service: its
    primitives are modelled here as map updates, and a failing call as a flag
    that leaves the table as it was. */
module SubscriptionStore {
  import opened Basics

  type Id = nat

  /** The browser's PushSubscription descriptor, stored verbatim as
      `subscription_json`. Only its endpoint is ever inspected; the encryption
      keys are opaque. */
  datatype Descriptor = Descriptor(endpoint: Option<string>, keys: string)

  /** One row of the table. */
  datatype Row = Row(id: Id, endpoint: string, subscriptionJson: Descriptor, deviceLabel: Option<string>)

  /** The columns the broadcaster selects: `subscription_json, id`. */
  datatype Selected = Selected(id: Id, subscriptionJson: Descriptor)

  /** The table invariant: each row sits under its own endpoint (so there is
      at most one row per endpoint), ids are below the next id the store will
      generate, and no two rows share an id. */
  ghost predicate WellFormed(table: map<string, Row>, nextId: nat) {
    && (forall e :: e in table ==> table[e].endpoint == e && table[e].id < nextId)
    && (forall e1, e2 :: e1 in table && e2 in table && e1 != e2 ==> table[e1].id != table[e2].id)
  }

  /** The table after `upsert({subscription_json, endpoint}, {onConflict:
      "endpoint"})`: on a conflict only the two given columns are written, so
      the row keeps its id and device label; otherwise a row with a fresh id
      and no device label is inserted. */
  function Upserted(table: map<string, Row>, nextId: nat, endpoint: string, json: Descriptor): (r: map<string, Row>)
    ensures r.Keys == table.Keys + {endpoint}
    ensures r[endpoint].endpoint == endpoint && r[endpoint].subscriptionJson == json
    ensures endpoint in table ==> r[endpoint].id == table[endpoint].id && r[endpoint].deviceLabel == table[endpoint].deviceLabel
    ensures endpoint !in table ==> r[endpoint].id == nextId && r[endpoint].deviceLabel == None
    ensures forall e :: e in table && e != endpoint ==> r[e] == table[e]
  {
    if endpoint in table then
      table[endpoint := table[endpoint].(endpoint := endpoint, subscriptionJson := json)]
    else
      table[endpoint := Row(nextId, endpoint, json, None)]
  }

  /** The id counter after an upsert: advanced only by an insert. */
  function NextIdAfter(table: map<string, Row>, nextId: nat, endpoint: string): nat {
    if endpoint in table then nextId else nextId + 1
  }

  /** The table after `delete().in("id", ids)`: exactly the rows whose id is
      listed are gone, every other row is kept as it was. */
  function WithoutIds(table: map<string, Row>, ids: seq<Id>): (r: map<string, Row>)
    ensures forall e :: e in r <==> e in table && table[e].id !in ids
    ensures forall e :: e in r ==> r[e] == table[e]
  {
    map e | e in table && table[e].id !in ids :: table[e]
  }

  /** An upsert keeps the table well formed: one row per endpoint, distinct ids. */
  lemma UpsertKeepsWellFormed(table: map<string, Row>, nextId: nat, endpoint: string, json: Descriptor)
    requires WellFormed(table, nextId)
    ensures WellFormed(Upserted(table, nextId, endpoint, json), NextIdAfter(table, nextId, endpoint))
  {
  }

  /** Submitting the same endpoint twice leaves one row, holding the later
      descriptor, exactly as if only the later submission had been made. */
  lemma UpsertTwiceKeepsLatest(table: map<string, Row>, nextId: nat, endpoint: string, first: Descriptor, second: Descriptor)
    ensures Upserted(Upserted(table, nextId, endpoint, first), NextIdAfter(table, nextId, endpoint), endpoint, second)
         == Upserted(table, nextId, endpoint, second)
  {
  }

  /** A batch delete keeps the table well formed. */
  lemma DeleteKeepsWellFormed(table: map<string, Row>, nextId: nat, ids: seq<Id>)
    requires WellFormed(table, nextId)
    ensures WellFormed(WithoutIds(table, ids), nextId)
  {
  }

  /** Deleting ids that are already gone is a no-op, so two broadcasts racing
      on the same stale ids leave the same table as one. */
  lemma DeleteIdempotent(table: map<string, Row>, ids: seq<Id>)
    ensures WithoutIds(WithoutIds(table, ids), ids) == WithoutIds(table, ids)
  {
  }

  /** The subscription table as the route handlers see it. */
  class Store {
    var table: map<string, Row>
    var nextId: nat

    ghost predicate Valid()
      reads this
    {
      WellFormed(table, nextId)
    }

    constructor ()
      ensures Valid() && table == map[] && nextId == 0
    {
      table := map[];
      nextId := 0;
    }

    /** Upsert by endpoint; `fails` is the store reporting an error, in which
        case nothing is written. */
    method Upsert(endpoint: string, json: Descriptor, fails: bool) returns (ok: bool)
      requires Valid()
      modifies this
      ensures Valid()
      ensures ok == !fails
      ensures ok ==> table == Upserted(old(table), old(nextId), endpoint, json)
      ensures ok ==> nextId == NextIdAfter(old(table), old(nextId), endpoint)
      ensures !ok ==> table == old(table) && nextId == old(nextId)
    {
      ok := !fails;
      if ok {
        UpsertKeepsWellFormed(table, nextId, endpoint, json);
        table, nextId := Upserted(table, nextId, endpoint, json), NextIdAfter(table, nextId, endpoint);
      }
    }

    /** Delete every row whose id is listed; `fails` is the store reporting an
        error, in which case nothing is deleted. */
    method DeleteIdsIn(ids: seq<Id>, fails: bool) returns (ok: bool)
      requires Valid()
      modifies this
      ensures Valid()
      ensures ok == !fails
      ensures table == if ok then WithoutIds(old(table), ids) else old(table)
      ensures nextId == old(nextId)
    {
      ok := !fails;
      if ok {
        table := WithoutIds(table, ids);
      }
    }
  }
}
