/**
  The client-side token store (client/src/lib/indexdb.js): an object store named
  `tokens`, keyed by the record field `id`, in which the access token lives under the
  single fixed key "accessToken". Opening the database and its upgrade callback are
  transport plumbing and are not modelled; every store operation succeeds.
*/
module TokenStore {
  import opened Wrappers

  /** The only key the client ever writes, reads or deletes. */
  const AccessTokenKey: string := "accessToken"

  /** A record of the `tokens` object store. */
  datatype TokenRecord = TokenRecord(id: string, value: string, timestamp: int)

  /** The store after `put({id: 'accessToken', value, timestamp})`. */
  function Put(records: map<string, TokenRecord>, value: string, now: int): (r: map<string, TokenRecord>)
    ensures AccessTokenKey in r && r[AccessTokenKey] == TokenRecord(AccessTokenKey, value, now)
    ensures forall k :: k != AccessTokenKey ==> (k in r <==> k in records)
    ensures forall k :: k != AccessTokenKey && k in records ==> r[k] == records[k]
  {
    records[AccessTokenKey := TokenRecord(AccessTokenKey, value, now)]
  }

  /** The store after `delete('accessToken')`. */
  function Delete(records: map<string, TokenRecord>): (r: map<string, TokenRecord>)
    ensures AccessTokenKey !in r
    ensures forall k :: k != AccessTokenKey ==> (k in r <==> k in records)
    ensures forall k :: k in r ==> r[k] == records[k]
  {
    records - {AccessTokenKey}
  }

  /** What `get('accessToken')` resolves to: the record's value, or null when there is no record. */
  function Lookup(records: map<string, TokenRecord>): (t: Option<string>)
    ensures t.Some? <==> AccessTokenKey in records
    ensures t.Some? ==> t.value == records[AccessTokenKey].value
  {
    if AccessTokenKey in records then Some(records[AccessTokenKey].value) else None
  }

  /** JavaScript truthiness of a token read from the store: present and not the empty string. */
  predicate Truthy(t: Option<string>) {
    t.Some? && t.value != ""
  }

  /** The `tokens` object store, updated in place. */
  class Store {
    var records: map<string, TokenRecord>

    constructor ()
      ensures records == map[]
    {
      records := map[];
    }

    /** saveToken: overwrites the record under "accessToken" and nothing else. */
    method SaveToken(value: string, now: int)
      modifies this
      ensures records == Put(old(records), value, now)
    {
      records := records[AccessTokenKey := TokenRecord(AccessTokenKey, value, now)];
    }

    /** getToken: the stored value, or None; the store is not changed. */
    method GetToken() returns (t: Option<string>)
      ensures t == Lookup(records)
      ensures t.Some? <==> AccessTokenKey in records
      ensures t.Some? ==> t.value == records[AccessTokenKey].value
    {
      if AccessTokenKey in records {
        t := Some(records[AccessTokenKey].value);
      } else {
        t := None;
      }
    }

    /** removeToken: deletes the record under "accessToken" and nothing else. */
    method RemoveToken()
      modifies this
      ensures records == Delete(old(records))
    {
      records := records - {AccessTokenKey};
    }
  }

  /** Round trip: after saving `v`, reading gives back `v`. */
  lemma SaveThenGet(records: map<string, TokenRecord>, v: string, now: int)
    ensures Lookup(Put(records, v, now)) == Some(v)
  {
  }

  /** Saving overwrites: after saving `a` and then `b`, reading gives `b`. */
  lemma SaveOverwrites(records: map<string, TokenRecord>, a: string, b: string, t1: int, t2: int)
    ensures Lookup(Put(Put(records, a, t1), b, t2)) == Some(b)
  {
  }

  /** After removing, reading gives null, whatever was stored before. */
  lemma RemoveThenGet(records: map<string, TokenRecord>)
    ensures Lookup(Delete(records)) == None
  {
  }

  /** Saving and removing touch no record other than the one under "accessToken". */
  lemma OtherRecordsUntouched(records: map<string, TokenRecord>, v: string, now: int, k: string)
    requires k != AccessTokenKey
    ensures k in Put(records, v, now) <==> k in records
    ensures k in Delete(records) <==> k in records
    ensures k in records ==> Put(records, v, now)[k] == records[k] && Delete(records)[k] == records[k]
  {
  }
}
