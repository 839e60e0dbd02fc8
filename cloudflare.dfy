/**
 * The DNS provider as the synchroniser sees it: a zone listing, a record
 * listing per zone, and write requests (create, replace, delete), plus the
 * two actions of a rollover that are not requests to the provider: waiting
 * and asking public resolvers whether the record has propagated. Every
 * call is appended to a trace. Which calls fail, and how, is fixed in
 * advance by a fault map keyed by the call itself.
 */
module Cloudflare {
  import opened Wrappers
  import opened Types

  datatype Event =
    | GetZones
    | GetRecords(zoneId: string)
    | Post(zoneId: string, body: string)
    | Put(zoneId: string, recordId: string, body: string)
    | Delete(zoneId: string, recordId: string)
    | Wait(seconds: int)
    | Check(name: string)

  /** Unreachable: the request got no response (client.Do failed).
      Unreadable: the body could not be read or parsed.
      Status(code): the provider answered with that status; a listing
      answered this way carries no results. */
  datatype Fault = Unreachable | Unreadable | Status(code: int)

  datatype Env = Env(zones: seq<Zone>, records: seq<Record>, faults: map<Event, Fault>)

  /** The outcome of a listing request. */
  datatype Reply<T> = Listed(items: seq<T>) | NoResponse | BadBody

  /** A call and the trace it leaves, for the specification of each step. */
  datatype Run<T> = Run(result: T, events: seq<Event>)

  /** The records of one zone, in listing order. That every record of the
      zone is listed, as often as the store holds it, and in the store's
      order is proved by RecordsOfExact, RecordsOfAppend and
      RecordsOfOneZone. */
  function RecordsOf(records: seq<Record>, zoneId: string): (r: seq<Record>)
    ensures |r| <= |records|
    ensures forall i :: 0 <= i < |r| ==> r[i].zoneId == zoneId && r[i] in records
  {
    if records == [] then []
    else (if records[0].zoneId == zoneId then [records[0]] else []) + RecordsOf(records[1..], zoneId)
  }

  /** A record is listed exactly when the store holds it and it belongs to
      the zone, and it is listed as many times as the store holds it. */
  lemma {:induction false} RecordsOfExact(records: seq<Record>, zoneId: string)
    ensures forall x :: x in RecordsOf(records, zoneId) <==> x in records && x.zoneId == zoneId
    ensures forall x :: multiset(RecordsOf(records, zoneId))[x]
                     == if x.zoneId == zoneId then multiset(records)[x] else 0
    decreases |records|
  {
    if records != [] {
      RecordsOfExact(records[1..], zoneId);
      assert records == [records[0]] + records[1..];
      assert multiset(records) == multiset{records[0]} + multiset(records[1..]);
    }
  }

  /** Listing a store made of two parts lists the first part's records of
      the zone, then the second part's. */
  lemma {:induction false} RecordsOfAppend(a: seq<Record>, b: seq<Record>, zoneId: string)
    ensures RecordsOf(a + b, zoneId) == RecordsOf(a, zoneId) + RecordsOf(b, zoneId)
    decreases |a|
  {
    if a != [] {
      assert (a + b)[0] == a[0];
      assert (a + b)[1..] == a[1..] + b;
      RecordsOfAppend(a[1..], b, zoneId);
    } else {
      assert a + b == b;
    }
  }

  /** A store holding only records of the zone is listed as it is. */
  lemma {:induction false} RecordsOfOneZone(records: seq<Record>, zoneId: string)
    requires forall i :: 0 <= i < |records| ==> records[i].zoneId == zoneId
    ensures RecordsOf(records, zoneId) == records
    decreases |records|
  {
    if records != [] {
      RecordsOfOneZone(records[1..], zoneId);
    }
  }

  function Listing<T>(env: Env, e: Event, items: seq<T>): Reply<T>
  {
    if e !in env.faults then Listed(items)
    else match env.faults[e]
      case Unreachable => NoResponse
      case Unreadable => BadBody
      case Status(_) => Listed([])
  }

  function ZoneListing(env: Env): Reply<Zone>
  {
    Listing(env, GetZones, env.zones)
  }

  function RecordListing(env: Env, zoneId: string): Reply<Record>
  {
    Listing(env, GetRecords(zoneId), RecordsOf(env.records, zoneId))
  }

  /** The status of a write request, or None when it got no response. A
      response whose body is unreadable still carries a success status:
      the write paths never read it. */
  function WriteStatus(env: Env, e: Event): Option<int>
  {
    if e !in env.faults then Some(200)
    else match env.faults[e]
      case Unreachable => None
      case Unreadable => Some(200)
      case Status(code) => Some(code)
  }

  /** Whether every resolver answered the propagation query. */
  predicate Propagated(env: Env, name: string)
  {
    Check(name) !in env.faults
  }

  predicate IsWrite(e: Event)
  {
    e.Post? || e.Put? || e.Delete?
  }

  class Provider {
    const env: Env
    var trace: seq<Event>

    constructor (env: Env)
      ensures this.env == env && trace == []
    {
      this.env := env;
      trace := [];
    }

    method ListZones() returns (reply: Reply<Zone>)
      modifies this`trace
      ensures trace == old(trace) + [GetZones]
      ensures reply == ZoneListing(env)
    {
      trace := trace + [GetZones];
      reply := ZoneListing(env);
    }

    method ListRecords(zoneId: string) returns (reply: Reply<Record>)
      modifies this`trace
      ensures trace == old(trace) + [GetRecords(zoneId)]
      ensures reply == RecordListing(env, zoneId)
    {
      trace := trace + [GetRecords(zoneId)];
      reply := RecordListing(env, zoneId);
    }

    method Send(e: Event) returns (status: Option<int>)
      requires IsWrite(e)
      modifies this`trace
      ensures trace == old(trace) + [e]
      ensures status == WriteStatus(env, e)
    {
      trace := trace + [e];
      status := WriteStatus(env, e);
    }

    method Sleep(seconds: int)
      modifies this`trace
      ensures trace == old(trace) + [Wait(seconds)]
    {
      trace := trace + [Wait(seconds)];
    }

    method QueryResolvers(name: string) returns (ok: bool)
      modifies this`trace
      ensures trace == old(trace) + [Check(name)]
      ensures ok == Propagated(env, name)
    {
      trace := trace + [Check(name)];
      ok := Propagated(env, name);
    }
  }
}
