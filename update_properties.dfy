/**
 * What the update command promises: validation before any call, the port
 * order, every port processed and the first error returned, the records
 * each step selects, and the ordering of the rollover.
 */
module UpdateProperties {
  import opened Wrappers
  import opened JsonText
  import opened Types
  import opened Select
  import opened Process
  import opened Cloudflare
  import opened Update
  import RequestBuilder

  // ---------------------------------------------------------------------
  // Validation and ports

  /** Without an enabled usage, or with a matching type other than 1 or 2,
      the process exits before any provider call. */
  lemma InvalidFlagsExitFirst(env: Env, flags: UpdateFlags, assoc: Association, now: RequestBuilder.Instant)
    requires (!(flags.daneEE && !flags.noDaneEE) && !flags.daneTa)
          || (flags.matchingType != 1 && flags.matchingType != 2)
    ensures UpdateRun(env, flags, assoc, now) == Run(Terminated(Exit), [])
  {
  }

  /** With no port selected the update reports it and calls nothing. */
  lemma NoPortsNoCalls(env: Env, flags: UpdateFlags, assoc: Association, now: RequestBuilder.Instant)
    requires UsageEnabled(flags) && MatchingTypeValid(flags)
    requires flags.tcpPort == 0 && !flags.tcp25 && !flags.tcp465 && !flags.tcp587
    ensures UpdateRun(env, flags, assoc, now) == Run(Finished(Some(NoPorts)), [])
  {
  }

  /** AndThen is associative, so runs can be regrouped. */
  lemma AndThenAssoc(a: Run<Outcome>, b: Run<Outcome>, c: Run<Outcome>)
    ensures AndThen(AndThen(a, b), c) == AndThen(a, AndThen(b, c))
  {
    if a.result.Done? && b.result.Done? {
      assert (a.events + b.events) + c.events == a.events + (b.events + c.events);
      match c.result
      case Done(e) =>
        assert (a.result.errors + b.result.errors) + e == a.result.errors + (b.result.errors + e);
      case Stopped(_) =>
    }
  }

  /** Processing a + b is processing a, then b unless a ended the process. */
  lemma {:induction false} PortsRunAppend(
    env: Env, flags: UpdateFlags, assoc: Association, now: RequestBuilder.Instant, a: seq<string>, b: seq<string>)
    ensures PortsRun(env, flags, assoc, now, a + b)
         == AndThen(PortsRun(env, flags, assoc, now, a), PortsRun(env, flags, assoc, now, b))
    decreases |b|
  {
    var run := (ports: seq<string>) => PortsRun(env, flags, assoc, now, ports);
    if b == [] {
      assert a + b == a;
      var x := run(a);
      match x.result
      case Done(e) => assert e + [] == e; assert x.events + [] == x.events;
      case Stopped(_) =>
    } else {
      var b' := b[..|b| - 1];
      var last := PortRun(env, flags, assoc, now, b[|b| - 1]);
      assert (a + b)[..|a + b| - 1] == a + b';
      assert (a + b)[|a + b| - 1] == b[|b| - 1];
      PortsRunAppend(env, flags, assoc, now, a, b');
      AndThenAssoc(run(a), run(b'), last);
    }
  }

  /** Every port runs whatever errors the ports before it reported: as long
      as the process has not ended, port i's calls follow those of the
      ports before it in the trace. */
  lemma EveryPortRuns(
    env: Env, flags: UpdateFlags, assoc: Association, now: RequestBuilder.Instant, ports: seq<string>, i: nat)
    requires i < |ports|
    requires PortsRun(env, flags, assoc, now, ports[..i]).result.Done?
    ensures PortsRun(env, flags, assoc, now, ports[..i]).events + PortRun(env, flags, assoc, now, ports[i]).events
            <= PortsRun(env, flags, assoc, now, ports).events
  {
    var run := (ps: seq<string>) => PortsRun(env, flags, assoc, now, ps);
    var head := ports[..i + 1];
    assert head[..i] == ports[..i];
    assert head[|head| - 1] == ports[i];
    assert run(head) == AndThen(run(ports[..i]), PortRun(env, flags, assoc, now, ports[i]));
    assert ports == head + ports[i + 1..];
    PortsRunAppend(env, flags, assoc, now, head, ports[i + 1..]);
    var whole := AndThen(run(head), run(ports[i + 1..]));
    assert run(ports) == whole;
    assert run(head).events <= whole.events;
  }

  /** Once port i has reported errors after error-free ports, the errors
      collected over all ports start with them, unless a later port ended
      the process. */
  lemma FirstErrorsKept(
    env: Env, flags: UpdateFlags, assoc: Association, now: RequestBuilder.Instant,
    ports: seq<string>, i: nat, errs: seq<UpdateError>)
    requires i < |ports|
    requires PortsRun(env, flags, assoc, now, ports[..i]).result == Done([])
    requires PortRun(env, flags, assoc, now, ports[i]).result == Done(errs)
    ensures PortsRun(env, flags, assoc, now, ports).result.Done? ==> errs <= PortsRun(env, flags, assoc, now, ports).result.errors
  {
    var run := (ps: seq<string>) => PortsRun(env, flags, assoc, now, ps);
    var head := ports[..i + 1];
    assert head[..i] == ports[..i];
    assert head[|head| - 1] == ports[i];
    assert run(head) == AndThen(run(ports[..i]), PortRun(env, flags, assoc, now, ports[i]));
    assert [] + errs == errs;
    assert run(head).result == Done(errs);
    assert ports == head + ports[i + 1..];
    PortsRunAppend(env, flags, assoc, now, head, ports[i + 1..]);
    var rest := run(ports[i + 1..]);
    assert run(ports) == AndThen(run(head), rest);
  }

  /** The update finishes normally only when no port ended the process. */
  lemma FinishedOnlyWhenDone(env: Env, flags: UpdateFlags, assoc: Association, now: RequestBuilder.Instant)
    requires UsageEnabled(flags) && MatchingTypeValid(flags) && PortList(flags) != []
    ensures UpdateRun(env, flags, assoc, now).result.Finished?
        <==> PortsRun(env, flags, assoc, now, PortList(flags)).result.Done?
  {
  }

  /** The update returns the first error the ports collected. */
  lemma ReturnsFirstCollected(env: Env, flags: UpdateFlags, assoc: Association, now: RequestBuilder.Instant, e: UpdateError)
    requires UsageEnabled(flags) && MatchingTypeValid(flags) && PortList(flags) != []
    requires PortsRun(env, flags, assoc, now, PortList(flags)).result.Done?
    requires PortsRun(env, flags, assoc, now, PortList(flags)).result.errors != []
    requires PortsRun(env, flags, assoc, now, PortList(flags)).result.errors[0] == e
    ensures UpdateRun(env, flags, assoc, now).result == Finished(Some(e))
  {
  }

  /** Without any error and without a fatal end the update returns nil. */
  lemma NoErrorsReturnNil(env: Env, flags: UpdateFlags, assoc: Association, now: RequestBuilder.Instant)
    requires UsageEnabled(flags) && MatchingTypeValid(flags) && PortList(flags) != []
    requires PortsRun(env, flags, assoc, now, PortList(flags)).result == Done([])
    ensures UpdateRun(env, flags, assoc, now).result == Finished(None)
  {
  }

  // ---------------------------------------------------------------------
  // The record each step selects

  /** A replacement goes to the last zone whose name ends the domain and
      to the last TLSA record there with the owner name and the usage of
      the body, and sends the body unchanged. */
  lemma PutTargetsLastMatch(env: Env, prefix: string, domain: string, body: string, z: string, r: string, b: string)
    requires Put(z, r, b) in PutRun(env, prefix, domain, body).events
    ensures b == body && Unmarshal(body).Some?
    ensures ZoneListing(env).Listed?
    ensures var zones := ZoneListing(env).items;
      var k := LastIndex(zones, SuffixOf(domain));
      && 0 <= k < |zones| && zones[k].id == z && HasSuffix(domain, zones[k].name)
      && forall j :: k < j < |zones| ==> !HasSuffix(domain, zones[j].name)
    ensures RecordListing(env, z).Listed?
    ensures var records := RecordListing(env, z).items;
      var usage := Unmarshal(body).value.data.usage;
      var k := LastIndex(records, RecordKey(prefix, domain, usage));
      && 0 <= k < |records| && records[k].id == r
      && records[k].recordType == "TLSA" && records[k].name == prefix + domain && records[k].data.usage == usage
      && forall j :: k < j < |records| ==> !RecordKey(prefix, domain, usage)(records[j])
  {
  }

  /** Without a matching record nothing is written. */
  lemma NoMatchNoWrite(env: Env, prefix: string, domain: string, body: string, zones: seq<Zone>, records: seq<Record>)
    requires Unmarshal(body).Some?
    requires ZoneListing(env) == Listed(zones)
    requires var zoneId := ZoneIdAt(zones, LastIndex(zones, SuffixOf(domain)));
      zoneId != "" && RecordListing(env, zoneId) == Listed(records)
    requires forall j :: 0 <= j < |records| ==> !RecordKey(prefix, domain, Unmarshal(body).value.data.usage)(records[j])
    ensures forall e :: e in PutRun(env, prefix, domain, body).events ==> !IsWrite(e)
    ensures PutRun(env, prefix, domain, body).result
         == Some(RecordNotFound(Unmarshal(body).value.data.usage, prefix + domain))
  {
  }

  /** The lookup of a rollover reads the zone named exactly like the
      domain (the last one when several are) and returns the first
      matching record in it. */
  lemma LookupFindsFirstMatch(env: Env, prefix: string, domain: string, usage: int, rec: Record)
    requires ExistingRun(env, prefix, domain, usage).result.record == Some(rec)
    ensures ExistingRun(env, prefix, domain, usage).result.error.None?
    ensures ZoneListing(env).Listed?
    ensures var zones := ZoneListing(env).items;
      var k := LastIndex(zones, NamedExactly(domain));
      var zoneId := ExistingRun(env, prefix, domain, usage).result.zoneId;
      && 0 <= k < |zones| && zones[k].id == zoneId && zoneId != "" && zones[k].name == domain
    ensures var zoneId := ExistingRun(env, prefix, domain, usage).result.zoneId;
      && RecordListing(env, zoneId).Listed?
      && var records := RecordListing(env, zoneId).items;
      && var k := FirstIndex(records, RecordKey(prefix, domain, usage));
      && k < |records| && records[k] == rec
      && rec.recordType == "TLSA" && rec.name == prefix + domain && rec.data.usage == usage
      && forall j :: 0 <= j < k ==> !RecordKey(prefix, domain, usage)(records[j])
  {
  }

  /** Only reads happen before the lookup answers. */
  lemma LookupOnlyReads(env: Env, prefix: string, domain: string, usage: int)
    ensures var events := ExistingRun(env, prefix, domain, usage).events;
      1 <= |events| <= 2 && events[0] == GetZones
      && forall e :: e in events ==> e.GetZones? || e.GetRecords?
  {
  }

  /** deleteRecord sends nothing for an empty id and exactly one request
      otherwise. */
  lemma DeleteGuard(env: Env, zoneId: string, recordId: string)
    ensures zoneId == "" || recordId == "" <==> DeleteRun(env, zoneId, recordId).events == []
    ensures zoneId == "" || recordId == "" ==> DeleteRun(env, zoneId, recordId).result == Some(InvalidIds)
    ensures zoneId != "" && recordId != "" ==> DeleteRun(env, zoneId, recordId).events == [Delete(zoneId, recordId)]
    ensures DeleteRun(env, zoneId, recordId).result.None?
        <==> zoneId != "" && recordId != "" && WriteStatus(env, Delete(zoneId, recordId)).Some?
             && WriteStatus(env, Delete(zoneId, recordId)).value < 400
  {
  }

  // ---------------------------------------------------------------------
  // Rollover

  /** An in-place replacement never deletes. */
  lemma PutNeverDeletes(env: Env, prefix: string, domain: string, body: string)
    ensures forall e :: e in PutRun(env, prefix, domain, body).events ==> !e.Delete? && !e.Wait?
  {
  }

  /** Once the old record is known, it is deleted only after the new one was
      accepted, the wait and the propagation check. */
  lemma ReplaceDeletesLast(env: Env, name: string, body: string, zoneId: string, oldRecord: Record, z: string, r: string)
    requires Delete(z, r) in ReplaceRun(env, name, body, zoneId, oldRecord).events
    ensures z == zoneId && r == oldRecord.id
    ensures WriteStatus(env, Post(zoneId, body)).Some? && WriteStatus(env, Post(zoneId, body)).value < 400
    ensures ReplaceRun(env, name, body, zoneId, oldRecord).events
         == [Post(zoneId, body), Wait(WaitSeconds(oldRecord.ttl)), Check(name), Delete(z, r)]
  {
  }

  lemma AfterLookupDeletesLast(env: Env, prefix: string, domain: string, body: string, found: Run<Lookup>, z: string, r: string)
    requires forall e :: e in found.events ==> !e.Delete?
    requires Delete(z, r) in RolloverAfterLookup(env, prefix, domain, body, found).events
    ensures found.result.error.None? && found.result.record.Some?
    ensures z == found.result.zoneId && r == found.result.record.value.id
    ensures WriteStatus(env, Post(z, body)).Some? && WriteStatus(env, Post(z, body)).value < 400
    ensures RolloverAfterLookup(env, prefix, domain, body, found).events
         == found.events + [Post(z, body), Wait(WaitSeconds(found.result.record.value.ttl)), Check(prefix + domain), Delete(z, r)]
  {
    var lookup := found.result;
    var run := RolloverAfterLookup(env, prefix, domain, body, found);
    if lookup.error.Some? || lookup.zoneId == "" {
    } else if lookup.record.None? {
      PutNeverDeletes(env, prefix, domain, body);
    } else {
      var replace := ReplaceRun(env, prefix + domain, body, lookup.zoneId, lookup.record.value);
      assert run.events == found.events + replace.events;
      assert Delete(z, r) in replace.events;
      ReplaceDeletesLast(env, prefix + domain, body, lookup.zoneId, lookup.record.value, z, r);
    }
  }

  /** The old record is deleted only after the lookup found it, the new
      record was accepted, two TTLs of the old record were waited and the
      propagation check ran, in that order and with nothing in between. */
  lemma RolloverDeletesLast(env: Env, prefix: string, domain: string, body: string, z: string, r: string)
    requires Delete(z, r) in RolloverRun(env, prefix, domain, body).events
    ensures Unmarshal(body).Some?
    ensures var found := ExistingRun(env, prefix, domain, Unmarshal(body).value.data.usage);
      && found.result.error.None? && found.result.record.Some?
      && z == found.result.zoneId && r == found.result.record.value.id
      && WriteStatus(env, Post(z, body)).Some? && WriteStatus(env, Post(z, body)).value < 400
      && RolloverRun(env, prefix, domain, body).events
         == found.events + [Post(z, body), Wait(WaitSeconds(found.result.record.value.ttl)), Check(prefix + domain), Delete(z, r)]
  {
    var usage := Unmarshal(body).value.data.usage;
    var found := ExistingRun(env, prefix, domain, usage);
    LookupOnlyReads(env, prefix, domain, usage);
    assert RolloverRun(env, prefix, domain, body) == RolloverAfterLookup(env, prefix, domain, body, found);
    AfterLookupDeletesLast(env, prefix, domain, body, found, z, r);
  }

  lemma AfterLookupRejectedCreate(env: Env, prefix: string, domain: string, body: string, found: Run<Lookup>)
    requires forall e :: e in found.events ==> !e.Delete? && !e.Wait?
    requires found.result.error.None? && found.result.zoneId != "" && found.result.record.Some?
    requires var status := WriteStatus(env, Post(found.result.zoneId, body));
      status.None? || status.value >= 400
    ensures RolloverAfterLookup(env, prefix, domain, body, found).events == found.events + [Post(found.result.zoneId, body)]
    ensures RolloverAfterLookup(env, prefix, domain, body, found).result.Some?
  {
  }

  /** When the provider does not accept the new record, the old one stays:
      nothing is deleted, nothing is waited for and the error is reported. */
  lemma RejectedCreateKeepsOldRecord(env: Env, prefix: string, domain: string, body: string)
    requires Unmarshal(body).Some?
    requires var found := ExistingRun(env, prefix, domain, Unmarshal(body).value.data.usage);
      && found.result.error.None? && found.result.record.Some?
      && var status := WriteStatus(env, Post(found.result.zoneId, body));
      && (status.None? || status.value >= 400)
    ensures forall e :: e in RolloverRun(env, prefix, domain, body).events ==> !e.Delete? && !e.Wait?
    ensures RolloverRun(env, prefix, domain, body).result.Some?
  {
    var usage := Unmarshal(body).value.data.usage;
    var found := ExistingRun(env, prefix, domain, usage);
    LookupOnlyReads(env, prefix, domain, usage);
    LookupNamesZone(env, prefix, domain, usage);
    assert RolloverRun(env, prefix, domain, body) == RolloverAfterLookup(env, prefix, domain, body, found);
    AfterLookupRejectedCreate(env, prefix, domain, body, found);
  }

  /** A lookup without error names a zone. */
  lemma LookupNamesZone(env: Env, prefix: string, domain: string, usage: int)
    ensures ExistingRun(env, prefix, domain, usage).result.error.None? ==> ExistingRun(env, prefix, domain, usage).result.zoneId != ""
  {
  }

  /** Without an old record the rollover falls back to an in-place
      replacement, after the lookup's own requests. */
  lemma NoOldRecordFallsBackToPut(env: Env, prefix: string, domain: string, body: string)
    requires Unmarshal(body).Some?
    requires var found := ExistingRun(env, prefix, domain, Unmarshal(body).value.data.usage);
      found.result.error.None? && found.result.record.None?
    ensures var found := ExistingRun(env, prefix, domain, Unmarshal(body).value.data.usage);
      && RolloverRun(env, prefix, domain, body).result == PutRun(env, prefix, domain, body).result
      && RolloverRun(env, prefix, domain, body).events == found.events + PutRun(env, prefix, domain, body).events
  {
    var found := ExistingRun(env, prefix, domain, Unmarshal(body).value.data.usage);
    assert RolloverRun(env, prefix, domain, body) == RolloverAfterLookup(env, prefix, domain, body, found);
  }

  /** The empty-zone-id guard of performRollover never fires: a lookup
      without error always names a zone. */
  lemma ZoneIdGuardNeverFires(env: Env, prefix: string, domain: string, body: string)
    ensures RolloverRun(env, prefix, domain, body).result != Some(ZoneIdMissing)
  {
    match Unmarshal(body)
    case None =>
    case Some(req) =>
      var found := ExistingRun(env, prefix, domain, req.data.usage);
      assert RolloverRun(env, prefix, domain, body) == RolloverAfterLookup(env, prefix, domain, body, found);
  }

  /** A rollover needs a zone named exactly like the domain; a zone that
      only ends it, which an in-place replacement accepts, is not enough. */
  lemma RolloverNeedsExactZone(env: Env, prefix: string, domain: string, body: string)
    requires Unmarshal(body).Some?
    requires ZoneListing(env).Listed? && ZoneListing(env).items != []
    requires forall z :: z in ZoneListing(env).items ==> z.name != domain
    ensures RolloverRun(env, prefix, domain, body) == Run(Some(NoMatchingZone), [GetZones])
  {
    var zones := ZoneListing(env).items;
    var k := LastIndex(zones, NamedExactly(domain));
    var found := ExistingRun(env, prefix, domain, Unmarshal(body).value.data.usage);
    assert found == Run(Lookup("", None, Some(NoMatchingZone)), [GetZones]);
    assert RolloverRun(env, prefix, domain, body) == RolloverAfterLookup(env, prefix, domain, body, found);
  }

  /** An in-place replacement accepts the last zone whose name ends the
      domain and goes on to list its records. */
  lemma PutAcceptsSuffixZone(env: Env, prefix: string, domain: string, body: string, k: nat)
    requires Unmarshal(body).Some?
    requires ZoneListing(env).Listed?
    requires var zones := ZoneListing(env).items;
      k < |zones| && HasSuffix(domain, zones[k].name) && zones[k].id != ""
      && forall j :: k < j < |zones| ==> !HasSuffix(domain, zones[j].name)
    ensures |PutRun(env, prefix, domain, body).events| >= 2
    ensures PutRun(env, prefix, domain, body).events[..2] == [GetZones, GetRecords(ZoneListing(env).items[k].id)]
  {
    var zones := ZoneListing(env).items;
    var last := LastIndex(zones, SuffixOf(domain));
    assert SuffixOf(domain)(zones[k]);
    assert last == k;
  }

  /** Two environments that differ only in their answers to resolver
      queries. */
  predicate AgreeOffChecks(env1: Env, env2: Env)
  {
    && env1.zones == env2.zones && env1.records == env2.records
    && (forall e :: e in env1.faults && !e.Check? ==> e in env2.faults && env2.faults[e] == env1.faults[e])
    && (forall e :: e in env2.faults && !e.Check? ==> e in env1.faults)
  }

  lemma ListingsAgree(env1: Env, env2: Env)
    requires AgreeOffChecks(env1, env2)
    ensures ZoneListing(env1) == ZoneListing(env2)
    ensures forall zoneId :: RecordListing(env1, zoneId) == RecordListing(env2, zoneId)
    ensures forall e :: IsWrite(e) ==> WriteStatus(env1, e) == WriteStatus(env2, e)
  {
    forall zoneId: string
      ensures RecordListing(env1, zoneId) == RecordListing(env2, zoneId)
    {
      assert !GetRecords(zoneId).Check?;
    }
  }

  /** Whether the propagation check succeeds changes nothing: runs in two
      environments that differ only in their answers to resolver queries
      are the same. */
  lemma PropagationCheckIsAdvisory(env1: Env, env2: Env, prefix: string, domain: string, body: string)
    requires AgreeOffChecks(env1, env2)
    ensures RolloverRun(env1, prefix, domain, body) == RolloverRun(env2, prefix, domain, body)
  {
    ListingsAgree(env1, env2);
    match Unmarshal(body)
    case None =>
    case Some(req) =>
      var usage := req.data.usage;
      var found := ExistingRun(env1, prefix, domain, usage);
      assert found == ExistingRun(env2, prefix, domain, usage);
      assert PutRun(env1, prefix, domain, body) == PutRun(env2, prefix, domain, body);
      var lookup := found.result;
      if lookup.record.Some? {
        var del1 := DeleteRun(env1, lookup.zoneId, lookup.record.value.id);
        assert del1 == DeleteRun(env2, lookup.zoneId, lookup.record.value.id);
        assert ReplaceRun(env1, prefix + domain, body, lookup.zoneId, lookup.record.value)
            == ReplaceRun(env2, prefix + domain, body, lookup.zoneId, lookup.record.value);
      }
      assert RolloverRun(env1, prefix, domain, body) == RolloverAfterLookup(env1, prefix, domain, body, found);
      assert RolloverRun(env2, prefix, domain, body) == RolloverAfterLookup(env2, prefix, domain, body, found);
  }

  // ---------------------------------------------------------------------
  // At most one deletion per port

  /** The number of delete requests in a trace. */
  function Deletes(events: seq<Event>): nat
  {
    if events == [] then 0 else (if events[0].Delete? then 1 else 0) + Deletes(events[1..])
  }

  lemma {:induction false} DeletesAppend(a: seq<Event>, b: seq<Event>)
    ensures Deletes(a + b) == Deletes(a) + Deletes(b)
  {
    if a != [] {
      assert (a + b)[1..] == a[1..] + b;
      DeletesAppend(a[1..], b);
    } else {
      assert a + b == b;
    }
  }

  lemma {:induction false} NoDeleteCountsZero(events: seq<Event>)
    requires forall e :: e in events ==> !e.Delete?
    ensures Deletes(events) == 0
  {
    if events != [] {
      assert events[0] in events;
      NoDeleteCountsZero(events[1..]);
    }
  }

  lemma RolloverDeletesAtMostOnce(env: Env, prefix: string, domain: string, body: string)
    ensures Deletes(RolloverRun(env, prefix, domain, body).events) <= 1
  {
    match Unmarshal(body)
    case None =>
    case Some(req) =>
      var usage := req.data.usage;
      var found := ExistingRun(env, prefix, domain, usage);
      LookupOnlyReads(env, prefix, domain, usage);
      NoDeleteCountsZero(found.events);
      assert RolloverRun(env, prefix, domain, body) == RolloverAfterLookup(env, prefix, domain, body, found);
      var lookup := found.result;
      if lookup.error.None? && lookup.zoneId != "" {
        if lookup.record.None? {
          var put := PutRun(env, prefix, domain, body);
          PutNeverDeletes(env, prefix, domain, body);
          NoDeleteCountsZero(put.events);
          DeletesAppend(found.events, put.events);
        } else {
          var oldRecord := lookup.record.value;
          var replace := ReplaceRun(env, prefix + domain, body, lookup.zoneId, oldRecord);
          if WriteStatus(env, Post(lookup.zoneId, body)).Some? && WriteStatus(env, Post(lookup.zoneId, body)).value < 400 {
            var del := DeleteRun(env, lookup.zoneId, oldRecord.id);
            var head := [Post(lookup.zoneId, body), Wait(WaitSeconds(oldRecord.ttl)), Check(prefix + domain)];
            assert replace.events == head + del.events;
            NoDeleteCountsZero(head);
            assert Deletes(del.events) <= 1;
            DeletesAppend(head, del.events);
          }
          assert Deletes(replace.events) <= 1;
          DeletesAppend(found.events, replace.events);
        }
      }
  }

  lemma UsageDeletesAtMostOnce(
    env: Env, flags: UpdateFlags, assoc: Association, now: RequestBuilder.Instant,
    port: string, usage: int, selector: int, rollover: bool)
    ensures Deletes(UsageRun(env, flags, assoc, now, port, usage, selector, rollover).events) <= (if rollover then 1 else 0)
  {
    match UpdateBody(flags, assoc, now, port, usage, selector)
    case Err(_) =>
    case Ok(body) =>
      if rollover {
        RolloverDeletesAtMostOnce(env, PortPrefix(port), Domain(flags), body);
      } else {
        PutNeverDeletes(env, PortPrefix(port), Domain(flags), body);
        NoDeleteCountsZero(PutRun(env, PortPrefix(port), Domain(flags), body).events);
      }
  }

  /** A port deletes at most one old record: only one of its two usages
      ever rolls over. */
  lemma PortDeletesAtMostOnce(env: Env, flags: UpdateFlags, assoc: Association, now: RequestBuilder.Instant, port: string)
    ensures Deletes(PortRun(env, flags, assoc, now, port).events) <= 1
  {
    var sel := Selectors(flags.selector);
    var daneEE := EffectiveDaneEE(flags);
    var ee := if daneEE then UsageRun(env, flags, assoc, now, port, 3, sel.0, flags.rollover) else Nothing;
    var ta := if flags.daneTa then UsageRun(env, flags, assoc, now, port, 2, sel.1, flags.rollover && !daneEE) else Nothing;
    assert PortRun(env, flags, assoc, now, port) == AndThen(ee, ta);
    if daneEE {
      UsageDeletesAtMostOnce(env, flags, assoc, now, port, 3, sel.0, flags.rollover);
    }
    if flags.daneTa {
      UsageDeletesAtMostOnce(env, flags, assoc, now, port, 2, sel.1, flags.rollover && !daneEE);
    }
    assert Deletes(ee.events) + Deletes(ta.events) <= 1;
    DeletesAppend(ee.events, ta.events);
  }

  // ---------------------------------------------------------------------
  // Flags and request bodies

  /** The body built for a port and usage reads back as a TLSA request
      for the owner _port._tcp.subdomain with that usage, the selector
      and matching type asked for, the certificate data of the
      association, and the comment "Updated by GoTLSAFlare - " and a
      timestamp. */
  lemma UpdateBodyReadsBack(
    flags: UpdateFlags, assoc: Association, now: RequestBuilder.Instant,
    port: string, usage: int, selector: int)
    requires Safe(port) && Safe(flags.subdomain)
    requires assoc(usage, selector, flags.matchingType).Ok? && Safe(assoc(usage, selector, flags.matchingType).value)
    ensures UpdateBody(flags, assoc, now, port, usage, selector).Ok?
    ensures var r := Unmarshal(UpdateBody(flags, assoc, now, port, usage, selector).value);
      && r.Some?
      && r.value.recordType == "TLSA"
      && r.value.name == RequestBuilder.OwnerName(port, "tcp", flags.subdomain)
      && r.value.data == Data(usage, selector, flags.matchingType, assoc(usage, selector, flags.matchingType).value)
      && "Updated" + RequestBuilder.Signature <= r.value.comment
  {
    var certificate := assoc(usage, selector, flags.matchingType).value;
    var req := RequestBuilder.BuildRequest(port, "tcp", flags.subdomain, "Updated", usage, selector, flags.matchingType, certificate, now);
    assert UpdateBody(flags, assoc, now, port, usage, selector) == Ok(Marshal(req));
    RequestBuilder.RequestReadsBack(port, "tcp", flags.subdomain, "Updated", usage, selector, flags.matchingType, certificate, now);
  }

  /** A certificate that cannot be hashed ends the process before the
      usage sends anything. */
  lemma UnreadableCertificateStops(
    env: Env, flags: UpdateFlags, assoc: Association, now: RequestBuilder.Instant,
    port: string, usage: int, selector: int, rollover: bool)
    requires assoc(usage, selector, flags.matchingType).Err?
    ensures UsageRun(env, flags, assoc, now, port, usage, selector, rollover)
         == Run(Stopped(CertHash.Severity(assoc(usage, selector, flags.matchingType).error)), [])
  {
  }

  /** no-dane-ee overrides dane-ee. */
  lemma {:induction false} NoDaneEEOverrides(
    env: Env, flags: UpdateFlags, assoc: Association, now: RequestBuilder.Instant, ports: seq<string>)
    requires flags.noDaneEE
    ensures PortsRun(env, flags, assoc, now, ports) == PortsRun(env, flags.(daneEE := false), assoc, now, ports)
    decreases |ports|
  {
    if ports != [] {
      var port := ports[|ports| - 1];
      NoDaneEEOverrides(env, flags, assoc, now, ports[..|ports| - 1]);
      var off := flags.(daneEE := false);
      assert EffectiveDaneEE(flags) == EffectiveDaneEE(off);
      var sel := Selectors(flags.selector);
      assert UsageRun(env, flags, assoc, now, port, 2, sel.1, flags.rollover)
          == UsageRun(env, off, assoc, now, port, 2, sel.1, flags.rollover);
      assert PortRun(env, flags, assoc, now, port) == PortRun(env, off, assoc, now, port);
    }
  }
}
