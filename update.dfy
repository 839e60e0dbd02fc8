/**
 * The update command: validate the usage and matching-type flags, collect
 * the ports, and for each port replace the DANE-EE and/or DANE-TA record,
 * either in place or by the overlap-then-remove rollover of RFC 7671,
 * section 8 (publish the new record, wait two TTLs, then delete the old
 * one). Errors of one port do not stop the others; the first error is
 * returned.
 */
module Update {
  import opened Wrappers
  import opened JsonText
  import opened Types
  import opened Select
  import opened Process
  import opened Cloudflare
  import CertHash
  import RequestBuilder

  /** The provider call an error comes from. */
  datatype Step = ZoneList | RecordList | Replace | Create | Remove

  datatype UpdateError =
    | BadRequestBody
    | RequestFailed(step: Step)
    | ResponseUnreadable(step: Step)
    | NoZones
    | NoMatchingZone
    | RecordNotFound(usage: int, name: string)
    | ZoneIdMissing
    | CreateRejected(status: int)
    | InvalidIds
    | DeleteRejected(status: int)
    | PortFailed(usage: int, rollover: bool, port: string, cause: UpdateError)
    | NoPorts

  /** What getExistingRecord returns: the zone id, the old record if one
      matched, and an error. */
  datatype Lookup = Lookup(zoneId: string, record: Option<Record>, error: Option<UpdateError>)

  /** The errors collected so far, or the fatal end of the process. */
  datatype Outcome = Done(errors: seq<UpdateError>) | Stopped(fatal: Fatal)

  datatype UpdateOutcome = Finished(error: Option<UpdateError>) | Terminated(fatal: Fatal)

  /** The flags ResourceUpdate reads, apart from the certificate path. */
  datatype UpdateFlags = UpdateFlags(
    url: string,
    subdomain: string,
    tcp25: bool,
    tcp465: bool,
    tcp587: bool,
    tcpPort: int,
    daneEE: bool,
    noDaneEE: bool,
    daneTa: bool,
    rollover: bool,
    selector: int,
    matchingType: int)

  /** The association data of the certificate file for a usage, selector and
      matching type, or the failure that ends the process. */
  type Association = (int, int, int) -> Result<string, CertHash.HashError>

  // ---------------------------------------------------------------------
  // Selection

  function SuffixOf(domain: string): Zone -> bool
  {
    (z: Zone) => HasSuffix(domain, z.name)
  }

  function NamedExactly(name: string): Zone -> bool
  {
    (z: Zone) => z.name == name
  }

  /** A TLSA record for the owner prefix + domain with the given usage. */
  function RecordKey(prefix: string, domain: string, usage: int): Record -> bool
  {
    (r: Record) => r.recordType == "TLSA" && r.name == prefix + domain && r.data.usage == usage
  }

  /** The id the overwriting loop ends with: "" when nothing matched. */
  function ZoneIdAt(zones: seq<Zone>, k: int): string
  {
    if 0 <= k < |zones| then zones[k].id else ""
  }

  function RecordIdAt(records: seq<Record>, k: int): string
  {
    if 0 <= k < |records| then records[k].id else ""
  }

  // ---------------------------------------------------------------------
  // Specification of each step

  /** putToCloudflare: replace the last matching record of the last zone
      whose name ends the domain. */
  function PutRun(env: Env, prefix: string, domain: string, body: string): Run<Option<UpdateError>>
  {
    match Unmarshal(body)
    case None => Run(Some(BadRequestBody), [])
    case Some(req) =>
      match ZoneListing(env)
      case NoResponse => Run(Some(RequestFailed(ZoneList)), [GetZones])
      case BadBody => Run(Some(ResponseUnreadable(ZoneList)), [GetZones])
      case Listed(zones) =>
        var zoneId := ZoneIdAt(zones, LastIndex(zones, SuffixOf(domain)));
        if zoneId == "" then Run(Some(NoMatchingZone), [GetZones])
        else
          match RecordListing(env, zoneId)
          case NoResponse => Run(Some(RequestFailed(RecordList)), [GetZones, GetRecords(zoneId)])
          case BadBody => Run(Some(ResponseUnreadable(RecordList)), [GetZones, GetRecords(zoneId)])
          case Listed(records) =>
            var usage := req.data.usage;
            var recordId := RecordIdAt(records, LastIndex(records, RecordKey(prefix, domain, usage)));
            if recordId == "" then
              Run(Some(RecordNotFound(usage, prefix + domain)), [GetZones, GetRecords(zoneId)])
            else
              var put := Put(zoneId, recordId, body);
              Run(if WriteStatus(env, put).None? then Some(RequestFailed(Replace)) else None,
                  [GetZones, GetRecords(zoneId), put])
  }

  /** getExistingRecord: the last zone named exactly domain and the first
      matching record in it. */
  function ExistingRun(env: Env, prefix: string, domain: string, usage: int): Run<Lookup>
  {
    match ZoneListing(env)
    case NoResponse => Run(Lookup("", None, Some(RequestFailed(ZoneList))), [GetZones])
    case BadBody => Run(Lookup("", None, Some(ResponseUnreadable(ZoneList))), [GetZones])
    case Listed(zones) =>
      if zones == [] then Run(Lookup("", None, Some(NoZones)), [GetZones])
      else
        var zoneId := ZoneIdAt(zones, LastIndex(zones, NamedExactly(domain)));
        if zoneId == "" then Run(Lookup("", None, Some(NoMatchingZone)), [GetZones])
        else
          match RecordListing(env, zoneId)
          case NoResponse => Run(Lookup(zoneId, None, Some(RequestFailed(RecordList))), [GetZones, GetRecords(zoneId)])
          case BadBody => Run(Lookup(zoneId, None, Some(ResponseUnreadable(RecordList))), [GetZones, GetRecords(zoneId)])
          case Listed(records) =>
            var k := FirstIndex(records, RecordKey(prefix, domain, usage));
            Run(Lookup(zoneId, if k < |records| then Some(records[k]) else None, None),
                [GetZones, GetRecords(zoneId)])
  }

  /** deleteRecord: refuses empty ids without a request. */
  function DeleteRun(env: Env, zoneId: string, recordId: string): Run<Option<UpdateError>>
  {
    if zoneId == "" || recordId == "" then Run(Some(InvalidIds), [])
    else
      var del := Delete(zoneId, recordId);
      match WriteStatus(env, del)
      case None => Run(Some(RequestFailed(Remove)), [del])
      case Some(code) => Run(if code >= 400 then Some(DeleteRejected(code)) else None, [del])
  }

  /** Two TTLs of the old record, an hour standing in for a zero TTL. */
  function WaitSeconds(ttl: int): int
  {
    2 * (if ttl == 0 then 3600 else ttl)
  }

  /** performRollover: publish the new record next to the old one, wait,
      check propagation (advisory), then delete the old record. */
  function RolloverRun(env: Env, prefix: string, domain: string, body: string): Run<Option<UpdateError>>
  {
    match Unmarshal(body)
    case None => Run(Some(BadRequestBody), [])
    case Some(req) => RolloverAfterLookup(env, prefix, domain, body, ExistingRun(env, prefix, domain, req.data.usage))
  }

  /** The rollover once getExistingRecord has answered. */
  function RolloverAfterLookup(env: Env, prefix: string, domain: string, body: string, found: Run<Lookup>): Run<Option<UpdateError>>
  {
    var lookup := found.result;
    if lookup.error.Some? then Run(lookup.error, found.events)
    else if lookup.zoneId == "" then Run(Some(ZoneIdMissing), found.events)
    else if lookup.record.None? then
      var put := PutRun(env, prefix, domain, body);
      Run(put.result, found.events + put.events)
    else
      var replace := ReplaceRun(env, prefix + domain, body, lookup.zoneId, lookup.record.value);
      Run(replace.result, found.events + replace.events)
  }

  /** Create the new record; only when the provider accepts it, wait two
      TTLs, check propagation and delete the old record. */
  function ReplaceRun(env: Env, name: string, body: string, zoneId: string, oldRecord: Record): Run<Option<UpdateError>>
  {
    var post := Post(zoneId, body);
    match WriteStatus(env, post)
    case None => Run(Some(RequestFailed(Create)), [post])
    case Some(code) =>
      if code >= 400 then Run(Some(CreateRejected(code)), [post])
      else
        var del := DeleteRun(env, zoneId, oldRecord.id);
        Run(del.result, [post, Wait(WaitSeconds(oldRecord.ttl)), Check(name)] + del.events)
  }

  /** Selector -1 stands for SPKI (1) for DANE-EE and the full certificate (0)
      for DANE-TA; any other value is used for both. */
  function Selectors(selector: int): (sel: (int, int))
    ensures selector == -1 ==> sel == (1, 0)
    ensures selector != -1 ==> sel.0 == selector && sel.1 == selector
  {
    if selector == -1 then (1, 0) else (selector, selector)
  }

  /** DANE-EE stays enabled unless no-dane-ee is set. */
  function EffectiveDaneEE(flags: UpdateFlags): bool
  {
    flags.daneEE && !flags.noDaneEE
  }

  /** The request body the update builds for one port and usage. */
  function UpdateBody(
    flags: UpdateFlags, assoc: Association, now: RequestBuilder.Instant,
    port: string, usage: int, selector: int): Result<string, Fatal>
  {
    match assoc(usage, selector, flags.matchingType)
    case Err(e) => Err(CertHash.Severity(e))
    case Ok(certificate) =>
      Ok(Marshal(RequestBuilder.BuildRequest(
        port, "tcp", flags.subdomain, "Updated", usage, selector, flags.matchingType, certificate, now)))
  }

  function PortPrefix(port: string): string
  {
    "_" + port + "._tcp."
  }

  function Domain(flags: UpdateFlags): string
  {
    flags.subdomain + "." + flags.url
  }

  /** One usage of one port: build the request, then roll over or replace.
      A failure becomes one wrapped error. */
  function UsageRun(
    env: Env, flags: UpdateFlags, assoc: Association, now: RequestBuilder.Instant,
    port: string, usage: int, selector: int, rollover: bool): Run<Outcome>
  {
    match UpdateBody(flags, assoc, now, port, usage, selector)
    case Err(f) => Run(Stopped(f), [])
    case Ok(body) =>
      var r := if rollover then RolloverRun(env, PortPrefix(port), Domain(flags), body)
               else PutRun(env, PortPrefix(port), Domain(flags), body);
      Run(Done(if r.result.Some? then [PortFailed(usage, rollover, port, r.result.value)] else []), r.events)
  }

  /** Runs b after a, unless a ended the process. */
  function AndThen(a: Run<Outcome>, b: Run<Outcome>): Run<Outcome>
  {
    if a.result.Stopped? then a
    else match b.result
      case Done(e) => Run(Done(a.result.errors + e), a.events + b.events)
      case Stopped(f) => Run(Stopped(f), a.events + b.events)
  }

  const Nothing: Run<Outcome> := Run(Done([]), [])

  /** handlePortUpdate: DANE-EE first, then DANE-TA, which rolls over only
      when DANE-EE is off. */
  function PortRun(env: Env, flags: UpdateFlags, assoc: Association, now: RequestBuilder.Instant, port: string): Run<Outcome>
  {
    var sel := Selectors(flags.selector);
    var daneEE := EffectiveDaneEE(flags);
    var ee := if daneEE then UsageRun(env, flags, assoc, now, port, 3, sel.0, flags.rollover) else Nothing;
    var ta := if flags.daneTa then UsageRun(env, flags, assoc, now, port, 2, sel.1, flags.rollover && !daneEE) else Nothing;
    AndThen(ee, ta)
  }

  /** Position of a standard port in the processing order. */
  function StandardRank(port: string): int
  {
    if port == "25" then 0 else if port == "465" then 1 else if port == "587" then 2 else 3
  }

  /** The standard ports whose flags are set: each once, in the order
      25, 465, 587. */
  function StandardPorts(tcp25: bool, tcp465: bool, tcp587: bool): (ports: seq<string>)
    ensures |ports| == (if tcp25 then 1 else 0) + (if tcp465 then 1 else 0) + (if tcp587 then 1 else 0)
    ensures ("25" in ports <==> tcp25) && ("465" in ports <==> tcp465) && ("587" in ports <==> tcp587)
    ensures forall i, j :: 0 <= i < j < |ports| ==> StandardRank(ports[i]) < StandardRank(ports[j])
  {
    assert "25" != "465" && "25" != "587" && "465"[0] != "587"[0];
    (if tcp25 then ["25"] else []) + (if tcp465 then ["465"] else []) + (if tcp587 then ["587"] else [])
  }

  /** The ports in processing order: the custom port when it is set, then
      the standard ones. */
  function PortList(flags: UpdateFlags): (ports: seq<string>)
    ensures var c := if flags.tcpPort != 0 then 1 else 0;
      && |ports| == c + (if flags.tcp25 then 1 else 0) + (if flags.tcp465 then 1 else 0) + (if flags.tcp587 then 1 else 0)
      && (c == 1 ==> ports[0] == IntText(flags.tcpPort))
      && ports[c..] == StandardPorts(flags.tcp25, flags.tcp465, flags.tcp587)
  {
    var custom := if flags.tcpPort != 0 then [IntText(flags.tcpPort)] else [];
    var standard := StandardPorts(flags.tcp25, flags.tcp465, flags.tcp587);
    assert (custom + standard)[|custom|..] == standard;
    custom + standard
  }

  /** The ports processed in order, collecting errors until the process ends. */
  function PortsRun(env: Env, flags: UpdateFlags, assoc: Association, now: RequestBuilder.Instant, ports: seq<string>): Run<Outcome>
  {
    if ports == [] then Nothing
    else AndThen(PortsRun(env, flags, assoc, now, ports[..|ports| - 1]), PortRun(env, flags, assoc, now, ports[|ports| - 1]))
  }

  predicate UsageEnabled(flags: UpdateFlags)
  {
    EffectiveDaneEE(flags) || flags.daneTa
  }

  predicate MatchingTypeValid(flags: UpdateFlags)
  {
    flags.matchingType == 1 || flags.matchingType == 2
  }

  /** ResourceUpdate after the flags are read. */
  function UpdateRun(env: Env, flags: UpdateFlags, assoc: Association, now: RequestBuilder.Instant): Run<UpdateOutcome>
  {
    if !UsageEnabled(flags) || !MatchingTypeValid(flags) then Run(Terminated(Exit), [])
    else
      var ports := PortList(flags);
      if ports == [] then Run(Finished(Some(NoPorts)), [])
      else
        var all := PortsRun(env, flags, assoc, now, ports);
        match all.result
        case Stopped(f) => Run(Terminated(f), all.events)
        case Done(errors) => Run(Finished(if errors == [] then None else Some(errors[0])), all.events)
  }

  // ---------------------------------------------------------------------
  // The synchroniser against a provider

  method PutToCloudflare(p: Provider, prefix: string, domain: string, body: string) returns (err: Option<UpdateError>)
    modifies p`trace
    ensures p.trace == old(p.trace) + PutRun(p.env, prefix, domain, body).events
    ensures err == PutRun(p.env, prefix, domain, body).result
  {
    var req := Unmarshal(body);
    if req.None? {
      return Some(BadRequestBody);
    }
    var usage := req.value.data.usage;
    var zoneReply := p.ListZones();
    if zoneReply.NoResponse? {
      return Some(RequestFailed(ZoneList));
    } else if zoneReply.BadBody? {
      return Some(ResponseUnreadable(ZoneList));
    }
    var zones := zoneReply.items;
    var z := FindLast(zones, SuffixOf(domain));
    var zoneId := ZoneIdAt(zones, z);
    if zoneId == "" {
      return Some(NoMatchingZone);
    }
    var recordReply := p.ListRecords(zoneId);
    if recordReply.NoResponse? {
      return Some(RequestFailed(RecordList));
    } else if recordReply.BadBody? {
      return Some(ResponseUnreadable(RecordList));
    }
    var records := recordReply.items;
    var k := FindLast(records, RecordKey(prefix, domain, usage));
    var recordId := RecordIdAt(records, k);
    if recordId == "" {
      return Some(RecordNotFound(usage, prefix + domain));
    }
    var status := p.Send(Put(zoneId, recordId, body));
    if status.None? {
      return Some(RequestFailed(Replace));
    }
    return None;
  }

  method GetExistingRecord(p: Provider, prefix: string, domain: string, usage: int) returns (lookup: Lookup)
    modifies p`trace
    ensures p.trace == old(p.trace) + ExistingRun(p.env, prefix, domain, usage).events
    ensures lookup == ExistingRun(p.env, prefix, domain, usage).result
  {
    var zoneReply := p.ListZones();
    if zoneReply.NoResponse? {
      return Lookup("", None, Some(RequestFailed(ZoneList)));
    } else if zoneReply.BadBody? {
      return Lookup("", None, Some(ResponseUnreadable(ZoneList)));
    }
    var zones := zoneReply.items;
    if |zones| == 0 {
      return Lookup("", None, Some(NoZones));
    }
    var z := FindLast(zones, NamedExactly(domain));
    var zoneId := ZoneIdAt(zones, z);
    if zoneId == "" {
      return Lookup("", None, Some(NoMatchingZone));
    }
    var recordReply := p.ListRecords(zoneId);
    if recordReply.NoResponse? {
      return Lookup(zoneId, None, Some(RequestFailed(RecordList)));
    } else if recordReply.BadBody? {
      return Lookup(zoneId, None, Some(ResponseUnreadable(RecordList)));
    }
    var records := recordReply.items;
    var k := FindFirst(records, RecordKey(prefix, domain, usage));
    if k < |records| {
      return Lookup(zoneId, Some(records[k]), None);
    }
    return Lookup(zoneId, None, None);
  }

  method DeleteRecord(p: Provider, zoneId: string, recordId: string) returns (err: Option<UpdateError>)
    modifies p`trace
    ensures p.trace == old(p.trace) + DeleteRun(p.env, zoneId, recordId).events
    ensures err == DeleteRun(p.env, zoneId, recordId).result
  {
    if zoneId == "" || recordId == "" {
      return Some(InvalidIds);
    }
    var status := p.Send(Delete(zoneId, recordId));
    if status.None? {
      return Some(RequestFailed(Remove));
    } else if status.value >= 400 {
      return Some(DeleteRejected(status.value));
    }
    return None;
  }

  method PerformRollover(p: Provider, prefix: string, domain: string, body: string) returns (err: Option<UpdateError>)
    modifies p`trace
    ensures p.trace == old(p.trace) + RolloverRun(p.env, prefix, domain, body).events
    ensures err == RolloverRun(p.env, prefix, domain, body).result
  {
    var req := Unmarshal(body);
    if req.None? {
      return Some(BadRequestBody);
    }
    var lookup := GetExistingRecord(p, prefix, domain, req.value.data.usage);
    ghost var found := ExistingRun(p.env, prefix, domain, req.value.data.usage);
    assert RolloverRun(p.env, prefix, domain, body) == RolloverAfterLookup(p.env, prefix, domain, body, found);
    if lookup.error.Some? {
      return lookup.error;
    }
    if lookup.zoneId == "" {
      return Some(ZoneIdMissing);
    }
    ghost var afterLookup := p.trace;
    if lookup.record.None? {
      err := PutToCloudflare(p, prefix, domain, body);
      AppendAssoc(old(p.trace), found.events, PutRun(p.env, prefix, domain, body).events);
      return;
    }
    err := ReplaceOldRecord(p, prefix + domain, body, lookup.zoneId, lookup.record.value);
    AppendAssoc(old(p.trace), found.events, ReplaceRun(p.env, prefix + domain, body, lookup.zoneId, lookup.record.value).events);
  }

  /** The part of performRollover after the old record is known. */
  method ReplaceOldRecord(p: Provider, name: string, body: string, zoneId: string, oldRecord: Record)
    returns (err: Option<UpdateError>)
    modifies p`trace
    ensures p.trace == old(p.trace) + ReplaceRun(p.env, name, body, zoneId, oldRecord).events
    ensures err == ReplaceRun(p.env, name, body, zoneId, oldRecord).result
  {
    var status := p.Send(Post(zoneId, body));
    if status.None? {
      return Some(RequestFailed(Create));
    } else if status.value >= 400 {
      return Some(CreateRejected(status.value));
    }
    p.Sleep(WaitSeconds(oldRecord.ttl));
    var propagated := p.QueryResolvers(name);
    // The outcome of the propagation check is only logged.
    err := DeleteRecord(p, zoneId, oldRecord.id);
  }

  /** One usage of handlePortUpdate: build, then roll over or replace. */
  method UpdateUsage(
    p: Provider, flags: UpdateFlags, assoc: Association, now: RequestBuilder.Instant,
    port: string, usage: int, selector: int, rollover: bool) returns (outcome: Outcome)
    modifies p`trace
    ensures p.trace == old(p.trace) + UsageRun(p.env, flags, assoc, now, port, usage, selector, rollover).events
    ensures outcome == UsageRun(p.env, flags, assoc, now, port, usage, selector, rollover).result
  {
    var body := UpdateBody(flags, assoc, now, port, usage, selector);
    if body.Err? {
      return Stopped(body.error);
    }
    var err;
    if rollover {
      err := PerformRollover(p, PortPrefix(port), Domain(flags), body.value);
    } else {
      err := PutToCloudflare(p, PortPrefix(port), Domain(flags), body.value);
    }
    outcome := Done(if err.Some? then [PortFailed(usage, rollover, port, err.value)] else []);
  }

  method HandlePortUpdate(p: Provider, flags: UpdateFlags, assoc: Association, now: RequestBuilder.Instant, port: string)
    returns (outcome: Outcome)
    modifies p`trace
    ensures p.trace == old(p.trace) + PortRun(p.env, flags, assoc, now, port).events
    ensures outcome == PortRun(p.env, flags, assoc, now, port).result
  {
    var sel := Selectors(flags.selector);
    var daneEE := EffectiveDaneEE(flags);
    ghost var ee := if daneEE then UsageRun(p.env, flags, assoc, now, port, 3, sel.0, flags.rollover) else Nothing;
    ghost var ta := if flags.daneTa then UsageRun(p.env, flags, assoc, now, port, 2, sel.1, flags.rollover && !daneEE) else Nothing;
    assert PortRun(p.env, flags, assoc, now, port) == AndThen(ee, ta);
    outcome := Done([]);
    if daneEE {
      outcome := UpdateUsage(p, flags, assoc, now, port, 3, sel.0, flags.rollover);
      if outcome.Stopped? {
        return;
      }
    }
    assert p.trace == old(p.trace) + ee.events && outcome == ee.result;
    if flags.daneTa {
      var taOutcome := UpdateUsage(p, flags, assoc, now, port, 2, sel.1, flags.rollover && !daneEE);
      outcome := match taOutcome
        case Done(e) => Done(outcome.errors + e)
        case Stopped(f) => Stopped(f);
    }
    AppendAssoc(old(p.trace), ee.events, ta.events);
  }

  /** The loop over the collected ports, appending each port's errors. */
  method ProcessPorts(p: Provider, flags: UpdateFlags, assoc: Association, now: RequestBuilder.Instant, ports: seq<string>)
    returns (outcome: Outcome)
    modifies p`trace
    ensures p.trace == old(p.trace) + PortsRun(p.env, flags, assoc, now, ports).events
    ensures outcome == PortsRun(p.env, flags, assoc, now, ports).result
  {
    var updateErrors: seq<UpdateError> := [];
    for i := 0 to |ports|
      invariant PortsRun(p.env, flags, assoc, now, ports[..i]).result == Done(updateErrors)
      invariant p.trace == old(p.trace) + PortsRun(p.env, flags, assoc, now, ports[..i]).events
    {
      ghost var before := PortsRun(p.env, flags, assoc, now, ports[..i]);
      ghost var here := PortRun(p.env, flags, assoc, now, ports[i]);
      assert ports[..i + 1][..i] == ports[..i];
      assert PortsRun(p.env, flags, assoc, now, ports[..i + 1]) == AndThen(before, here);
      var o := HandlePortUpdate(p, flags, assoc, now, ports[i]);
      AppendAssoc(old(p.trace), before.events, here.events);
      if o.Stopped? {
        StoppedPersists(p.env, flags, assoc, now, ports, i + 1);
        return o;
      }
      updateErrors := updateErrors + o.errors;
    }
    assert ports[..|ports|] == ports;
    return Done(updateErrors);
  }

  method ResourceUpdate(p: Provider, flags: UpdateFlags, assoc: Association, now: RequestBuilder.Instant)
    returns (outcome: UpdateOutcome)
    modifies p`trace
    ensures p.trace == old(p.trace) + UpdateRun(p.env, flags, assoc, now).events
    ensures outcome == UpdateRun(p.env, flags, assoc, now).result
  {
    if !UsageEnabled(flags) || !MatchingTypeValid(flags) {
      return Terminated(Exit);
    }
    var ports := PortList(flags);
    if |ports| == 0 {
      return Finished(Some(NoPorts));
    }
    var all := ProcessPorts(p, flags, assoc, now, ports);
    if all.Stopped? {
      return Terminated(all.fatal);
    }
    var updateErrors := all.errors;
    if |updateErrors| > 0 {
      return Finished(Some(updateErrors[0]));
    }
    return Finished(None);
  }

  lemma AppendAssoc<T>(a: seq<T>, b: seq<T>, c: seq<T>)
    ensures a + (b + c) == (a + b) + c
  {
  }

  /** Once a port ends the process, no later port runs. */
  lemma {:induction false} StoppedPersists(
    env: Env, flags: UpdateFlags, assoc: Association, now: RequestBuilder.Instant, ports: seq<string>, i: nat)
    requires i <= |ports|
    requires PortsRun(env, flags, assoc, now, ports[..i]).result.Stopped?
    ensures PortsRun(env, flags, assoc, now, ports) == PortsRun(env, flags, assoc, now, ports[..i])
    decreases |ports| - i
  {
    if i < |ports| {
      assert ports[..i + 1][..i] == ports[..i];
      StoppedPersists(env, flags, assoc, now, ports, i + 1);
    } else {
      assert ports[..i] == ports;
    }
  }
}
