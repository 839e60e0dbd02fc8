/**
 * The create command: for each selected standard port, in the order 25,
 * 465, 587, post a DANE-EE (usage 3) record and then, when dane-ta is set,
 * a DANE-TA (usage 2) record. Each post lists the zones, takes the last zone
 * named exactly like the url, and posts the body there. Existing records
 * are never read, so nothing stops a record from being created twice. The
 * command returns nil unless a step ends the process.
 */
module Create {
  import opened Wrappers
  import opened Types
  import opened Select
  import opened Process
  import opened Cloudflare
  import CertHash
  import RequestBuilder
  import Update

  /** The flags ResourceCreate reads, apart from the certificate path. */
  datatype CreateFlags = CreateFlags(
    url: string,
    subdomain: string,
    tcp25: bool,
    tcp465: bool,
    tcp587: bool,
    daneTa: bool)

  /** One record to create: a port and a certificate usage. */
  datatype Job = Job(port: string, usage: int)

  // ---------------------------------------------------------------------
  // Specification

  /** The zone id postToCloudflare posts to: that of the last zone named
      exactly nameAndDomain, or "" when none is (or the listing is empty). */
  function PostZoneId(zones: seq<Zone>, nameAndDomain: string): string
  {
    Update.ZoneIdAt(zones, LastIndex(zones, Update.NamedExactly(nameAndDomain)))
  }

  /** postToCloudflare: list the zones, then post the body unchanged. A
      zone listing without a response leaves a nil response whose body is
      closed, a panic; an unreadable listing and a post without a response
      end the process. The status of the post is only logged. */
  function PostRun(env: Env, nameAndDomain: string, body: string): Run<Option<Fatal>>
  {
    match ZoneListing(env)
    case NoResponse => Run(Some(Panic), [GetZones])
    case BadBody => Run(Some(Exit), [GetZones])
    case Listed(zones) =>
      var post := Post(PostZoneId(zones, nameAndDomain), body);
      Run(if WriteStatus(env, post).None? then Some(Exit) else None, [GetZones, post])
  }

  /** The selector of the record created for a usage: the key (1) for
      DANE-EE and the full certificate (0) for DANE-TA. */
  function CreateSelector(usage: int): int
  {
    if usage == 3 then 1 else 0
  }

  /** The request body for one record, "Created" in the comment, matching
      type 1. A certificate that cannot be hashed ends the process. */
  function CreateBody(flags: CreateFlags, assoc: Update.Association, now: RequestBuilder.Instant, job: Job): Result<string, Fatal>
  {
    var selector := CreateSelector(job.usage);
    match assoc(job.usage, selector, 1)
    case Err(e) => Err(CertHash.Severity(e))
    case Ok(certificate) =>
      Ok(Marshal(RequestBuilder.BuildRequest(job.port, "tcp", flags.subdomain, "Created", job.usage, selector, 1, certificate, now)))
  }

  /** Build the body, then post it to the zone named like the url. */
  function JobRun(env: Env, flags: CreateFlags, assoc: Update.Association, now: RequestBuilder.Instant, job: Job): Run<Option<Fatal>>
  {
    match CreateBody(flags, assoc, now, job)
    case Err(f) => Run(Some(f), [])
    case Ok(body) => PostRun(env, flags.url, body)
  }

  /** Runs b after a, unless a ended the process. */
  function Then(a: Run<Option<Fatal>>, b: Run<Option<Fatal>>): Run<Option<Fatal>>
  {
    if a.result.Some? then a else Run(b.result, a.events + b.events)
  }

  const Skip: Run<Option<Fatal>> := Run(None, [])

  /** The block of ResourceCreate for one port flag. */
  function PortRun(env: Env, flags: CreateFlags, assoc: Update.Association, now: RequestBuilder.Instant, enabled: bool, port: string): Run<Option<Fatal>>
  {
    if !enabled then Skip
    else Then(JobRun(env, flags, assoc, now, Job(port, 3)),
              if flags.daneTa then JobRun(env, flags, assoc, now, Job(port, 2)) else Skip)
  }

  /** ResourceCreate after the flags are read. */
  function CreateRun(env: Env, flags: CreateFlags, assoc: Update.Association, now: RequestBuilder.Instant): Run<Option<Fatal>>
  {
    Then(PortRun(env, flags, assoc, now, flags.tcp25, "25"),
      Then(PortRun(env, flags, assoc, now, flags.tcp465, "465"),
           PortRun(env, flags, assoc, now, flags.tcp587, "587")))
  }

  // ---------------------------------------------------------------------
  // Reference: the records to create, as a list

  /** For each port, a DANE-EE record and then, with dane-ta, a DANE-TA one. */
  function JobsFor(ports: seq<string>, daneTa: bool): (jobs: seq<Job>)
    ensures |jobs| == |ports| * (if daneTa then 2 else 1)
  {
    if ports == [] then []
    else [Job(ports[0], 3)] + (if daneTa then [Job(ports[0], 2)] else []) + JobsFor(ports[1..], daneTa)
  }

  /** The records the create command makes, in order. */
  function CreateJobs(flags: CreateFlags): seq<Job>
  {
    JobsFor(Update.StandardPorts(flags.tcp25, flags.tcp465, flags.tcp587), flags.daneTa)
  }

  /** The jobs run one after the other until one ends the process. */
  function JobsRun(env: Env, flags: CreateFlags, assoc: Update.Association, now: RequestBuilder.Instant, jobs: seq<Job>): Run<Option<Fatal>>
  {
    if jobs == [] then Skip
    else Then(JobRun(env, flags, assoc, now, jobs[0]), JobsRun(env, flags, assoc, now, jobs[1..]))
  }

  /** The post requests of a trace, in order. */
  function Posts(events: seq<Event>): (posts: seq<Event>)
    ensures forall e :: e in posts <==> e.Post? && e in events
  {
    if events == [] then []
    else (if events[0].Post? then [events[0]] else []) + Posts(events[1..])
  }

  // ---------------------------------------------------------------------
  // The command against a provider

  /** postToCloudflare; its first argument is not used. */
  method PostToCloudflare(p: Provider, portAndProtocol: string, nameAndDomain: string, body: string) returns (fatal: Option<Fatal>)
    modifies p`trace
    ensures p.trace == old(p.trace) + PostRun(p.env, nameAndDomain, body).events
    ensures fatal == PostRun(p.env, nameAndDomain, body).result
  {
    var zoneReply := p.ListZones();
    if zoneReply.NoResponse? {
      return Some(Panic);
    } else if zoneReply.BadBody? {
      return Some(Exit);
    }
    var zones := zoneReply.items;
    var k := FindLast(zones, Update.NamedExactly(nameAndDomain));
    var did := Update.ZoneIdAt(zones, k);
    var status := p.Send(Post(did, body));
    if status.None? {
      return Some(Exit);
    }
    return None;
  }

  method CreateRecord(p: Provider, flags: CreateFlags, assoc: Update.Association, now: RequestBuilder.Instant, job: Job)
    returns (fatal: Option<Fatal>)
    modifies p`trace
    ensures p.trace == old(p.trace) + JobRun(p.env, flags, assoc, now, job).events
    ensures fatal == JobRun(p.env, flags, assoc, now, job).result
  {
    var body := CreateBody(flags, assoc, now, job);
    if body.Err? {
      return Some(body.error);
    }
    fatal := PostToCloudflare(p, "_" + job.port + "._tcp.", flags.url, body.value);
  }

  /** The block for one port flag: DANE-EE, then DANE-TA when asked for. */
  method CreatePort(p: Provider, flags: CreateFlags, assoc: Update.Association, now: RequestBuilder.Instant, enabled: bool, port: string)
    returns (fatal: Option<Fatal>)
    modifies p`trace
    ensures p.trace == old(p.trace) + PortRun(p.env, flags, assoc, now, enabled, port).events
    ensures fatal == PortRun(p.env, flags, assoc, now, enabled, port).result
  {
    if !enabled {
      return None;
    }
    ghost var ee := JobRun(p.env, flags, assoc, now, Job(port, 3));
    ghost var ta := if flags.daneTa then JobRun(p.env, flags, assoc, now, Job(port, 2)) else Skip;
    assert PortRun(p.env, flags, assoc, now, true, port) == Then(ee, ta);
    fatal := CreateRecord(p, flags, assoc, now, Job(port, 3));
    if fatal.Some? {
      return;
    }
    if flags.daneTa {
      fatal := CreateRecord(p, flags, assoc, now, Job(port, 2));
    }
    Update.AppendAssoc(old(p.trace), ee.events, ta.events);
  }

  method ResourceCreate(p: Provider, flags: CreateFlags, assoc: Update.Association, now: RequestBuilder.Instant)
    returns (fatal: Option<Fatal>)
    modifies p`trace
    ensures p.trace == old(p.trace) + CreateRun(p.env, flags, assoc, now).events
    ensures fatal == CreateRun(p.env, flags, assoc, now).result
  {
    ghost var r25 := PortRun(p.env, flags, assoc, now, flags.tcp25, "25");
    ghost var r465 := PortRun(p.env, flags, assoc, now, flags.tcp465, "465");
    ghost var r587 := PortRun(p.env, flags, assoc, now, flags.tcp587, "587");
    assert CreateRun(p.env, flags, assoc, now) == Then(r25, Then(r465, r587));
    fatal := CreatePort(p, flags, assoc, now, flags.tcp25, "25");
    if fatal.Some? {
      return;
    }
    ghost var mid := p.trace;
    fatal := CreatePort(p, flags, assoc, now, flags.tcp465, "465");
    if fatal.Some? {
      Update.AppendAssoc(old(p.trace), r25.events, r465.events);
      return;
    }
    fatal := CreatePort(p, flags, assoc, now, flags.tcp587, "587");
    Update.AppendAssoc(old(p.trace), r25.events, r465.events + r587.events);
    Update.AppendAssoc(mid, r465.events, r587.events);
  }
}
