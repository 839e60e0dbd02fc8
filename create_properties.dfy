/**
 * What the create command promises: the records it posts and their order,
 * the zone they go to, and that existing records play no part.
 */
module CreateProperties {
  import opened Wrappers
  import opened JsonText
  import opened Types
  import opened Select
  import opened Process
  import opened Cloudflare
  import opened Create
  import RequestBuilder
  import Update

  // ---------------------------------------------------------------------
  // The command follows the list of jobs

  lemma ThenAssoc(a: Run<Option<Fatal>>, b: Run<Option<Fatal>>, c: Run<Option<Fatal>>)
    ensures Then(Then(a, b), c) == Then(a, Then(b, c))
  {
    if a.result.None? && b.result.None? {
      assert (a.events + b.events) + c.events == a.events + (b.events + c.events);
    }
  }

  lemma {:induction false} JobsRunAppend(
    env: Env, flags: CreateFlags, assoc: Update.Association, now: RequestBuilder.Instant, a: seq<Job>, b: seq<Job>)
    ensures JobsRun(env, flags, assoc, now, a + b)
         == Then(JobsRun(env, flags, assoc, now, a), JobsRun(env, flags, assoc, now, b))
    decreases |a|
  {
    if a == [] {
      assert a + b == b;
      assert [] + JobsRun(env, flags, assoc, now, b).events == JobsRun(env, flags, assoc, now, b).events;
    } else {
      assert (a + b)[0] == a[0];
      assert (a + b)[1..] == a[1..] + b;
      JobsRunAppend(env, flags, assoc, now, a[1..], b);
      ThenAssoc(JobRun(env, flags, assoc, now, a[0]), JobsRun(env, flags, assoc, now, a[1..]), JobsRun(env, flags, assoc, now, b));
    }
  }

  lemma {:induction false} JobsForAppend(a: seq<string>, b: seq<string>, daneTa: bool)
    ensures JobsFor(a + b, daneTa) == JobsFor(a, daneTa) + JobsFor(b, daneTa)
    decreases |a|
  {
    if a == [] {
      assert a + b == b;
    } else {
      assert (a + b)[0] == a[0];
      assert (a + b)[1..] == a[1..] + b;
      JobsForAppend(a[1..], b, daneTa);
    }
  }

  /** One port block posts the jobs of that port. */
  lemma PortRunIsJobs(env: Env, flags: CreateFlags, assoc: Update.Association, now: RequestBuilder.Instant, enabled: bool, port: string)
    ensures PortRun(env, flags, assoc, now, enabled, port)
         == JobsRun(env, flags, assoc, now, JobsFor(if enabled then [port] else [], flags.daneTa))
  {
    if enabled {
      var ee := JobRun(env, flags, assoc, now, Job(port, 3));
      var ta := JobRun(env, flags, assoc, now, Job(port, 2));
      var jobs := JobsFor([port], flags.daneTa);
      assert [port][1..] == [];
      if flags.daneTa {
        assert jobs == [Job(port, 3), Job(port, 2)];
        assert JobsRun(env, flags, assoc, now, jobs[1..]) == Then(ta, Skip);
        assert Then(ta, Skip) == ta by {
          assert ta.events + [] == ta.events;
        }
      } else {
        assert jobs == [Job(port, 3)];
        assert Then(ee, Skip) == JobsRun(env, flags, assoc, now, jobs);
      }
    }
  }

  /** ResourceCreate posts exactly the jobs of CreateJobs, in order: the
      nested blocks per port flag run the same requests as the flat list. */
  lemma CreateFollowsJobs(env: Env, flags: CreateFlags, assoc: Update.Association, now: RequestBuilder.Instant)
    ensures CreateRun(env, flags, assoc, now) == JobsRun(env, flags, assoc, now, CreateJobs(flags))
  {
    var s25: seq<string> := if flags.tcp25 then ["25"] else [];
    var s465: seq<string> := if flags.tcp465 then ["465"] else [];
    var s587: seq<string> := if flags.tcp587 then ["587"] else [];
    var j25 := JobsFor(s25, flags.daneTa);
    var j465 := JobsFor(s465, flags.daneTa);
    var j587 := JobsFor(s587, flags.daneTa);
    assert Update.StandardPorts(flags.tcp25, flags.tcp465, flags.tcp587) == s25 + (s465 + s587);
    JobsForAppend(s465, s587, flags.daneTa);
    JobsForAppend(s25, s465 + s587, flags.daneTa);
    assert CreateJobs(flags) == j25 + (j465 + j587);
    JobsRunAppend(env, flags, assoc, now, j465, j587);
    JobsRunAppend(env, flags, assoc, now, j25, j465 + j587);
    PortRunIsJobs(env, flags, assoc, now, flags.tcp25, "25");
    PortRunIsJobs(env, flags, assoc, now, flags.tcp465, "465");
    PortRunIsJobs(env, flags, assoc, now, flags.tcp587, "587");
  }

  /** For every port a DANE-EE job, a DANE-TA job exactly when dane-ta is
      set, each DANE-TA job right after the DANE-EE job of its port, and
      nothing else. */
  lemma {:induction false} JobsForContents(ports: seq<string>, daneTa: bool)
    ensures var jobs := JobsFor(ports, daneTa);
      && (forall p :: p in ports ==> Job(p, 3) in jobs)
      && (forall p :: p in ports && daneTa ==> Job(p, 2) in jobs)
      && (forall j :: j in jobs ==> j.port in ports && (j.usage == 3 || (daneTa && j.usage == 2)))
      && (forall i :: 0 <= i < |jobs| && jobs[i].usage == 2 ==> 0 < i && jobs[i - 1] == Job(jobs[i].port, 3))
    decreases |ports|
  {
    if ports != [] {
      JobsForContents(ports[1..], daneTa);
      var head := [Job(ports[0], 3)] + (if daneTa then [Job(ports[0], 2)] else []);
      var rest := JobsFor(ports[1..], daneTa);
      var jobs := JobsFor(ports, daneTa);
      assert jobs == head + rest;
      forall p | p in ports
        ensures Job(p, 3) in jobs && (daneTa ==> Job(p, 2) in jobs)
      {
        if p != ports[0] {
          assert p in ports[1..];
        }
      }
      forall i | 0 <= i < |jobs| && jobs[i].usage == 2
        ensures 0 < i && jobs[i - 1] == Job(jobs[i].port, 3)
      {
        if i >= |head| {
          assert jobs[i] == rest[i - |head|];
          if i - |head| > 0 {
            assert jobs[i - 1] == rest[i - 1 - |head|];
          }
        }
      }
    }
  }

  /** The jobs of the create command, per the flags. */
  lemma CreateJobsContents(flags: CreateFlags)
    ensures var jobs := CreateJobs(flags);
      var n := (if flags.tcp25 then 1 else 0) + (if flags.tcp465 then 1 else 0) + (if flags.tcp587 then 1 else 0);
      && |jobs| == n * (if flags.daneTa then 2 else 1)
      && (Job("25", 3) in jobs <==> flags.tcp25)
      && (Job("465", 3) in jobs <==> flags.tcp465)
      && (Job("587", 3) in jobs <==> flags.tcp587)
      && (Job("25", 2) in jobs <==> flags.tcp25 && flags.daneTa)
      && (Job("465", 2) in jobs <==> flags.tcp465 && flags.daneTa)
      && (Job("587", 2) in jobs <==> flags.tcp587 && flags.daneTa)
      && (forall j :: j in jobs ==> j.usage == 3 || j.usage == 2)
      && (forall i :: 0 <= i < |jobs| && jobs[i].usage == 2 ==> 0 < i && jobs[i - 1] == Job(jobs[i].port, 3))
  {
    JobsForContents(Update.StandardPorts(flags.tcp25, flags.tcp465, flags.tcp587), flags.daneTa);
  }

  // ---------------------------------------------------------------------
  // What is posted, and where

  /** With no port flag nothing is sent and nil is returned. */
  lemma NoPortsReturnNil(env: Env, flags: CreateFlags, assoc: Update.Association, now: RequestBuilder.Instant)
    requires !flags.tcp25 && !flags.tcp465 && !flags.tcp587
    ensures CreateRun(env, flags, assoc, now) == Run(None, [])
  {
  }

  /** postToCloudflare posts the body unchanged to the last zone named
      exactly nameAndDomain, or to the empty zone id when there is none. */
  lemma PostTargetsLastExactZone(env: Env, nameAndDomain: string, body: string, z: string, b: string)
    requires Post(z, b) in PostRun(env, nameAndDomain, body).events
    ensures b == body
    ensures ZoneListing(env).Listed?
    ensures var zones := ZoneListing(env).items;
      var k := LastIndex(zones, Update.NamedExactly(nameAndDomain));
      && (k < 0 ==> z == "")
      && (k >= 0 ==> zones[k].name == nameAndDomain && zones[k].id == z)
      && forall j :: k < j < |zones| ==> zones[j].name != nameAndDomain
  {
  }

  /** The zone every post of the command goes to. */
  function CreateZone(env: Env, url: string): string
  {
    if ZoneListing(env).Listed? then PostZoneId(ZoneListing(env).items, url) else ""
  }

  lemma {:induction false} PostsAppend(a: seq<Event>, b: seq<Event>)
    ensures Posts(a + b) == Posts(a) + Posts(b)
    decreases |a|
  {
    if a == [] {
      assert a + b == b;
    } else {
      assert (a + b)[0] == a[0];
      assert (a + b)[1..] == a[1..] + b;
      PostsAppend(a[1..], b);
    }
  }

  /** A job that does not end the process lists the zones and posts its
      body to the zone named like the url. */
  lemma JobPosts(env: Env, flags: CreateFlags, assoc: Update.Association, now: RequestBuilder.Instant, job: Job)
    requires JobRun(env, flags, assoc, now, job).result.None?
    ensures CreateBody(flags, assoc, now, job).Ok?
    ensures JobRun(env, flags, assoc, now, job).events
         == [GetZones, Post(CreateZone(env, flags.url), CreateBody(flags, assoc, now, job).value)]
  {
    match CreateBody(flags, assoc, now, job)
    case Err(_) =>
    case Ok(body) =>
      assert JobRun(env, flags, assoc, now, job) == PostRun(env, flags.url, body);
  }

  lemma JobsRunStep(env: Env, flags: CreateFlags, assoc: Update.Association, now: RequestBuilder.Instant, jobs: seq<Job>)
    requires jobs != []
    requires JobsRun(env, flags, assoc, now, jobs).result.None?
    ensures JobRun(env, flags, assoc, now, jobs[0]).result.None?
    ensures JobsRun(env, flags, assoc, now, jobs[1..]).result.None?
    ensures JobsRun(env, flags, assoc, now, jobs).events
         == JobRun(env, flags, assoc, now, jobs[0]).events + JobsRun(env, flags, assoc, now, jobs[1..]).events
  {
  }

  /** The first job's post comes first. */
  lemma FirstJobPostsFirst(env: Env, flags: CreateFlags, assoc: Update.Association, now: RequestBuilder.Instant, jobs: seq<Job>)
    requires jobs != []
    requires JobsRun(env, flags, assoc, now, jobs).result.None?
    ensures JobsRun(env, flags, assoc, now, jobs[1..]).result.None?
    ensures CreateBody(flags, assoc, now, jobs[0]).Ok?
    ensures Posts(JobsRun(env, flags, assoc, now, jobs).events)
         == [Post(CreateZone(env, flags.url), CreateBody(flags, assoc, now, jobs[0]).value)]
            + Posts(JobsRun(env, flags, assoc, now, jobs[1..]).events)
  {
    var first := JobRun(env, flags, assoc, now, jobs[0]);
    var rest := JobsRun(env, flags, assoc, now, jobs[1..]);
    JobsRunStep(env, flags, assoc, now, jobs);
    JobPosts(env, flags, assoc, now, jobs[0]);
    PostsOfListingAndPost(CreateZone(env, flags.url), CreateBody(flags, assoc, now, jobs[0]).value);
    PostsAppend(first.events, rest.events);
  }

  lemma PostsOfListingAndPost(zoneId: string, body: string)
    ensures Posts([GetZones, Post(zoneId, body)]) == [Post(zoneId, body)]
  {
    var post := Post(zoneId, body);
    var events := [GetZones, post];
    assert events[1..] == [post];
    assert [post][1..] == [];
    assert Posts([post]) == [post] + Posts([]);
    assert Posts(events) == [] + Posts([post]);
  }

  /** When no step ends the process, one post goes out per job, in the
      order of the jobs, each with the job's body and all to the zone
      named like the url. */
  lemma {:induction false} JobsPostInOrder(
    env: Env, flags: CreateFlags, assoc: Update.Association, now: RequestBuilder.Instant, jobs: seq<Job>)
    requires JobsRun(env, flags, assoc, now, jobs).result.None?
    ensures var posts := Posts(JobsRun(env, flags, assoc, now, jobs).events);
      && |posts| == |jobs|
      && forall i :: 0 <= i < |jobs| ==>
           && CreateBody(flags, assoc, now, jobs[i]).Ok?
           && posts[i] == Post(CreateZone(env, flags.url), CreateBody(flags, assoc, now, jobs[i]).value)
    decreases |jobs|
  {
    if jobs != [] {
      FirstJobPostsFirst(env, flags, assoc, now, jobs);
      JobsPostInOrder(env, flags, assoc, now, jobs[1..]);
      var posts := Posts(JobsRun(env, flags, assoc, now, jobs).events);
      var tail := Posts(JobsRun(env, flags, assoc, now, jobs[1..]).events);
      forall i | 0 < i < |jobs|
        ensures CreateBody(flags, assoc, now, jobs[i]).Ok?
        ensures posts[i] == Post(CreateZone(env, flags.url), CreateBody(flags, assoc, now, jobs[i]).value)
      {
        assert jobs[i] == jobs[1..][i - 1];
        assert posts[i] == tail[i - 1];
      }
    }
  }

  /** The command posts the records of CreateJobs, one post each, in order. */
  lemma CreatePostsEveryJob(env: Env, flags: CreateFlags, assoc: Update.Association, now: RequestBuilder.Instant)
    requires CreateRun(env, flags, assoc, now).result.None?
    ensures var jobs := CreateJobs(flags);
      var posts := Posts(CreateRun(env, flags, assoc, now).events);
      && |posts| == |jobs|
      && forall i :: 0 <= i < |jobs| ==>
           && CreateBody(flags, assoc, now, jobs[i]).Ok?
           && posts[i] == Post(CreateZone(env, flags.url), CreateBody(flags, assoc, now, jobs[i]).value)
  {
    CreateFollowsJobs(env, flags, assoc, now);
    JobsPostInOrder(env, flags, assoc, now, CreateJobs(flags));
  }

  /** Every request of the command lists the zones or posts a record. */
  lemma {:induction false} JobsOnlyListZonesAndPost(
    env: Env, flags: CreateFlags, assoc: Update.Association, now: RequestBuilder.Instant, jobs: seq<Job>)
    ensures forall e :: e in JobsRun(env, flags, assoc, now, jobs).events ==> e.GetZones? || e.Post?
    decreases |jobs|
  {
    if jobs != [] {
      JobsOnlyListZonesAndPost(env, flags, assoc, now, jobs[1..]);
    }
  }

  /** The command never reads, replaces or deletes records: there is no
      duplicate check. */
  lemma CreateNeverReadsRecords(env: Env, flags: CreateFlags, assoc: Update.Association, now: RequestBuilder.Instant)
    ensures forall e :: e in CreateRun(env, flags, assoc, now).events ==> e.GetZones? || e.Post?
  {
    CreateFollowsJobs(env, flags, assoc, now);
    JobsOnlyListZonesAndPost(env, flags, assoc, now, CreateJobs(flags));
  }

  /** The records already in the provider change nothing: a record that
      exists is posted again. */
  lemma {:induction false} JobsIgnoreRecords(
    zones: seq<Zone>, records1: seq<Record>, records2: seq<Record>, faults: map<Event, Fault>,
    flags: CreateFlags, assoc: Update.Association, now: RequestBuilder.Instant, jobs: seq<Job>)
    ensures JobsRun(Env(zones, records1, faults), flags, assoc, now, jobs)
         == JobsRun(Env(zones, records2, faults), flags, assoc, now, jobs)
    decreases |jobs|
  {
    if jobs != [] {
      JobsIgnoreRecords(zones, records1, records2, faults, flags, assoc, now, jobs[1..]);
      var env1 := Env(zones, records1, faults);
      var env2 := Env(zones, records2, faults);
      match CreateBody(flags, assoc, now, jobs[0])
      case Err(_) =>
      case Ok(body) =>
        assert ZoneListing(env1) == ZoneListing(env2);
        assert PostRun(env1, flags.url, body) == PostRun(env2, flags.url, body);
        assert JobRun(env1, flags, assoc, now, jobs[0]) == PostRun(env1, flags.url, body);
        assert JobRun(env2, flags, assoc, now, jobs[0]) == PostRun(env2, flags.url, body);
    }
  }

  lemma CreateIgnoresRecords(
    zones: seq<Zone>, records1: seq<Record>, records2: seq<Record>, faults: map<Event, Fault>,
    flags: CreateFlags, assoc: Update.Association, now: RequestBuilder.Instant)
    ensures CreateRun(Env(zones, records1, faults), flags, assoc, now)
         == CreateRun(Env(zones, records2, faults), flags, assoc, now)
  {
    CreateFollowsJobs(Env(zones, records1, faults), flags, assoc, now);
    CreateFollowsJobs(Env(zones, records2, faults), flags, assoc, now);
    JobsIgnoreRecords(zones, records1, records2, faults, flags, assoc, now, CreateJobs(flags));
  }

  /** The body of a job reads back as a TLSA request for _port._tcp.subdomain
      with the job's usage, selector 1 for DANE-EE and 0 for DANE-TA,
      matching type 1, and "Created by GoTLSAFlare - " and a timestamp as
      comment. */
  lemma CreateBodyReadsBack(flags: CreateFlags, assoc: Update.Association, now: RequestBuilder.Instant, job: Job)
    requires Safe(job.port) && Safe(flags.subdomain)
    requires assoc(job.usage, CreateSelector(job.usage), 1).Ok?
    requires Safe(assoc(job.usage, CreateSelector(job.usage), 1).value)
    ensures CreateBody(flags, assoc, now, job).Ok?
    ensures var r := Unmarshal(CreateBody(flags, assoc, now, job).value);
      && r.Some?
      && r.value.recordType == "TLSA"
      && r.value.name == RequestBuilder.OwnerName(job.port, "tcp", flags.subdomain)
      && r.value.data.usage == job.usage
      && r.value.data.selector == (if job.usage == 3 then 1 else 0)
      && r.value.data.matchingType == 1
      && r.value.data.certificate == assoc(job.usage, CreateSelector(job.usage), 1).value
      && "Created" + RequestBuilder.Signature <= r.value.comment
  {
    var selector := CreateSelector(job.usage);
    var certificate := assoc(job.usage, selector, 1).value;
    var req := RequestBuilder.BuildRequest(job.port, "tcp", flags.subdomain, "Created", job.usage, selector, 1, certificate, now);
    assert CreateBody(flags, assoc, now, job) == Ok(Marshal(req));
    RequestBuilder.RequestReadsBack(job.port, "tcp", flags.subdomain, "Created", job.usage, selector, 1, certificate, now);
  }
}
