/**
 * The original single-command program: the first set port flag among
 * 25tcp, 465tcp and 587tcp is the only one processed; create wins over
 * update; without a port flag the usage text is printed. Its record
 * replacement always uses the first zone of the listing and the last
 * record with the owner name, of any type and usage. Its request builder
 * and hash are those of RequestBuilder and CertHash (usage 3, selector 1,
 * matching type 1), and its post is Create.PostRun.
 */
module Legacy {
  import opened Wrappers
  import opened Types
  import opened Select
  import opened Process
  import opened Cloudflare
  import opened CertHash
  import RequestBuilder
  import Create
  import Update

  /** The flags main reads. */
  datatype MainFlags = MainFlags(
    url: string,
    subdomain: string,
    create: bool,
    update: bool,
    port25: bool,
    port465: bool,
    port587: bool,
    cert: string)

  /** How main ends: the usage text, a plain return, or the end of the
      process. */
  datatype MainOutcome = PrintedUsage | Returned | Terminated(fatal: Fatal)

  /** A record with the given name, whatever its type and usage. */
  function NamedRecord(name: string): Record -> bool
  {
    (r: Record) => r.name == name
  }

  /** putToCloudflare of main.go: list the zones, list the records of the
      first zone, and put the body to the last record with the owner name
      (or to the empty id when there is none). A listing without a
      response panics on the nil response; an empty zone listing panics
      on the index; an unreadable listing and a put without a response
      end the process. */
  function LegacyPutRun(env: Env, portAndProtocol: string, nameAndDomain: string, body: string): Run<Option<Fatal>>
  {
    match ZoneListing(env)
    case NoResponse => Run(Some(Panic), [GetZones])
    case BadBody => Run(Some(Exit), [GetZones])
    case Listed(zones) =>
      if zones == [] then Run(Some(Panic), [GetZones])
      else
        var zoneId := zones[0].id;
        match RecordListing(env, zoneId)
        case NoResponse => Run(Some(Panic), [GetZones, GetRecords(zoneId)])
        case BadBody => Run(Some(Exit), [GetZones, GetRecords(zoneId)])
        case Listed(records) =>
          var did := Update.RecordIdAt(records, LastIndex(records, NamedRecord(portAndProtocol + nameAndDomain)));
          var put := Put(zoneId, did, body);
          Run(if WriteStatus(env, put).None? then Some(Exit) else None, [GetZones, GetRecords(zoneId), put])
  }

  /** The port of the first case of the switch whose flag is set. */
  function SelectedPort(flags: MainFlags): (port: Option<string>)
    ensures port.Some? <==> flags.port25 || flags.port465 || flags.port587
    ensures port == Some("25") <==> flags.port25
    ensures port == Some("465") <==> !flags.port25 && flags.port465
    ensures port == Some("587") <==> !flags.port25 && !flags.port465 && flags.port587
  {
    assert "465" != "25" && "587" != "25" && "587" != "465";
    if flags.port25 then Some("25")
    else if flags.port465 then Some("465")
    else if flags.port587 then Some("587")
    else None
  }

  /** A provider step's end as main's end. */
  function Finish(r: Run<Option<Fatal>>): Run<MainOutcome>
  {
    Run(if r.result.Some? then Terminated(r.result.value) else Returned, r.events)
  }

  /** The body for the selected port; a certificate that cannot be hashed
      ends the process before any request. */
  function MainBody(crypto: Crypto, files: map<string, seq<Hex.Byte>>, now: RequestBuilder.Instant,
                    certfile: string, subdomain: string, port: string, cu: string): Result<string, Fatal>
  {
    match RequestBuilder.GenCloudflareReq(crypto, files, certfile, port, "tcp", subdomain, cu, now)
    case Err(e) => Err(Severity(e))
    case Ok(body) => Ok(body)
  }

  /** main after flag.Parse. */
  function MainRun(env: Env, crypto: Crypto, files: map<string, seq<Hex.Byte>>, now: RequestBuilder.Instant,
                   flags: MainFlags): Run<MainOutcome>
  {
    match SelectedPort(flags)
    case None => Run(PrintedUsage, [])
    case Some(port) =>
      if flags.create then
        match MainBody(crypto, files, now, flags.cert, flags.subdomain, port, "Created")
        case Err(f) => Run(Terminated(f), [])
        case Ok(body) => Finish(Create.PostRun(env, flags.url, body))
      else if flags.update then
        match MainBody(crypto, files, now, flags.cert, flags.subdomain, port, "Updated")
        case Err(f) => Run(Terminated(f), [])
        case Ok(body) => Finish(LegacyPutRun(env, "_" + port + "._tcp.", flags.subdomain + "." + flags.url, body))
      else Run(Returned, [])
  }

  // ---------------------------------------------------------------------
  // The program against a provider

  method LegacyPutToCloudflare(p: Provider, portAndProtocol: string, nameAndDomain: string, body: string)
    returns (fatal: Option<Fatal>)
    modifies p`trace
    ensures p.trace == old(p.trace) + LegacyPutRun(p.env, portAndProtocol, nameAndDomain, body).events
    ensures fatal == LegacyPutRun(p.env, portAndProtocol, nameAndDomain, body).result
  {
    var zoneReply := p.ListZones();
    if zoneReply.NoResponse? {
      return Some(Panic);
    } else if zoneReply.BadBody? {
      return Some(Exit);
    }
    var zones := zoneReply.items;
    if |zones| == 0 {
      return Some(Panic);
    }
    var zoneId := zones[0].id;
    var recordReply := p.ListRecords(zoneId);
    if recordReply.NoResponse? {
      return Some(Panic);
    } else if recordReply.BadBody? {
      return Some(Exit);
    }
    var records := recordReply.items;
    var k := FindLast(records, NamedRecord(portAndProtocol + nameAndDomain));
    var did := Update.RecordIdAt(records, k);
    var status := p.Send(Put(zoneId, did, body));
    if status.None? {
      return Some(Exit);
    }
    return None;
  }

  /** The switch of main. */
  method Dispatch(p: Provider, crypto: Crypto, files: map<string, seq<Hex.Byte>>, now: RequestBuilder.Instant, flags: MainFlags)
    returns (outcome: MainOutcome)
    modifies p`trace
    ensures p.trace == old(p.trace) + MainRun(p.env, crypto, files, now, flags).events
    ensures outcome == MainRun(p.env, crypto, files, now, flags).result
  {
    var port: string;
    if flags.port25 {
      port := "25";
    } else if flags.port465 {
      port := "465";
    } else if flags.port587 {
      port := "587";
    } else {
      return PrintedUsage;
    }
    assert SelectedPort(flags) == Some(port);
    var fatal: Option<Fatal> := None;
    if flags.create {
      var body := MainBody(crypto, files, now, flags.cert, flags.subdomain, port, "Created");
      if body.Err? {
        return Terminated(body.error);
      }
      fatal := Create.PostToCloudflare(p, "_" + port + "._tcp.", flags.url, body.value);
    } else if flags.update {
      var body := MainBody(crypto, files, now, flags.cert, flags.subdomain, port, "Updated");
      if body.Err? {
        return Terminated(body.error);
      }
      fatal := LegacyPutToCloudflare(p, "_" + port + "._tcp.", flags.subdomain + "." + flags.url, body.value);
    }
    if fatal.Some? {
      return Terminated(fatal.value);
    }
    return Returned;
  }

  // ---------------------------------------------------------------------
  // Properties

  /** With 25tcp set, the other port flags change nothing. */
  lemma FirstPortWins(env: Env, crypto: Crypto, files: map<string, seq<Hex.Byte>>, now: RequestBuilder.Instant,
                      flags: MainFlags, port465: bool, port587: bool)
    requires flags.port25
    ensures MainRun(env, crypto, files, now, flags)
         == MainRun(env, crypto, files, now, flags.(port465 := port465, port587 := port587))
  {
    assert SelectedPort(flags) == SelectedPort(flags.(port465 := port465, port587 := port587));
  }

  /** With 465tcp the first set flag, 587tcp changes nothing. */
  lemma SecondPortWins(env: Env, crypto: Crypto, files: map<string, seq<Hex.Byte>>, now: RequestBuilder.Instant,
                       flags: MainFlags, port587: bool)
    requires !flags.port25 && flags.port465
    ensures MainRun(env, crypto, files, now, flags)
         == MainRun(env, crypto, files, now, flags.(port587 := port587))
  {
    assert SelectedPort(flags) == SelectedPort(flags.(port587 := port587));
  }

  /** A legacy post lists the zones and posts, nothing else. */
  lemma PostRunOnlyListsAndPosts(env: Env, nameAndDomain: string, body: string)
    ensures forall e :: e in Create.PostRun(env, nameAndDomain, body).events ==> e.GetZones? || e.Post?
  {
  }

  /** Create wins over update: with both set, only a post is sent. */
  lemma CreateBeatsUpdate(env: Env, crypto: Crypto, files: map<string, seq<Hex.Byte>>, now: RequestBuilder.Instant, flags: MainFlags)
    requires flags.create
    ensures MainRun(env, crypto, files, now, flags) == MainRun(env, crypto, files, now, flags.(update := false))
    ensures forall e :: e in MainRun(env, crypto, files, now, flags).events ==> e.GetZones? || e.Post?
  {
    var other := flags.(update := false);
    assert SelectedPort(flags) == SelectedPort(other);
    if SelectedPort(flags).Some? {
      var body := MainBody(crypto, files, now, flags.cert, flags.subdomain, SelectedPort(flags).value, "Created");
      if body.Ok? {
        PostRunOnlyListsAndPosts(env, flags.url, body.value);
      }
    }
  }

  /** A port flag without create or update sends nothing. */
  lemma NeitherSendsNothing(env: Env, crypto: Crypto, files: map<string, seq<Hex.Byte>>, now: RequestBuilder.Instant, flags: MainFlags)
    requires flags.port25 || flags.port465 || flags.port587
    requires !flags.create && !flags.update
    ensures MainRun(env, crypto, files, now, flags) == Run(Returned, [])
  {
  }

  /** Without a port flag only the usage text is printed. */
  lemma NoPortPrintsUsage(env: Env, crypto: Crypto, files: map<string, seq<Hex.Byte>>, now: RequestBuilder.Instant, flags: MainFlags)
    requires !flags.port25 && !flags.port465 && !flags.port587
    ensures MainRun(env, crypto, files, now, flags) == Run(PrintedUsage, [])
  {
  }

  /** The only write of a trace, if any, is its last event. */
  predicate WriteIsLast(events: seq<Event>)
  {
    forall i :: 0 <= i < |events| && IsWrite(events[i]) ==> i == |events| - 1
  }

  lemma PostRunWritesLast(env: Env, nameAndDomain: string, body: string, e: Event)
    ensures var events := Create.PostRun(env, nameAndDomain, body).events;
      && |events| <= 2 && WriteIsLast(events)
      && (e in events && IsWrite(e) ==> e.Post? && e.body == body)
  {
  }

  lemma LegacyPutWritesLast(env: Env, portAndProtocol: string, nameAndDomain: string, body: string, e: Event)
    ensures var events := LegacyPutRun(env, portAndProtocol, nameAndDomain, body).events;
      && |events| <= 3 && WriteIsLast(events)
      && (e in events && IsWrite(e) ==> e.Put? && e.body == body)
  {
  }

  /** main sends at most one write, and returns right after it. */
  lemma AtMostOneWrite(env: Env, crypto: Crypto, files: map<string, seq<Hex.Byte>>, now: RequestBuilder.Instant, flags: MainFlags)
    ensures var events := MainRun(env, crypto, files, now, flags).events;
      |events| <= 3 && WriteIsLast(events)
  {
    if SelectedPort(flags).Some? {
      var port := SelectedPort(flags).value;
      if flags.create {
        var body := MainBody(crypto, files, now, flags.cert, flags.subdomain, port, "Created");
        if body.Ok? {
          PostRunWritesLast(env, flags.url, body.value, GetZones);
        }
      } else if flags.update {
        var body := MainBody(crypto, files, now, flags.cert, flags.subdomain, port, "Updated");
        if body.Ok? {
          LegacyPutWritesLast(env, "_" + port + "._tcp.", flags.subdomain + "." + flags.url, body.value, GetZones);
        }
      }
    }
  }

  /** The legacy replacement puts the body to the first zone of the
      listing and to the last record named portAndProtocol +
      nameAndDomain, or to the empty record id when none is. */
  lemma LegacyPutTargets(env: Env, portAndProtocol: string, nameAndDomain: string, body: string, z: string, r: string, b: string)
    requires Put(z, r, b) in LegacyPutRun(env, portAndProtocol, nameAndDomain, body).events
    ensures b == body
    ensures ZoneListing(env).Listed? && ZoneListing(env).items != [] && z == ZoneListing(env).items[0].id
    ensures RecordListing(env, z).Listed?
    ensures var records := RecordListing(env, z).items;
      var k := LastIndex(records, NamedRecord(portAndProtocol + nameAndDomain));
      && (k < 0 ==> r == "")
      && (k >= 0 ==> records[k].name == portAndProtocol + nameAndDomain && records[k].id == r)
      && forall j :: k < j < |records| ==> records[j].name != portAndProtocol + nameAndDomain
  {
  }

  /** Where main sends its write: create posts to the zone named like the
      url, update puts under _port._tcp. + subdomain.url. */
  lemma MainTargets(env: Env, crypto: Crypto, files: map<string, seq<Hex.Byte>>, now: RequestBuilder.Instant, flags: MainFlags)
    requires SelectedPort(flags).Some?
    ensures var port := SelectedPort(flags).value;
      var run := MainRun(env, crypto, files, now, flags);
      && (flags.create && MainBody(crypto, files, now, flags.cert, flags.subdomain, port, "Created").Ok? ==>
            run == Finish(Create.PostRun(env, flags.url, MainBody(crypto, files, now, flags.cert, flags.subdomain, port, "Created").value)))
      && (!flags.create && flags.update && MainBody(crypto, files, now, flags.cert, flags.subdomain, port, "Updated").Ok? ==>
            run == Finish(LegacyPutRun(env, "_" + port + "._tcp.", flags.subdomain + "." + flags.url,
                                       MainBody(crypto, files, now, flags.cert, flags.subdomain, port, "Updated").value)))
  {
  }

  /** The comment word of the selected command. */
  function CommentWord(flags: MainFlags): string
  {
    if flags.create then "Created" else "Updated"
  }

  /** A write of main carries the body genCloudflareReq builds for the
      selected port (which RequestBuilder.GeneratedRequestReadsBack shows
      to be a DANE-EE 3 1 1 request): create posts it and update puts it. */
  lemma MainWriteBody(env: Env, crypto: Crypto, files: map<string, seq<Hex.Byte>>, now: RequestBuilder.Instant,
                      flags: MainFlags, e: Event)
    requires e in MainRun(env, crypto, files, now, flags).events && IsWrite(e)
    ensures SelectedPort(flags).Some?
    ensures e.Post? <==> flags.create
    ensures e.Put? <==> !flags.create && flags.update
    ensures e.Post? || e.Put?
    ensures var body := RequestBuilder.GenCloudflareReq(crypto, files, flags.cert, SelectedPort(flags).value, "tcp",
                                                       flags.subdomain, CommentWord(flags), now);
      body.Ok? && e.body == body.value
  {
    var port := SelectedPort(flags).value;
    var body := MainBody(crypto, files, now, flags.cert, flags.subdomain, port, CommentWord(flags));
    if flags.create {
      PostRunWritesLast(env, flags.url, body.value, e);
    } else {
      LegacyPutWritesLast(env, "_" + port + "._tcp.", flags.subdomain + "." + flags.url, body.value, e);
    }
  }

  /** The legacy replacement picks a record by name alone: among a TLSA
      record and a later record of another type with the same name, it
      replaces the later one, where the update command's selection
      (type, name and usage) takes the TLSA record. */
  lemma NameOnlySelection()
    ensures var name := "_25._tcp.mail.example.com";
      var tlsa := Record("r1", "z1", name, "TLSA", 3600, Data(3, 1, 1, "ab"));
      var other := Record("r2", "z1", name, "TXT", 3600, Data(0, 0, 0, ""));
      var records := [tlsa, other];
      && Update.RecordIdAt(records, LastIndex(records, NamedRecord(name))) == "r2"
      && Update.RecordIdAt(records, LastIndex(records, Update.RecordKey("_25._tcp.", "mail.example.com", 3))) == "r1"
  {
    var name := "_25._tcp.mail.example.com";
    var tlsa := Record("r1", "z1", name, "TLSA", 3600, Data(3, 1, 1, "ab"));
    var other := Record("r2", "z1", name, "TXT", 3600, Data(0, 0, 0, ""));
    var records := [tlsa, other];
    assert "_25._tcp." + "mail.example.com" == name;
    assert NamedRecord(name)(records[1]);
    assert !Update.RecordKey("_25._tcp.", "mail.example.com", 3)(records[1]);
    assert Update.RecordKey("_25._tcp.", "mail.example.com", 3)(records[0]);
    assert records[..1] == [tlsa];
  }
  /** Every record id in the listing is non-empty and names one record. */
  predicate DistinctIds(records: seq<Record>)
  {
    && (forall i :: 0 <= i < |records| ==> records[i].id != "")
    && (forall i, j :: 0 <= i < j < |records| ==> records[i].id != records[j].id)
  }

  /** In general: over a listing with distinct ids, the legacy replacement
      and the update command replace the same record exactly when no
      record is named like the owner, or the last one so named is a TLSA
      record of the usage. Otherwise the update command's choice (if any)
      lies before the legacy one. */
  lemma LegacySelectionAgreesWithUpdate(records: seq<Record>, prefix: string, domain: string, usage: int)
    requires DistinctIds(records)
    ensures var legacy := LastIndex(records, NamedRecord(prefix + domain));
      var update := LastIndex(records, Update.RecordKey(prefix, domain, usage));
      && update <= legacy
      && (Update.RecordIdAt(records, legacy) == Update.RecordIdAt(records, update)
          <==> legacy < 0 || Update.RecordKey(prefix, domain, usage)(records[legacy]))
  {
    var legacy := LastIndex(records, NamedRecord(prefix + domain));
    var update := LastIndex(records, Update.RecordKey(prefix, domain, usage));
    if legacy >= 0 && Update.RecordKey(prefix, domain, usage)(records[legacy]) {
      assert !(update < legacy);
    }
  }
}
