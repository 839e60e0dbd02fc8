# GoTLSAFlare TLSA synchronisation, modelled in Dafny

GoTLSAFlare publishes TLSA records (RFC 6698) for the mail ports of a domain
through the Cloudflare DNS API. This project models the parts that decide
which requests are sent, in which order, with which bodies, and how the
command ends. Those parts are:

- the `update` command, with in-place replacement and DANE rollover
  (`resource/update.go`);
- the `create` command (`resource/create.go`);
- the request builder and the certificate hash (`resource/genCloudflareReq.go`,
  `resource/getSHA256sum.go`);
- the request body types (`resource/types.go`);
- the original single-command program (`main.go`).

Modules:

- `Wrappers` defines `Option` and `Result`. `Process` defines `Fatal`, which
  is `Exit` for `os.Exit(1)`/`log.Fatal` and `Panic` for a Go panic.
- `JsonText` and `Types` write and read the request body as
  `json.MarshalIndent(req, "", "  ")` lays it out.
- `Hex` is the lowercase base 16 encoding of `hex.EncodeToString`.
- `CertHash` models getSHA256sum. The PEM/X.509 parsing and SHA-256 are
  parameters (`Crypto`). The hex output, the error ends and the
  first-block rule are modelled.
- `RequestBuilder` builds the request, including the comment timestamp in
  the layout `2006-01-02 15:04:05`.
- `Select` has the "last match" and "first match" loops, as methods proved
  against `LastIndex` and `FirstIndex`.
- `Cloudflare` is the provider:
  - The environment (`Env`) holds the zones, the records and a fault per
    request: no response, an unreadable body, or an HTTP status. The
    answer is fixed per distinct request, so repeating a request repeats
    its answer.
  - The class `Provider` appends each request it serves to its `trace`.
- `Update`, `Create` and `Legacy` model the commands:
  - Each step is a specification function that returns its result together
    with the requests it sends (`Run`).
  - Each step is also a method on a `Provider` that is proved to append
    exactly those requests and to return that result.
- `UpdateProperties` and `CreateProperties` prove what the commands
  promise. `Legacy` carries its own properties.

## Model

| member | source | states |
|---|---|---|
| JsonText.NatRoundTrip | resource/types.go:11-13 | reading back a written non-negative integer gives the integer and the rest of the text |
| JsonText.IntRoundTrip | resource/types.go:11-13 | reading back a written integer, negative or not, gives the integer and the rest of the text |
| JsonText.StringRoundTrip | resource/types.go:8-9 | reading back a quoted string that needs no escaping gives the string and the rest of the text |
| JsonText.BoolRoundTrip | resource/types.go:13 | reading back a written boolean gives the boolean and the rest of the text |
| JsonText.Expect | resource/types.go:7-15 | a literal is consumed exactly when the text starts with it, and what remains is the text after it |
| Types.DataRoundTrip | resource/types.go:17-22 | the nested data object (usage, selector, matching_type, certificate) reads back field for field |
| Types.TailRoundTrip | resource/types.go:11-14 | ttl, priority, proxied and comment read back as written |
| Types.MarshalRoundTrip | resource/types.go:7-22 | unmarshalling a marshalled request gives back every field |
| Types.MarshalInjective | resource/types.go:7-22 | two requests with the same body are the same request |
| Hex.Encode | resource/getSHA256sum.go:33 | two lowercase hex digits per byte |
| Hex.EncodeAt | resource/getSHA256sum.go:33 | digit 2i is the high nibble of byte i, and digit 2i+1 its low nibble |
| Hex.RoundTrip | resource/getSHA256sum.go:33 | decoding the encoding gives back the bytes |
| Hex.EncodeInjective | resource/getSHA256sum.go:33 | different byte strings have different encodings |
| CertHash.Severity | resource/getSHA256sum.go:14-31 | a read failure, a missing PEM block and a key that cannot be marshalled exit; a certificate that does not parse, or a key that is not RSA, panics |
| CertHash.GetSHA256Sum | resource/getSHA256sum.go:13-35 | succeeds exactly when the key's DER is obtained; the result is 64 lowercase hex digits that decode to the SHA-256 of that DER |
| CertHash.FirstBlockOnly | resource/getSHA256sum.go:19 | only the first PEM block matters: file contents with the same first block give the same hash |
| CertHash.KeyOnly | resource/getSHA256sum.go:25-32 | two certificates with the same RSA key give the same hash |
| CertHash.NoBlockNoHash | resource/getSHA256sum.go:19-23 | a file without a PEM block ends the process with exit, not a panic |
| RequestBuilder.StampRoundTrip | resource/genCloudflareReq.go:27 | the timestamp is 19 characters and reads back as the instant it was written from |
| RequestBuilder.StampIsSafe | resource/genCloudflareReq.go:27 | the timestamp needs no JSON escaping |
| RequestBuilder.RequestReadsBack | resource/genCloudflareReq.go:20-30 | the body reads back with type TLSA, name _port._protocol.subdomain, ttl 3600, priority 10, not proxied, the given data, and comment cu + " by GoTLSAFlare - " + the timestamp |
| RequestBuilder.GenCloudflareReq | resource/genCloudflareReq.go:10-37 | fails exactly when the certificate cannot be hashed |
| RequestBuilder.GeneratedRequestReadsBack | resource/genCloudflareReq.go:13-18 | the built body is DANE-EE 3 1 1 for the owner name, and its association is the 64-digit hash of the certificate |
| Select.LastIndex | resource/update.go:221-226 | the index of the last element that matches, or -1; no later element matches |
| Select.FirstIndex | resource/update.go:521-525 | the index of the first element that matches, or the length; no earlier element matches |
| Select.FindLast | resource/update.go:221-226 | the loop that keeps overwriting its answer computes LastIndex |
| Select.FindFirst | resource/update.go:521-525 | the loop that returns at the first match computes FirstIndex |
| Cloudflare.RecordsOf | resource/update.go:233-259 | the records listed for a zone belong to that zone and come from the store, and there are no more of them than the store holds |
| Cloudflare.RecordsOfExact | resource/update.go:233-259 | a record is listed exactly when the store holds it and it belongs to the zone, and it is listed as many times as the store holds it |
| Cloudflare.RecordsOfAppend | resource/update.go:233-259 | the listing keeps the store's order: a store a + b lists a's records of the zone, then b's |
| Cloudflare.RecordsOfOneZone | resource/update.go:233-259 | a store holding only records of the zone is listed unchanged |
| Cloudflare.Provider.ListZones | resource/update.go:193-219 | one zone listing request; the reply is the environment's zone listing |
| Cloudflare.Provider.ListRecords | resource/update.go:233-259 | one record listing request for the zone; the reply is the environment's listing |
| Cloudflare.Provider.Send | resource/update.go:276-292 | one write request; the status is the environment's answer |
| Cloudflare.Provider.Sleep | resource/update.go:367-369 | one wait of the given seconds |
| Cloudflare.Provider.QueryResolvers | resource/update.go:393-419 | one propagation check of the name; the answer is the environment's |
| Update.Selectors | resource/update.go:104-111 | an unset selector (-1) gives 1 for DANE-EE and 0 for DANE-TA; any other value is used for both |
| Update.StandardPorts | resource/update.go:150-158 | exactly the flagged ports among 25, 465 and 587, in that order |
| Update.PortList | resource/update.go:146-158 | the custom port first when it is non-zero, then the flagged standard ports |
| Update.PutToCloudflare | resource/update.go:181-297 | appends exactly the requests of PutRun and returns its error |
| Update.GetExistingRecord | resource/update.go:449-528 | appends exactly the requests of ExistingRun and returns its lookup |
| Update.DeleteRecord | resource/update.go:421-447 | appends exactly the requests of DeleteRun and returns its error |
| Update.PerformRollover | resource/update.go:300-390 | appends exactly the requests of RolloverRun and returns its error |
| Update.ReplaceOldRecord | resource/update.go:332-389 | post, wait, check and delete, as ReplaceRun says |
| Update.UpdateUsage | resource/update.go:113-127 | one usage of one port: build the body, then roll over or replace, as UsageRun says |
| Update.HandlePortUpdate | resource/update.go:99-143 | DANE-EE and then DANE-TA for one port, as PortRun says |
| Update.ProcessPorts | resource/update.go:165-168 | the ports one after the other, as PortsRun says |
| Update.ResourceUpdate | resource/update.go:80-179 | validation, port collection, processing and the returned error, as UpdateRun says |
| Update.StoppedPersists | resource/update.go:165-168 | once a port ends the process, the later ports send nothing |
| UpdateProperties.InvalidFlagsExitFirst | resource/update.go:80-96 | with no usage enabled after no-dane-ee, or a matching type other than 1 or 2, the process exits before any request |
| UpdateProperties.NoPortsNoCalls | resource/update.go:160-163 | with no port the update returns the no-ports error and sends nothing |
| UpdateProperties.AndThenAssoc | resource/update.go:165-168 | sequencing port runs is associative |
| UpdateProperties.PortsRunAppend | resource/update.go:165-168 | processing a + b is processing a, then b unless a ended the process |
| UpdateProperties.EveryPortRuns | resource/update.go:165-168 | a port runs even when earlier ports reported errors, as long as none ended the process |
| UpdateProperties.FirstErrorsKept | resource/update.go:118-140 | errors are appended: the errors of the first failing port stay at the head of the list |
| UpdateProperties.FinishedOnlyWhenDone | resource/update.go:165-178 | the update returns (rather than ending the process) exactly when no port ended the process |
| UpdateProperties.ReturnsFirstCollected | resource/update.go:171-176 | the returned error is the first one collected |
| UpdateProperties.NoErrorsReturnNil | resource/update.go:178 | without errors the update returns nil |
| UpdateProperties.PutTargetsLastMatch | resource/update.go:221-297 | a replacement goes to the last zone whose name ends the domain, and to the last record of that zone with type TLSA, the owner name and the body's usage; the body is sent unchanged |
| UpdateProperties.NoMatchNoWrite | resource/update.go:263-274 | without a matching record nothing is written and the missing-record error is returned |
| UpdateProperties.LookupFindsFirstMatch | resource/update.go:481-525 | the rollover lookup uses the last zone named exactly like the domain and returns the first matching record |
| UpdateProperties.LookupOnlyReads | resource/update.go:449-528 | the lookup sends only listing requests |
| UpdateProperties.DeleteGuard | resource/update.go:421-424 | an empty zone or record id sends nothing and is refused; otherwise exactly one delete is sent |
| UpdateProperties.PutNeverDeletes | resource/update.go:181-297 | an in-place replacement never deletes and never waits |
| UpdateProperties.ReplaceDeletesLast | resource/update.go:332-389 | the old record is deleted only after the new one was accepted (status below 400), a wait and a check |
| UpdateProperties.AfterLookupDeletesLast | resource/update.go:319-389 | after a lookup, a delete targets the found record in the found zone and comes last |
| UpdateProperties.RolloverDeletesLast | resource/update.go:300-390 | a rollover's delete comes after lookup, post, a wait of twice the old TTL (3600 s when it is 0) and the propagation check |
| UpdateProperties.AfterLookupRejectedCreate | resource/update.go:346-355 | a rejected or unanswered post ends the rollover with an error, before any wait |
| UpdateProperties.RejectedCreateKeepsOldRecord | resource/update.go:346-355 | when the new record is not accepted, the old one is not deleted and nothing waits |
| UpdateProperties.LookupNamesZone | resource/update.go:488-492 | a lookup without error always names a zone |
| UpdateProperties.NoOldRecordFallsBackToPut | resource/update.go:324-330 | without an old record the rollover is an in-place replacement |
| UpdateProperties.ZoneIdGuardNeverFires | resource/update.go:319-322 | the empty-zone-id guard of the rollover can never fire |
| UpdateProperties.RolloverNeedsExactZone | resource/update.go:483-492 | a rollover fails with no matching zone unless a zone is named exactly like the domain, after the zone listing alone |
| UpdateProperties.PutAcceptsSuffixZone | resource/update.go:221-226 | the in-place replacement accepts a zone whose name only ends the domain |
| UpdateProperties.ListingsAgree | resource/update.go:193-259 | environments that differ only in the resolvers' answers give the same listings and write statuses |
| UpdateProperties.PropagationCheckIsAdvisory | resource/update.go:371-375 | the outcome of the propagation check changes neither the requests nor the result |
| UpdateProperties.DeletesAppend | resource/update.go:377 | deletes are counted additively over a trace |
| UpdateProperties.NoDeleteCountsZero | resource/update.go:377 | a trace without a delete counts none |
| UpdateProperties.RolloverDeletesAtMostOnce | resource/update.go:377 | a rollover deletes at most one record |
| UpdateProperties.UsageDeletesAtMostOnce | resource/update.go:113-127 | one usage deletes at most once with rollover and never without it |
| UpdateProperties.PortDeletesAtMostOnce | resource/update.go:128-142 | one port deletes at most one record: DANE-TA is rolled over only when DANE-EE is off |
| UpdateProperties.UpdateBodyReadsBack | resource/update.go:114-129 | the body for a port and usage reads back with the owner name, the usage, the effective selector, the matching type, the certificate data and an "Updated by GoTLSAFlare - " comment |
| UpdateProperties.UnreadableCertificateStops | resource/update.go:114 | a certificate that cannot be hashed ends the process before any request |
| UpdateProperties.NoDaneEEOverrides | resource/update.go:80-83 | no-dane-ee overrides dane-ee |
| Create.JobsFor | resource/create.go:44-61 | two records per port with dane-ta, one without |
| Create.PostToCloudflare | resource/create.go:66-121 | appends exactly the requests of PostRun and returns its fatal end; the first argument is unused |
| Create.CreateRecord | resource/create.go:45 | builds one body and posts it, as JobRun says |
| Create.CreatePort | resource/create.go:44-49 | DANE-EE and then, with dane-ta, DANE-TA for one port flag, as PortRun says |
| Create.ResourceCreate | resource/create.go:44-63 | the three port blocks in order, as CreateRun says |
| CreateProperties.ThenAssoc | resource/create.go:44-61 | sequencing posts is associative |
| CreateProperties.JobsRunAppend | resource/create.go:44-61 | running a + b is running a, then b unless a ended the process |
| CreateProperties.JobsForAppend | resource/create.go:44-61 | the records for a + b are those for a, then those for b |
| CreateProperties.PortRunIsJobs | resource/create.go:44-49 | one port block runs exactly the jobs of that port |
| CreateProperties.CreateFollowsJobs | resource/create.go:44-61 | the create command runs exactly its job list, in order |
| CreateProperties.JobsForContents | resource/create.go:44-61 | every port gets a DANE-EE job, a DANE-TA job exactly with dane-ta, and each DANE-TA job directly follows the DANE-EE job of its port |
| CreateProperties.CreateJobsContents | resource/create.go:44-61 | the jobs are exactly DANE-EE (and with dane-ta DANE-TA) for each flagged port among 25, 465 and 587, in that order |
| CreateProperties.NoPortsReturnNil | resource/create.go:63 | with no port flag create sends nothing and returns nil |
| CreateProperties.PostTargetsLastExactZone | resource/create.go:66-121 | a post goes to the last zone named exactly like the url (or to the empty id), with the body unchanged |
| CreateProperties.PostsAppend | resource/create.go:44-61 | the posts of a + b are those of a, then those of b |
| CreateProperties.JobPosts | resource/create.go:66-121 | a job that does not end the process lists the zones and then posts its body |
| CreateProperties.JobsRunStep | resource/create.go:44-61 | a run that does not end the process is the first job's trace followed by the rest |
| CreateProperties.FirstJobPostsFirst | resource/create.go:44-61 | the first post of the run is the first job's body |
| CreateProperties.JobsPostInOrder | resource/create.go:44-61 | when no step ends the process, post i carries the body of job i, to the url's zone |
| CreateProperties.CreatePostsEveryJob | resource/create.go:44-61 | when no step ends the process, one post per job, in job order |
| CreateProperties.JobsOnlyListZonesAndPost | resource/create.go:66-121 | create sends only zone listings and posts |
| CreateProperties.CreateNeverReadsRecords | resource/create.go:44-121 | create never lists records, so it never checks for an existing record |
| CreateProperties.JobsIgnoreRecords | resource/create.go:66-121 | the existing records do not influence the jobs |
| CreateProperties.CreateIgnoresRecords | resource/create.go:44-121 | the existing records do not influence the create command |
| CreateProperties.CreateBodyReadsBack | resource/create.go:45-47 | a created body reads back with the owner name, usage 3 with selector 1 or usage 2 with selector 0, matching type 1, and a "Created by GoTLSAFlare - " comment |
| Legacy.SelectedPort | main.go:350-384 | the first case of the switch whose flag is set: 25, else 465, else 587, else none |
| Legacy.LegacyPutToCloudflare | main.go:199-283 | appends exactly the requests of LegacyPutRun and returns its fatal end |
| Legacy.Dispatch | main.go:350-391 | appends exactly the requests of MainRun and returns its outcome |
| Legacy.FirstPortWins | main.go:350-361 | with 25tcp set, the other port flags change nothing |
| Legacy.SecondPortWins | main.go:362-372 | with 465tcp the first set flag, 587tcp changes nothing |
| Legacy.PostRunOnlyListsAndPosts | main.go:142-197 | a legacy post sends only a zone listing and a post |
| Legacy.CreateBeatsUpdate | main.go:356-360 | with create set, update is ignored and only zone listings and a post are sent |
| Legacy.NeitherSendsNothing | main.go:356-361 | a port flag without create or update sends nothing |
| Legacy.NoPortPrintsUsage | main.go:386-390 | without a port flag only the usage text is printed |
| Legacy.PostRunWritesLast | main.go:142-197 | a legacy post sends at most two requests, the write last, carrying the body |
| Legacy.LegacyPutWritesLast | main.go:199-283 | a legacy replacement sends at most three requests, the write last, a put carrying the body |
| Legacy.AtMostOneWrite | main.go:350-384 | main sends at most three requests, and its one write, if any, is the last |
| Legacy.LegacyPutTargets | main.go:228-262 | the legacy put goes to the first zone of the listing and to the last record named like the owner, or to the empty id |
| Legacy.MainTargets | main.go:356-360 | create posts under the url; update puts for _port._tcp. + subdomain.url |
| Legacy.MainWriteBody | main.go:357-359 | a write of main carries the 3 1 1 body built for the selected port: a post with create, a put with update |
| Legacy.NameOnlySelection | main.go:255-260 | the legacy put selects by name alone: it picks a later record of another type where the update command picks the TLSA record |
| Legacy.LegacySelectionAgreesWithUpdate | main.go:253-260 | over records with distinct ids, the legacy put and the update command pick the same record exactly when no record has the owner name or the last one that has it is a TLSA record of the usage; the update command's choice never lies after the legacy one |

## Left out

- HTTP transport, headers and the API token are left out. Each request is
  an `Event` in the provider's trace, and its answer comes from `Env`.
- The store does not change when records are written. The commands never
  read back what they wrote within one run.
- JSON strings that need escaping are left out. The round-trip lemmas
  require strings made of characters that encoding/json copies verbatim.
  Decoding accepts only the layout MarshalIndent writes, and a string ends
  at its first `"`.
- Update.PutToCloudflare and Update.PerformRollover read the usage back
  from the body. They accept any subdomain and association string. With a
  subdomain holding `"` or `\`, the model writes it unescaped, so the
  body reads back as a different request or fails with
  `BadRequestBody`. Go escapes such a string and proceeds.
  Create.PostToCloudflare does not read its body back, but the body it
  posts then lacks the escapes Go would write.
- `Types.Unmarshal` reads only bodies laid out as they are written. The
  provider's listings are parsed into `Zone` and `Record` values directly.
- PEM decoding, X.509 parsing, PKIX marshalling and SHA-256 are
  parameters (`CertHash.Crypto`).
- The update and create commands call an 8-argument and a 6-argument
  request builder. Their hashing is not part of this model. It stands in
  as the association oracle `Update.Association`, which maps usage,
  selector and matching type to a hash or to a hashing error. The
  SHA-2-512 matching type and the full-certificate selector are therefore
  not modelled beyond that oracle.
- Create.CreateBody: the selector and matching type for DANE-EE (3 1 1)
  and DANE-TA (2 0 1) follow the flag help text in `cmd/create.go`. The
  6-argument builder that fixes them is not part of this model.
- The clock is one `Instant` per run, not a reading per request. Years
  are limited to four digits, the width the layout writes.
- The propagation check (DNS queries to four public resolvers) is the
  provider's answer to a `Check` event. Its failure is only logged.
- The goroutine and channel of the rollover are left out. The wait and
  the check run in sequence, which is what the channel forces.
  `time.Sleep` is a `Wait` event.
- Reading the flags (`cmd.Flags().Get…` errors) is left out, as are the
  cobra commands in `cmd/` and the duplicate `postToCloudflare.go` and
  `putToCloudflare.go` files.
- Logging and printing are left out. `os.Exit(1)` and `log.Fatal` become
  `Fatal.Exit`, and a nil dereference or failed type assertion becomes
  `Fatal.Panic`.
- An unreadable body on a write is treated as a response. The write's
  body is never read except for its status.
- Create.ResourceCreate: with no port flag the command returns nil. Its
  test expects a "no ports specified" error, but the code has no such
  check, and the model follows the code.
- Create.ResourceCreate: no duplicate check. An existing record with the
  same name and usage is created again, and the model proves records are
  never listed (`CreateProperties.CreateNeverReadsRecords`).
- Update.PerformRollover: the lookup accepts only a zone named exactly
  like `subdomain.url`, while the in-place update accepts a zone whose
  name ends it. So a rollover for a proper subdomain of a zone fails with
  "no matching zones found". The model keeps this
  (`UpdateProperties.RolloverNeedsExactZone`,
  `UpdateProperties.PutAcceptsSuffixZone`).
- Legacy.Dispatch: the usage text is not modelled, only the fact that it
  is printed and nothing is sent.
- CreateProperties.JobsPostInOrder and CreateProperties.CreatePostsEveryJob
  hold only because the provider's answer is fixed per distinct request
  (`Env.faults` is keyed by the request). A later request that fails or
  answers differently after an identical earlier one succeeded is not
  modelled. Examples are the zone listing that create sends once per job,
  and the listings that update's fallback put repeats after the lookup. Go
  asks the provider each time, so with a provider whose answers change,
  a later job can fail or post to another zone.
- Update.WaitSeconds (used by Update.PerformRollover): the wait is twice
  the TTL in unbounded integers. Go computes
  `time.Duration(TTL) * time.Second` and doubles it in int64 nanoseconds,
  which wraps around for TTLs above about 4.6 billion seconds. That
  wrap-around, and the zero check seeing a wrapped value, are not modelled.
