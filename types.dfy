/**
 * The wire types of the DNS provider API: the TLSA request body (JSONRequest
 * with its nested Data) and the parts of the zone and record listings that
 * the synchroniser reads. The request body is written the way
 * json.MarshalIndent(req, "", "  ") writes it and read back by Unmarshal.
 */
module Types {
  import opened Wrappers
  import opened JsonText

  /** TLSA association fields (RFC 6698, section 2.1), keys usage, selector,
      matching_type and certificate. */
  datatype Data = Data(usage: int, selector: int, matchingType: int, certificate: string)

  /** The record request body, keys type, name, data, ttl, priority, proxied
      and comment. */
  datatype JsonRequest = JsonRequest(
    recordType: string,
    name: string,
    data: Data,
    ttl: int,
    priority: int,
    proxied: bool,
    comment: string)

  /** The fields of one zone of the zone listing that are read. */
  datatype Zone = Zone(id: string, name: string)

  /** The fields of one record of the record listing that are read. */
  datatype Record = Record(id: string, zoneId: string, name: string, recordType: string, ttl: int, data: Data)

  /** Every string of the request needs no escaping. */
  predicate SafeRequest(r: JsonRequest)
  {
    Safe(r.recordType) && Safe(r.name) && Safe(r.comment) && Safe(r.data.certificate)
  }

  // The literal text between the values, as MarshalIndent lays it out.
  const UsageKey := "{\n    \"usage\": "
  const SelectorKey := ",\n    \"selector\": "
  const MatchingTypeKey := ",\n    \"matching_type\": "
  const CertificateKey := ",\n    \"certificate\": "
  const DataEnd := "\n  }"
  const TypeKey := "{\n  \"type\": "
  const NameKey := ",\n  \"name\": "
  const DataKey := ",\n  \"data\": "
  const TtlKey := ",\n  \"ttl\": "
  const PriorityKey := ",\n  \"priority\": "
  const ProxiedKey := ",\n  \"proxied\": "
  const CommentKey := ",\n  \"comment\": "
  const RequestEnd := "\n}"

  // The encoders below group their concatenations to the right, in the
  // order the decoders consume them.

  /** Data as the nested object of the indented request. */
  function EncodeData(d: Data): string
  {
    UsageKey + (IntText(d.usage)
    + (SelectorKey + (IntText(d.selector)
    + (MatchingTypeKey + (IntText(d.matchingType)
    + (CertificateKey + (Quote(d.certificate)
    + DataEnd)))))))
  }

  /** The text after the data object: ttl, priority, proxied and comment. */
  function TailText(r: JsonRequest): string
  {
    TtlKey + (IntText(r.ttl)
    + (PriorityKey + (IntText(r.priority)
    + (ProxiedKey + (BoolText(r.proxied)
    + (CommentKey + (Quote(r.comment)
    + RequestEnd)))))))
  }

  /** json.MarshalIndent(r, "", "  "). */
  function Marshal(r: JsonRequest): string
  {
    TypeKey + (Quote(r.recordType)
    + (NameKey + (Quote(r.name)
    + (DataKey + (EncodeData(r.data)
    + TailText(r))))))
  }

  function DecodeData(s: string): Option<(Data, string)>
  {
    var s1 :- Expect(UsageKey, s);
    var usage :- ParseInt(s1);
    var s2 :- Expect(SelectorKey, usage.1);
    var selector :- ParseInt(s2);
    var s3 :- Expect(MatchingTypeKey, selector.1);
    var matchingType :- ParseInt(s3);
    var s4 :- Expect(CertificateKey, matchingType.1);
    var certificate :- ParseString(s4);
    var s5 :- Expect(DataEnd, certificate.1);
    Some((Data(usage.0, selector.0, matchingType.0, certificate.0), s5))
  }

  /** Reads the fields after data: ttl, priority, proxied and comment. */
  function DecodeTail(s: string): Option<(int, int, bool, string)>
  {
    var s1 :- Expect(TtlKey, s);
    var ttl :- ParseInt(s1);
    var s2 :- Expect(PriorityKey, ttl.1);
    var priority :- ParseInt(s2);
    var s3 :- Expect(ProxiedKey, priority.1);
    var proxied :- ParseBool(s3);
    var s4 :- Expect(CommentKey, proxied.1);
    var comment :- ParseString(s4);
    var s5 :- Expect(RequestEnd, comment.1);
    if s5 != [] then None else Some((ttl.0, priority.0, proxied.0, comment.0))
  }

  /** Reads a request body laid out as Marshal writes it. */
  function Unmarshal(s: string): Option<JsonRequest>
  {
    var s1 :- Expect(TypeKey, s);
    var recordType :- ParseString(s1);
    var s2 :- Expect(NameKey, recordType.1);
    var name :- ParseString(s2);
    var s3 :- Expect(DataKey, name.1);
    var data :- DecodeData(s3);
    var tail :- DecodeTail(data.1);
    Some(JsonRequest(recordType.0, name.0, data.0, tail.0, tail.1, tail.2, tail.3))
  }

  /** Encoding Data and reading it back preserves every field. */
  lemma DataRoundTrip(d: Data, rest: string)
    requires Safe(d.certificate)
    ensures DecodeData(EncodeData(d) + rest) == Some((d, rest))
  {
    var t5 := DataEnd + rest;
    var t4 := Quote(d.certificate) + t5;
    var t3 := IntText(d.matchingType) + (CertificateKey + t4);
    var t2 := IntText(d.selector) + (MatchingTypeKey + t3);
    var t1 := IntText(d.usage) + (SelectorKey + t2);
    assert EncodeData(d) + rest == UsageKey + t1;
    ExpectRoundTrip(UsageKey, t1);
    IntRoundTrip(d.usage, SelectorKey + t2);
    ExpectRoundTrip(SelectorKey, t2);
    IntRoundTrip(d.selector, MatchingTypeKey + t3);
    ExpectRoundTrip(MatchingTypeKey, t3);
    IntRoundTrip(d.matchingType, CertificateKey + t4);
    ExpectRoundTrip(CertificateKey, t4);
    StringRoundTrip(d.certificate, t5);
    ExpectRoundTrip(DataEnd, rest);
  }

  lemma TailRoundTrip(r: JsonRequest)
    requires Safe(r.comment)
    ensures DecodeTail(TailText(r)) == Some((r.ttl, r.priority, r.proxied, r.comment))
  {
    var t8 := RequestEnd;
    var t7 := Quote(r.comment) + t8;
    var t6 := BoolText(r.proxied) + (CommentKey + t7);
    var t5 := IntText(r.priority) + (ProxiedKey + t6);
    var t4 := IntText(r.ttl) + (PriorityKey + t5);
    ExpectRoundTrip(TtlKey, t4);
    IntRoundTrip(r.ttl, PriorityKey + t5);
    ExpectRoundTrip(PriorityKey, t5);
    IntRoundTrip(r.priority, ProxiedKey + t6);
    ExpectRoundTrip(ProxiedKey, t6);
    BoolRoundTrip(r.proxied, CommentKey + t7);
    ExpectRoundTrip(CommentKey, t7);
    StringRoundTrip(r.comment, t8);
    ExpectRoundTrip(RequestEnd, []);
    assert RequestEnd + [] == RequestEnd;
  }

  /** Marshal then Unmarshal gives back every field of the request. */
  lemma MarshalRoundTrip(r: JsonRequest)
    requires SafeRequest(r)
    ensures Unmarshal(Marshal(r)) == Some(r)
  {
    var t3 := EncodeData(r.data) + TailText(r);
    var t2 := Quote(r.name) + (DataKey + t3);
    var t1 := Quote(r.recordType) + (NameKey + t2);
    ExpectRoundTrip(TypeKey, t1);
    StringRoundTrip(r.recordType, NameKey + t2);
    ExpectRoundTrip(NameKey, t2);
    StringRoundTrip(r.name, DataKey + t3);
    ExpectRoundTrip(DataKey, t3);
    DataRoundTrip(r.data, TailText(r));
    TailRoundTrip(r);
  }

  /** Two safe requests with the same body are the same request. */
  lemma MarshalInjective(r1: JsonRequest, r2: JsonRequest)
    requires SafeRequest(r1) && SafeRequest(r2)
    requires Marshal(r1) == Marshal(r2)
    ensures r1 == r2
  {
    MarshalRoundTrip(r1);
    MarshalRoundTrip(r2);
  }
}
