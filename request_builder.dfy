/**
 * genCloudflareReq: the TLSA record request for one port, with the owner
 * name of RFC 6698, section 3 (_port._protocol.host), the fixed TTL,
 * priority and proxied fields, and a comment that ends in a timestamp in
 * the layout "2006-01-02 15:04:05". The clock is a parameter.
 */
module RequestBuilder {
  import opened Wrappers
  import opened JsonText
  import opened Types
  import opened CertHash

  /** A wall-clock reading with a four-digit year. */
  datatype DateTime = DateTime(year: nat, month: nat, day: nat, hour: nat, minute: nat, second: nat)

  type Instant = t: DateTime
    | t.year <= 9999 && 1 <= t.month <= 12 && 1 <= t.day <= 31
      && t.hour < 24 && t.minute < 60 && t.second < 60
    witness DateTime(2000, 1, 1, 0, 0, 0)

  const RecordType := "TLSA"
  const RecordTtl := 3600
  const RecordPriority := 10
  const Signature := " by GoTLSAFlare - "

  function Pow10(k: nat): nat { if k == 0 then 1 else 10 * Pow10(k - 1) }

  function Zeros(k: nat): (z: string)
    ensures |z| == k && AllDigits(z)
  {
    if k == 0 then [] else Zeros(k - 1) + "0"
  }

  /** n in decimal, left-padded with zeros to width digits. */
  function Pad(n: nat, width: nat): string
  {
    var digits := NatText(n);
    if |digits| < width then Zeros(width - |digits|) + digits else digits
  }

  /** Three fields joined by two one-character separators. */
  function Join(a: string, sep1: char, b: string, sep2: char, c: string): string
  {
    a + [sep1] + b + [sep2] + c
  }

  /** The date part, 2006-01-02. */
  function DatePart(t: Instant): string
  {
    Join(Pad(t.year, 4), '-', Pad(t.month, 2), '-', Pad(t.day, 2))
  }

  /** The clock part, 15:04:05. */
  function ClockPart(t: Instant): string
  {
    Join(Pad(t.hour, 2), ':', Pad(t.minute, 2), ':', Pad(t.second, 2))
  }

  /** currentTime.Format("2006-01-02 15:04:05"). */
  function Stamp(t: Instant): string
  {
    DatePart(t) + " " + ClockPart(t)
  }

  /** Reads a timestamp back from its fixed character positions. */
  function ReadStamp(s: string): Option<DateTime>
  {
    if |s| == 19 && s[4] == '-' && s[7] == '-' && s[10] == ' ' && s[13] == ':' && s[16] == ':'
      && AllDigits(s[0..4]) && AllDigits(s[5..7]) && AllDigits(s[8..10])
      && AllDigits(s[11..13]) && AllDigits(s[14..16]) && AllDigits(s[17..19])
    then Some(DateTime(DigitsValue(s[0..4]), DigitsValue(s[5..7]), DigitsValue(s[8..10]),
                       DigitsValue(s[11..13]), DigitsValue(s[14..16]), DigitsValue(s[17..19])))
    else None
  }

  /** The owner name _port._protocol.subdomain. */
  function OwnerName(port: string, protocol: string, subdomain: string): string
  {
    "_" + port + "._" + protocol + "." + subdomain
  }

  /** The request genCloudflareReq marshals, for a given association. */
  function BuildRequest(
    port: string, protocol: string, subdomain: string, cu: string,
    usage: int, selector: int, matchingType: int, certificate: string, now: Instant): JsonRequest
  {
    JsonRequest(
      RecordType,
      OwnerName(port, protocol, subdomain),
      Data(usage, selector, matchingType, certificate),
      RecordTtl,
      RecordPriority,
      false,
      cu + Signature + Stamp(now))
  }

  /** genCloudflareReq(certfile, port, protocol, subdomain, cu): usage 3,
      selector 1, matching type 1 and the SHA-256 of the certificate's key. */
  function GenCloudflareReq(
    crypto: Crypto, files: map<string, seq<Hex.Byte>>, certfile: string,
    port: string, protocol: string, subdomain: string, cu: string, now: Instant): (r: Result<string, HashError>)
    ensures r.Err? <==> GetSHA256Sum(crypto, files, certfile).Err?
  {
    var hash :- GetSHA256Sum(crypto, files, certfile);
    Ok(Marshal(BuildRequest(port, protocol, subdomain, cu, 3, 1, 1, hash, now)))
  }

  lemma {:induction false} NatTextWidth(n: nat, k: nat)
    requires 1 <= k && n < Pow10(k)
    ensures |NatText(n)| <= k
  {
    if n >= 10 {
      NatTextWidth(n / 10, k - 1);
    }
  }

  lemma {:induction false} ZerosValue(z: string, s: string)
    requires AllDigits(z) && AllDigits(s)
    requires forall i :: 0 <= i < |z| ==> z[i] == '0'
    ensures AllDigits(z + s) && DigitsValue(z + s) == DigitsValue(s)
  {
    if s == [] {
      assert z + s == z;
      if z != [] {
        ZerosValue(z[..|z| - 1], []);
        assert z[..|z| - 1] + [] == z[..|z| - 1];
      }
    } else {
      var t := z + s;
      assert t[..|t| - 1] == z + s[..|s| - 1];
      ZerosValue(z, s[..|s| - 1]);
    }
  }

  lemma ZerosAreZero(k: nat)
    ensures forall i :: 0 <= i < k ==> Zeros(k)[i] == '0'
  {
    if k > 0 {
      ZerosAreZero(k - 1);
      assert Zeros(k) == Zeros(k - 1) + "0";
    }
  }

  /** A padded number has exactly the requested width and reads back as itself. */
  lemma PadReadsBack(n: nat, width: nat)
    requires 1 <= width && n < Pow10(width)
    ensures |Pad(n, width)| == width
    ensures AllDigits(Pad(n, width)) && DigitsValue(Pad(n, width)) == n
  {
    NatTextWidth(n, width);
    DigitsValueOfNatText(n);
    var digits := NatText(n);
    if |digits| < width {
      ZerosAreZero(width - |digits|);
      ZerosValue(Zeros(width - |digits|), digits);
    } else {
      assert |digits| == width;
    }
  }

  lemma JoinParts(a: string, sep1: char, b: string, sep2: char, c: string)
    ensures var s := Join(a, sep1, b, sep2, c);
      && |s| == |a| + |b| + |c| + 2
      && s[..|a|] == a && s[|a|] == sep1
      && s[|a| + 1..|a| + 1 + |b|] == b && s[|a| + 1 + |b|] == sep2
      && s[|a| + |b| + 2..] == c
  {
    var s := Join(a, sep1, b, sep2, c);
    assert s == a + ([sep1] + (b + ([sep2] + c)));
  }

  lemma {:induction false} SliceOfSlice(s: string, i: nat, j: nat, k: nat, l: nat)
    requires i <= j <= |s| && k <= l <= j - i
    ensures s[i..j][k..l] == s[i + k..i + l]
  {
    assert forall m :: 0 <= m < l - k ==> s[i..j][k..l][m] == s[i + k..i + l][m];
  }

  lemma PadWidth(n: nat, width: nat)
    requires 1 <= width && n < Pow10(width)
    ensures |Pad(n, width)| == width
  {
    NatTextWidth(n, width);
  }

  /** Where each field sits in the 19-character layout. */
  lemma Layout(a: string, b: string, c: string, d: string, e: string, f: string)
    requires |a| == 4 && |b| == 2 && |c| == 2 && |d| == 2 && |e| == 2 && |f| == 2
    ensures var s := Join(a, '-', b, '-', c) + " " + Join(d, ':', e, ':', f);
      && |s| == 19 && s[4] == '-' && s[7] == '-' && s[10] == ' ' && s[13] == ':' && s[16] == ':'
      && s[0..4] == a && s[5..7] == b && s[8..10] == c
      && s[11..13] == d && s[14..16] == e && s[17..19] == f
  {
    var x, y := Join(a, '-', b, '-', c), Join(d, ':', e, ':', f);
    JoinParts(a, '-', b, '-', c);
    JoinParts(d, ':', e, ':', f);
    var s := x + " " + y;
    assert s == x + (" " + y);
    assert s[0..10] == x && s[11..19] == y;
    SliceOfSlice(s, 0, 10, 0, 4);
    SliceOfSlice(s, 0, 10, 5, 7);
    SliceOfSlice(s, 0, 10, 8, 10);
    SliceOfSlice(s, 11, 19, 0, 2);
    SliceOfSlice(s, 11, 19, 3, 5);
    SliceOfSlice(s, 11, 19, 6, 8);
    assert s[4] == x[4] && s[7] == x[7] && s[13] == y[2] && s[16] == y[5];
  }

  /** Where each padded field sits in the timestamp. */
  lemma StampSlices(t: Instant)
    ensures var s := Stamp(t);
      && |s| == 19 && s[4] == '-' && s[7] == '-' && s[10] == ' ' && s[13] == ':' && s[16] == ':'
      && s[0..4] == Pad(t.year, 4) && s[5..7] == Pad(t.month, 2) && s[8..10] == Pad(t.day, 2)
      && s[11..13] == Pad(t.hour, 2) && s[14..16] == Pad(t.minute, 2) && s[17..19] == Pad(t.second, 2)
  {
    PadWidth(t.year, 4);
    PadWidth(t.month, 2);
    PadWidth(t.day, 2);
    PadWidth(t.hour, 2);
    PadWidth(t.minute, 2);
    PadWidth(t.second, 2);
    Layout(Pad(t.year, 4), Pad(t.month, 2), Pad(t.day, 2), Pad(t.hour, 2), Pad(t.minute, 2), Pad(t.second, 2));
  }

  /** Reading the timestamp back gives the instant it was written from. */
  lemma StampRoundTrip(t: Instant)
    ensures |Stamp(t)| == 19
    ensures ReadStamp(Stamp(t)) == Some(t)
  {
    StampSlices(t);
    PadReadsBack(t.year, 4);
    PadReadsBack(t.month, 2);
    PadReadsBack(t.day, 2);
    PadReadsBack(t.hour, 2);
    PadReadsBack(t.minute, 2);
    PadReadsBack(t.second, 2);
    ReadStampFields(Stamp(t));
  }

  lemma ReadStampFields(s: string)
    requires |s| == 19 && s[4] == '-' && s[7] == '-' && s[10] == ' ' && s[13] == ':' && s[16] == ':'
    requires AllDigits(s[0..4]) && AllDigits(s[5..7]) && AllDigits(s[8..10])
    requires AllDigits(s[11..13]) && AllDigits(s[14..16]) && AllDigits(s[17..19])
    ensures ReadStamp(s) == Some(DateTime(DigitsValue(s[0..4]), DigitsValue(s[5..7]), DigitsValue(s[8..10]),
                                          DigitsValue(s[11..13]), DigitsValue(s[14..16]), DigitsValue(s[17..19])))
  {
  }

  lemma StampIsSafe(t: Instant)
    ensures Safe(Stamp(t))
  {
    StampRoundTrip(t);
    var s := Stamp(t);
    forall i | 0 <= i < 19 ensures SafeChar(s[i]) {
      if i < 4 { assert s[i] == s[0..4][i]; }
      else if 4 < i < 7 { assert s[i] == s[5..7][i - 5]; }
      else if 7 < i < 10 { assert s[i] == s[8..10][i - 8]; }
      else if 10 < i < 13 { assert s[i] == s[11..13][i - 11]; }
      else if 13 < i < 16 { assert s[i] == s[14..16][i - 14]; }
      else if 16 < i { assert s[i] == s[17..19][i - 17]; }
    }
  }

  /** The marshalled request reads back with the record type TLSA, the
      owner name, TTL 3600, priority 10, not proxied, the comment
      cu + " by GoTLSAFlare - " + timestamp, and the given association. */
  lemma RequestReadsBack(
    port: string, protocol: string, subdomain: string, cu: string,
    usage: int, selector: int, matchingType: int, certificate: string, now: Instant)
    requires Safe(port) && Safe(protocol) && Safe(subdomain) && Safe(cu) && Safe(certificate)
    ensures var r := Unmarshal(Marshal(BuildRequest(port, protocol, subdomain, cu, usage, selector, matchingType, certificate, now)));
      && r.Some?
      && r.value.recordType == "TLSA"
      && r.value.name == "_" + port + "._" + protocol + "." + subdomain
      && r.value.data == Data(usage, selector, matchingType, certificate)
      && r.value.ttl == 3600 && r.value.priority == 10 && !r.value.proxied
      && |r.value.comment| == |cu| + 37
      && r.value.comment[..|cu| + 18] == cu + " by GoTLSAFlare - "
      && r.value.comment[|cu| + 18..] == Stamp(now)
  {
    StampIsSafe(now);
    StampRoundTrip(now);
    SafeAppend("_", port);
    SafeAppend("_" + port, "._");
    SafeAppend("_" + port + "._", protocol);
    SafeAppend("_" + port + "._" + protocol, ".");
    SafeAppend("_" + port + "._" + protocol + ".", subdomain);
    SafeAppend(cu, Signature);
    SafeAppend(cu + Signature, Stamp(now));
    var req := BuildRequest(port, protocol, subdomain, cu, usage, selector, matchingType, certificate, now);
    MarshalRoundTrip(req);
    assert (cu + Signature + Stamp(now))[..|cu| + 18] == cu + Signature;
    assert (cu + Signature + Stamp(now))[|cu| + 18..] == Stamp(now);
  }

  lemma HexIsSafe(s: string)
    requires forall i :: 0 <= i < |s| ==> Hex.IsHexDigit(s[i])
    ensures Safe(s)
  {
    forall i | 0 <= i < |s| ensures SafeChar(s[i]) {
      assert s[i] in Hex.Alphabet;
    }
  }

  /** The five-argument builder's body reads back as a DANE-EE (3 1 1)
      request whose association is the 64-digit hash of the certificate. */
  lemma GeneratedRequestReadsBack(
    crypto: Crypto, files: map<string, seq<Hex.Byte>>, certfile: string,
    port: string, protocol: string, subdomain: string, cu: string, now: Instant)
    requires Safe(port) && Safe(protocol) && Safe(subdomain) && Safe(cu)
    requires GenCloudflareReq(crypto, files, certfile, port, protocol, subdomain, cu, now).Ok?
    ensures var r := Unmarshal(GenCloudflareReq(crypto, files, certfile, port, protocol, subdomain, cu, now).value);
      && r.Some?
      && r.value.name == OwnerName(port, protocol, subdomain)
      && r.value.data.usage == 3 && r.value.data.selector == 1 && r.value.data.matchingType == 1
      && r.value.data.certificate == GetSHA256Sum(crypto, files, certfile).value
      && |r.value.data.certificate| == 64
  {
    var hash := GetSHA256Sum(crypto, files, certfile).value;
    assert GenCloudflareReq(crypto, files, certfile, port, protocol, subdomain, cu, now).value
      == Marshal(BuildRequest(port, protocol, subdomain, cu, 3, 1, 1, hash, now));
    HexIsSafe(hash);
    RequestReadsBack(port, protocol, subdomain, cu, 3, 1, 1, hash, now);
  }
}
