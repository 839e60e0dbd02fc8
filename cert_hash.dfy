/**
 * The certificate association data: the lowercase hex SHA-256 digest of the
 * DER SubjectPublicKeyInfo of the first certificate in a PEM file
 * (selector 1, matching type 1 of RFC 6698, section 2.1). PEM decoding,
 * X.509 parsing, PKIX marshalling and SHA-256 are opaque functions supplied
 * by the caller; the file system is a map from path to contents.
 */
module CertHash {
  import opened Wrappers
  import opened Hex
  import opened Process

  type Digest = d: seq<Byte> | |d| == 32 witness seq(32, i => 0)

  datatype PublicKey =
    | RsaKey(modulus: nat, exponent: nat)
    | OtherKey(algorithm: string)

  datatype Certificate = Certificate(raw: seq<Byte>, publicKey: PublicKey)

  datatype PemBlock = PemBlock(blockType: string, bytes: seq<Byte>)

  /** The library functions the hash is built from. pemDecode returns the
      first block and the text after it; parseCertificate and marshalPkix
      fail with None. */
  datatype Crypto = Crypto(
    pemDecode: seq<Byte> -> Option<(PemBlock, seq<Byte>)>,
    parseCertificate: seq<Byte> -> Option<Certificate>,
    marshalPkix: PublicKey -> Option<seq<Byte>>,
    sha256: seq<Byte> -> Digest)

  datatype HashError = ReadFailed | NoPemBlock | NotACertificate | NotRsaKey | MarshalFailed

  /** A failed read, a missing PEM block and a failed marshal are logged and
      end the process; the ignored parse error leaves a nil certificate whose
      public key is dereferenced, and a non-RSA key fails the type
      assertion, both panics. */
  function Severity(e: HashError): (f: Fatal)
    ensures f == Exit <==> e in {ReadFailed, NoPemBlock, MarshalFailed}
  {
    match e
    case ReadFailed => Exit
    case NoPemBlock => Exit
    case MarshalFailed => Exit
    case NotACertificate => Panic
    case NotRsaKey => Panic
  }

  /** The DER SubjectPublicKeyInfo of the first certificate in the file. */
  function SpkiDer(crypto: Crypto, files: map<string, seq<Byte>>, certfile: string): Result<seq<Byte>, HashError>
  {
    if certfile !in files then Err(ReadFailed)
    else
      match crypto.pemDecode(files[certfile])
      case None => Err(NoPemBlock)
      case Some((block, _)) =>
        match crypto.parseCertificate(block.bytes)
        case None => Err(NotACertificate)
        case Some(cert) =>
          if !cert.publicKey.RsaKey? then Err(NotRsaKey)
          else
            match crypto.marshalPkix(cert.publicKey)
            case None => Err(MarshalFailed)
            case Some(der) => Ok(der)
  }

  /** getSHA256sum: 64 lowercase hex digits that decode to the SHA-256
      digest of the key's DER encoding; every failure of a step is reported. */
  function GetSHA256Sum(crypto: Crypto, files: map<string, seq<Byte>>, certfile: string): (r: Result<string, HashError>)
    ensures r.Ok? <==> SpkiDer(crypto, files, certfile).Ok?
    ensures r.Err? ==> r.error == SpkiDer(crypto, files, certfile).error
    ensures r.Ok? ==> |r.value| == 64 && forall i :: 0 <= i < 64 ==> IsHexDigit(r.value[i])
    ensures r.Ok? ==> Decode(r.value) == Some(crypto.sha256(SpkiDer(crypto, files, certfile).value))
  {
    var der :- SpkiDer(crypto, files, certfile);
    var sum := crypto.sha256(der);
    RoundTrip(sum);
    Ok(Encode(sum))
  }

  /** Only the first PEM block is hashed: files whose first blocks agree
      hash alike, whatever follows. */
  lemma FirstBlockOnly(crypto: Crypto, files: map<string, seq<Byte>>, certfile: string, other: seq<Byte>)
    requires certfile in files
    requires crypto.pemDecode(files[certfile]).Some? && crypto.pemDecode(other).Some?
    requires crypto.pemDecode(other).value.0 == crypto.pemDecode(files[certfile]).value.0
    ensures GetSHA256Sum(crypto, files[certfile := other], certfile) == GetSHA256Sum(crypto, files, certfile)
  {
  }

  /** The hash input is the public key, not the certificate: two
      certificates with the same RSA key hash alike. */
  lemma KeyOnly(crypto: Crypto, files: map<string, seq<Byte>>, certfile: string, c1: Certificate, c2: Certificate)
    requires certfile in files
    requires crypto.pemDecode(files[certfile]).Some?
    requires crypto.parseCertificate(crypto.pemDecode(files[certfile]).value.0.bytes) == Some(c1)
    requires c2.publicKey == c1.publicKey
    ensures
      var parse2 := (b: seq<Byte>) => if b == crypto.pemDecode(files[certfile]).value.0.bytes then Some(c2) else crypto.parseCertificate(b);
      GetSHA256Sum(crypto.(parseCertificate := parse2), files, certfile) == GetSHA256Sum(crypto, files, certfile)
  {
  }

  /** Without a PEM block no hash is produced and the process exits. */
  lemma NoBlockNoHash(crypto: Crypto, files: map<string, seq<Byte>>, certfile: string)
    requires certfile in files && crypto.pemDecode(files[certfile]).None?
    ensures GetSHA256Sum(crypto, files, certfile) == Err(NoPemBlock)
    ensures Severity(NoPemBlock) == Exit
  {
  }
}
