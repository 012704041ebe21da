/** Content addressing: digests, their printed form, and the part of a manifest the registry reads.

    SHA-256/512 and JSON parsing are not modelled: they are the two fields of `Env`, and every
    statement of this project that needs them holds for every `Env`. */
module Content {

  newtype byte = x: int | 0 <= x < 256

  type Bytes = seq<byte>

  datatype Option<+T> = None | Some(value: T)

  datatype Algorithm = Sha256 | Sha512

  datatype Digest = Digest(algorithm: Algorithm, hex: string)

  /** The digests a manifest names; the other fields of a descriptor are never inspected. */
  datatype Manifest = Manifest(config: Option<Digest>, layers: seq<Digest>, manifests: seq<Digest>,
                               subject: Option<Digest>)

  datatype Env = Env(sha: (Algorithm, Bytes) -> string, parse: Bytes -> Option<Manifest>)

  /** The digest `hash_content` computes. */
  function Hash(e: Env, alg: Algorithm, content: Bytes): Digest {
    Digest(alg, e.sha(alg, content))
  }

  // ---- Text -------------------------------------------------------------------------------

  /** Length of a string in bytes of its UTF-8 encoding, which is what Rust's `len` counts. */
  function ByteLen(s: string): nat {
    if s == "" then 0 else
      (if s[0] as int < 0x80 then 1 else if s[0] as int < 0x800 then 2 else if s[0] as int < 0x10000 then 3 else 4)
      + ByteLen(s[1..])
  }

  predicate IsLowerHex(c: char) { '0' <= c <= '9' || 'a' <= c <= 'f' }

  predicate AllLowerHex(s: string) { forall i :: 0 <= i < |s| ==> IsLowerHex(s[i]) }

  lemma {:induction false} ByteLenOfAscii(s: string)
    requires forall i :: 0 <= i < |s| ==> s[i] as int < 0x80
    ensures ByteLen(s) == |s|
  {
    if s != "" { ByteLenOfAscii(s[1..]); }
  }

  // ---- Digest text ------------------------------------------------------------------------

  function HexLen(a: Algorithm): nat { match a case Sha256 => 64 case Sha512 => 128 }

  function AlgorithmName(a: Algorithm): string { match a case Sha256 => "sha256" case Sha512 => "sha512" }

  predicate WellFormed(d: Digest) { |d.hex| == HexLen(d.algorithm) && AllLowerHex(d.hex) }

  datatype DigestError = MissingColon | UnknownAlgorithm(name: string) | BadHexLen(expected: nat, got: nat) | NonHex

  datatype Parsed = Parsed(digest: Digest) | Refused(error: DigestError)

  function Print(d: Digest): string { AlgorithmName(d.algorithm) + ":" + d.hex }

  /** Position of the first occurrence of `c`, or the length when there is none. */
  function IndexOf(s: string, c: char): (i: nat)
    ensures i <= |s| && (forall j :: 0 <= j < i ==> s[j] != c) && (i < |s| ==> s[i] == c)
  {
    if s == "" || s[0] == c then 0 else 1 + IndexOf(s[1..], c)
  }

  function Parse(s: string): Parsed {
    var i := IndexOf(s, ':');
    if i == |s| then Refused(MissingColon)
    else
      var name, hex := s[..i], s[i + 1..];
      if name != "sha256" && name != "sha512" then Refused(UnknownAlgorithm(name))
      else
        var alg := if name == "sha256" then Sha256 else Sha512;
        if ByteLen(hex) != HexLen(alg) then Refused(BadHexLen(HexLen(alg), ByteLen(hex)))
        else if !AllLowerHex(hex) then Refused(NonHex)
        else Parsed(Digest(alg, hex))
  }

  predicate IsSpace(c: char) { c == ' ' || '\t' <= c <= '\r' }

  /** `str::trim` on the characters that can occur in a pointer file. */
  function Trim(s: string): string {
    if s != "" && IsSpace(s[0]) then Trim(s[1..])
    else if s != "" && IsSpace(s[|s| - 1]) then Trim(s[..|s| - 1])
    else s
  }

  /** Printing and parsing are inverse: every well-formed digest survives the round trip, and a text
      is accepted exactly when it is the printed form of a well-formed digest. */
  lemma DigestRoundTrip(d: Digest)
    requires WellFormed(d)
    ensures Parse(Print(d)) == Parsed(d)
  {
    var s := Print(d);
    assert s[6] == ':' && s[..6] == AlgorithmName(d.algorithm) && s[7..] == d.hex;
    assert IndexOf(s, ':') == 6;
    assert s[5] == (if d.algorithm.Sha256? then '6' else '2');
    ByteLenOfAscii(d.hex);
  }

  lemma ParseAcceptsOnlyPrintedForms(s: string, d: Digest)
    ensures Parse(s) == Parsed(d) <==> WellFormed(d) && s == Print(d)
  {
    if Parse(s) == Parsed(d) {
      ByteLenOfAscii(d.hex);
      var i := IndexOf(s, ':');
      assert s == s[..i] + [s[i]] + s[i + 1..];
    } else if WellFormed(d) && s == Print(d) {
      DigestRoundTrip(d);
    }
  }

  /** What `manifest_put` writes into a tag file is what `manifest_get` reads back out of it. */
  lemma TagPointerRoundTrip(e: Env, content: Bytes)
    requires WellFormed(Hash(e, Sha256, content))
    ensures Parse(Trim(Print(Hash(e, Sha256, content)))) == Parsed(Hash(e, Sha256, content))
  {
    var d := Hash(e, Sha256, content);
    var s := Print(d);
    assert s[0] == 's' && s[|s| - 1] == d.hex[|d.hex| - 1];
    assert IsLowerHex(d.hex[|d.hex| - 1]);
    assert Trim(s) == s;
    DigestRoundTrip(d);
  }

  // ---- Manifest references ----------------------------------------------------------------

  function Elements<T>(s: seq<T>): set<T> { set x | x in s }

  function OptionSet<T>(o: Option<T>): set<T> { if o.Some? then {o.value} else {} }

  /** The blobs a migration or replication pass pulls along with a manifest: config, layers, subject. */
  function BlobRefs(m: Manifest): set<Digest> { OptionSet(m.config) + Elements(m.layers) + OptionSet(m.subject) }

  /** Everything the mark phase of GC reaches from a manifest. */
  function AllRefs(m: Manifest): set<Digest> { BlobRefs(m) + Elements(m.manifests) }

  /** `Manifest::referenced_digests`: nothing is missed and nothing is invented. */
  method ReferencedDigests(m: Manifest) returns (out: seq<Digest>)
    ensures Elements(out) == AllRefs(m)
    ensures |out| == |OptionSet(m.config)| + |m.layers| + |m.manifests| + |OptionSet(m.subject)|
  {
    out := [];
    if m.config.Some? { out := out + [m.config.value]; }
    ghost var head := out;
    for i := 0 to |m.layers|
      invariant out == head + m.layers[..i]
    {
      out := out + [m.layers[i]];
    }
    ghost var front := out;
    for i := 0 to |m.manifests|
      invariant out == front + m.manifests[..i]
    {
      out := out + [m.manifests[i]];
    }
    if m.subject.Some? { out := out + [m.subject.value]; }
  }
}
