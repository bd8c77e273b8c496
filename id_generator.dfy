/** Content-hash identifiers shared by every data stream. The SHA-256 digest of
    the UTF-8 encoded DOT text is a parameter: a function that yields 64 lower-case
    hex digits. */
module IdGenerator {
  import PyStr
  import Lists

  predicate IsLowerHex(c: char) {
    '0' <= c <= '9' || 'a' <= c <= 'f'
  }

  /** `s` is an `n`-digit lower-case hexadecimal string, as `hexdigest()` returns. */
  predicate IsHexDigest(s: string, n: nat) {
    |s| == n && forall i :: 0 <= i < |s| ==> IsLowerHex(s[i])
  }

  type Sha256Hex = s: string | IsHexDigest(s, 64) witness seq(64, _ => '0')

  type Md5Hex = s: string | IsHexDigest(s, 32) witness seq(32, _ => '0')

  /** `generate_id(output_dot, source_prefix)`: the first 16 hex digits of the
      content hash, preceded by `prefix` and a '-' when the prefix is non-empty.
      The hash portion is the same whatever prefix the text is filed under. */
  function GenerateId(dot: string, prefix: string, sha256: string -> Sha256Hex): (id: string)
    ensures prefix == "" ==> id == sha256(dot)[..16]
    ensures prefix != "" ==> id == prefix + "-" + sha256(dot)[..16]
    ensures |id| == if prefix == "" then 16 else |prefix| + 17
    ensures id[|id| - 16..] == sha256(dot)[..16]
  {
    var shortHash := sha256(dot)[..16];
    if prefix != "" then prefix + "-" + shortHash else shortHash
  }

  /** `extract_hash_from_id(id_string)`: whatever follows the first '-', or the
      whole id when it has none. */
  function ExtractHashFromId(id: string): (h: string)
    ensures '-' !in id ==> h == id
    ensures '-' in id ==> |h| < |id| && id == id[..|id| - |h| - 1] + "-" + h && '-' !in id[..|id| - |h| - 1]
  {
    var k := PyStr.FindChar(id, '-');
    if k < 0 then id
    else
      assert id == id[..k] + "-" + id[k + 1..];
      id[k + 1..]
  }

  /** The hash portion of an id never holds a '-'. */
  lemma HashPortionHasNoDash(dot: string, sha256: string -> Sha256Hex)
    ensures '-' !in sha256(dot)[..16]
  {
    var h := sha256(dot)[..16];
    assert forall i :: 0 <= i < |h| ==> IsLowerHex(h[i]);
  }

  /** Splitting at the first '-' separates a dash-free prefix from the rest. */
  lemma ExtractAfterDashFreePrefix(prefix: string, h: string)
    requires '-' !in prefix && '-' !in h
    ensures ExtractHashFromId(if prefix == "" then h else prefix + "-" + h) == h
  {
    if prefix != "" {
      var id := prefix + "-" + h;
      assert id[..|prefix|] == prefix;
      assert id[|prefix| + 1..] == h;
      PyStr.FindCharAt(id, '-', |prefix|);
    }
  }

  /** Round trip: for a prefix without '-' (the empty prefix included), the
      extracted hash is exactly the 16-digit hash portion. */
  lemma ExtractInvertsGenerate(dot: string, prefix: string, sha256: string -> Sha256Hex)
    requires '-' !in prefix
    ensures var h := sha256(dot); ExtractHashFromId(GenerateId(dot, prefix, sha256)) == h[..16]
  {
    var h := sha256(dot)[..16];
    HashPortionHasNoDash(dot, sha256);
    ExtractAfterDashFreePrefix(prefix, h);
    assert GenerateId(dot, prefix, sha256) == if prefix == "" then h else prefix + "-" + h;
  }

  /** The round trip fails for the gallery's own prefix: the part of the prefix
      after its '-' stays in front of the hash. */
  lemma ExtractKeepsPrefixTail(dot: string, sha256: string -> Sha256Hex)
    ensures ExtractHashFromId(GenerateId(dot, "graphviz-gallery", sha256)) == "gallery-" + sha256(dot)[..16]
    ensures ExtractHashFromId(GenerateId(dot, "graphviz-gallery", sha256)) != sha256(dot)[..16]
  {
    var h := sha256(dot)[..16];
    var id := "graphviz-gallery" + "-" + h;
    assert id == "graphviz" + "-" + ("gallery-" + h);
    assert id[..8] == "graphviz";
    PyStr.FindCharAt(id, '-', 8);
  }

  /** The hash portion as the docstring describes it: whatever follows the last
      '-', or the whole id when it has none. */
  function ExtractHashAfterLastDash(id: string): (h: string)
    ensures '-' !in id ==> h == id
    ensures '-' in id ==> |h| < |id| && id == id[..|id| - |h| - 1] + "-" + h && '-' !in h
  {
    var k := Lists.LastIndex(id, '-');
    if k < 0 then id
    else
      assert id == id[..k] + "-" + id[k + 1..];
      id[k + 1..]
  }

  /** With the hash taken after the last '-', the round trip holds for every
      prefix, hyphenated ones such as "graphviz-gallery" included. */
  lemma ExtractAfterLastDashInvertsGenerate(dot: string, prefix: string, sha256: string -> Sha256Hex)
    ensures var h := sha256(dot); ExtractHashAfterLastDash(GenerateId(dot, prefix, sha256)) == h[..16]
  {
    var h := sha256(dot)[..16];
    HashPortionHasNoDash(dot, sha256);
    if prefix != "" {
      var id := prefix + "-" + h;
      assert id[|prefix| + 1..] == h;
      assert forall j :: |prefix| < j < |id| ==> id[j] == h[j - |prefix| - 1];
      Lists.LastIndexAt(id, '-', |prefix|);
    }
  }
}
