/** The admin password verifier: HMAC and PBKDF2 as the standards define them, the
    loops that compute them, and the `v1$iterations$salt$key` record. */
module Admin {
  import opened Prelude
  import Text

  type Bytes = seq<bv8>

  const ZEROS: seq<bv8> := seq(32, _ => 0)

  type Digest = d: seq<bv8> | |d| == 32 witness ZEROS

  /** SHA-256, of which only the length of the result matters here. */
  type Sha = Bytes -> Digest

  const BLOCK: nat := 64

  // ----- RFC 2104, section 2

  function Padded(sha: Sha, key: Bytes): (r: Bytes)
    ensures |r| == BLOCK
  {
    var short: Bytes := if |key| > BLOCK then sha(key) else key;
    short + seq(BLOCK - |short|, _ => 0)
  }

  function XorAll(a: Bytes, x: bv8): (r: Bytes)
    ensures |r| == |a|
  {
    seq(|a|, i requires 0 <= i < |a| => a[i] ^ x)
  }

  function Hmac(sha: Sha, key: Bytes, message: Bytes): Digest {
    sha(XorAll(Padded(sha, key), 0x5c) + sha(XorAll(Padded(sha, key), 0x36) + message))
  }

  /** Byte by byte: the key, hashed first when it is longer than a block, fills the block
      from the left and zeros the rest; the two pads are 0x36 and 0x5c. */
  lemma HmacPads(sha: Sha, key: Bytes, message: Bytes)
    ensures var short: Bytes := if |key| > 64 then sha(key) else key;
            var block := (k: nat) => if k < |short| then short[k] else 0;
            Hmac(sha, key, message) ==
            sha(seq(64, k requires 0 <= k < 64 => block(k) ^ 0x5c) +
                sha(seq(64, k requires 0 <= k < 64 => block(k) ^ 0x36) + message))
  {
    var short: Bytes := if |key| > 64 then sha(key) else key;
    var block := (k: nat) => if k < |short| then short[k] else 0;
    assert XorAll(Padded(sha, key), 0x36) == seq(64, k requires 0 <= k < 64 => block(k) ^ 0x36);
    assert XorAll(Padded(sha, key), 0x5c) == seq(64, k requires 0 <= k < 64 => block(k) ^ 0x5c);
  }

  /** The two passes over an in-place padded key block. */
  method HmacSha256(sha: Sha, key: Bytes, message: Bytes) returns (r: Digest)
    ensures r == Hmac(sha, key, message)
  {
    var keyBlock := new bv8[BLOCK](_ => 0);
    var source: Bytes := if |key| > BLOCK then sha(key) else key;
    var i := 0;
    while i < |source|
      invariant 0 <= i <= |source|
      invariant forall k | 0 <= k < BLOCK :: keyBlock[k] == if k < i then source[k] else 0
    {
      keyBlock[i] := source[i];
      i := i + 1;
    }
    assert keyBlock[..] == Padded(sha, key);
    var inner := XorAll(keyBlock[..], 0x36) + message;
    var outer := XorAll(keyBlock[..], 0x5c) + sha(inner);
    r := sha(outer);
  }

  // ----- RFC 8018, section 5.2, one block

  function Xor(a: Digest, b: Digest): Digest {
    seq(32, i requires 0 <= i < 32 => a[i] ^ b[i])
  }

  const BLOCK_INDEX: Bytes := [0, 0, 0, 1]

  /** The i-th iterate of the pseudorandom function. */
  function U(sha: Sha, password: Bytes, salt: Bytes, i: nat): Digest
    requires i >= 1
    decreases i
  {
    if i == 1 then Hmac(sha, password, salt + BLOCK_INDEX) else Hmac(sha, password, U(sha, password, salt, i - 1))
  }

  /** The sum of the first `c` iterates. */
  function T(sha: Sha, password: Bytes, salt: Bytes, c: nat): Digest
    requires c >= 1
    decreases c
  {
    if c == 1 then U(sha, password, salt, 1) else Xor(T(sha, password, salt, c - 1), U(sha, password, salt, c))
  }

  /** An iteration count of zero computes the same key as one. */
  function Pbkdf2(sha: Sha, password: Bytes, salt: Bytes, iterations: nat): Digest {
    T(sha, password, salt, if iterations == 0 then 1 else iterations)
  }

  /** One iteration, or none, is one pass over salt and block index; each further one adds
      the pass over the last. */
  lemma Pbkdf2Iterates(sha: Sha, password: Bytes, salt: Bytes, iterations: nat)
    requires iterations >= 1
    ensures Pbkdf2(sha, password, salt, 1) == Hmac(sha, password, salt + [0, 0, 0, 1])
    ensures Pbkdf2(sha, password, salt, 0) == Pbkdf2(sha, password, salt, 1) == U(sha, password, salt, 1)
    ensures U(sha, password, salt, iterations + 1) == Hmac(sha, password, U(sha, password, salt, iterations))
    ensures forall k | 0 <= k < 32 ::
              Pbkdf2(sha, password, salt, iterations + 1)[k] ==
              Pbkdf2(sha, password, salt, iterations)[k] ^ U(sha, password, salt, iterations + 1)[k]
  {}

  lemma Iterates(sha: Sha, password: Bytes, salt: Bytes, n: nat)
    requires n >= 1
    ensures U(sha, password, salt, n + 1) == Hmac(sha, password, U(sha, password, salt, n))
    ensures T(sha, password, salt, n + 1) == Xor(T(sha, password, salt, n), U(sha, password, salt, n + 1))
  {}

  method Pbkdf2Sha256(sha: Sha, password: Bytes, salt: Bytes, iterations: nat) returns (r: Digest)
    ensures r == Pbkdf2(sha, password, salt, iterations)
  {
    var u := HmacSha256(sha, password, salt + BLOCK_INDEX);
    var out := new bv8[32](k requires 0 <= k < 32 => u[k]);
    assert out[..] == u;
    var n := 1;
    while n < iterations
      invariant 1 <= n && (n <= iterations || n == 1)
      invariant u == U(sha, password, salt, n) && out[..] == T(sha, password, salt, n)
    {
      Iterates(sha, password, salt, n);
      u := HmacSha256(sha, password, u);
      XorInto(out, u);
      n := n + 1;
    }
    r := out[..];
  }

  method XorInto(out: array<bv8>, mixed: Digest)
    requires out.Length == 32
    modifies out
    ensures out[..] == Xor(old(out[..]), mixed)
  {
    var k := 0;
    while k < 32
      invariant 0 <= k <= 32
      invariant forall j | 0 <= j < 32 :: out[j] == if j < k then old(out[j]) ^ mixed[j] else old(out[j])
    {
      out[k] := out[k] ^ mixed[k];
      k := k + 1;
    }
  }

  // ----- Hexadecimal text

  function High(b: bv8): (n: nat)
    ensures n < 16
  {
    (b as int) / 16
  }

  function Low(b: bv8): (n: nat)
    ensures n < 16
  {
    (b as int) % 16
  }

  function FromNibbles(high: nat, low: nat): bv8
    requires high < 16 && low < 16
  {
    (high * 16 + low) as bv8
  }

  function HexByte(b: bv8): string { [Text.DIGITS[High(b)], Text.DIGITS[Low(b)]] }

  function Hex(bytes: Bytes): string {
    if bytes == [] then ""
    else Hex(bytes[..|bytes| - 1]) + HexByte(bytes[|bytes| - 1])
  }

  method HexText(bytes: Bytes) returns (text: string)
    ensures text == Hex(bytes)
  {
    text := "";
    var i := 0;
    while i < |bytes|
      invariant 0 <= i <= |bytes| && text == Hex(bytes[..i])
    {
      assert bytes[..i + 1][..i] == bytes[..i];
      text := text + [Text.DIGITS[High(bytes[i])], Text.DIGITS[Low(bytes[i])]];
      i := i + 1;
    }
    assert bytes[..i] == bytes;
  }

  /** Both cases of letters read; an odd length or any other character fails. */
  function Unhex(text: string): Option<Bytes>
    decreases |text|
  {
    if text == "" then Some([])
    else if |text| == 1 then None
    else
      var n := |text| - 2;
      var rest := Unhex(text[..n]);
      var high, low := Text.DigitValue(text[n]), Text.DigitValue(text[n + 1]);
      if rest.None? || high.None? || low.None? then None
      else Some(rest.value + [FromNibbles(high.value, low.value)])
  }

  lemma NibblesRestore(b: bv8)
    ensures FromNibbles(High(b), Low(b)) == b
  {
    assert High(b) * 16 + Low(b) == b as int;
  }

  lemma UnhexByte(text: string, bytes: Bytes, b: bv8)
    requires Unhex(text) == Some(bytes)
    ensures Unhex(text + HexByte(b)) == Some(bytes + [b])
  {
    var longer := text + HexByte(b);
    Text.DigitInverse(High(b));
    Text.DigitInverse(Low(b));
    NibblesRestore(b);
    assert longer[..|longer| - 2] == text;
  }

  lemma HexBytePlain(b: bv8)
    ensures '$' !in HexByte(b)
  {
    Text.DigitInverse(High(b));
    Text.DigitInverse(Low(b));
  }

  /** Reading hexadecimal text undoes writing it, and the text holds no separator. */
  lemma {:induction false} HexRoundTrip(bytes: Bytes)
    ensures Unhex(Hex(bytes)) == Some(bytes)
    ensures '$' !in Hex(bytes)
    decreases |bytes|
  {
    if bytes != [] {
      var rest, last := bytes[..|bytes| - 1], bytes[|bytes| - 1];
      HexRoundTrip(rest);
      LastApart(bytes);
      HexBytePlain(last);
      UnhexByte(Hex(rest), rest, last);
    }
  }

  // ----- The record

  /** All differing bits, gathered without stopping at the first. */
  function Gathered(a: Bytes, b: Bytes, acc: bv8): bv8
    requires |a| == |b|
    decreases |a|
  {
    if a == [] then acc else Gathered(a[1..], b[1..], acc | (a[0] ^ b[0]))
  }

  lemma {:induction false} GatheredZero(a: Bytes, b: Bytes, acc: bv8)
    requires |a| == |b|
    ensures Gathered(a, b, acc) == 0 <==> acc == 0 && a == b
    decreases |a|
  {
    if a != [] {
      GatheredZero(a[1..], b[1..], acc | (a[0] ^ b[0]));
      assert a == [a[0]] + a[1..] && b == [b[0]] + b[1..];
    }
  }

  function DigestEq(sha: Sha, a: Bytes, b: Bytes): bool { Gathered(sha(a), sha(b), 0) == 0 }

  function Record(iterations: nat, salt: Bytes, key: Bytes): string {
    "v1" + ['$'] + (Text.Render(iterations, 10) + ['$'] + (Hex(salt) + ['$'] + Hex(key)))
  }

  function VerifyRecord(sha: Sha, record: string, password: Bytes): bool {
    var parts := Text.Split(record, '$');
    |parts| == 4 && parts[0] == "v1" &&
    var iterations, salt, key := Text.ParseU32(parts[1]), Unhex(parts[2]), Unhex(parts[3]);
    iterations.Some? && salt.Some? && key.Some? &&
    var candidate := Pbkdf2(sha, password, salt.value, iterations.value);
    |candidate| == |key.value| && DigestEq(sha, candidate, key.value)
  }

  lemma RecordParts(iterations: nat, salt: Bytes, key: Bytes)
    ensures Text.Split(Record(iterations, salt, key), '$') ==
            ["v1", Text.Render(iterations, 10), Hex(salt), Hex(key)]
  {
    var number := Text.Render(iterations, 10);
    Text.RenderInverse(iterations, 10);
    HexRoundTrip(salt);
    HexRoundTrip(key);
    Text.SplitPlain(Hex(key), '$');
    Text.SplitHead(Hex(salt), Hex(key), '$');
    Text.SplitHead(number, Hex(salt) + ['$'] + Hex(key), '$');
    Text.SplitHead("v1", number + ['$'] + (Hex(salt) + ['$'] + Hex(key)), '$');
  }

  /** For every password, salt and 32-bit iteration count, a record over any key is
      satisfied exactly by the passwords whose derived key has the digest of that key;
      in particular the formatted record verifies the password it was made from. */
  lemma RecordVerifies(sha: Sha, password: Bytes, salt: Bytes, iterations: nat, key: Bytes)
    ensures VerifyRecord(sha, Record(iterations, salt, key), password) <==>
            iterations <= Text.U32_MAX && |key| == 32 && sha(Pbkdf2(sha, password, salt, iterations)) == sha(key)
    ensures iterations <= Text.U32_MAX ==>
              VerifyRecord(sha, Record(iterations, salt, Pbkdf2(sha, password, salt, iterations)), password)
  {
    var own := Pbkdf2(sha, password, salt, iterations);
    RecordParts(iterations, salt, key);
    RecordParts(iterations, salt, own);
    Text.ParseInverse(iterations);
    HexRoundTrip(salt);
    HexRoundTrip(key);
    HexRoundTrip(own);
    GatheredZero(sha(own), sha(key), 0);
    GatheredZero(sha(own), sha(own), 0);
  }

  /** A record of any other form verifies nothing. */
  lemma OnlyRecordsVerify(sha: Sha, record: string, password: Bytes)
    requires VerifyRecord(sha, record, password)
    ensures var parts := Text.Split(record, '$');
            && |parts| == 4 && parts[0] == "v1" && Text.ParseU32(parts[1]).Some? && Unhex(parts[2]).Some?
            && Unhex(parts[3]).Some? && |Unhex(parts[3]).value| == 32
            && sha(Pbkdf2(sha, password, Unhex(parts[2]).value, Text.ParseU32(parts[1]).value)) ==
               sha(Unhex(parts[3]).value)
  {
    var parts := Text.Split(record, '$');
    var candidate := Pbkdf2(sha, password, Unhex(parts[2]).value, Text.ParseU32(parts[1]).value);
    GatheredZero(sha(candidate), sha(Unhex(parts[3]).value), 0);
  }

  // ----- The store

  const ITERATIONS: nat := 210_000
  const MIN_PASSWORD_LEN: nat := 8
  const STORE_VERSION: nat := 1

  datatype StoreFile = Missing | Malformed | Stored(version: nat, password: string)

  function Verifies(sha: Sha, file: StoreFile, env: Option<Bytes>, password: Bytes): bool {
    match file
    case Missing => env.Some? && DigestEq(sha, password, env.value)
    case Malformed => false
    case Stored(version, record) => version == STORE_VERSION && VerifyRecord(sha, record, password)
  }

  /** Which passwords an unwritten, damaged or foreign store lets in: before anything is
      stored those with the digest of the environment's, if it has one; none at all while
      the store cannot be read or has another version. */
  lemma VerifiesByStore(sha: Sha, file: StoreFile, env: Option<Bytes>, password: Bytes)
    ensures file.Missing? ==>
              (Verifies(sha, file, env, password) <==> env.Some? && sha(password) == sha(env.value))
    ensures file.Malformed? ==> !Verifies(sha, file, env, password)
    ensures file.Stored? && file.version != 1 ==> !Verifies(sha, file, env, password)
  {
    if env.Some? {
      GatheredZero(sha(password), sha(env.value), 0);
    }
  }

  class AdminStore {
    var file: StoreFile
    const sha: Sha

    constructor (sha: Sha, file: StoreFile)
      ensures this.sha == sha && this.file == file
    {
      this.sha, this.file := sha, file;
    }

    /** Whatever was stored and whatever the environment says, an accepted password
        is the one that verifies afterwards; a short one, or a file that cannot be
        written, changes nothing. */
    method SetPassword(password: Bytes, salt: Digest, writes: bool) returns (ok: bool)
      modifies this
      ensures ok == (|password| >= MIN_PASSWORD_LEN && writes)
      ensures !ok ==> file == old(file)
      ensures ok ==> file == Stored(STORE_VERSION,
                                    Record(ITERATIONS, salt, Pbkdf2(sha, password, salt, ITERATIONS)))
      ensures ok ==> forall env :: Verifies(sha, file, env, password)
    {
      if |password| < MIN_PASSWORD_LEN {
        return false;
      }
      var key := Pbkdf2Sha256(sha, password, salt, ITERATIONS);
      var saltText := HexText(salt);
      var keyText := HexText(key);
      if !writes {
        return false;
      }
      var record := "v1" + ['$'] + (Text.Render(ITERATIONS, 10) + ['$'] + (saltText + ['$'] + keyText));
      file := Stored(STORE_VERSION, record);
      RecordVerifies(sha, password, salt, ITERATIONS, key);
      return true;
    }
  }
}
