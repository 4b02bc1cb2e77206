/** The byte containers: the gate that holds two images, the sealed image and the backup. Each parser accepts exactly
    what its writer produces; the cipher is any one that decrypts what it encrypted. */
module Containers {
  import opened Types

  type Byte = b: int | 0 <= b < 256
  type Bytes = seq<Byte>

  const MAX_IMAGE: nat := 32 * 1024 * 1024
  const MAX_PLAINTEXT: nat := 16 * 1024 * 1024
  const INTENT_MAGIC: Bytes := [67, 77, 80, 69, 78, 68, 48, 50]
  const IMAGE_MAGIC: Bytes := [67, 77, 65, 71, 69, 78, 84, 50]
  const BACKUP_MAGIC: Bytes := [67, 77, 65, 66, 65, 75, 48, 50]

  // ----- big-endian words -----

  function Power(width: nat): nat { if width == 0 then 1 else 256 * Power(width - 1) }

  function Word(n: nat, width: nat): (s: Bytes)
    ensures |s| == width
  {
    if width == 0 then [] else Word(n / 256, width - 1) + [n % 256]
  }

  function Number(s: Bytes): nat { if s == [] then 0 else 256 * Number(s[..|s| - 1]) + s[|s| - 1] }

  lemma {:induction false} WordIsRead(n: nat, width: nat)
    requires n < Power(width)
    ensures Number(Word(n, width)) == n
  {
    if width > 0 {
      WordIsRead(n / 256, width - 1);
      assert Word(n, width)[..width - 1] == Word(n / 256, width - 1);
    }
  }

  lemma {:induction false} NumberIsWritten(s: Bytes)
    ensures Word(Number(s), |s|) == s
  {
    if s != [] {
      NumberIsWritten(s[..|s| - 1]);
      assert s[..|s| - 1] + [s[|s| - 1]] == s;
    }
  }

  lemma Powers()
    ensures Power(4) == 0x1_0000_0000 && Power(8) == 0x1_0000_0000_0000_0000
  {
    assert Power(2) == 65536;
    assert Power(4) == 65536 * 65536;
  }

  // ----- gates -----

  const GATE_LIMIT: nat := 2 * MAX_IMAGE + 24

  function GateBytes(previous: Bytes, next: Bytes): Bytes
  {
    INTENT_MAGIC + Word(|previous|, 8) + Word(|next|, 8) + previous + next
  }

  /** A pair that may stand in a gate: the first image may be missing, the second may not. */
  predicate GateOk(previous: Bytes, next: Bytes) { |previous| <= MAX_IMAGE && 0 < |next| <= MAX_IMAGE }

  /** Reads a gate file, of which no more than one byte above the limit is looked at. */
  function ReadGate(file: Bytes): Option<(Bytes, Bytes)>
  {
    var bytes := if |file| <= GATE_LIMIT + 1 then file else file[..GATE_LIMIT + 1];
    if |bytes| < 24 || |bytes| > GATE_LIMIT || bytes[..8] != INTENT_MAGIC then None
    else
      var first, second := Number(bytes[8..16]), Number(bytes[16..24]);
      if first > MAX_IMAGE || second > MAX_IMAGE || second == 0 || first + second + 24 != |bytes| then None
      else Some((bytes[24..24 + first], bytes[24 + first..]))
  }

  lemma GateParts(previous: Bytes, next: Bytes)
    ensures var b := GateBytes(previous, next);
      && |b| == 24 + |previous| + |next| && b[..8] == INTENT_MAGIC && b[8..16] == Word(|previous|, 8) && b[16..24] == Word(|next|, 8)
      && b[24..24 + |previous|] == previous && b[24 + |previous|..] == next
  {}

  lemma GateRebuilt(bytes: Bytes, first: nat, second: nat)
    requires |bytes| == 24 + first + second && bytes[..8] == INTENT_MAGIC
    requires bytes[8..16] == Word(first, 8) && bytes[16..24] == Word(second, 8)
    ensures bytes == GateBytes(bytes[24..24 + first], bytes[24 + first..])
  {}

  /** A gate reads as a pair exactly when it is that pair's bytes: nothing shorter, longer or different is accepted. */
  lemma GateReadsExactly(file: Bytes, previous: Bytes, next: Bytes)
    ensures ReadGate(file) == Some((previous, next)) <==> file == GateBytes(previous, next) && GateOk(previous, next)
  {
    Powers();
    if file == GateBytes(previous, next) && GateOk(previous, next) {
      GateParts(previous, next);
      WordIsRead(|previous|, 8);
      WordIsRead(|next|, 8);
    }
    if ReadGate(file) == Some((previous, next)) {
      NumberIsWritten(file[8..16]);
      NumberIsWritten(file[16..24]);
      GateRebuilt(file, Number(file[8..16]), Number(file[16..24]));
    }
  }

  /** An intent that was torn while it was written, at whatever byte, is refused. */
  lemma TornGateIsRefused(previous: Bytes, next: Bytes, cut: nat)
    requires GateOk(previous, next) && cut < |GateBytes(previous, next)|
    ensures ReadGate(GateBytes(previous, next)[..cut]) == None
  {
    var whole := GateBytes(previous, next);
    var torn := whole[..cut];
    GateParts(previous, next);
    if ReadGate(torn).Some? {
      var (p, n) := ReadGate(torn).value;
      GateReadsExactly(torn, p, n);
      GateParts(p, n);
      SameWord(whole, torn, |previous|, |p|, 8);
      SameWord(whole, torn, |next|, |n|, 16);
    }
  }

  lemma SameWord(whole: Bytes, torn: Bytes, a: nat, b: nat, at: nat)
    requires at + 8 <= |torn| <= |whole| && torn == whole[..|torn|] && whole[at..at + 8] == Word(a, 8) && torn[at..at + 8] == Word(b, 8)
    requires a < Power(8) && b < Power(8)
    ensures a == b
  {
    assert torn[at..at + 8] == whole[at..at + 8];
    WordIsRead(a, 8);
    WordIsRead(b, 8);
  }

  /** Writes a gate piece by piece. What was written is read back, and a write that stopped anywhere before its end is refused. */
  method WriteGate(previous: Bytes, next: Bytes) returns (file: Bytes)
    ensures GateOk(previous, next) ==> ReadGate(file) == Some((previous, next))
    ensures GateOk(previous, next) ==> forall cut: nat | cut < |file| :: ReadGate(file[..cut]) == None
    ensures forall p, n | ReadGate(file) == Some((p, n)) :: p == previous && n == next
  {
    file := INTENT_MAGIC;
    file := file + Word(|previous|, 8);
    file := file + Word(|next|, 8);
    file := file + previous;
    file := file + next;
    assert file == GateBytes(previous, next);
    hide ReadGate, GateBytes;
    GateReadsExactly(file, previous, next);
    forall cut: nat | GateOk(previous, next) && cut < |file| ensures ReadGate(file[..cut]) == None {
      TornGateIsRefused(previous, next, cut);
    }
    forall p, n | ReadGate(file) == Some((p, n)) ensures p == previous && n == next {
      OneReading(file, previous, next, p, n);
    }
  }

  /** A file that was written for one pair is never read as another. */
  lemma OneReading(file: Bytes, previous: Bytes, next: Bytes, p: Bytes, n: Bytes)
    requires file == GateBytes(previous, next) && ReadGate(file) == Some((p, n))
    ensures p == previous && n == next
  {
    Powers();
    GateReadsExactly(file, p, n);
    GateParts(previous, next);
    GateParts(p, n);
    SameWord(file, file, |previous|, |p|, 8);
    SameWord(file, file, |next|, |n|, 16);
  }

  // ----- envelopes -----

  const SALT_LEN: nat := 16
  const NONCE_LEN: nat := 12
  const TAG_LEN: nat := 16

  function Words(words: seq<nat>): (s: Bytes)
    ensures |s| == 4 * |words|
  {
    if words == [] then [] else Word(words[0], 4) + Words(words[1..])
  }

  function ReadWords(s: Bytes, count: nat): (words: seq<nat>)
    requires |s| == 4 * count
    ensures |words| == count
  {
    if count == 0 then [] else [Number(s[..4])] + ReadWords(s[4..], count - 1)
  }

  predicate Small(words: seq<nat>) { forall i | 0 <= i < |words| :: words[i] < 0x1_0000_0000 }

  lemma {:induction false} WordsAreRead(words: seq<nat>)
    requires Small(words)
    ensures ReadWords(Words(words), |words|) == words
  {
    if words != [] {
      Powers();
      WordIsRead(words[0], 4);
      assert Words(words)[..4] == Word(words[0], 4) && Words(words)[4..] == Words(words[1..]);
      WordsAreRead(words[1..]);
    }
  }

  lemma {:induction false} WordsAreWritten(s: Bytes, count: nat)
    requires |s| == 4 * count
    ensures Words(ReadWords(s, count)) == s
  {
    if count > 0 {
      NumberIsWritten(s[..4]);
      WordsAreWritten(s[4..], count - 1);
      assert s == s[..4] + s[4..];
      assert ReadWords(s, count)[1..] == ReadWords(s[4..], count - 1);
    }
  }

  /** The authenticated prefix: magic, version and parameters, salt. */
  function Prefix(magic: Bytes, words: seq<nat>, salt: Bytes): Bytes { magic + Words(words) + salt }

  function Envelope(magic: Bytes, words: seq<nat>, salt: Bytes, nonce: Bytes, body: Bytes): Bytes
  {
    Prefix(magic, words, salt) + nonce + Word(|body|, 8) + body
  }

  datatype Parts = Parts(words: seq<nat>, salt: Bytes, nonce: Bytes, body: Bytes)

  function Offset(count: nat): nat { 8 + 4 * count + SALT_LEN + NONCE_LEN + 8 }

  function OpenEnvelope(magic: Bytes, count: nat, bytes: Bytes): Option<Parts>
  {
    var w, s, n := 8, 8 + 4 * count, 8 + 4 * count + SALT_LEN;
    if |bytes| > MAX_IMAGE || |bytes| < Offset(count) || bytes[..8] != magic then None
    else if Number(bytes[n + NONCE_LEN..n + NONCE_LEN + 8]) != |bytes| - Offset(count) then None
    else Some(Parts(ReadWords(bytes[w..s], count), bytes[s..n], bytes[n..n + NONCE_LEN], bytes[Offset(count)..]))
  }

  lemma EnvelopeParts(magic: Bytes, words: seq<nat>, salt: Bytes, nonce: Bytes, body: Bytes)
    requires |magic| == 8 && |salt| == SALT_LEN && |nonce| == NONCE_LEN
    ensures var b, s, n := Envelope(magic, words, salt, nonce, body), 8 + 4 * |words|, 8 + 4 * |words| + SALT_LEN;
      && |b| == Offset(|words|) + |body| && b[..8] == magic && b[8..s] == Words(words) && b[s..n] == salt && b[n..n + NONCE_LEN] == nonce
      && b[n + NONCE_LEN..n + NONCE_LEN + 8] == Word(|body|, 8) && b[Offset(|words|)..] == body && b[..n] == Prefix(magic, words, salt)
  {}

  /** What was put into an envelope that fits is found in it again. */
  lemma EnvelopeOpens(magic: Bytes, words: seq<nat>, salt: Bytes, nonce: Bytes, body: Bytes)
    requires |magic| == 8 && |salt| == SALT_LEN && |nonce| == NONCE_LEN && Small(words) && Offset(|words|) + |body| <= MAX_IMAGE
    ensures OpenEnvelope(magic, |words|, Envelope(magic, words, salt, nonce, body)) == Some(Parts(words, salt, nonce, body))
  {
    Powers();
    EnvelopeParts(magic, words, salt, nonce, body);
    WordIsRead(|body|, 8);
    WordsAreRead(words);
  }

  /** Only envelopes open: the bytes are exactly what their parts would be written as. */
  lemma OpenedIsEnvelope(magic: Bytes, count: nat, bytes: Bytes)
    requires |magic| == 8 && OpenEnvelope(magic, count, bytes).Some?
    ensures var p := OpenEnvelope(magic, count, bytes).value; bytes == Envelope(magic, p.words, p.salt, p.nonce, p.body) && |p.words| == count
  {
    var w, s, n := 8, 8 + 4 * count, 8 + 4 * count + SALT_LEN;
    WordsAreWritten(bytes[w..s], count);
    NumberIsWritten(bytes[n + NONCE_LEN..n + NONCE_LEN + 8]);
    EnvelopeJoined(bytes, s, n, Offset(count));
  }

  lemma EnvelopeJoined(bytes: Bytes, s: nat, n: nat, offset: nat)
    requires 8 <= s <= n && n + NONCE_LEN + 8 == offset <= |bytes|
    ensures bytes == bytes[..8] + bytes[8..s] + bytes[s..n] + bytes[n..n + NONCE_LEN] + bytes[n + NONCE_LEN..n + NONCE_LEN + 8] + bytes[offset..]
  {}

  // ----- sealed images and backups -----

  datatype Kdf = Kdf(m: nat, t: nat, p: nat)

  predicate KdfOk(k: Kdf) { 19 * 1024 <= k.m <= 1024 * 1024 && 1 <= k.t <= 100 && 1 <= k.p <= 16 && k.m >= 8 * k.p }

  const CURRENT_KDF := Kdf(64 * 1024, 3, 1)

  /** Key derivation and authenticated encryption, as functions of key, nonce, text and associated data. */
  datatype Cipher = Cipher(derive: (Bytes, Bytes, Kdf) -> Bytes, encrypt: (Bytes, Bytes, Bytes, Bytes) -> Bytes,
                           decrypt: (Bytes, Bytes, Bytes, Bytes) -> Option<Bytes>)

  ghost predicate Lawful(c: Cipher)
  {
    forall key, nonce, text, aad {:trigger c.encrypt(key, nonce, text, aad)} ::
      c.decrypt(key, nonce, c.encrypt(key, nonce, text, aad), aad) == Some(text) && |c.encrypt(key, nonce, text, aad)| == |text| + TAG_LEN
  }

  function ImageBytes(c: Cipher, secret: Bytes, version: nat, k: Kdf, salt: Bytes, nonce: Bytes, text: Bytes): Bytes
  {
    var words := [version, k.m, k.t, k.p];
    var aad := if version >= 3 then Prefix(IMAGE_MAGIC, words, salt) else [];
    Envelope(IMAGE_MAGIC, words, salt, nonce, c.encrypt(c.derive(secret, salt, k), nonce, text, aad))
  }

  function Unseal(c: Cipher, secret: Bytes, image: Bytes): Option<Bytes>
  {
    var p := OpenEnvelope(IMAGE_MAGIC, 4, image);
    if p.None? then None
    else
      var version, k := p.value.words[0], Kdf(p.value.words[1], p.value.words[2], p.value.words[3]);
      if (version != 2 && version != 3) || !KdfOk(k) then None
      else
        var aad := if version == 3 then image[..40] else [];
        c.decrypt(c.derive(secret, p.value.salt, k), p.value.nonce, p.value.body, aad)
  }

  /** Unsealing inverts sealing, in both format versions, and every sealed image fits the limit. */
  lemma UnsealInvertsSeal(c: Cipher, secret: Bytes, version: nat, k: Kdf, salt: Bytes, nonce: Bytes, text: Bytes)
    requires Lawful(c) && (version == 2 || version == 3) && KdfOk(k) && |salt| == SALT_LEN && |nonce| == NONCE_LEN && |text| <= MAX_PLAINTEXT
    ensures var image := ImageBytes(c, secret, version, k, salt, nonce, text);
      |image| <= MAX_IMAGE && Unseal(c, secret, image) == Some(text)
  {
    var words := [version, k.m, k.t, k.p];
    var aad := if version >= 3 then Prefix(IMAGE_MAGIC, words, salt) else [];
    var body := c.encrypt(c.derive(secret, salt, k), nonce, text, aad);
    EnvelopeOpens(IMAGE_MAGIC, words, salt, nonce, body);
    EnvelopeParts(IMAGE_MAGIC, words, salt, nonce, body);
  }

  function BackupBytes(c: Cipher, secret: Bytes, kind: nat, version: nat, salt: Bytes, nonce: Bytes, snapshot: Bytes): Bytes
  {
    var k := CURRENT_KDF;
    var words := [version, kind, k.m, k.t, k.p];
    var prefix := Prefix(BACKUP_MAGIC, words, salt);
    var aad := if version >= 3 then prefix else [];
    Envelope(BACKUP_MAGIC, words, salt, nonce, c.encrypt(c.derive(secret, salt, k), nonce, prefix + snapshot, aad))
  }

  function OpenBackup(c: Cipher, secret: Bytes, kind: nat, bytes: Bytes): Option<Bytes>
  {
    var p := OpenEnvelope(BACKUP_MAGIC, 5, bytes);
    if p.None? then None
    else
      var version, k := p.value.words[0], Kdf(p.value.words[2], p.value.words[3], p.value.words[4]);
      if (version != 2 && version != 3) || p.value.words[1] != kind || !KdfOk(k) then None
      else if k.m > CURRENT_KDF.m || k.t > CURRENT_KDF.t || k.p > CURRENT_KDF.p then None
      else
        var prefix := bytes[..44];
        var text := c.decrypt(c.derive(secret, p.value.salt, k), p.value.nonce, p.value.body, if version == 3 then prefix else []);
        if text.None? || |text.value| < 44 || text.value[..44] != prefix then None else Some(text.value[44..])
  }

  /** Opening a backup inverts writing it, and every backup of a snapshot that fits also fits. */
  lemma BackupOpens(c: Cipher, secret: Bytes, kind: nat, version: nat, salt: Bytes, nonce: Bytes, snapshot: Bytes)
    requires Lawful(c) && (version == 2 || version == 3) && (kind == 1 || kind == 2)
    requires |salt| == SALT_LEN && |nonce| == NONCE_LEN && |snapshot| <= MAX_PLAINTEXT
    ensures var bytes := BackupBytes(c, secret, kind, version, salt, nonce, snapshot);
      |bytes| <= MAX_IMAGE && OpenBackup(c, secret, kind, bytes) == Some(snapshot)
    ensures OpenBackup(c, secret, 3 - kind, BackupBytes(c, secret, kind, version, salt, nonce, snapshot)) == None
  {
    var k := CURRENT_KDF;
    var words := [version, kind, k.m, k.t, k.p];
    var prefix := Prefix(BACKUP_MAGIC, words, salt);
    var body := c.encrypt(c.derive(secret, salt, k), nonce, prefix + snapshot, if version >= 3 then prefix else []);
    EnvelopeOpens(BACKUP_MAGIC, words, salt, nonce, body);
    EnvelopeParts(BACKUP_MAGIC, words, salt, nonce, body);
    assert (prefix + snapshot)[..44] == prefix && (prefix + snapshot)[44..] == snapshot;
  }
}
