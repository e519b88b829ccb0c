/** Key material and the identity the run uses: `optionalKeypairFromEnv`
    (jupitor-swaps/src/index.js:28-54) and the choice at lines 140-148.
    `JSON.parse`, `Uint8Array.from`, `bs58.decode` and the `Keypair`
    constructors are foreign: their outcomes are given. */
module KeyMaterial {
  import opened Wrappers

  /** A keypair; only its base58 public key is read by the run. */
  datatype Keypair = Keypair(publicKey: string)

  /** What `JSON.parse(raw)` and `Uint8Array.from` make of the key text. */
  datatype JsonOutcome =
    | JsonThrows            // not JSON, or an array `Uint8Array.from` rejects
    | JsonNotArray          // valid JSON that is not an array
    | JsonArray(length: nat) // an array, as that many bytes

  /** What `bs58.decode(raw)` makes of the key text. */
  datatype Base58Outcome = Base58Throws | Base58Bytes(length: nat)

  /** The outcomes of the foreign calls for one key text. `jsonKeypair` and
      `base58Keypair` are what `Keypair.fromSecretKey` (64 bytes) or
      `Keypair.fromSeed` (32 bytes) returns on those bytes; `None` when it
      throws. */
  datatype KeyOracle = KeyOracle(
    json: JsonOutcome,
    jsonKeypair: Option<Keypair>,
    base58: Base58Outcome,
    base58Keypair: Option<Keypair>)

  /** Where a loaded keypair came from. */
  datatype KeySource = JsonSecretKey | JsonSeed | Base58SecretKey | Base58Seed

  /** The reasons `exitWith` ends the run while loading the key. */
  datatype KeyError =
    | JsonArrayLength(length: nat)  // line 39
    | DecodedLength(length: nat)    // line 50
    | Undecodable                   // line 52

  datatype KeyResult =
    | NoKey
    | Loaded(keypair: Keypair, source: KeySource)
    | KeyFatal(error: KeyError)

  /** The byte count each kind of key material has. */
  function KeyLength(src: KeySource): nat
  {
    match src
    case JsonSecretKey => 64
    case Base58SecretKey => 64
    case JsonSeed => 32
    case Base58Seed => 32
  }

  /** `optionalKeypairFromEnv()`; `raw` is `PRIVATE_KEY` after `trim`, "" when
      unset. The JSON attempt comes first; any exception in it (a parse error,
      a rejected array, a constructor that throws) falls through to base58,
      while a wrong array length ends the run. In the base58 attempt a wrong
      length ends the run and any exception ends it too. */
  function LoadKeypair(raw: string, o: KeyOracle): KeyResult
  {
    if raw == "" then NoKey
    else if o.json.JsonArray? && o.json.length == 64 && o.jsonKeypair.Some? then
      Loaded(o.jsonKeypair.value, JsonSecretKey)
    else if o.json.JsonArray? && o.json.length == 32 && o.jsonKeypair.Some? then
      Loaded(o.jsonKeypair.value, JsonSeed)
    else if o.json.JsonArray? && o.json.length != 64 && o.json.length != 32 then
      KeyFatal(JsonArrayLength(o.json.length))
    else
      match o.base58
      case Base58Throws => KeyFatal(Undecodable)
      case Base58Bytes(n) =>
        if n == 64 && o.base58Keypair.Some? then Loaded(o.base58Keypair.value, Base58SecretKey)
        else if n == 32 && o.base58Keypair.Some? then Loaded(o.base58Keypair.value, Base58Seed)
        else if n != 64 && n != 32 then KeyFatal(DecodedLength(n))
        else KeyFatal(Undecodable)
  }

  /** The byte count decides: a loaded key always has 64 bytes (a secret
      key) or 32 (a seed), of the attempt it came from, and is what that
      attempt's constructor returned. */
  lemma LoadedKeyLength(raw: string, o: KeyOracle)
    requires LoadKeypair(raw, o).Loaded?
    ensures var r := LoadKeypair(raw, o);
      match r.source
      case JsonSecretKey | JsonSeed =>
        o.json == JsonArray(KeyLength(r.source)) && o.jsonKeypair == Some(r.keypair)
      case Base58SecretKey | Base58Seed =>
        o.base58 == Base58Bytes(KeyLength(r.source)) && o.base58Keypair == Some(r.keypair)
  {
  }

  /** JSON is tried before base58: a JSON byte array of 64 or 32 bytes whose
      keypair builds settles the outcome whatever base58 would give, and so
      does a JSON array of any other length, which is fatal. */
  lemma JsonBeforeBase58(raw: string, o: KeyOracle, b: Base58Outcome, bk: Option<Keypair>)
    requires raw != "" && JsonDecides(o)
    ensures LoadKeypair(raw, o) == LoadKeypair(raw, o.(base58 := b, base58Keypair := bk))
    ensures o.json.length != 64 && o.json.length != 32 ==>
      LoadKeypair(raw, o) == KeyFatal(JsonArrayLength(o.json.length))
  {
  }

  /** The JSON attempt settles the outcome: an array whose keypair builds,
      or an array of a length other than 64 or 32. */
  predicate JsonDecides(o: KeyOracle)
  {
    o.json.JsonArray? && (o.jsonKeypair.Some? || (o.json.length != 64 && o.json.length != 32))
  }

  /** A JSON array is classified by its length: 64 bytes whose keypair
      builds are a secret key, 32 a seed, any other length is fatal. */
  lemma JsonLengthClassifies(raw: string, o: KeyOracle)
    requires raw != "" && o.json.JsonArray?
    ensures o.json.length == 64 && o.jsonKeypair.Some? ==>
      LoadKeypair(raw, o) == Loaded(o.jsonKeypair.value, JsonSecretKey)
    ensures o.json.length == 32 && o.jsonKeypair.Some? ==>
      LoadKeypair(raw, o) == Loaded(o.jsonKeypair.value, JsonSeed)
    ensures o.json.length != 64 && o.json.length != 32 ==>
      LoadKeypair(raw, o) == KeyFatal(JsonArrayLength(o.json.length))
  {
  }

  /** Key text that is not JSON, JSON that is not an array, or a 64- or
      32-byte array whose keypair constructor throws (the `catch` at line 41
      swallows it) leaves the outcome to base58 alone. */
  lemma JsonFallsThrough(raw: string, o: KeyOracle)
    requires raw != "" && !JsonDecides(o)
    ensures LoadKeypair(raw, o) == LoadKeypair(raw, o.(json := JsonThrows, jsonKeypair := None))
  {
  }

  /** When base58 decides, the decoded length classifies the key as for
      JSON; a decode that throws, or a constructor that throws, is fatal. */
  lemma Base58LengthClassifies(raw: string, o: KeyOracle)
    requires raw != "" && !JsonDecides(o)
    ensures o.base58.Base58Throws? ==> LoadKeypair(raw, o) == KeyFatal(Undecodable)
    ensures o.base58 == Base58Bytes(64) && o.base58Keypair.Some? ==>
      LoadKeypair(raw, o) == Loaded(o.base58Keypair.value, Base58SecretKey)
    ensures o.base58 == Base58Bytes(32) && o.base58Keypair.Some? ==>
      LoadKeypair(raw, o) == Loaded(o.base58Keypair.value, Base58Seed)
    ensures o.base58.Base58Bytes? && (o.base58.length == 64 || o.base58.length == 32) && o.base58Keypair.None? ==>
      LoadKeypair(raw, o) == KeyFatal(Undecodable)
    ensures o.base58.Base58Bytes? && o.base58.length != 64 && o.base58.length != 32 ==>
      LoadKeypair(raw, o) == KeyFatal(DecodedLength(o.base58.length))
  {
  }

  /** Any other decoded length is fatal. */
  lemma Base58WrongLengthFatal(raw: string, o: KeyOracle)
    requires raw != "" && !o.json.JsonArray?
    requires o.base58.Base58Bytes? && o.base58.length != 64 && o.base58.length != 32
    ensures LoadKeypair(raw, o) == KeyFatal(DecodedLength(o.base58.length))
  {
  }

  /** Without key text there is no key, and only then. */
  lemma NoKeyIff(raw: string, o: KeyOracle)
    ensures LoadKeypair(raw, o) == NoKey <==> raw == ""
  {
  }

  /** The identity the run uses, and whether it signs. */
  datatype Identity = Identity(userPublicKey: string, signer: Option<Keypair>)

  /** Lines 140-148: with a keypair its public key is the identity and the
      run signs; otherwise `PUBLIC_KEY` (trimmed, "" when unset) is, unsigned;
      with neither the run ends. `key` is never `KeyFatal` here: that has
      already ended the run. */
  function ResolveIdentity(key: KeyResult, publicKey: string): (r: Option<Identity>)
    requires !key.KeyFatal?
    ensures key.Loaded? ==> r == Some(Identity(key.keypair.publicKey, Some(key.keypair)))
    ensures key.NoKey? && publicKey != "" ==> r == Some(Identity(publicKey, None))
    ensures r.None? <==> key.NoKey? && publicKey == ""
  {
    match key
    case Loaded(kp, _) => Some(Identity(kp.publicKey, Some(kp)))
    case NoKey => if publicKey == "" then None else Some(Identity(publicKey, None))
  }
}
