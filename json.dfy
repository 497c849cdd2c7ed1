/**
  The encrypted JSON store of src/databases/json.rs: the versioned schema around the
  application map, the passphrase-derived key, the `IV || ciphertext` blob layout and
  the loops that drain the AES-256-CBC cipher, and the `JsonDatabase` that reads and
  writes one file.

  The cryptographic primitives (SHA-256 of FIPS 180-4, AES-256 of FIPS 197 in CBC mode of
  NIST SP 800-38A section 6.2 with PKCS#7 padding of RFC 5652 section 6.3), serde_json and
  the UTF-8 conversions of the Rust standard library are the fields of a `Foreign` record.
  What the source relies on about them is stated in their types: the digest is 32 bytes,
  and the cipher, called again and again, eventually reports an error or `BufferUnderflow`.
*/
module Json {
  import opened Wrappers
  import opened Generators

  const DATABASE_VERSION: u8 := 1
  const IV_SIZE: nat := 16
  const KEY_SIZE: nat := 32

  type Key = k: Bytes | |k| == KEY_SIZE witness seq(32, _ => 0)
  type Iv = v: Bytes | |v| == IV_SIZE witness seq(16, _ => 0)

  type Applications = map<string, TOTP>

  /** `DatabaseContentSchema` */
  datatype ContentSchema = ContentSchema(applications: Applications)

  /** `JsonDatabaseSchema`: the document `{version, content: {applications}}`. */
  datatype Schema = Schema(version: u8, content: ContentSchema)

  // ---------------------------------------------------------------------------
  // The cipher as a sequence of responses
  // ---------------------------------------------------------------------------

  /** `crypto::buffer::BufferResult` */
  datatype BufferResult = BufferUnderflow | BufferOverflow

  /** `crypto::symmetriccipher::SymmetricCipherError` */
  datatype CipherError = InvalidLength | InvalidPadding

  /**
    What one call of `encrypt`/`decrypt` on the cipher does: fail, or write a chunk into
    the output buffer and report whether it stopped for want of input or of output space.
  */
  datatype Step = Failed(error: CipherError) | Wrote(chunk: Bytes, result: BufferResult)

  /** A response after which the draining loop calls the cipher no more. */
  predicate Stops(s: Step) {
    s.Failed? || s.result == BufferUnderflow
  }

  /** Some response in the sequence stops the loop. */
  predicate Finishes(calls: seq<Step>) {
    |calls| > 0 && (Stops(calls[0]) || Finishes(calls[1..]))
  }

  /**
    The responses of one cipher object to successive calls over one input. rust-crypto
    promises progress on every call, so the responses end in an error or an underflow.
  */
  type Responses = calls: seq<Step> | Finishes(calls) witness [Failed(InvalidLength)]

  /** The index of the first response that stops the loop. */
  function FirstStop(calls: seq<Step>): (k: nat)
    requires Finishes(calls)
    ensures k < |calls| && Stops(calls[k])
    ensures forall j :: 0 <= j < k ==> !Stops(calls[j])
  {
    if Stops(calls[0]) then 0 else 1 + FirstStop(calls[1..])
  }

  function ChunkOf(s: Step): Bytes {
    if s.Wrote? then s.chunk else []
  }

  /** Every chunk the responses wrote, in order. */
  function Written(calls: seq<Step>): Bytes {
    if calls == [] then [] else Written(calls[..|calls| - 1]) + ChunkOf(calls[|calls| - 1])
  }

  /**
    What draining the cipher yields: the error of the stopping response, or every chunk
    written up to and including the underflowing call.
  */
  function CipherOutput(calls: Responses): Result<Bytes, CipherError> {
    var k := FirstStop(calls);
    if calls[k].Failed? then Err(calls[k].error) else Ok(Written(calls[..k + 1]))
  }

  /** A cipher that overflows once per given chunk and then stops with `last`. */
  function Overflows(chunks: seq<Bytes>): (calls: seq<Step>)
    ensures |calls| == |chunks|
    ensures forall i :: 0 <= i < |chunks| ==> calls[i] == Wrote(chunks[i], BufferOverflow)
  {
    if chunks == [] then [] else Overflows(chunks[..|chunks| - 1]) + [Wrote(chunks[|chunks| - 1], BufferOverflow)]
  }

  function Concat(chunks: seq<Bytes>): Bytes {
    if chunks == [] then [] else Concat(chunks[..|chunks| - 1]) + chunks[|chunks| - 1]
  }

  lemma {:induction false} WrittenOverflows(chunks: seq<Bytes>)
    ensures Written(Overflows(chunks)) == Concat(chunks)
  {
    if chunks != [] {
      var n := |chunks| - 1;
      var calls := Overflows(chunks);
      assert calls[..n] == Overflows(chunks[..n]);
      WrittenOverflows(chunks[..n]);
    }
  }

  lemma FirstStopAfterOverflows(chunks: seq<Bytes>, stop: Step, rest: seq<Step>)
    requires Stops(stop)
    ensures Finishes(Overflows(chunks) + [stop] + rest)
    ensures FirstStop(Overflows(chunks) + [stop] + rest) == |chunks|
  {
    var calls := Overflows(chunks) + [stop] + rest;
    FinishesAt(calls, |chunks|);
  }

  lemma {:induction false} FinishesAt(calls: seq<Step>, i: nat)
    requires i < |calls| && Stops(calls[i])
    ensures Finishes(calls)
  {
    if i > 0 {
      FinishesAt(calls[1..], i - 1);
    }
  }

  /**
    The loop keeps going on `BufferOverflow`, stops on `BufferUnderflow`, and returns all
    the chunks in the order the cipher wrote them, whatever the cipher does afterwards.
  */
  lemma DrainConcatenatesChunks(chunks: seq<Bytes>, last: Bytes, rest: seq<Step>)
    ensures Finishes(Overflows(chunks) + [Wrote(last, BufferUnderflow)] + rest)
    ensures CipherOutput(Overflows(chunks) + [Wrote(last, BufferUnderflow)] + rest) == Ok(Concat(chunks) + last)
  {
    var calls := Overflows(chunks) + [Wrote(last, BufferUnderflow)] + rest;
    FirstStopAfterOverflows(chunks, Wrote(last, BufferUnderflow), rest);
    var n := |chunks|;
    assert calls[..n + 1] == Overflows(chunks) + [Wrote(last, BufferUnderflow)];
    assert calls[..n + 1][..n] == Overflows(chunks);
    WrittenOverflows(chunks);
  }

  /** An error from the cipher discards whatever it had written before (the `try!`). */
  lemma DrainErrorDiscardsOutput(chunks: seq<Bytes>, e: CipherError, rest: seq<Step>)
    ensures Finishes(Overflows(chunks) + [Failed(e)] + rest)
    ensures CipherOutput(Overflows(chunks) + [Failed(e)] + rest) == Err(e)
  {
    FirstStopAfterOverflows(chunks, Failed(e), rest);
  }

  /**
    The `loop` of `encrypt` and of `decrypt`: call the cipher, append what it wrote to
    `final_result`, leave on `BufferUnderflow`, go round again on `BufferOverflow`, and
    give up with the cipher's error at once.
  */
  method Drain(calls: Responses) returns (r: Result<Bytes, CipherError>)
    ensures r == CipherOutput(calls)
  {
    var finalResult: Bytes := [];
    var i := 0;
    ghost var k := FirstStop(calls);
    while true
      invariant i <= k
      invariant finalResult == Written(calls[..i])
      decreases k - i
    {
      var step := calls[i];
      if step.Failed? {
        return Err(step.error);
      }
      assert calls[..i + 1][..i] == calls[..i];
      finalResult := finalResult + step.chunk;
      if step.result == BufferUnderflow {
        break;
      }
      i := i + 1;
    }
    r := Ok(finalResult);
  }

  // ---------------------------------------------------------------------------
  // Foreign functions
  // ---------------------------------------------------------------------------

  /** The library functions json.rs calls, each standing for what the named crate computes. */
  datatype Foreign = Foreign(
    sha256: Bytes -> Key,                    // Sha256 digest of the input bytes
    encryptor: (Key, Iv, Bytes) -> Responses, // aes::cbc_encryptor(KeySize256, key, iv, PkcsPadding) over the data
    decryptor: (Key, Iv, Bytes) -> Responses, // aes::cbc_decryptor(KeySize256, key, iv, PkcsPadding) over the data
    toString: Schema -> string,              // serde_json::to_string
    fromStr: string -> Option<Schema>,       // serde_json::from_str
    asBytes: string -> Bytes,                // str::as_bytes (UTF-8)
    fromUtf8: Bytes -> Option<string>)       // String::from_utf8

  /** The process-ending failures (`panic!`, `expect`, `unwrap`, slice out of range) of this file. */
  datatype Fatal =
    | ReadFailed                 // "There was a problem opening file"
    | BlobTooShort               // `&data[..IV_SIZE]` on fewer than 16 bytes
    | DecryptFailed(CipherError) // "Couldn't decrypt data"
    | NotUtf8                    // `String::from_utf8(..).ok().unwrap()`
    | BadJson                    // "Couldn't parse JSON from database file"
    | EncryptFailed(CipherError) // "Couldn't encrypt data"

  /** What `std::fs::read` finds at the database path. */
  datatype FileState = NotFound | Unreadable | Contents(data: Bytes)

  // ---------------------------------------------------------------------------
  // Schema
  // ---------------------------------------------------------------------------

  /** `get_empty_schema`: the current version and no applications. */
  function EmptySchema(): (s: Schema)
    ensures s.version == DATABASE_VERSION == 1
    ensures s.content.applications == map[]
  {
    Schema(DATABASE_VERSION, ContentSchema(map[]))
  }

  /**
    The schema `save_applications` writes: the empty schema with its applications
    replaced by exactly the given map, so nothing stored before is merged in.
  */
  function WrapApplications(applications: Applications): (s: Schema)
    ensures s.version == DATABASE_VERSION
    ensures s.content.applications == applications
  {
    var s := EmptySchema();
    s.(content := s.content.(applications := applications))
  }

  // ---------------------------------------------------------------------------
  // Key and envelope
  // ---------------------------------------------------------------------------

  /** `form_secret_key`: the SHA-256 digest of the passphrase's UTF-8 bytes, always 32 bytes. */
  function FormSecretKey(passphrase: string, lib: Foreign): (key: Key)
    ensures |key| == KEY_SIZE
    ensures key == lib.sha256(lib.asBytes(passphrase))
  {
    lib.sha256(lib.asBytes(passphrase))
  }

  /**
    The blob `encrypt_data` produces: the IV followed by the ciphertext, so that the first
    `IV_SIZE` bytes give back the IV and the rest gives back the ciphertext.
  */
  function Sealed(text: string, key: Key, iv: Iv, lib: Foreign): (r: Result<Bytes, Fatal>)
    ensures r.Ok? <==> CipherOutput(lib.encryptor(key, iv, lib.asBytes(text))).Ok?
    ensures r.Ok? ==> |r.value| == IV_SIZE + |CipherOutput(lib.encryptor(key, iv, lib.asBytes(text))).value|
    ensures r.Ok? ==> r.value[..IV_SIZE] == iv
    ensures r.Ok? ==> r.value[IV_SIZE..] == CipherOutput(lib.encryptor(key, iv, lib.asBytes(text))).value
    ensures r.Err? ==> r.error == EncryptFailed(CipherOutput(lib.encryptor(key, iv, lib.asBytes(text))).error)
  {
    match CipherOutput(lib.encryptor(key, iv, lib.asBytes(text)))
    case Ok(ciphertext) => Ok(iv + ciphertext)
    case Err(e) => Err(EncryptFailed(e))
  }

  /**
    What `decrypt_data` returns for a blob: the first `IV_SIZE` bytes are the IV, the rest
    is deciphered, and the plaintext must be UTF-8.
  */
  function Opened(blob: Bytes, key: Key, lib: Foreign): (r: Result<string, Fatal>)
    ensures |blob| < IV_SIZE ==> r == Err(BlobTooShort)
    ensures r.Ok? <==>
      && |blob| >= IV_SIZE
      && CipherOutput(lib.decryptor(key, blob[..IV_SIZE], blob[IV_SIZE..])).Ok?
      && lib.fromUtf8(CipherOutput(lib.decryptor(key, blob[..IV_SIZE], blob[IV_SIZE..])).value).Some?
    ensures r.Ok? ==>
      lib.fromUtf8(CipherOutput(lib.decryptor(key, blob[..IV_SIZE], blob[IV_SIZE..])).value) == Some(r.value)
    ensures |blob| >= IV_SIZE && CipherOutput(lib.decryptor(key, blob[..IV_SIZE], blob[IV_SIZE..])).Err? ==>
      r == Err(DecryptFailed(CipherOutput(lib.decryptor(key, blob[..IV_SIZE], blob[IV_SIZE..])).error))
    ensures
      && |blob| >= IV_SIZE
      && CipherOutput(lib.decryptor(key, blob[..IV_SIZE], blob[IV_SIZE..])).Ok?
      && lib.fromUtf8(CipherOutput(lib.decryptor(key, blob[..IV_SIZE], blob[IV_SIZE..])).value).None?
      ==> r == Err(NotUtf8)
  {
    if |blob| < IV_SIZE then Err(BlobTooShort)
    else
      match CipherOutput(lib.decryptor(key, blob[..IV_SIZE], blob[IV_SIZE..]))
      case Err(e) => Err(DecryptFailed(e))
      case Ok(plain) =>
        match lib.fromUtf8(plain)
        case None => Err(NotUtf8)
        case Some(text) => Ok(text)
  }

  /** The same plaintext sealed under two different IVs gives two different blobs. */
  lemma DistinctIvsGiveDistinctBlobs(text: string, key: Key, iv1: Iv, iv2: Iv, lib: Foreign)
    requires iv1 != iv2
    requires Sealed(text, key, iv1, lib).Ok? && Sealed(text, key, iv2, lib).Ok?
    ensures Sealed(text, key, iv1, lib).value != Sealed(text, key, iv2, lib).value
  {
  }

  /** The cipher's decryptor inverts its encryptor under the same key and IV. */
  ghost predicate CipherInverts(lib: Foreign) {
    forall key: Key, iv: Iv, p: Bytes ::
      CipherOutput(lib.encryptor(key, iv, p)).Ok? ==>
        CipherOutput(lib.decryptor(key, iv, CipherOutput(lib.encryptor(key, iv, p)).value)) == Ok(p)
  }

  /** `String::from_utf8` accepts what `as_bytes` produced and gives the same text back. */
  ghost predicate Utf8RoundTrips(lib: Foreign) {
    forall s: string :: lib.fromUtf8(lib.asBytes(s)) == Some(s)
  }

  /** serde_json reads back every schema it wrote. */
  ghost predicate JsonRoundTrips(lib: Foreign) {
    forall s: Schema :: lib.fromStr(lib.toString(s)) == Some(s)
  }

  /**
    Splitting at byte 16 recovers exactly the IV and the ciphertext that were
    concatenated, so a sealed text opens again under the same key whenever the cipher
    and the UTF-8 conversion invert themselves.
  */
  lemma OpenSealed(text: string, key: Key, iv: Iv, lib: Foreign)
    requires CipherInverts(lib) && Utf8RoundTrips(lib)
    requires Sealed(text, key, iv, lib).Ok?
    ensures Opened(Sealed(text, key, iv, lib).value, key, lib) == Ok(text)
  {
  }

  // ---------------------------------------------------------------------------
  // Reading and writing the file
  // ---------------------------------------------------------------------------

  /**
    `read_database_file`: a missing file is the empty schema; any other read error is
    fatal; otherwise the contents are opened under the passphrase's key and parsed.
  */
  function ReadSchema(file: FileState, passphrase: string, lib: Foreign): (r: Result<Schema, Fatal>)
    ensures file.NotFound? ==> r == Ok(EmptySchema())
    ensures file.Unreadable? ==> r == Err(ReadFailed)
    ensures file.Contents? ==>
      (r.Ok? <==>
        && Opened(file.data, FormSecretKey(passphrase, lib), lib).Ok?
        && lib.fromStr(Opened(file.data, FormSecretKey(passphrase, lib), lib).value).Some?)
    ensures r.Ok? && file.Contents? ==>
      lib.fromStr(Opened(file.data, FormSecretKey(passphrase, lib), lib).value) == Some(r.value)
    ensures file.Contents? && Opened(file.data, FormSecretKey(passphrase, lib), lib).Err? ==>
      r == Err(Opened(file.data, FormSecretKey(passphrase, lib), lib).error)
    ensures
      && file.Contents?
      && Opened(file.data, FormSecretKey(passphrase, lib), lib).Ok?
      && lib.fromStr(Opened(file.data, FormSecretKey(passphrase, lib), lib).value).None?
      ==> r == Err(BadJson)
  {
    match file
    case NotFound => Ok(EmptySchema())
    case Unreadable => Err(ReadFailed)
    case Contents(data) =>
      match Opened(data, FormSecretKey(passphrase, lib), lib)
      case Err(e) => Err(e)
      case Ok(text) =>
        match lib.fromStr(text)
        case None => Err(BadJson)
        case Some(schema) => Ok(schema)
  }

  /**
    The file after `save_database_file`: the file is opened with truncation before the
    schema is encrypted, so a failed encryption leaves it empty.
  */
  function WrittenFile(content: Schema, passphrase: string, iv: Iv, lib: Foreign): FileState {
    match Sealed(lib.toString(content), FormSecretKey(passphrase, lib), iv, lib)
    case Ok(blob) => Contents(blob)
    case Err(_) => Contents([])
  }

  /** On first use there is no file, and the store holds no applications. */
  lemma MissingFileLoadsNoApplications(passphrase: string, lib: Foreign)
    ensures ReadSchema(NotFound, passphrase, lib).Ok?
    ensures ReadSchema(NotFound, passphrase, lib).value.content.applications == map[]
  {
  }

  /**
    What is saved is what is loaded: when the cipher, UTF-8 and serde_json invert
    themselves, reading the file written for a map with the same passphrase gives back
    the schema of exactly that map.
  */
  lemma SaveThenLoad(applications: Applications, passphrase: string, iv: Iv, lib: Foreign)
    requires CipherInverts(lib) && Utf8RoundTrips(lib) && JsonRoundTrips(lib)
    requires Sealed(lib.toString(WrapApplications(applications)), FormSecretKey(passphrase, lib), iv, lib).Ok?
    ensures ReadSchema(WrittenFile(WrapApplications(applications), passphrase, iv, lib), passphrase, lib)
      == Ok(WrapApplications(applications))
  {
    OpenSealed(lib.toString(WrapApplications(applications)), FormSecretKey(passphrase, lib), iv, lib);
  }

  /**
    A save whose encryption fails leaves an empty file behind, and the next load of it
    fails: the truncate-then-write is not atomic.
  */
  lemma FailedSaveLosesStore(content: Schema, passphrase: string, iv: Iv, lib: Foreign)
    requires Sealed(lib.toString(content), FormSecretKey(passphrase, lib), iv, lib).Err?
    ensures ReadSchema(WrittenFile(content, passphrase, iv, lib), passphrase, lib) == Err(BlobTooShort)
  {
  }

  // ---------------------------------------------------------------------------
  // The associated functions of JsonDatabase that do not use a file
  // ---------------------------------------------------------------------------

  /** `encrypt`: drain an AES-256-CBC encryptor over the data. */
  method Encrypt(data: Bytes, key: Key, iv: Iv, lib: Foreign) returns (r: Result<Bytes, CipherError>)
    ensures r == CipherOutput(lib.encryptor(key, iv, data))
  {
    r := Drain(lib.encryptor(key, iv, data));
  }

  /** `decrypt`: drain an AES-256-CBC decryptor over the data. */
  method Decrypt(encryptedData: Bytes, key: Key, iv: Iv, lib: Foreign) returns (r: Result<Bytes, CipherError>)
    ensures r == CipherOutput(lib.decryptor(key, iv, encryptedData))
  {
    r := Drain(lib.decryptor(key, iv, encryptedData));
  }

  /**
    `encrypt_data`, with the IV `create_iv` would draw from the OS generator given as `iv`.
    This is the executable form, which calls the draining loop; `Sealed` is its definition.
  */
  method EncryptData(data: string, key: Key, iv: Iv, lib: Foreign) returns (r: Result<Bytes, Fatal>)
    ensures r == Sealed(data, key, iv, lib)
  {
    var encryptedData := Encrypt(lib.asBytes(data), key, iv, lib);
    if encryptedData.Err? {
      return Err(EncryptFailed(encryptedData.error));
    }
    r := Ok(iv + encryptedData.value);
  }

  /** `decrypt_data`, the executable form calling the draining loop; `Opened` is its definition. */
  method DecryptData(data: Bytes, key: Key, lib: Foreign) returns (r: Result<string, Fatal>)
    ensures r == Opened(data, key, lib)
  {
    if |data| < IV_SIZE {
      return Err(BlobTooShort);
    }
    var iv := data[..IV_SIZE];
    var decrypted := Decrypt(data[IV_SIZE..], key, iv, lib);
    if decrypted.Err? {
      return Err(DecryptFailed(decrypted.error));
    }
    match lib.fromUtf8(decrypted.value)
    case None => r := Err(NotUtf8);
    case Some(text) => r := Ok(text);
  }

  // ---------------------------------------------------------------------------
  // The store
  // ---------------------------------------------------------------------------

  /**
    `JsonDatabase`: the file at its path and the passphrase provider. The file is the
    `file` field; the provider's answer for one call is the `passphrase` parameter.
  */
  class JsonDatabase {
    var file: FileState
    const lib: Foreign

    constructor (file: FileState, lib: Foreign)
      ensures this.file == file && this.lib == lib
    {
      this.file := file;
      this.lib := lib;
    }

    /** `read_database_file`, the executable form over the current file; `ReadSchema` is its definition. */
    method ReadDatabaseFile(passphrase: string) returns (r: Result<Schema, Fatal>)
      ensures r == ReadSchema(file, passphrase, lib)
    {
      match file
      case NotFound =>
        return Ok(EmptySchema());
      case Unreadable =>
        return Err(ReadFailed);
      case Contents(data) =>
        var decryptedData := DecryptData(data, FormSecretKey(passphrase, lib), lib);
        if decryptedData.Err? {
          return Err(decryptedData.error);
        }
        match lib.fromStr(decryptedData.value)
        case None => r := Err(BadJson);
        case Some(schema) => r := Ok(schema);
    }

    /** `Database::get_applications`: the applications of the schema read from the file. */
    method GetApplications(passphrase: string) returns (r: Result<Applications, Fatal>)
      ensures r.Ok? <==> ReadSchema(file, passphrase, lib).Ok?
      ensures r.Ok? ==> r.value == ReadSchema(file, passphrase, lib).value.content.applications
      ensures r.Err? ==> r.error == ReadSchema(file, passphrase, lib).error
    {
      var dbContent := ReadDatabaseFile(passphrase);
      if dbContent.Err? {
        return Err(dbContent.error);
      }
      r := Ok(dbContent.value.content.applications);
    }

    /** `save_database_file`, with the file opened (and truncated) before encrypting. */
    method SaveDatabaseFile(content: Schema, passphrase: string, iv: Iv) returns (r: Result<(), Fatal>)
      modifies this
      ensures file == WrittenFile(content, passphrase, iv, lib)
      ensures r.Ok? <==> Sealed(lib.toString(content), FormSecretKey(passphrase, lib), iv, lib).Ok?
    {
      file := Contents([]);
      var data := lib.toString(content);
      var encryptedData := EncryptData(data, FormSecretKey(passphrase, lib), iv, lib);
      if encryptedData.Err? {
        return Err(encryptedData.error);
      }
      file := Contents(encryptedData.value);
      r := Ok(());
    }

    /** `Database::save_applications`: overwrite the file with exactly the given map. */
    method SaveApplications(applications: Applications, passphrase: string, iv: Iv) returns (r: Result<(), Fatal>)
      modifies this
      ensures file == WrittenFile(WrapApplications(applications), passphrase, iv, lib)
      ensures r.Ok? <==> Sealed(lib.toString(WrapApplications(applications)), FormSecretKey(passphrase, lib), iv, lib).Ok?
    {
      var dbContent := WrapApplications(applications);
      r := SaveDatabaseFile(dbContent, passphrase, iv);
    }
  }
}
