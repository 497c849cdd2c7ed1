# rustotpony, modelled in Dafny

rustotpony is a local TOTP secrets manager. Each registered account ("application") is a
`TOTP` record: a name, a username, the base32 secret as typed, and the decoded key bytes.
The `RusTOTPony` registry keeps these records in memory in a map keyed by name. It loads the
map from its store when it is built, applies create, delete, rename and clear to it, answers
lookups, and writes the whole map back on `flush`. The store, `JsonDatabase`, keeps one file.
The file holds `IV (16 bytes) || AES-256-CBC ciphertext` of the JSON document
`{version: 1, content: {applications}}`. The key is the SHA-256 digest of the passphrase.

Files:

- `wrappers.dfy` (`Wrappers`): `Option` and `Result`. `Result` works with `:-`, which plays
  the part of Rust's `?`.
- `generators.dfy` (`Generators`): the `TOTP` record, its two constructors, `set_name` and
  `get_code`.
- `json.dfy` (`Json`): the schema and its version. Also the key derivation, the envelope
  layout, the loop that drains the cipher, and the `JsonDatabase` class whose `file` field
  is the file on disk.
- `lib.dfy` (`Registry`): the `RusTOTPony` class, which holds the `applications` map and
  the store.
- `scenarios.dfy` (`Scenarios`): caller-side uses of the registry, proved from the method
  contracts alone.

Foreign code is passed in as functions, and every property holds for any such function:

- the base32 decoder (RFC 4648 section 6, no padding);
- the RFC 6238 code function;
- SHA-256 (FIPS 180-4);
- the AES-256 (FIPS 197) CBC (NIST SP 800-38A section 6.2) encryptor and decryptor with
  PKCS#7 padding (RFC 5652 section 6.3);
- serde_json;
- the UTF-8 conversions of the Rust standard library.

The foreign functions of json.rs are the fields of `Json.Foreign`. Two facts the source
relies on are built into their types:

- the digest is 32 bytes;
- called again and again over one input, the cipher eventually reports an error or
  `BufferUnderflow`. A cipher object is modelled by the sequence of its responses to
  successive calls (`Json.Responses`).

The round trip of a save and a load is proved under explicit hypotheses: the cipher,
UTF-8 and serde_json each invert themselves (`CipherInverts`, `Utf8RoundTrips`,
`JsonRoundTrips`).

Panics (`panic!`, `expect`, `unwrap`, a slice out of range) are modelled as `Err` results
of type `Json.Fatal`. The registry constructor requires that loading succeeds, because the
source ends the process otherwise.

Behaviours of the code that the model keeps:

- Rename keeps the old map key.
- A decoded secret may be empty; nothing checks that it is not.
- Decryption and parse failures end the process instead of returning an error kind.
- Saving truncates the file before encrypting, so a failed encryption leaves an empty file
  that no longer loads (`Json.FailedSaveLosesStore`).

## Model

| member | source | states |
|---|---|---|
| `Generators.New` | src/generators.rs:14-21 | name, username, secret and secret bytes are stored verbatim, each in the field of its own meaning; the getters (lines 35-49) return them unchanged |
| `Generators.NewBase32` | src/generators.rs:23-33 | Ok iff the base32 decoder returns Some; on Ok the record has the given name and username, keeps the encoded text as `secret` and the decoded bytes as `secret_bytes`; otherwise Err "Couldn't decode secret key" and no record |
| `Generators.TOTP.SetName` | src/generators.rs:39-41 | afterwards `get_name` returns the new name, and secret, username and secret bytes are unchanged |
| `Generators.CodeDependsOnlyOnSecretBytes` | src/generators.rs:51-53 | two records with the same secret bytes produce the same code |
| `Generators.RenameKeepsCode` | src/generators.rs:39-53 | renaming a record does not change its code |
| `Json.FirstStop` | src/databases/json.rs:155-174 | the first response that ends the loop: an error or an underflow, with only overflows before it |
| `Json.Drain` | src/databases/json.rs:155-174 | the `encrypt` loop returns the cipher's error, or every chunk written up to and including the underflowing call, concatenated in order |
| `Json.DrainConcatenatesChunks` | src/databases/json.rs:162-173 | for overflowing chunks c1..cn followed by an underflowing chunk c, the result is c1 + ... + cn + c, whatever the cipher would do afterwards |
| `Json.DrainErrorDiscardsOutput` | src/databases/json.rs:156 | an error after any number of overflowing chunks is returned as the error; the output written before it is discarded |
| `Json.Encrypt` | src/databases/json.rs:115-177 | `encrypt` yields what draining the AES-256-CBC encryptor over the data yields |
| `Json.Decrypt` | src/databases/json.rs:181-210 | `decrypt` runs the same loop over the decryptor and yields what draining it yields |
| `Json.EmptySchema` | src/databases/json.rs:229-236 | version is DATABASE_VERSION, which is 1, and the applications map is empty |
| `Json.WrapApplications` | src/databases/json.rs:29-33 | the saved schema has version 1 and exactly the given map, with no merge with earlier content |
| `Json.FormSecretKey` | src/databases/json.rs:57-63 | the key is always KEY_SIZE = 32 bytes and is the SHA-256 digest of the passphrase's UTF-8 bytes, so it is deterministic |
| `Json.Sealed` | src/databases/json.rs:84-89 | encryption succeeds iff the cipher does; the blob is then 16 + the ciphertext length bytes long, its first 16 bytes are the IV and the rest is the ciphertext; a cipher error becomes EncryptFailed |
| `Json.Opened` | src/databases/json.rs:77-82 | a blob shorter than 16 bytes fails; a longer blob opens iff the cipher deciphers `data[16..]` under the IV `data[..16]` and the plaintext is valid UTF-8, and then to that text; a cipher error becomes DecryptFailed and invalid UTF-8 becomes NotUtf8 |
| `Json.EncryptData` | src/databases/json.rs:84-89 | `encrypt_data` with the given IV produces the blob `Sealed` describes |
| `Json.DecryptData` | src/databases/json.rs:77-82 | `decrypt_data` splits at byte 16 and fails on a short blob, a cipher error or non-UTF-8 plaintext, as `Opened` describes |
| `Json.DistinctIvsGiveDistinctBlobs` | src/databases/json.rs:84-96 | the same text encrypted with two different IVs gives two different blobs |
| `Json.OpenSealed` | src/databases/json.rs:77-89 | splitting a sealed blob at byte 16 recovers the IV and the ciphertext, so it opens to the original text whenever the cipher and UTF-8 invert themselves |
| `Json.ReadSchema` | src/databases/json.rs:65-75 | a missing file gives the empty schema; another read error is fatal; an existing file loads iff it opens under the passphrase's key and parses as JSON, and then to the parsed schema; an opening failure is passed on and a parse failure becomes BadJson |
| `Json.MissingFileLoadsNoApplications` | src/databases/json.rs:24-27 | with no file, loading succeeds with an empty map |
| `Json.SaveThenLoad` | src/databases/json.rs:98-111 | reading the file written for a map, with the same passphrase, gives back the schema of exactly that map when cipher, UTF-8 and serde_json invert themselves |
| `Json.FailedSaveLosesStore` | src/databases/json.rs:98-110 | if encryption fails during a save, the truncated file is left empty and the next load fails |
| `Json.JsonDatabase.constructor` | src/databases/json.rs:50-55 | the store starts over the given file with the given foreign functions |
| `Json.JsonDatabase.ReadDatabaseFile` | src/databases/json.rs:65-75 | `read_database_file` returns what `ReadSchema` says of the current file |
| `Json.JsonDatabase.GetApplications` | src/databases/json.rs:24-27 | the applications of the schema read from the file, and its failure otherwise |
| `Json.JsonDatabase.SaveDatabaseFile` | src/databases/json.rs:98-111 | the file becomes the sealed JSON text of the schema, or empty when encryption fails; Ok iff encryption succeeds |
| `Json.JsonDatabase.SaveApplications` | src/databases/json.rs:29-33 | the file is overwritten with the blob for the schema of exactly the given map, whatever it held before |
| `Registry.RusTOTPony.constructor` | src/lib.rs:28-33 | the in-memory map equals what the store's `get_applications` loads |
| `Registry.RusTOTPony.CreateApplication` | src/lib.rs:35-48 | a bad secret gives the decode error with the map unchanged, even for a duplicate name; a taken name gives the duplicate error and keeps the existing entry; otherwise Ok, exactly `name` is added, bound to the new record, the size grows by one, and every other key and value stays |
| `Registry.RusTOTPony.DeleteApplication` | src/lib.rs:50-59 | Ok iff the name was a key; on Ok only that key is removed; on Err the map is unchanged |
| `Registry.RusTOTPony.RenameApplication` | src/lib.rs:61-68 | on a present key only that entry's name field becomes `newname` and the key set stays the same, so keys no longer match names; an absent key gives Err with the map unchanged |
| `Registry.RusTOTPony.GetApplications` | src/lib.rs:70-76 | Err "There are no applications" iff the map is empty, otherwise exactly the map |
| `Registry.RusTOTPony.GetApplication` | src/lib.rs:78-84 | Ok with the stored record iff the name is a key |
| `Registry.RusTOTPony.DeleteAllApplications` | src/lib.rs:86-88 | the map is empty afterwards |
| `Registry.RusTOTPony.Flush` | src/lib.rs:90-92 | the store's file becomes the save of exactly the current map, and the in-memory map is unchanged |
| `Scenarios.DuplicateCreateKeepsFirst` | src/lib.rs:41-46 | creating a name twice: the second call reports the duplicate and the first record is still stored |
| `Scenarios.CreateDeleteGet` | src/lib.rs:50-59 | after creating and then deleting a name, looking it up fails and the map is as before |
| `Scenarios.RenameKeepsOldKey` | src/lib.rs:61-68 | after a rename, the entry is found under its old key with the new name, and not found under the new name |
| `Scenarios.FreshStoreIsEmpty` | src/lib.rs:70-76 | a registry built over a store with no file reports that there are no applications |
| `Scenarios.FlushThenReload` | src/lib.rs:90-92 | a registry rebuilt after a successful flush, with the same passphrase, holds the flushed map |

## Left out

- The store is always the concrete `JsonDatabase`. The `Database` interface of
  src/databases/mod.rs:9-12 has no second implementation in view. `src/databases/encrypted`
  is not part of this model.
- File-system I/O is left out. The file is a field: missing, unreadable, or holding bytes.
  Not modelled: `std::fs::read` errors beyond NotFound (they are folded into one
  `Unreadable` case), `OpenOptions`, `create_dir_all`, `home_dir`, and failures of the open
  for writing or of `write_all`.
- `create_iv` and the OS random generator are left out. The IV of each save is a parameter,
  so IV freshness is not verified.
- The passphrase provider (`secret_fn`) is left out. Its answer for one load or save is the
  `passphrase` parameter.
- The internals of SHA-256, AES-256-CBC with PKCS#7 padding, serde_json and UTF-8 are left
  out. They are foreign, and they are parameters. That decryption inverts encryption is only
  a hypothesis of the round-trip lemmas. Detecting a wrong key is not modelled.
- The base32 crate and `oath::totp_raw_now` are left out: they are foreign, and the code
  depends on the clock. Both are parameters. The `u64` code is a `nat`.
- Generators.TOTP.SetName: the record is a value held in the registry's map, so `set_name`
  returns the updated record instead of overwriting the field. The in-place update is
  `RenameApplication` writing that record back into the map field.
- The 4096-byte output buffer of `encrypt` and `decrypt` is left out. Chunk sizes are not
  bounded in the model.
- Panics are `Err` results, not process exits. The registry constructor requires that the
  load succeeds.
- The crate attributes and `extern crate` lines (src/lib.rs:1-12) are left out.
