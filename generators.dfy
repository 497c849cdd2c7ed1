/**
  The TOTP generator record of src/generators.rs: one registered account, with the
  secret both as the user typed it (base32) and decoded into raw key bytes.

  The base32 decoder (RFC 4648 section 6, alphabet without padding) and the code
  computation of RFC 6238 section 4 (6 digits, 30-second step, HMAC-SHA-1, current
  time) come from foreign crates; they are parameters here, so every property below
  holds whatever those functions compute.
*/
module Generators {
  import opened Wrappers

  newtype u8 = x: int | 0 <= x < 256

  type Bytes = seq<u8>

  /** `base32::decode(Alphabet::RFC4648 { padding: false }, _)`: None when the text is not valid base32. */
  type Base32Decoder = string -> Option<Bytes>

  /** `oath::totp_raw_now(_, 6, 0, 30, SHA1)`: the current one-time code for the given key bytes. */
  type CodeFunction = Bytes -> nat

  /** The error `new_base32` reports when the secret does not decode. */
  const DECODE_ERROR: string := "Couldn't decode secret key"

  datatype TOTP = TOTP(name: string, secret: string, username: string, secretBytes: Bytes) {

    function GetName(): string {
      name
    }

    function GetSecret(): string {
      secret
    }

    function GetUsername(): string {
      username
    }

    /** `set_name`: the record with only its display name replaced. */
    function SetName(newName: string): (t: TOTP)
      ensures t.GetName() == newName
      ensures t.GetSecret() == GetSecret() && t.GetUsername() == GetUsername()
      ensures t.secretBytes == secretBytes
    {
      this.(name := newName)
    }

    /** `get_code`: the code function applied to the decoded key bytes. */
    function GetCode(totp: CodeFunction): nat {
      totp(secretBytes)
    }
  }

  /**
    `TOTP::new(name, username, secret, secret_bytes)`. Its parameter order differs from
    the field order (name, secret, username, secret_bytes); each argument lands in the
    field of the same meaning.
  */
  function New(name: string, username: string, secret: string, secretBytes: Bytes): (t: TOTP)
    ensures t.GetName() == name && t.GetUsername() == username && t.GetSecret() == secret
    ensures t.secretBytes == secretBytes
  {
    TOTP(name, secret, username, secretBytes)
  }

  /**
    `TOTP::new_base32`: succeeds exactly when the secret decodes; the record then keeps the
    encoded text as `secret` and the decoded bytes as `secretBytes`.
  */
  function NewBase32(name: string, username: string, base32Secret: string, decode: Base32Decoder): (r: Result<TOTP, string>)
    ensures r.Ok? <==> decode(base32Secret).Some?
    ensures r.Ok? ==> r.value.GetName() == name && r.value.GetUsername() == username
    ensures r.Ok? ==> r.value.GetSecret() == base32Secret && r.value.secretBytes == decode(base32Secret).value
    ensures r.Err? ==> r.error == DECODE_ERROR
  {
    match decode(base32Secret)
    case Some(secretBytes) => Ok(New(name, username, base32Secret, secretBytes))
    case None => Err(DECODE_ERROR)
  }

  /** The code depends on the record only through its decoded key bytes. */
  lemma CodeDependsOnlyOnSecretBytes(a: TOTP, b: TOTP, totp: CodeFunction)
    requires a.secretBytes == b.secretBytes
    ensures a.GetCode(totp) == b.GetCode(totp)
  {
  }

  /** Renaming never changes the code an entry produces. */
  lemma RenameKeepsCode(t: TOTP, newName: string, totp: CodeFunction)
    ensures t.SetName(newName).GetCode(totp) == t.GetCode(totp)
  {
    CodeDependsOnlyOnSecretBytes(t.SetName(newName), t, totp);
  }
}
