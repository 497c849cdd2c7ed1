/**
  Uses of the registry that follow from the contracts of its methods alone: the
  behaviours a caller of src/lib.rs relies on when it strings operations together.
*/
module Scenarios {
  import opened Wrappers
  import opened Generators
  import opened Json
  import opened Registry

  /** Creating the same name twice: the second call fails and the first entry is kept as it was. */
  method DuplicateCreateKeepsFirst(app: RusTOTPony, name: string, user1: string, secret1: string,
                                   user2: string, secret2: string, decode: Base32Decoder)
    returns (first: Result<(), string>, second: Result<(), string>, kept: Result<TOTP, string>)
    requires name !in app.applications
    requires decode(secret1).Some? && decode(secret2).Some?
    modifies app
    ensures first == Ok(()) && second == Err(AlreadyExists(name))
    ensures kept == Ok(New(name, user1, secret1, decode(secret1).value))
  {
    first := app.CreateApplication(name, user1, secret1, decode);
    second := app.CreateApplication(name, user2, secret2, decode);
    kept := app.GetApplication(name);
  }

  /** A created entry that is deleted again is no longer found, and the map is as before. */
  method CreateDeleteGet(app: RusTOTPony, name: string, user: string, secret: string, decode: Base32Decoder)
    returns (found: Result<TOTP, string>)
    requires name !in app.applications && decode(secret).Some?
    modifies app
    ensures found == Err(WasNotFound(name))
    ensures app.applications == old(app.applications)
  {
    var created := app.CreateApplication(name, user, secret, decode);
    var deleted := app.DeleteApplication(name);
    assert deleted.Ok?;
    found := app.GetApplication(name);
  }

  /** After a rename the entry answers to its old key only, under its new display name. */
  method RenameKeepsOldKey(app: RusTOTPony, name: string, newname: string)
    returns (byOld: Result<TOTP, string>, byNew: Result<TOTP, string>)
    requires name in app.applications && newname !in app.applications
    modifies app
    ensures byOld.Ok? && byOld.value.GetName() == newname
    ensures byNew == Err(WasNotFound(newname))
  {
    var renamed := app.RenameApplication(name, newname);
    byOld := app.GetApplication(name);
    byNew := app.GetApplication(newname);
  }

  /** A registry over a store that has no file yet lists nothing, and says so with an error. */
  method FreshStoreIsEmpty(lib: Foreign, passphrase: string) returns (listed: Result<Applications, string>)
    ensures listed == Err(NO_APPLICATIONS)
  {
    var db := new JsonDatabase(NotFound, lib);
    var app := new RusTOTPony(db, passphrase);
    listed := app.GetApplications();
  }

  /**
    Flushing and starting again with the same passphrase loads the map that was flushed,
    when the cipher, UTF-8 and serde_json invert themselves and the encryption succeeds.
  */
  method FlushThenReload(app: RusTOTPony, passphrase: string, iv: Iv) returns (reloaded: RusTOTPony)
    requires CipherInverts(app.database.lib) && Utf8RoundTrips(app.database.lib) && JsonRoundTrips(app.database.lib)
    requires Sealed(app.database.lib.toString(WrapApplications(app.applications)),
                    FormSecretKey(passphrase, app.database.lib), iv, app.database.lib).Ok?
    modifies app.database
    ensures reloaded.applications == app.applications
  {
    var flushed := app.Flush(passphrase, iv);
    SaveThenLoad(app.applications, passphrase, iv, app.database.lib);
    reloaded := new RusTOTPony(app.database, passphrase);
  }
}
