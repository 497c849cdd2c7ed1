/**
  The application façade of src/lib.rs: `RusTOTPony` keeps the TOTP generators
  ("applications") in memory, keyed by name, applies create/delete/rename/clear to that
  map, answers lookups, and hands the whole map to its store on `flush`.

  The source is generic over any `Database`; the one store in this model is
  `Json.JsonDatabase`. Rename changes the entry's `name` field but leaves it under its
  old key, as the source does.
*/
module Registry {
  import opened Wrappers
  import opened Generators
  import opened Json

  const NO_APPLICATIONS: string := "There are no applications"

  function AlreadyExists(name: string): string {
    "Application with name '" + name + "' already exists!"
  }

  function DoesNotExist(name: string): string {
    "Application with the name '" + name + "' doesn't exist"
  }

  function WasNotFound(name: string): string {
    "Application '" + name + "' wasn't found"
  }

  class RusTOTPony {
    const database: JsonDatabase
    var applications: Applications

    /** Every entry is stored under its own name. */
    ghost predicate KeysAreNames()
      reads this
    {
      forall k :: k in applications ==> applications[k].name == k
    }

    /**
      `new`: the map is whatever the store loads. A store that cannot be read, decrypted
      or parsed ends the process in the source, so loading must succeed.
    */
    constructor (db: JsonDatabase, passphrase: string)
      requires ReadSchema(db.file, passphrase, db.lib).Ok?
      ensures database == db
      ensures applications == ReadSchema(db.file, passphrase, db.lib).value.content.applications
    {
      var loaded := db.GetApplications(passphrase);
      applications := loaded.value;
      database := db;
    }

    /**
      `create_application`: the secret is decoded first, so a bad secret is reported even
      for a name already taken; a taken name leaves its entry alone; otherwise exactly the
      new key is added, bound to the freshly built record.
    */
    method CreateApplication(name: string, username: string, secret: string, decode: Base32Decoder)
      returns (r: Result<(), string>)
      modifies this
      ensures decode(secret).None? ==> r == Err(DECODE_ERROR) && applications == old(applications)
      ensures decode(secret).Some? && name in old(applications) ==>
        r == Err(AlreadyExists(name)) && applications == old(applications)
      ensures decode(secret).Some? && name !in old(applications) ==>
        && r == Ok(())
        && applications == old(applications)[name := New(name, username, secret, decode(secret).value)]
        && |applications| == |old(applications)| + 1
      ensures old(KeysAreNames()) ==> KeysAreNames()
    {
      var newApp :- NewBase32(name, username, secret, decode);
      if name in applications {
        r := Err(AlreadyExists(name));
      } else {
        applications := applications[name := newApp];
        r := Ok(());
      }
    }

    /** `delete_application`: succeeds exactly when the key is present, and removes only it. */
    method DeleteApplication(name: string) returns (r: Result<(), string>)
      modifies this
      ensures r.Ok? <==> name in old(applications)
      ensures r.Ok? ==> applications == old(applications) - {name} && |applications| == |old(applications)| - 1
      ensures r.Err? ==> r.error == DoesNotExist(name) && applications == old(applications)
      ensures name !in applications
      ensures old(KeysAreNames()) ==> KeysAreNames()
    {
      if name in applications {
        applications := applications - {name};
        r := Ok(());
      } else {
        r := Err(DoesNotExist(name));
      }
    }

    /**
      `rename_application`: the entry under `name` gets the display name `newname` and
      stays under the key `name`; the key set does not change, so the entry is still not
      found under `newname`.
    */
    method RenameApplication(name: string, newname: string) returns (r: Result<(), string>)
      modifies this
      ensures r.Ok? <==> name in old(applications)
      ensures r.Ok? ==> applications == old(applications)[name := old(applications)[name].SetName(newname)]
      ensures r.Err? ==> r.error == WasNotFound(name) && applications == old(applications)
      ensures applications.Keys == old(applications).Keys
      ensures r.Ok? && newname != name ==> !KeysAreNames()
    {
      if name in applications {
        var app := applications[name];
        applications := applications[name := app.SetName(newname)];
        r := Ok(());
      } else {
        r := Err(WasNotFound(name));
      }
    }

    /** `get_applications`: the whole map, except that an empty one is reported as an error. */
    function GetApplications(): (r: Result<Applications, string>)
      reads this
      ensures r.Err? <==> |applications| == 0
      ensures r.Ok? ==> r.value == applications
      ensures r.Err? ==> r.error == NO_APPLICATIONS
    {
      if |applications| == 0 then Err(NO_APPLICATIONS) else Ok(applications)
    }

    /** `get_application`: the stored record exactly when the key is present. */
    function GetApplication(name: string): (r: Result<TOTP, string>)
      reads this
      ensures r.Ok? <==> name in applications
      ensures r.Ok? ==> r.value == applications[name]
      ensures r.Err? ==> r.error == WasNotFound(name)
    {
      if name in applications then Ok(applications[name]) else Err(WasNotFound(name))
    }

    /** `delete_all_applications` */
    method DeleteAllApplications()
      modifies this
      ensures applications == map[]
      ensures KeysAreNames()
    {
      applications := map[];
    }

    /**
      `flush`: the store is overwritten with exactly the current map, which itself does
      not change. The provider's passphrase and the IV drawn for this save are parameters.
    */
    method Flush(passphrase: string, iv: Iv) returns (r: Result<(), Fatal>)
      modifies database
      ensures applications == old(applications)
      ensures database.file == WrittenFile(WrapApplications(applications), passphrase, iv, database.lib)
      ensures r.Ok? <==> Sealed(database.lib.toString(WrapApplications(applications)),
                                FormSecretKey(passphrase, database.lib), iv, database.lib).Ok?
    {
      r := database.SaveApplications(applications, passphrase, iv);
    }
  }
}
