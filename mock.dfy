/**
 * The in-memory homeserver connection. Its account directory is a map field
 * that each operation reads or updates in place, one call at a time; each
 * method is proved to compute what the matching function of module Directory
 * says, so the properties proved there hold of the object.
 */
module Mock {
  import opened Wrappers
  import opened Directory

  class MockHomeserverConnection {
    /** The homeserver's name, fixed at construction (`homeserver()`). */
    const homeserver: string
    var users: Users

    /** A connection for `homeserver` with an empty directory. */
    constructor (homeserver: string)
      ensures this.homeserver == homeserver
      ensures users == map[]
    {
      this.homeserver := homeserver;
      users := map[];
    }

    /** The profile of `mxid`; fails with UserNotFound when it has no record. */
    method QueryUser(mxid: string) returns (r: Result<MatrixUser>)
      ensures r == Directory.QueryUser(users, mxid)
    {
      if mxid !in users {
        return Err(UserNotFound);
      }
      var user := users[mxid];
      r := Ok(MatrixUser(user.displayname, user.avatarUrl));
    }

    /**
     * Inserts a fresh record when `req.mxid` has none, refuses a record bound
     * to another subject, then applies each field the request specifies.
     */
    method ProvisionUser(req: ProvisionRequest) returns (r: Result<bool>)
      modifies this
      ensures (r, users) == Directory.ProvisionUser(old(users), req)
      ensures r.Err? ==> users == old(users)
    {
      var inserted := req.mxid !in users;
      if inserted {
        users := users[req.mxid := NewUser(req.sub)];
      }
      var user := users[req.mxid];
      if user.sub != req.sub {
        return Err(SubMismatch);
      }
      if req.emails.Some? {
        user := user.(emails := req.emails.value);
      }
      if req.displayname.Some? {
        user := user.(displayname := req.displayname.value);
      }
      if req.avatarUrl.Some? {
        user := user.(avatarUrl := req.avatarUrl.value);
      }
      assert users[req.mxid := user] == old(users)[req.mxid := user];
      users := users[req.mxid := user];
      r := Ok(inserted);
    }

    /** Registers `deviceId` for `mxid`; registering it again is harmless. */
    method CreateDevice(mxid: string, deviceId: string) returns (r: Result<()>)
      modifies this
      ensures (r, users) == Directory.CreateDevice(old(users), mxid, deviceId)
    {
      if mxid !in users {
        return Err(UserNotFound);
      }
      var user := users[mxid];
      users := users[mxid := user.(devices := user.devices + {deviceId})];
      r := Ok(());
    }

    /** Unregisters `deviceId` for `mxid`; an unknown device is no error. */
    method DeleteDevice(mxid: string, deviceId: string) returns (r: Result<()>)
      modifies this
      ensures (r, users) == Directory.DeleteDevice(old(users), mxid, deviceId)
    {
      if mxid !in users {
        return Err(UserNotFound);
      }
      var user := users[mxid];
      users := users[mxid := user.(devices := user.devices - {deviceId})];
      r := Ok(());
    }

    /** Clears devices and emails of `mxid`, and with `erase` its profile. */
    method DeleteUser(mxid: string, erase: bool) returns (r: Result<()>)
      modifies this
      ensures (r, users) == Directory.DeleteUser(old(users), mxid, erase)
    {
      if mxid !in users {
        return Err(UserNotFound);
      }
      var user := users[mxid];
      user := user.(devices := {});
      user := user.(emails := None);
      if erase {
        user := user.(avatarUrl := None);
        user := user.(displayname := None);
      }
      users := users[mxid := user];
      r := Ok(());
    }
  }

  /**
   * The connection's own test, replayed: every call on an unknown user fails,
   * the first provision creates the account, a query reports its profile,
   * and the device calls that follow all succeed.
   */
  method TestMockConnection()
    returns (name: string, unknownFails: bool, inserted: Result<bool>,
             profile: Result<MatrixUser>, deviceCallsOk: bool, devices: set<string>)
    ensures name == "example.org"
    ensures unknownFails
    ensures inserted == Ok(true)
    ensures profile == Ok(MatrixUser(Some("Test User"), Some("mxc://example.org/1234567890")))
    ensures deviceCallsOk
    ensures devices == {}
  {
    var conn := new MockHomeserverConnection("example.org");
    var mxid := "@test:example.org";
    var device := "test";
    name := conn.homeserver;

    var q := conn.QueryUser(mxid);
    var c := conn.CreateDevice(mxid, device);
    var d := conn.DeleteDevice(mxid, device);
    unknownFails := q.Err? && c.Err? && d.Err?;

    var request := ProvisionRequest("@test:example.org", "test",
      Some(Some("Test User")), Some(Some("mxc://example.org/1234567890")),
      Some(Some(["test@example.org"])));
    inserted := conn.ProvisionUser(request);
    profile := conn.QueryUser("@test:example.org");

    var d1 := conn.DeleteDevice(mxid, device);
    var c1 := conn.CreateDevice(mxid, device);
    var c2 := conn.CreateDevice(mxid, device);
    assert conn.users[mxid].devices == {device};
    var d2 := conn.DeleteDevice(mxid, device);
    deviceCallsOk := d1.Ok? && c1.Ok? && c2.Ok? && d2.Ok?;
    devices := conn.users[mxid].devices;
  }
}
