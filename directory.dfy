/**
 * The account directory of the in-memory homeserver connection, as values:
 * the records it keeps per Matrix user id (mxid), the provisioning request,
 * and one function per operation giving the call's result and the directory
 * after it. The class in module Mock updates a directory of this type in place
 * and is proved against these functions.
 */
module Directory {
  import opened Wrappers

  /** What a failing call reports. */
  datatype Error =
    | UserNotFound      // the mxid has no record
    | SubMismatch       // the mxid is already bound to another subject

  datatype Result<+T> = Ok(value: T) | Err(error: Error)

  /**
   * A provisioning request. Each optional field has three states:
   * `None` leaves the field alone, `Some(None)` clears it and
   * `Some(Some(v))` sets it to `v`.
   */
  datatype ProvisionRequest = ProvisionRequest(
    mxid: string,
    sub: string,
    displayname: Option<Option<string>>,
    avatarUrl: Option<Option<string>>,
    emails: Option<Option<seq<string>>>)

  /** The record the directory keeps for one account. */
  datatype MockUser = MockUser(
    sub: string,
    avatarUrl: Option<string>,
    displayname: Option<string>,
    devices: set<string>,
    emails: Option<seq<string>>)

  /** The profile a query reports. */
  datatype MatrixUser = MatrixUser(displayname: Option<string>, avatarUrl: Option<string>)

  /** The whole directory, keyed by mxid. */
  type Users = map<string, MockUser>

  /** The record a first provisioning creates before any field is patched. */
  function NewUser(sub: string): MockUser {
    MockUser(sub, None, None, {}, None)
  }

  /** A three-state field applied to the value it patches. */
  function Patch<T>(current: T, update: Option<T>): T {
    match update
    case None => current
    case Some(v) => v
  }

  /** Every record other than `mxid`'s is the same before and after. */
  ghost predicate SameExcept(before: Users, after: Users, mxid: string) {
    && (forall m :: m in before && m != mxid ==> m in after && after[m] == before[m])
    && (forall m :: m in after && m != mxid ==> m in before)
  }

  /** The record of `mxid` differs from `old` in its device set at most. */
  ghost predicate OnlyDevicesChanged(before: MockUser, after: MockUser) {
    && after.sub == before.sub
    && after.avatarUrl == before.avatarUrl
    && after.displayname == before.displayname
    && after.emails == before.emails
  }

  /** query_user: the profile of `mxid`, or UserNotFound. */
  function QueryUser(users: Users, mxid: string): (r: Result<MatrixUser>)
    ensures r.Ok? <==> mxid in users
    ensures r.Err? ==> r.error == UserNotFound
    ensures r.Ok? ==> r.value.displayname == users[mxid].displayname
    ensures r.Ok? ==> r.value.avatarUrl == users[mxid].avatarUrl
  {
    if mxid in users then
      Ok(MatrixUser(users[mxid].displayname, users[mxid].avatarUrl))
    else
      Err(UserNotFound)
  }

  /**
   * provision_user: create the record if it is missing, refuse a record bound
   * to another subject, then overwrite exactly the fields the request specifies.
   * On success the result says whether the record was created by this call.
   */
  function ProvisionUser(users: Users, req: ProvisionRequest): (out: (Result<bool>, Users))
    ensures out.0.Ok? <==> req.mxid !in users || users[req.mxid].sub == req.sub
    ensures out.0.Ok? ==> out.0.value == (req.mxid !in users)
    ensures out.0.Err? ==> out.0.error == SubMismatch && out.1 == users
    ensures out.0.Ok? ==> out.1.Keys == users.Keys + {req.mxid}
    ensures out.0.Ok? ==> SameExcept(users, out.1, req.mxid)
    ensures out.0.Ok? ==>
      var before := if req.mxid in users then users[req.mxid] else NewUser(req.sub);
      var after := out.1[req.mxid];
      && after.sub == req.sub
      && after.devices == before.devices
      && (req.emails.Some? ==> after.emails == req.emails.value)
      && (req.emails.None? ==> after.emails == before.emails)
      && (req.displayname.Some? ==> after.displayname == req.displayname.value)
      && (req.displayname.None? ==> after.displayname == before.displayname)
      && (req.avatarUrl.Some? ==> after.avatarUrl == req.avatarUrl.value)
      && (req.avatarUrl.None? ==> after.avatarUrl == before.avatarUrl)
  {
    var inserted := req.mxid !in users;
    var user := if inserted then NewUser(req.sub) else users[req.mxid];
    if user.sub != req.sub then
      (Err(SubMismatch), users)
    else
      var patched := user.(emails := Patch(user.emails, req.emails),
                           displayname := Patch(user.displayname, req.displayname),
                           avatarUrl := Patch(user.avatarUrl, req.avatarUrl));
      (Ok(inserted), users[req.mxid := patched])
  }

  /** create_device: add `deviceId` to the account's device set. */
  function CreateDevice(users: Users, mxid: string, deviceId: string): (out: (Result<()>, Users))
    ensures out.0.Ok? <==> mxid in users
    ensures out.0.Err? ==> out.0.error == UserNotFound && out.1 == users
    ensures out.0.Ok? ==> out.1.Keys == users.Keys && SameExcept(users, out.1, mxid)
    ensures out.0.Ok? ==> out.1[mxid].devices == users[mxid].devices + {deviceId}
    ensures out.0.Ok? ==> OnlyDevicesChanged(users[mxid], out.1[mxid])
  {
    if mxid !in users then
      (Err(UserNotFound), users)
    else
      var user := users[mxid];
      (Ok(()), users[mxid := user.(devices := user.devices + {deviceId})])
  }

  /** delete_device: remove `deviceId` from the account's device set, if there. */
  function DeleteDevice(users: Users, mxid: string, deviceId: string): (out: (Result<()>, Users))
    ensures out.0.Ok? <==> mxid in users
    ensures out.0.Err? ==> out.0.error == UserNotFound && out.1 == users
    ensures out.0.Ok? ==> out.1.Keys == users.Keys && SameExcept(users, out.1, mxid)
    ensures out.0.Ok? ==> out.1[mxid].devices == users[mxid].devices - {deviceId}
    ensures out.0.Ok? ==> OnlyDevicesChanged(users[mxid], out.1[mxid])
  {
    if mxid !in users then
      (Err(UserNotFound), users)
    else
      var user := users[mxid];
      (Ok(()), users[mxid := user.(devices := user.devices - {deviceId})])
  }

  /**
   * delete_user: drop the account's devices and emails; with `erase`, drop
   * its display name and avatar too. The record itself stays in the directory.
   */
  function DeleteUser(users: Users, mxid: string, erase: bool): (out: (Result<()>, Users))
    ensures out.0.Ok? <==> mxid in users
    ensures out.0.Err? ==> out.0.error == UserNotFound && out.1 == users
    ensures out.0.Ok? ==> out.1.Keys == users.Keys && SameExcept(users, out.1, mxid)
    ensures out.0.Ok? ==>
      var before, after := users[mxid], out.1[mxid];
      && after.sub == before.sub
      && after.devices == {}
      && after.emails == None
      && (erase ==> after.displayname == None && after.avatarUrl == None)
      && (!erase ==> after.displayname == before.displayname && after.avatarUrl == before.avatarUrl)
  {
    if mxid !in users then
      (Err(UserNotFound), users)
    else
      var user := users[mxid].(devices := {}, emails := None);
      var user := if erase then user.(avatarUrl := None, displayname := None) else user;
      (Ok(()), users[mxid := user])
  }

  /** Provisioning the same request twice: the second call reports an update. */
  lemma ProvisionTwiceReportsUpdate(users: Users, req: ProvisionRequest)
    requires ProvisionUser(users, req).0.Ok?
    ensures var again := ProvisionUser(ProvisionUser(users, req).1, req);
            again.0 == Ok(false) && again.1 == ProvisionUser(users, req).1
  {
  }

  /** Adding the same device twice succeeds and leaves the same directory. */
  lemma CreateDeviceIdempotent(users: Users, mxid: string, deviceId: string)
    requires mxid in users
    ensures var once := CreateDevice(users, mxid, deviceId).1;
            CreateDevice(once, mxid, deviceId) == (Ok(()), once)
  {
    var once := CreateDevice(users, mxid, deviceId).1;
    var user := once[mxid];
    assert user.(devices := user.devices + {deviceId}) == user;
    assert once[mxid := user] == once;
  }

  /** Removing a device that is not registered succeeds and changes nothing. */
  lemma DeleteAbsentDeviceIsNoOp(users: Users, mxid: string, deviceId: string)
    requires mxid in users && deviceId !in users[mxid].devices
    ensures DeleteDevice(users, mxid, deviceId) == (Ok(()), users)
  {
    var user := users[mxid];
    assert user.(devices := user.devices - {deviceId}) == user;
    assert users[mxid := user] == users;
  }

  /** Deleting a user twice is the same as deleting it once. */
  lemma DeleteUserIdempotent(users: Users, mxid: string, erase: bool)
    requires mxid in users
    ensures var once := DeleteUser(users, mxid, erase).1;
            DeleteUser(once, mxid, erase) == (Ok(()), once)
  {
    var once := DeleteUser(users, mxid, erase).1;
    var user := once[mxid];
    assert user.(devices := {}, emails := None) == user;
    assert erase ==> user.(avatarUrl := None, displayname := None) == user;
    assert once[mxid := user] == once;
  }

  /** After delete_user, a query reports the profile as erasure left it. */
  lemma QueryAfterDeleteUser(users: Users, mxid: string, erase: bool)
    requires mxid in users
    ensures QueryUser(DeleteUser(users, mxid, erase).1, mxid) ==
            if erase then Ok(MatrixUser(None, None))
            else QueryUser(users, mxid)
  {
  }

  /**
   * After a successful provision, a query reports every profile field the
   * request specified, and the earlier value of every field it did not.
   */
  lemma QueryAfterProvision(users: Users, req: ProvisionRequest)
    requires ProvisionUser(users, req).0.Ok?
    ensures var before := QueryUser(users, req.mxid);
            var q := QueryUser(ProvisionUser(users, req).1, req.mxid);
            && q.Ok?
            && q.value.displayname ==
                 (if req.displayname.Some? then req.displayname.value
                  else if before.Ok? then before.value.displayname else None)
            && q.value.avatarUrl ==
                 (if req.avatarUrl.Some? then req.avatarUrl.value
                  else if before.Ok? then before.value.avatarUrl else None)
  {
  }

  /** Device operations never touch the profile a query reports. */
  lemma DeviceOperationsKeepProfile(users: Users, mxid: string, who: string, deviceId: string)
    requires mxid in users
    ensures QueryUser(CreateDevice(users, mxid, deviceId).1, who) == QueryUser(users, who)
    ensures QueryUser(DeleteDevice(users, mxid, deviceId).1, who) == QueryUser(users, who)
  {
  }
}
