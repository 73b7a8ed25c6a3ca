/**
 * Sequences of calls on one connection, each applied atomically after the
 * previous one, and what stays true across any such sequence: records are
 * never removed, the subject an account was first provisioned with never
 * changes, and an mxid no call provisions keeps failing with UserNotFound.
 */
module Trace {
  import opened Directory

  /** One call on the connection's capability interface. */
  datatype Call =
    | Query(mxid: string)
    | Provision(req: ProvisionRequest)
    | AddDevice(mxid: string, deviceId: string)
    | RemoveDevice(mxid: string, deviceId: string)
    | Delete(mxid: string, erase: bool)

  /** Whether `call` is a provisioning request for `mxid`. */
  predicate Provisions(call: Call, mxid: string) {
    call.Provision? && call.req.mxid == mxid
  }

  /** The directory after one call; a query leaves it as it is. */
  function Step(users: Users, call: Call): (after: Users)
    ensures users.Keys <= after.Keys
    ensures forall m :: m in users ==> after[m].sub == users[m].sub
    ensures forall m :: m in after && m !in users ==> Provisions(call, m)
  {
    match call
    case Query(_) => users
    case Provision(req) => ProvisionUser(users, req).1
    case AddDevice(mxid, d) => CreateDevice(users, mxid, d).1
    case RemoveDevice(mxid, d) => DeleteDevice(users, mxid, d).1
    case Delete(mxid, erase) => DeleteUser(users, mxid, erase).1
  }

  /** The directory after the calls one after the other. */
  function Run(users: Users, calls: seq<Call>): Users
    decreases |calls|
  {
    if calls == [] then users else Run(Step(users, calls[0]), calls[1..])
  }

  /** No sequence of calls removes a record or rebinds its subject. */
  lemma {:induction false} RunKeepsAccounts(users: Users, calls: seq<Call>)
    ensures users.Keys <= Run(users, calls).Keys
    ensures forall m :: m in users ==> Run(users, calls)[m].sub == users[m].sub
    decreases |calls|
  {
    if calls != [] {
      RunKeepsAccounts(Step(users, calls[0]), calls[1..]);
    }
  }

  /** A record appears only through a provisioning request for its mxid. */
  lemma {:induction false} RunCreatesOnlyProvisioned(users: Users, calls: seq<Call>, mxid: string)
    requires mxid !in users
    requires forall i :: 0 <= i < |calls| ==> !Provisions(calls[i], mxid)
    ensures mxid !in Run(users, calls)
    decreases |calls|
  {
    if calls != [] {
      assert !Provisions(calls[0], mxid);
      forall i | 0 <= i < |calls[1..]| ensures !Provisions(calls[1..][i], mxid) {
        assert calls[1..][i] == calls[i + 1];
      }
      RunCreatesOnlyProvisioned(Step(users, calls[0]), calls[1..], mxid);
    }
  }

  /**
   * Once `req` has provisioned its mxid, whatever calls follow, provisioning
   * that mxid again reports an update when the subject is the same and is
   * refused, leaving the directory unchanged, when it differs.
   */
  lemma SubjectBindingIsPermanent(users: Users, req: ProvisionRequest, calls: seq<Call>, later: ProvisionRequest)
    requires ProvisionUser(users, req).0.Ok?
    requires later.mxid == req.mxid
    ensures var now := Run(ProvisionUser(users, req).1, calls);
            && (later.sub == req.sub ==> ProvisionUser(now, later).0 == Ok(false))
            && (later.sub != req.sub ==> ProvisionUser(now, later) == (Err(SubMismatch), now))
  {
    RunKeepsAccounts(ProvisionUser(users, req).1, calls);
  }

  /**
   * From an empty directory, an mxid that no call provisions is unknown to
   * every operation afterwards, and none of them changes the directory.
   */
  lemma NeverProvisionedIsUnknown(calls: seq<Call>, mxid: string, deviceId: string, erase: bool)
    requires forall i :: 0 <= i < |calls| ==> !Provisions(calls[i], mxid)
    ensures var now := Run(map[], calls);
            && QueryUser(now, mxid) == Err(UserNotFound)
            && CreateDevice(now, mxid, deviceId) == (Err(UserNotFound), now)
            && DeleteDevice(now, mxid, deviceId) == (Err(UserNotFound), now)
            && DeleteUser(now, mxid, erase) == (Err(UserNotFound), now)
  {
    RunCreatesOnlyProvisioned(map[], calls, mxid);
  }
}
