# Mock homeserver connection: a Dafny model

This project models the in-memory homeserver connection
`MockHomeserverConnection` of the Matrix authentication service. The
connection keeps an account directory: a map from Matrix user id (mxid) to
an account record. Each record holds the subject (`sub`) it is bound to, an
optional display name, an optional avatar URL, a set of device ids and an
optional list of emails. Five operations read or change the directory:

- `query_user` reads a profile.
- `provision_user` is an upsert with per-field patching.
- `create_device` and `delete_device` add a device to, or remove one from, an account.
- `delete_user` clears an account, and erases its profile when asked.

Files:

- `wrappers.dfy`: the `Option` type.
- `directory.dfy` (module `Directory`): the records and the provisioning
  request as datatypes, and one function per operation. Each function gives
  the call's result and the directory after it. Its `ensures` clauses state
  the operation's meaning field by field. Lemmas relate several calls:
  repeating a call, then querying.
- `mock.dfy` (module `Mock`): the class `MockHomeserverConnection`. Its field
  `users` is the map. Its methods update the map step by step, in the order
  the source does. Each method is proved to produce exactly the result and
  new directory that the matching `Directory` function gives. `TestMockConnection`
  replays the source's unit test against the class.
- `trace.dfy` (module `Trace`): sequences of calls run one after another,
  with inductive lemmas about every such sequence.

A provisioning request carries `mxid`, `sub` and three fields of type
`Option<Option<T>>`: `None` leaves the field alone, `Some(None)` clears it,
and `Some(Some(v))` sets it to `v`. Errors are the datatype `Error`
(`UserNotFound`, `SubMismatch`), returned in `Result`.

## Model

| member | source | states |
|---|---|---|
| `Directory.QueryUser` | crates/matrix/src/mock.rs:59-66 | succeeds exactly when the mxid has a record; the result is then that record's display name and avatar URL; otherwise the error is UserNotFound |
| `Directory.ProvisionUser` | crates/matrix/src/mock.rs:68-97 | succeeds exactly when the mxid is absent or bound to the request's sub; on success the result is true iff the mxid was absent; a conflict leaves the directory unchanged; on success the key set gains the mxid, every other record is unchanged, the record keeps sub and devices of the existing record (or, when absent, a fresh record: no devices, all optional fields None), and each of emails, display name and avatar URL equals the request's inner option when specified and its previous value when not |
| `Directory.CreateDevice` | crates/matrix/src/mock.rs:99-104 | fails with UserNotFound and no change exactly when the mxid is unknown; otherwise the devices become old devices plus the device, no other field and no other record changes |
| `Directory.DeleteDevice` | crates/matrix/src/mock.rs:106-111 | fails with UserNotFound and no change exactly when the mxid is unknown; otherwise the devices become old devices minus the device, no other field and no other record changes |
| `Directory.DeleteUser` | crates/matrix/src/mock.rs:113-124 | fails with UserNotFound and no change exactly when the mxid is unknown; otherwise the key stays, devices become empty and emails None, sub is kept, display name and avatar URL become None when erase is set and are kept when it is not; other records unchanged |
| `Directory.ProvisionTwiceReportsUpdate` | crates/matrix/src/mock.rs:70-96 | after a successful provision, repeating the same request returns Ok(false) and leaves the directory as the first call left it |
| `Directory.CreateDeviceIdempotent` | crates/matrix/src/mock.rs:99-104 | adding the same device a second time succeeds and leaves the directory as the first addition left it |
| `Directory.DeleteAbsentDeviceIsNoOp` | crates/matrix/src/mock.rs:106-111 | removing a device the account does not have succeeds and leaves the directory unchanged |
| `Directory.DeleteUserIdempotent` | crates/matrix/src/mock.rs:113-124 | deleting an account a second time, with the same erase flag, succeeds and changes nothing more |
| `Directory.QueryAfterDeleteUser` | crates/matrix/src/mock.rs:59-124 | after delete_user, a query succeeds and reports no profile when erase was set, and the profile from before when it was not |
| `Directory.QueryAfterProvision` | crates/matrix/src/mock.rs:59-97 | after a successful provision, a query succeeds and reports, for display name and avatar URL, the request's value when specified and the earlier value (None for a new account) when not |
| `Directory.DeviceOperationsKeepProfile` | crates/matrix/src/mock.rs:59-111 | adding or removing a device never changes what a query on any mxid reports |
| `Mock.MockHomeserverConnection.constructor` | crates/matrix/src/mock.rs:38-49 | the connection has the given homeserver name (the value `homeserver()` returns) and an empty directory |
| `Mock.MockHomeserverConnection.QueryUser` | crates/matrix/src/mock.rs:59-66 | returns what `Directory.QueryUser` gives for the current directory, and changes nothing |
| `Mock.MockHomeserverConnection.ProvisionUser` | crates/matrix/src/mock.rs:68-97 | inserting the fresh record before the sub check, then patching, yields exactly the result and directory of `Directory.ProvisionUser`; a failed call leaves the directory unchanged |
| `Mock.MockHomeserverConnection.CreateDevice` | crates/matrix/src/mock.rs:99-104 | result and new directory are those of `Directory.CreateDevice` |
| `Mock.MockHomeserverConnection.DeleteDevice` | crates/matrix/src/mock.rs:106-111 | result and new directory are those of `Directory.DeleteDevice` |
| `Mock.MockHomeserverConnection.DeleteUser` | crates/matrix/src/mock.rs:113-124 | result and new directory are those of `Directory.DeleteUser` |
| `Mock.TestMockConnection` | crates/matrix/src/mock.rs:131-167 | the unit test's outcomes: the homeserver name is example.org; query, create_device and delete_device on the unknown user fail; the first provision returns true; the query returns the requested display name and avatar; deleting an unregistered device, creating the device twice and deleting it all succeed, leaving no devices |
| `Trace.Step` | crates/matrix/src/mock.rs:52-125 | one call of any operation never removes a record, never changes a record's sub, and adds a record only when it provisions that mxid |
| `Trace.RunKeepsAccounts` | crates/matrix/src/mock.rs:68-124 | over any sequence of calls, no record is removed and no record's sub changes |
| `Trace.RunCreatesOnlyProvisioned` | crates/matrix/src/mock.rs:68-124 | an mxid absent at the start that no call provisions is still absent after any sequence of calls |
| `Trace.SubjectBindingIsPermanent` | crates/matrix/src/mock.rs:70-82 | after a successful provision, whatever calls follow, a later provision of the same mxid returns Ok(false) when the sub matches, and fails with SubMismatch and leaves the directory unchanged when it differs |
| `Trace.NeverProvisionedIsUnknown` | crates/matrix/src/mock.rs:59-124 | starting from an empty directory, after any calls none of which provisions the mxid, query_user, create_device, delete_device and delete_user on it fail with UserNotFound and change nothing |

## Left out

- The `RwLock` and `async` around the directory: each operation is one atomic
  sequential method, and `Trace` models calls strictly one after another.
  Concurrent interleavings are not modelled.
- Error contexts and message texts: errors are the two `Error` variants.
- `conn.mxid(...)`, the formatting of an mxid from a local part: it is defined
  outside this file. `TestMockConnection` uses the literal mxid instead.
- The `ProvisionRequest` builder and its `on_*` callbacks are defined outside
  this file. A request is modelled as a datatype with three-state fields. A
  callback that runs only when its field is specified becomes a test of `Some?`.
- Records are values in the map. The source mutates a record in place through
  the map entry. The model writes back an updated record. No other reference
  to a record exists in the source, so no aliasing is lost.
- `homeserver()` is the immutable field `homeserver`, set by the constructor,
  rather than a separate accessor.
- `HashSet<String>` and `Vec<String>` are Dafny `set<string>` and
  `seq<string>`. Strings are sequences of characters with no encoding.
- crates/graphql/src/state.rs (request-context accessors for repository, clock
  and random-number generator) holds no logic and is not part of this model.
