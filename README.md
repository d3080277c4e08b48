# swift.db connection bookkeeping in Dafny

This project models the connection bookkeeping of swift.db, a small Node.js
library that keeps database connections by name. It has four layers:

- `MongoConnection` (lib/dbAdapters/mongoConnection.js) is a single connection
  record. It holds an auto-numbered name, a URI in which every comma-separated
  host entry is given the `mongodb://` scheme, and a driver handle. Its
  connect and disconnect are guarded by the handle's readyState.
- `DbAdapter` (lib/dbAdapters/dbAdapter.js) is the base adapter. It has an
  auto-numbered, validated name, and connect/disconnect calls that succeed at
  once.
- `MongoAdapter` (lib/dbAdapters/mongoAdapter.js) keeps two name-keyed tables:
  connection parameters and live driver handles. It has single-key operations
  that validate the name before anything changes. It also has three fan-outs
  (connect, disconnect, remove all). Each runs one step per key and gathers
  every failure into one aggregate error.
- `DbManager` (lib/dbManager.js) keeps a name-keyed table of adapters. It has
  validated single-adapter operations and the same three fan-outs over
  adapters. The manager's aggregate is a `MultipleError` that splices in the
  list of any `MultipleError` an adapter reports.

The modules follow the source:

| module | file | contents |
|---|---|---|
| `Common` | `common.dfy` | Shared values: names as `typeof` sees them, handles, driver outcomes, the error records, the module counters. |
| `Decimal` | `decimal.dfy` | How a counter is written into an auto-generated name. |
| `FanOut` | `fanout.dfy` | The key snapshot of a `for…in` loop, and the folds that build the error list of a fan-out. |
| `Connection` | `connection.dfy` | `MongoConnection`, with the URI normalisation of `setUri`. |
| `Adapter` | `adapter.dfy` | `DbAdapter`. |
| `Mongo` | `mongo.dfy` | `MongoAdapter`. |
| `Manager` | `manager.dfy` | `DbManager`. |

The driver (mongoose) is modelled as outcomes given as inputs:

- `open(k)` is what creating and opening the connection for `k` ends in. It either opens, reports an error, or throws.
- `close(k)` is what closing the handle stored under `k` ends in.
- For the manager, `connect(k)` and `disconnect(k)` are what the adapter stored under `k` hands its callback.

A fan-out is modelled as a sequential loop over a snapshot of the table's keys. The snapshot is taken once, in an order the model leaves open and returns as a ghost `order`. The final table does not depend on that order. The error list holds the steps' errors in that order.

A thrown error is modelled as a returned `Option<Error>` or `Result`, and so is the error a callback receives.

## Model

| member | source | states |
|---|---|---|
| Decimal.NatToString | lib/dbAdapters/mongoConnection.js:42 | The decimal text of a counter is non-empty and all digits, with a leading zero only for zero. |
| Decimal.ParseNatToString | lib/dbAdapters/mongoConnection.js:42 | Reading back the decimal text of a counter gives the counter. |
| Decimal.NatToStringInjective | lib/dbAdapters/dbAdapter.js:26 | Two counters have the same decimal text exactly when they are equal. |
| Decimal.AutoNamesDistinct | lib/dbAdapters/mongoConnection.js:34-42 | Two auto names with the same prefix are equal exactly when their counters are. |
| FanOut.Snapshot | lib/dbAdapters/mongoAdapter.js:290-293 | A `for…in` loop guarded by `hasOwnProperty` visits every own key exactly once. |
| FanOut.ElemsStep | lib/dbAdapters/mongoAdapter.js:290-293 | Step lemma of the snapshot loops' visited-set invariant: each step of the snapshot loop visits a key not visited before. |
| FanOut.ElemsOrdering | lib/dbAdapters/mongoAdapter.js:290-293 | Exit lemma of the snapshot loops' visited-set invariant: after the whole snapshot, the loop has visited exactly the table's keys. |
| FanOut.CollectSnoc | lib/dbAdapters/mongoAdapter.js:232-236 | Step lemma of the adapter loops' error-list invariant: each step appends exactly its own error, if any, to the `errors` array. |
| FanOut.CollectEmpty | lib/dbAdapters/mongoAdapter.js:254-261 | The collected list is empty exactly when no step failed, so the callback gets null exactly then. |
| FanOut.CollectMember | lib/dbAdapters/mongoAdapter.js:232-236 | An error is in the list exactly when some visited key's step produced it. |
| FanOut.CollectCount | lib/dbAdapters/mongoAdapter.js:226-236 | Over distinct keys the list holds exactly one error per failed key. |
| FanOut.FlattenSnoc | lib/dbManager.js:161-167 | Step lemma of the manager loops' error-list invariant: a manager step appends a MultipleError's list, or any other error as one element. |
| FanOut.FlattenEmpty | lib/dbManager.js:185-191 | The manager's list is empty exactly when no step contributed an error. |
| FanOut.FlattenMember | lib/dbManager.js:163-167 | An error is in the manager's list exactly when it is in the spliced result of some step. |
| FanOut.FlattenWithoutMultiple | lib/dbManager.js:165-166 | When no step fails with a MultipleError, the manager's list is the plain one-per-failure list. |
| Connection.Split | lib/dbAdapters/mongoConnection.js:96 | `split(',')` yields at least one piece, and no piece contains a comma. |
| Connection.JoinSplit | lib/dbAdapters/mongoConnection.js:96-104 | Joining the pieces of a split with ',' gives the string back. |
| Connection.SplitJoin | lib/dbAdapters/mongoConnection.js:96-104 | Splitting a join of comma-free pieces gives the pieces back. |
| Connection.FixSegmentHasScheme | lib/dbAdapters/mongoConnection.js:98-103 | A fixed piece starts with `mongodb://`, and it contains a comma exactly when the input piece did. |
| Connection.NormalizedPieces | lib/dbAdapters/mongoConnection.js:96-104 | Normalisation keeps the number and order of pieces. A piece with the scheme is kept; any other piece, empty or short ones included, gets exactly the scheme in front. |
| Connection.EveryPieceHasScheme | lib/dbAdapters/mongoConnection.js:94-107 | After `setUri` every comma-separated piece of the URI starts with `mongodb://`. |
| Connection.NormalizeIdempotent | lib/dbAdapters/mongoConnection.js:96-104 | Normalising an already normalised URI changes nothing. |
| Connection.MongoConnection.constructor | lib/dbAdapters/mongoConnection.js:32-59 | The counter is bumped and the name is `mongoConnection` followed by the counter. URI and handle start empty. |
| Connection.MongoConnection.SetName | lib/dbAdapters/mongoConnection.js:70-85 | Any value becomes the name, with no validation, and `getName` returns it. Nothing else changes. |
| Connection.MongoConnection.SetUri | lib/dbAdapters/mongoConnection.js:94-107 | The stored URI is the normalised argument. Name and handle are unchanged. |
| Connection.MongoConnection.GetUri | lib/dbAdapters/mongoConnection.js:114-117 | The stored URI, absent until set; every comma-separated piece of a stored URI starts with `mongodb://`. |
| Connection.MongoConnection.GetConnection | lib/dbAdapters/mongoConnection.js:124-127 | The stored handle, absent until connected; it is present and live exactly when `isConnected` holds. |
| Connection.MongoConnection.IsConnected | lib/dbAdapters/mongoConnection.js:233-236 | True exactly when a handle is stored and its readyState is 1 or 2; a stored handle at readyState 0 or 3 is not connected. |
| Connection.MongoConnection.Connect | lib/dbAdapters/mongoConnection.js:136-179 | A connected record answers with its existing handle and does not call the driver. Otherwise the created handle is stored even when the driver then reports an error; a synchronous throw leaves the old handle and is reported. |
| Connection.MongoConnection.Disconnect | lib/dbAdapters/mongoConnection.js:188-226 | A record that is not connected drops its handle and succeeds without calling the driver. A successful close drops the handle; a failed close reports the cause and keeps it. The result is success exactly when the record ends not connected. |
| Adapter.DbAdapter.constructor | lib/dbAdapters/dbAdapter.js:16-27 | The counter is bumped and the name is `dbAdapter_` followed by the counter. |
| Adapter.DbAdapter.SetName | lib/dbAdapters/dbAdapter.js:36-51 | A non-string name is a TypeError and an empty one a ValueError; both carry the old name and leave it in place. Any other string becomes the name that `getName` returns. |
| Adapter.DbAdapter.Connect | lib/dbAdapters/dbAdapter.js:70-75 | Calls back once with no error and changes nothing. |
| Adapter.DbAdapter.Disconnect | lib/dbAdapters/dbAdapter.js:84-89 | Calls back once with no error and changes nothing. |
| Adapter.AutoNamesPairwiseDistinct | lib/dbAdapters/dbAdapter.js:12-26 | Adapters built one after another get pairwise distinct auto names. |
| Mongo.Aggregate | lib/dbAdapters/mongoAdapter.js:331-337 | The callback gets null exactly when the list is empty, and otherwise a MongoAdapterError whose details are the list. |
| Mongo.AddParamsCheck | lib/dbAdapters/mongoAdapter.js:52-60 | Checks in order: an invalid name, a name already present, parameters that are not an object. Success comes exactly when all three pass. |
| Mongo.AfterConnectStep | lib/dbAdapters/mongoAdapter.js:294-313 | Step lemma of the connect loop's table invariant: one connect step stores the opened handle for a name that was not live and leaves every other entry alone. |
| Mongo.ConnectAccounting | lib/dbAdapters/mongoAdapter.js:290-337 | Every name with parameters ends up live from before, stored with the handle that opened, or reported with its wrapped driver error. Every error is such a report, there is one per failed name, and the aggregate fails exactly when some attempt failed. |
| Mongo.ConnectOneRefused | lib/dbAdapters/mongoAdapter.js:278-346 | With "a" opening and "b" refused, the aggregate holds exactly one error, for "b" and wrapping the refusal, "a" ends live and "b" has no connection, in either visiting order. |
| Mongo.AfterDisconnectStep | lib/dbAdapters/mongoAdapter.js:371-386 | Step lemma of the disconnect loop's table invariant: one disconnect step marks a live entry closed when its close succeeds and leaves everything else alone. |
| Mongo.DisconnectAccounting | lib/dbAdapters/mongoAdapter.js:367-419 | Disconnect removes no key. An entry stays live only if it was live and its close failed, and then that failure is in the list. Conversely every error in the list is the failed close of an entry that was live. The aggregate fails exactly when some live entry's close failed. |
| Mongo.AfterRemoveAllStep | lib/dbAdapters/mongoAdapter.js:226-236 | Step lemma of the remove-all loop's table invariant: one remove step deletes the entry exactly when its close succeeded. |
| Mongo.RemoveAllAccounting | lib/dbAdapters/mongoAdapter.js:214-269 | After remove-all exactly the entries whose close failed remain, with their handles. There is one error per remaining entry, and the aggregate succeeds exactly when the table ends empty. |
| Mongo.MongoAdapter.constructor | lib/dbAdapters/mongoAdapter.js:22-39 | Both tables start empty. |
| Mongo.MongoAdapter.AddConnectionParams | lib/dbAdapters/mongoAdapter.js:50-65 | On success exactly that one key is added, and `getConnectionParams` then returns the parameters. On an error neither table changes. |
| Mongo.MongoAdapter.GetConnectionParams | lib/dbAdapters/mongoAdapter.js:74-81 | An invalid name is an error. Otherwise the result is the stored parameters, present exactly when the name is stored. |
| Mongo.MongoAdapter.GetAllConnectionParams | lib/dbAdapters/mongoAdapter.js:88-91 | The whole parameters table: for every valid name it holds exactly what `getConnectionParams` returns. |
| Mongo.MongoAdapter.RemoveConnectionParams | lib/dbAdapters/mongoAdapter.js:100-109 | An invalid name is an error. Otherwise exactly that key is deleted, an absent one being no change. Connections are never touched. |
| Mongo.MongoAdapter.RemoveAllConnectionParams | lib/dbAdapters/mongoAdapter.js:116-121 | The parameters table ends empty and connections are untouched. |
| Mongo.MongoAdapter.GetConnection | lib/dbAdapters/mongoAdapter.js:130-137 | An invalid name is an error. Otherwise the result is the stored handle, present exactly when the name is stored. |
| Mongo.MongoAdapter.GetAllConnections | lib/dbAdapters/mongoAdapter.js:144-147 | The whole connections table: for every valid name it holds exactly what `getConnection` returns, and `isConnected` is whether that entry is live. |
| Mongo.MongoAdapter.IsConnected | lib/dbAdapters/mongoAdapter.js:435-444 | An invalid name is an error. Otherwise true exactly when a handle is stored and its readyState is 1 or 2. |
| Mongo.MongoAdapter.RemoveConnection | lib/dbAdapters/mongoAdapter.js:157-206 | An invalid name is an error and an absent one a success, neither changing anything. Otherwise the entry is deleted exactly when its close succeeded, and a failed close is reported as a wrapped error. |
| Mongo.MongoAdapter.RemoveAllConnections | lib/dbAdapters/mongoAdapter.js:214-269 | Every key is visited once. The table ends as the entries whose close failed, and the callback gets the aggregate of the per-key errors. |
| Mongo.MongoAdapter.OpenEntry | lib/dbAdapters/mongoAdapter.js:296-313 | One connect step: a name that is not live gets a driver connection, stored if it opens, and a failure is reported. Other entries are untouched. |
| Mongo.MongoAdapter.Connect | lib/dbAdapters/mongoAdapter.js:278-346 | Every name with parameters is visited once. The table ends as the connect specification says, and the callback gets the aggregate of the per-name failures. |
| Mongo.MongoAdapter.CloseEntry | lib/dbAdapters/mongoAdapter.js:371-393 | One disconnect step: a live entry is closed, marked closed if that worked, and reported if it failed or threw. |
| Mongo.MongoAdapter.Disconnect | lib/dbAdapters/mongoAdapter.js:355-426 | Every key is visited once, no key is deleted, live entries whose close succeeded are marked closed, and the callback is called once with the aggregate of every failure, a throwing close included. |
| Mongo.DisconnectCallbacksAsWritten | lib/dbAdapters/mongoAdapter.js:379-417 | Disconnect as the code is written: one immediate callback per throwing close, then one more after the join. |
| Mongo.DisconnectThrowCallsBackTwice | lib/dbAdapters/mongoAdapter.js:387-392 | As written, a throwing close makes the callback run at least twice, and the last call reports success. |
| Mongo.DisconnectThrowExample | lib/dbAdapters/mongoAdapter.js:387-392 | One live connection whose close throws: as written, the callback gets the failure and then null. |
| Mongo.DisconnectStringDropsCauses | lib/dbAdapters/mongoAdapter.js:411-415 | As written, a failed close leaves the error argument a bare string carrying none of the failures; the aggregate of the corrected disconnect lists each one. |
| Mongo.AddParamsCheckAsWritten | lib/dbAdapters/mongoAdapter.js:52-60 | As written, the duplicate test also matches names every plain object inherits. |
| Mongo.PrototypeNameRefused | lib/dbAdapters/mongoAdapter.js:55-57 | As written, "constructor" is refused as already present on an empty table; the intended check accepts it. |
| Manager.AddAdapterCheck | lib/dbManager.js:49-56 | Checks in order: TypeError for a non-string name, ValueError for an empty one, SystemError for a duplicate, TypeError for an adapter that is not a DbAdapterInterface. Success comes exactly when all pass. |
| Manager.LookupCheck | lib/dbManager.js:269-283 | A non-string, empty or unknown name gives its TypeError, ValueError or SystemError. Otherwise there is no error. |
| Manager.Failure | lib/dbManager.js:185-191 | The callback gets null exactly when the list is empty, and otherwise a MultipleError carrying the list. |
| Manager.AfterRemoveAdaptersStep | lib/dbManager.js:159-170 | Step lemma of the manager's remove-all loop's table invariant: one remove step deletes the adapter exactly when its disconnect succeeded. |
| Manager.RemoveAllAdaptersAccounting | lib/dbManager.js:147-196 | Exactly the adapters whose disconnect failed remain. The aggregate fails exactly when some failure contributed an error, and every reported error is in it. |
| Manager.AdapterErrorsNested | lib/dbManager.js:221-225 | An adapter error that is not a MultipleError, such as the Mongo adapter's, is nested whole as one element, one per failing adapter. |
| Manager.DbManager.constructor | lib/dbManager.js:18-34 | A fresh manager holds exactly "mongo" when the Mongo adapter loaded, and is empty otherwise. |
| Manager.DbManager.AddAdapter | lib/dbManager.js:44-63 | On success exactly that one key is added, and `getAdapter` then returns it. On an error the table is unchanged. |
| Manager.DbManager.GetAdapter | lib/dbManager.js:72-75 | The stored adapter for a present name, and null otherwise. |
| Manager.DbManager.GetAllAdapters | lib/dbManager.js:82-85 | The whole table: for every name it holds exactly what `getAdapter` returns. |
| Manager.DbManager.RemoveAdapter | lib/dbManager.js:95-138 | An invalid name gives its error, and an absent one succeeds, with no change. Otherwise the adapter's disconnect error is passed through and the adapter kept; on success exactly that adapter is deleted. |
| Manager.DbManager.RemoveAllAdapters | lib/dbManager.js:147-196 | Every adapter is visited once. Exactly those whose disconnect failed remain, and the callback gets the spliced aggregate. |
| Manager.DbManager.ConnectOne | lib/dbManager.js:264-299 | A lookup error is given without calling any adapter. Otherwise the adapter's connect result is passed on unchanged. |
| Manager.DbManager.DisconnectOne | lib/dbManager.js:367-403 | A lookup error is given without calling any adapter. Otherwise the adapter's disconnect result is passed on unchanged. |
| Manager.DbManager.Connect | lib/dbManager.js:205-254 | Every adapter is visited once, and the callback gets the spliced aggregate. It fails exactly when some adapter's failure contributed an error. |
| Manager.DbManager.Disconnect | lib/dbManager.js:308-357 | Every adapter is visited once, and the callback gets the spliced aggregate. It fails exactly when some adapter's failure contributed an error. |
| Manager.DbManager.Connector | lib/dbManager.js:410-433 | `next` gets an error with status 500 and message "error connecting to database" exactly when connect fails. Otherwise it is called with no argument. |
| Manager.AddAdapterCheckAsWritten | lib/dbManager.js:49-56 | As written, the duplicate test also matches names every plain object inherits. |
| Manager.AdapterPrototypeNameRefused | lib/dbManager.js:53-54 | As written, "toString" is refused as a duplicate on a table without it; the intended check accepts it. |

## Left out

- The mongoose driver itself is not modelled: `createConnection`, its 'open' and 'error' events and `close`. Their outcomes are inputs, and a handle is an identity plus a readyState.
- The 'close' listener that clears a record's handle (lib/dbAdapters/mongoConnection.js:168-171) is a later driver event, not part of any call here.
- Asynchronous scheduling is not modelled: the `immediate`-based polling loops and the order in which callbacks arrive. Each fan-out is a sequential loop whose final state and error list are the aggregate.
- The model assumes callbacks arrive after the table is read. A driver that called back synchronously inside the loop would see the same result, because each step touches only its own key.
- Mongo.MongoAdapter.RemoveConnection: a close that throws synchronously escapes removeConnection, and so removeAllConnections, as an exception. The model has no such outcome for close there. It is modelled only inside disconnect, whose try/catch handles it.
- Mongo.MongoAdapter.Disconnect: the successful-close step marks the shared handle readyState 0, as the driver does to the object the table holds. Other readyState changes the driver makes are not modelled.
- Connection.MongoConnection.Disconnect: a synchronous throw from `close` reaches the callback as the same error a failed close reports, so `CloseFailed` stands for both.
- Connection.MongoConnection.SetUri: a URI that is not a string makes `split` throw. The argument is a string here.
- `MongoConnection`'s `connect` and `disconnect` default a missing callback, and so do the adapter's operations and the manager's removeAdapter, removeAllAdapters, connect, disconnect and disconnectOne (lib/dbManager.js:99, 152, 210, 313, 369). There is no callback argument here.
- Manager.DbManager.ConnectOne: connectOne (lib/dbManager.js:264-299) has no such default. Called without a function it throws a TypeError, at once for a rejected name (lines 271, 276, 281) or later inside the adapter's callback (lines 291, 295). The model always has a callback.
- Manager.DbManager.GetAdapter: JavaScript coerces a non-string key to a string, and `|| null` turns a stored falsy value into null. Names are strings and adapters are objects here.
- The getters that return a table (`getAllConnectionParams`, `getAllConnections`, `getAllAdapters`) hand out the live object, so a caller can change it. The model returns the value.
- Property reads and `in` tests on the tables use JavaScript's own lookup, which also finds names inherited from Object.prototype. Outside the two duplicate checks under Findings, the model treats such names as absent. This covers `getConnectionParams`, `getConnection`, `removeConnection`, `getAdapter`, `removeAdapter`, `connectOne` and `disconnectOne`.
- The counters are JavaScript numbers and lose precision past 2^53. They are unbounded here.
- The error classes (lib/error.js and lib/errors/) are a datatype here: a kind, a message tag naming the connection or adapter, and a cause or a list. Wording, stack traces and prototype chains are not modelled.
- The module-loading try/catch blocks are environment setup. A missing Mongo adapter module is the manager constructor's `None` argument, and a missing mongoose is not modelled.
- Manager.DbManager.RemoveAdapter, Manager.DbManager.RemoveAllAdapters, Manager.DbManager.Connect, Manager.DbManager.Disconnect: the model assumes every adapter calls the manager back exactly once per call, and its contracts hold only for such adapters. Adapters that break this:
  - the Mongo adapter as written, whose throwing close calls back twice (first row under Findings). In the manager's disconnect the `processing` count then drops below zero (lib/dbManager.js:330), stays non-zero, and the polling loop at line 340 never calls back. In removeAdapter the second, error-free callback deletes the adapter (line 132) after the error was already passed on;
  - an adapter that inherits DbAdapterInterface's `connect(connectionName, cb)` and `disconnect(connectionName, cb)` (lib/dbAdapters/dbAdapterInterface.js:54, 87): it takes the manager's callback as a connection name and never calls it back, so the manager waits forever.
- Manager.DbManager.Connect, Manager.DbManager.Disconnect and Manager.DbManager.RemoveAllAdapters: an adapter that fails with an empty MultipleError contributes nothing, so its failure is invisible in the aggregate. The contracts say "contributed an error" rather than "failed" for this reason.
- lib/dbAdapters/dbAdapterInterface.js is not part of this model. Only the `instanceof` test against it is modelled, as the `AdapterArg` argument of addAdapter.

## Findings

| source | as written | input that shows it | evidently intended | confidence | as-written member | corrected member |
|---|---|---|---|---|---|---|
| lib/dbAdapters/mongoAdapter.js:387-392 | The catch block around `close` calls the callback with the error and still counts the step as done, so the join calls the callback a second time. | One live connection "a" whose close throws "boom": the callback gets the failure, then null. | One callback per disconnect, with the throwing close counted among the failures in the aggregate. Through the manager the extra callback also drives the disconnect fan-out's pending count below zero, so the manager's disconnect never calls back. | high, not executed | Mongo.DisconnectThrowCallsBackTwice | Mongo.MongoAdapter.Disconnect |
| lib/dbAdapters/mongoAdapter.js:413 | After a failed close the callback's error argument is a bare string, and the per-connection errors come only as a second argument. | One live connection whose close answers with an error: the manager, which reads only the error argument, gets a string that names no connection. | A MongoAdapterError carrying the error list, as connect and removeAllConnections report. | high, not executed | Mongo.DisconnectStringDropsCauses | Mongo.DisconnectAccounting |
| lib/dbAdapters/mongoAdapter.js:55 | The duplicate test `name in table` also finds the names every plain object inherits. | Adding parameters under "constructor" to an empty adapter fails with "already exist". | Only stored names are duplicates. | medium, not executed | Mongo.PrototypeNameRefused | Mongo.AddParamsCheck |
| lib/dbManager.js:53 | The duplicate test `name in adapters` also finds the names every plain object inherits. | Adding an adapter under "toString" fails with "already exists". | Only stored names are duplicates. | medium, not executed | Manager.AdapterPrototypeNameRefused | Manager.AddAdapterCheck |
