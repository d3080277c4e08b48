/**
 * Values shared by every layer of the connection bookkeeping: JavaScript
 * arguments as the source's `typeof` checks see them, the driver's handles and
 * outcomes, the error records, and the module-level name counters.
 */
module Common {

  datatype Option<+T> = None | Some(value: T)

  datatype Result<+T> = Ok(value: T) | Err(error: Error)

  /** A name argument: a JavaScript string, or any value whose `typeof` is not "string". */
  datatype Name = Str(s: string) | NonString

  /** The check every name-taking operation of the adapter and the manager starts with. */
  predicate ValidName(n: Name)
  {
    n.Str? && |n.s| > 0
  }

  /** Every key of a table is a name that passed that check. */
  predicate NamesValid<V>(table: map<string, V>)
  {
    forall k :: k in table ==> k != ""
  }

  /** Connection parameters, opaque to the bookkeeping except for the URI the driver is given. */
  datatype Params = Params(uri: string)

  /** A parameters argument: an object, or anything `isObject` rejects. */
  datatype ParamsArg = ParamsObject(params: Params) | NotAnObject

  /**
   * A driver connection object. Only its identity and its `readyState`
   * (0 disconnected, 1 connected, 2 connecting, 3 disconnecting) are observed.
   */
  datatype Handle = Handle(id: nat, readyState: int)

  /** The readyStates the source counts as connected: 1 and 2. */
  predicate Live(h: Handle)
  {
    h.readyState == 1 || h.readyState == 2
  }

  /** What one attempt to create and open a driver connection ends in. */
  datatype OpenOutcome =
    | Opened(handle: Handle)                  // created, then 'open' fired
    | OpenError(handle: Handle, cause: string) // created, then 'error' fired
    | OpenThrew(cause: string)                 // the driver threw synchronously

  /** What the callback of one `close` call on a driver connection receives. */
  datatype CloseOutcome = Closed | CloseFailed(cause: string)

  /** The operation named in a "name not given or in an invalid format" message. */
  datatype NameCheck = AddParamsName | GetParamsName | RemoveParamsName
                     | GetConnectionName | RemoveConnectionName | IsConnectedName

  /** The messages the core raises; names are kept, wording is not. */
  datatype Message =
    // MongoAdapterError messages
    | InvalidConnectionName(op: NameCheck)
    | ParamsExist(name: string)
    | InvalidParams(name: string)
    | RemoveFailed(name: string)
    | RemoveAllFailed
    | ConnectFailed(name: string)
    | ConnectAllFailed
    | DisconnectFailed(name: string)
    | DisconnectAllFailed
    // swift.errors messages of the manager
    | AdapterNameType
    | AdapterNameValue
    | AdapterExists(name: string)
    | AdapterType
    | AdapterNotFound(name: string)
    | RemoveAdaptersFailed
    | ConnectAdaptersFailed
    | DisconnectAdaptersFailed
    // swift.errors messages of the base adapter's setName
    | RenameType(current: string)
    | RenameEmpty(current: string)

  /** The `details` of a MongoAdapterError: nothing, the wrapped cause, or the collected list. */
  datatype Details = NoDetails | Cause(cause: Error) | Causes(list: seq<Error>)

  datatype Error =
    | DriverError(reason: string)                   // whatever the driver reported
    | MongoAdapterError(message: Message, details: Details)
    | TypeError(message: Message)
    | ValueError(message: Message)
    | SystemError(message: Message)
    | MultipleError(message: Message, list: seq<Error>)
    | StringError(message: Message)                 // a bare string handed to a callback as the error

  /**
   * Property names every plain JavaScript object inherits from
   * Object.prototype; the `in` operator finds them on an empty `{}`.
   */
  const ObjectPrototypeKeys: set<string> :=
    {"constructor", "hasOwnProperty", "isPrototypeOf", "propertyIsEnumerable",
     "toLocaleString", "toString", "valueOf", "__proto__",
     "__defineGetter__", "__defineSetter__", "__lookupGetter__", "__lookupSetter__"}

  /** `key in table` as JavaScript evaluates it on a plain object used as a table. */
  predicate JsIn<V>(key: string, table: map<string, V>)
  {
    key in table || key in ObjectPrototypeKeys
  }

  /**
   * A module-level counter (`countConnections`, `countAdapters`), made an
   * explicit object so that the constructors that bump it say so.
   */
  class Counter {
    var count: nat

    constructor()
      ensures count == 0
    {
      count := 0;
    }
  }
}
