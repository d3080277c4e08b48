/**
 * The database manager (lib/dbManager.js): a name-keyed table of adapters,
 * validated single-adapter operations, and three fan-outs over the table
 * (connect, disconnect, remove all) whose aggregate is a MultipleError that
 * splices in the lists of the MultipleErrors its adapters report.
 *
 * Adapters are opaque here: what an adapter's `connect` or `disconnect`
 * hands its callback is an input, `connect(k)` or `disconnect(k)` for the
 * adapter stored under `k`.
 */
module Manager {
  import opened Common
  import opened FanOut

  /** An adapter instance, known only by its identity. */
  datatype Adapter = Adapter(id: nat)

  /**
   * The adapter argument of addAdapter: an instance of DbAdapterInterface,
   * or any other value (the base DbAdapter among them, which does not
   * inherit the interface).
   */
  datatype AdapterArg = Instance(adapter: Adapter) | NotAnInstance

  /** addAdapter's checks, in the source's order. */
  function AddAdapterCheck(table: map<string, Adapter>, name: Name, adapter: AdapterArg): (err: Option<Error>)
    ensures err.None? <==> ValidName(name) && name.s !in table && adapter.Instance?
    ensures name.NonString? ==> err == Some(TypeError(AdapterNameType))
    ensures name == Str("") ==> err == Some(ValueError(AdapterNameValue))
    ensures ValidName(name) && name.s in table ==> err == Some(SystemError(AdapterExists(name.s)))
    ensures ValidName(name) && name.s !in table && adapter.NotAnInstance? ==> err == Some(TypeError(AdapterType))
  {
    if name.NonString? then Some(TypeError(AdapterNameType))
    else if name.s == "" then Some(ValueError(AdapterNameValue))
    else if name.s in table then Some(SystemError(AdapterExists(name.s)))
    else if adapter.NotAnInstance? then Some(TypeError(AdapterType))
    else None
  }

  /**
   * The checks connectOne and disconnectOne make before calling the
   * adapter: a string, non-empty, and present in the table.
   */
  function LookupCheck(table: map<string, Adapter>, name: Name): (err: Option<Error>)
    ensures err.None? <==> ValidName(name) && name.s in table
    ensures name.NonString? ==> err == Some(TypeError(AdapterNameType))
    ensures name == Str("") ==> err == Some(ValueError(AdapterNameValue))
    ensures ValidName(name) && name.s !in table ==> err == Some(SystemError(AdapterNotFound(name.s)))
  {
    if name.NonString? then Some(TypeError(AdapterNameType))
    else if name.s == "" then Some(ValueError(AdapterNameValue))
    else if name.s !in table then Some(SystemError(AdapterNotFound(name.s)))
    else None
  }

  /** What a manager fan-out hands its callback after the join. */
  function Failure(message: Message, errors: seq<Error>): (r: Option<Error>)
    ensures r.None? <==> errors == []
    ensures r.Some? ==> r.value == MultipleError(message, errors)
  {
    if errors == [] then None else Some(MultipleError(message, errors))
  }

  /** The table after the remove steps for `names`: an adapter goes when its disconnect succeeded. */
  function AfterRemoveAdapters(pre: map<string, Adapter>, names: set<string>, disconnect: string -> Option<Error>): map<string, Adapter>
  {
    map k | k in pre && (k in names ==> disconnect(k).Some?) :: pre[k]
  }

  lemma AfterRemoveAdaptersNone(pre: map<string, Adapter>, disconnect: string -> Option<Error>)
    ensures AfterRemoveAdapters(pre, {}, disconnect) == pre
  {
  }

  lemma AfterRemoveAdaptersStep(pre: map<string, Adapter>, done: set<string>, disconnect: string -> Option<Error>, k: string)
    requires k !in done && k in pre
    ensures var cur := AfterRemoveAdapters(pre, done, disconnect);
            && k in cur
            && AfterRemoveAdapters(pre, done + {k}, disconnect) == if disconnect(k).None? then cur - {k} else cur
  {
  }

  /**
   * After remove-all the adapters left are exactly those whose disconnect
   * failed. The aggregate fails exactly when some failure contributed an
   * error; every error an adapter reported, or every element of the list of
   * a MultipleError it reported, is in the aggregate.
   */
  lemma RemoveAllAdaptersAccounting(pre: map<string, Adapter>, order: seq<string>, disconnect: string -> Option<Error>)
    requires IsOrdering(order, pre.Keys)
    ensures forall k :: k in AfterRemoveAdapters(pre, pre.Keys, disconnect) <==> k in pre && disconnect(k).Some?
    ensures Failure(RemoveAdaptersFailed, Flatten(order, disconnect)).None?
        <==> forall k :: k in pre ==> !Contributes(disconnect(k))
    ensures forall k, e :: k in pre && disconnect(k).Some? && e in Spliced(disconnect(k).value) ==>
              e in Flatten(order, disconnect)
  {
    FlattenEmpty(order, disconnect);
    forall k, e | k in pre && disconnect(k).Some? && e in Spliced(disconnect(k).value)
      ensures e in Flatten(order, disconnect)
    {
      FlattenMember(order, disconnect, e);
    }
  }

  /**
   * When no adapter reports a MultipleError (the Mongo adapter reports a
   * MongoAdapterError), each failing adapter's error is one element of the
   * manager's list: nested whole, never spliced, one per failing adapter.
   */
  lemma AdapterErrorsNested(order: seq<string>, result: string -> Option<Error>)
    requires Distinct(order)
    requires forall k :: k in order && result(k).Some? ==> !result(k).value.MultipleError?
    ensures |Flatten(order, result)| == |FailedKeys(order, result)|
    ensures forall e :: e in Flatten(order, result) <==> exists k :: k in order && result(k) == Some(e)
  {
    FlattenWithoutMultiple(order, result);
    CollectCount(order, result);
    forall e
      ensures e in Flatten(order, result) <==> exists k :: k in order && result(k) == Some(e)
    {
      CollectMember(order, result, e);
    }
  }

  /** What the connector middleware passes to `next`. */
  datatype NextCall = NextWithError(status: int, message: string) | NextPlain

  class DbManager {
    var adapters: map<string, Adapter>

    /** Every key passed addAdapter's name checks. */
    ghost predicate Valid()
      reads this
    {
      NamesValid(adapters)
    }

    /**
     * A fresh manager registers the Mongo adapter under "mongo" when that
     * module could be loaded (`mongo` is the instance then), and is empty
     * otherwise.
     */
    constructor(mongo: Option<Adapter>)
      ensures Valid()
      ensures adapters == if mongo.Some? then map["mongo" := mongo.value] else map[]
    {
      adapters := map[];
      new;
      if mongo.Some? {
        var err := AddAdapter(Str("mongo"), Instance(mongo.value));
      }
    }

    /** Registers the adapter when every check passes; on an error the table is unchanged. */
    method AddAdapter(name: Name, adapter: AdapterArg) returns (err: Option<Error>)
      requires Valid()
      modifies this
      ensures Valid()
      ensures err == AddAdapterCheck(old(adapters), name, adapter)
      ensures err.Some? ==> adapters == old(adapters)
      ensures err.None? ==> adapters == old(adapters)[name.s := adapter.adapter]
      ensures err.None? ==> GetAdapter(name.s) == Some(adapter.adapter)
    {
      err := AddAdapterCheck(adapters, name, adapter);
      if err.None? {
        adapters := adapters[name.s := adapter.adapter];
      }
    }

    /** The adapter stored under the name, or null. */
    function GetAdapter(name: string): (r: Option<Adapter>)
      reads this
      ensures r.Some? <==> name in adapters
      ensures r.Some? ==> r.value == adapters[name]
    {
      if name in adapters then Some(adapters[name]) else None
    }

    /** The whole table; it agrees with getAdapter on every name. */
    function GetAllAdapters(): (r: map<string, Adapter>)
      reads this
      ensures forall name :: GetAdapter(name) == if name in r then Some(r[name]) else None
    {
      adapters
    }

    /**
     * An invalid name is an error and an absent one a success, neither
     * changing anything; otherwise the adapter's disconnect result, passed
     * on as it is, and the adapter is deleted exactly when that succeeded.
     */
    method RemoveAdapter(name: Name, disconnected: Option<Error>) returns (err: Option<Error>)
      requires Valid()
      modifies this
      ensures Valid()
      ensures name.NonString? ==> err == Some(TypeError(AdapterNameType)) && adapters == old(adapters)
      ensures name == Str("") ==> err == Some(ValueError(AdapterNameValue)) && adapters == old(adapters)
      ensures ValidName(name) && name.s !in old(adapters) ==> err == None && adapters == old(adapters)
      ensures ValidName(name) && name.s in old(adapters) ==>
                err == disconnected
                && adapters == if disconnected.None? then old(adapters) - {name.s} else old(adapters)
      ensures err.None? ==> ValidName(name) && GetAdapter(name.s) == None
    {
      if name.NonString? {
        return Some(TypeError(AdapterNameType));
      }
      if name.s == "" {
        return Some(ValueError(AdapterNameValue));
      }
      if name.s !in adapters {
        return None;
      }
      if disconnected.Some? {
        return disconnected;
      }
      adapters := adapters - {name.s};
      err := None;
    }

    /** removeAdapter for every key of a snapshot of the table. */
    method RemoveAllAdapters(disconnect: string -> Option<Error>) returns (err: Option<Error>, ghost order: seq<string>)
      requires Valid()
      modifies this
      ensures Valid()
      ensures IsOrdering(order, old(adapters).Keys)
      ensures adapters == AfterRemoveAdapters(old(adapters), old(adapters).Keys, disconnect)
      ensures err == Failure(RemoveAdaptersFailed, Flatten(order, disconnect))
    {
      var keys := Snapshot(adapters.Keys);
      ghost var pre := adapters;
      var errors: seq<Error> := [];
      var i := 0;
      AfterRemoveAdaptersNone(pre, disconnect);
      while i < |keys|
        invariant 0 <= i <= |keys|
        invariant Valid()
        invariant adapters == AfterRemoveAdapters(pre, Elems(keys[..i]), disconnect)
        invariant errors == Flatten(keys[..i], disconnect)
      {
        var k := keys[i];
        ElemsStep(keys, i);
        AfterRemoveAdaptersStep(pre, Elems(keys[..i]), disconnect, k);
        FlattenSnoc(keys, i, disconnect);
        var e := RemoveAdapter(Str(k), disconnect(k));
        if e.Some? {
          errors := errors + Spliced(e.value);
        }
        i := i + 1;
      }
      ElemsOrdering(keys, pre.Keys);
      assert keys[..i] == keys;
      err := Failure(RemoveAdaptersFailed, errors);
      order := keys;
    }

    /** The lookup errors without calling any adapter; otherwise the adapter's connect result. */
    method ConnectOne(name: Name, connected: Option<Error>) returns (err: Option<Error>)
      ensures LookupCheck(adapters, name).Some? ==> err == LookupCheck(adapters, name)
      ensures LookupCheck(adapters, name).None? ==> err == connected
    {
      err := LookupCheck(adapters, name);
      if err.None? {
        err := connected;
      }
    }

    /** The lookup errors without calling any adapter; otherwise the adapter's disconnect result. */
    method DisconnectOne(name: Name, disconnected: Option<Error>) returns (err: Option<Error>)
      ensures LookupCheck(adapters, name).Some? ==> err == LookupCheck(adapters, name)
      ensures LookupCheck(adapters, name).None? ==> err == disconnected
    {
      err := LookupCheck(adapters, name);
      if err.None? {
        err := disconnected;
      }
    }

    /**
     * connectOne for every adapter; the aggregate fails exactly when some
     * adapter's failure contributed an error.
     */
    method Connect(connect: string -> Option<Error>) returns (err: Option<Error>, ghost order: seq<string>)
      requires Valid()
      ensures IsOrdering(order, adapters.Keys)
      ensures err == Failure(ConnectAdaptersFailed, Flatten(order, connect))
      ensures err.None? <==> forall k :: k in adapters ==> !Contributes(connect(k))
    {
      var keys := Snapshot(adapters.Keys);
      var errors: seq<Error> := [];
      var i := 0;
      while i < |keys|
        invariant 0 <= i <= |keys|
        invariant errors == Flatten(keys[..i], connect)
      {
        var k := keys[i];
        FlattenSnoc(keys, i, connect);
        var e := ConnectOne(Str(k), connect(k));
        if e.Some? {
          errors := errors + Spliced(e.value);
        }
        i := i + 1;
      }
      assert keys[..i] == keys;
      FlattenEmpty(keys, connect);
      err := Failure(ConnectAdaptersFailed, errors);
      order := keys;
    }

    /**
     * disconnectOne for every adapter; the aggregate fails exactly when some
     * adapter's failure contributed an error.
     */
    method Disconnect(disconnect: string -> Option<Error>) returns (err: Option<Error>, ghost order: seq<string>)
      requires Valid()
      ensures IsOrdering(order, adapters.Keys)
      ensures err == Failure(DisconnectAdaptersFailed, Flatten(order, disconnect))
      ensures err.None? <==> forall k :: k in adapters ==> !Contributes(disconnect(k))
    {
      var keys := Snapshot(adapters.Keys);
      var errors: seq<Error> := [];
      var i := 0;
      while i < |keys|
        invariant 0 <= i <= |keys|
        invariant errors == Flatten(keys[..i], disconnect)
      {
        var k := keys[i];
        FlattenSnoc(keys, i, disconnect);
        var e := DisconnectOne(Str(k), disconnect(k));
        if e.Some? {
          errors := errors + Spliced(e.value);
        }
        i := i + 1;
      }
      assert keys[..i] == keys;
      FlattenEmpty(keys, disconnect);
      err := Failure(DisconnectAdaptersFailed, errors);
      order := keys;
    }

    /**
     * The middleware: connect, then `next` with a status-500 error when the
     * aggregate failed and with no argument otherwise.
     */
    method Connector(connect: string -> Option<Error>) returns (next: NextCall)
      requires Valid()
      ensures next == NextPlain <==> forall k :: k in adapters ==> !Contributes(connect(k))
      ensures next != NextPlain ==> next == NextWithError(500, "error connecting to database")
    {
      var err, order := Connect(connect);
      if err.Some? {
        next := NextWithError(500, "error connecting to database");
      } else {
        next := NextPlain;
      }
    }
  }

  /**
   * addAdapter's checks with the duplicate test as JavaScript's `in`
   * evaluates it on the plain object that holds the table.
   */
  function AddAdapterCheckAsWritten(table: map<string, Adapter>, name: Name, adapter: AdapterArg): (err: Option<Error>)
    ensures ValidName(name) && JsIn(name.s, table) ==> err == Some(SystemError(AdapterExists(name.s)))
    ensures err.None? ==> AddAdapterCheck(table, name, adapter).None?
  {
    if name.NonString? then Some(TypeError(AdapterNameType))
    else if name.s == "" then Some(ValueError(AdapterNameValue))
    else if JsIn(name.s, table) then Some(SystemError(AdapterExists(name.s)))
    else if adapter.NotAnInstance? then Some(TypeError(AdapterType))
    else None
  }

  /**
   * On a table without "toString" the name is refused as a duplicate all the
   * same; the intended check accepts it.
   */
  lemma AdapterPrototypeNameRefused(table: map<string, Adapter>, a: Adapter)
    requires "toString" !in table
    ensures AddAdapterCheckAsWritten(table, Str("toString"), Instance(a)) == Some(SystemError(AdapterExists("toString")))
    ensures AddAdapterCheck(table, Str("toString"), Instance(a)) == None
  {
  }
}
