/**
 * The Mongo adapter (lib/dbAdapters/mongoAdapter.js): two name-keyed tables,
 * `connectionsParams` (name to connection parameters) and `connections` (name
 * to a live driver handle), single-key operations that validate before they
 * change anything, and three fan-outs (connect, disconnect, remove all) that
 * run one step per key and gather every failure into one aggregate error.
 *
 * The driver is represented by outcomes: `open(k)` is what creating and
 * opening the connection for `k` ends in, `close(k)` what closing the handle
 * stored under `k` ends in.
 */
module Mongo {
  import opened Common
  import opened FanOut

  // ---------------------------------------------------------------------------
  // Errors the adapter raises

  function InvalidNameError(op: NameCheck): Error
  {
    MongoAdapterError(InvalidConnectionName(op), NoDetails)
  }

  function ConnectFailure(k: string, cause: string): Error
  {
    MongoAdapterError(ConnectFailed(k), Cause(DriverError(cause)))
  }

  function DisconnectFailure(k: string, cause: string): Error
  {
    MongoAdapterError(DisconnectFailed(k), Cause(DriverError(cause)))
  }

  function RemoveFailure(k: string, cause: string): Error
  {
    MongoAdapterError(RemoveFailed(k), Cause(DriverError(cause)))
  }

  /** What a fan-out hands its callback after the join. */
  function Aggregate(message: Message, errors: seq<Error>): (r: Option<Error>)
    ensures r.None? <==> errors == []
    ensures r.Some? ==> r.value.MongoAdapterError? && r.value.details == Causes(errors)
  {
    if errors == [] then None else Some(MongoAdapterError(message, Causes(errors)))
  }

  // ---------------------------------------------------------------------------
  // Single-key checks

  /** The handle stored under `k` has readyState 1 or 2. */
  predicate IsLive(conns: map<string, Handle>, k: string)
  {
    k in conns && Live(conns[k])
  }

  /**
   * addConectionParams' checks, in the source's order: a name that is not a
   * non-empty string, a name already present, parameters that are not an object.
   */
  function AddParamsCheck(table: map<string, Params>, name: Name, params: ParamsArg): (err: Option<Error>)
    ensures err.None? <==> ValidName(name) && name.s !in table && params.ParamsObject?
    ensures !ValidName(name) ==> err == Some(InvalidNameError(AddParamsName))
    ensures ValidName(name) && name.s in table ==> err == Some(MongoAdapterError(ParamsExist(name.s), NoDetails))
    ensures ValidName(name) && name.s !in table && params.NotAnObject? ==>
              err == Some(MongoAdapterError(InvalidParams(name.s), NoDetails))
  {
    if !ValidName(name) then Some(InvalidNameError(AddParamsName))
    else if name.s in table then Some(MongoAdapterError(ParamsExist(name.s), NoDetails))
    else if params.NotAnObject? then Some(MongoAdapterError(InvalidParams(name.s), NoDetails))
    else None
  }

  // ---------------------------------------------------------------------------
  // The connect fan-out

  /** The driver is asked for `k` (it is not live) and the connection opens. */
  predicate Opens(pre: map<string, Handle>, open: string -> OpenOutcome, k: string)
  {
    !IsLive(pre, k) && open(k).Opened?
  }

  /** The error the connect step for `k` pushes: the attempt was made and failed. */
  function ConnectError(pre: map<string, Handle>, open: string -> OpenOutcome): string -> Option<Error>
  {
    k => if !IsLive(pre, k) && !open(k).Opened? then Some(ConnectFailure(k, open(k).cause)) else None
  }

  /** `connections` after connect: every handle that opened is stored under its name. */
  function AfterConnect(pre: map<string, Handle>, names: set<string>, open: string -> OpenOutcome): map<string, Handle>
  {
    map k | k in pre.Keys + (set n | n in names && Opens(pre, open, n)) ::
      if k in names && Opens(pre, open, k) then open(k).handle else pre[k]
  }

  /** Nothing visited yet: the table as it was. */
  lemma AfterConnectNone(pre: map<string, Handle>, open: string -> OpenOutcome)
    ensures AfterConnect(pre, {}, open) == pre
  {
  }

  /** Visiting one more name stores its handle if it opens, and changes nothing else. */
  lemma AfterConnectStep(pre: map<string, Handle>, done: set<string>, open: string -> OpenOutcome, k: string)
    requires k !in done
    ensures var cur := AfterConnect(pre, done, open);
            && (k in cur <==> k in pre)
            && (k in pre ==> cur[k] == pre[k])
            && ConnectError(cur, open)(k) == ConnectError(pre, open)(k)
            && AfterConnect(pre, done + {k}, open)
               == if Opens(cur, open, k) then cur[k := open(k).handle] else cur
  {
    var cur := AfterConnect(pre, done, open);
    assert IsLive(cur, k) == IsLive(pre, k);
  }

  /**
   * Partial failure is preserved: every name with parameters ends up live from
   * before, stored with the handle that opened, or reported with one wrapped
   * error; the aggregate fails exactly when some attempt failed, with one
   * error per failed name and no other.
   */
  lemma ConnectAccounting(pre: map<string, Handle>, names: set<string>, order: seq<string>, open: string -> OpenOutcome)
    requires IsOrdering(order, names)
    ensures var after := AfterConnect(pre, names, open);
            var errors := Collect(order, ConnectError(pre, open));
            forall k :: k in names ==>
              || (IsLive(pre, k) && k in after && after[k] == pre[k])
              || (Opens(pre, open, k) && k in after && after[k] == open(k).handle)
              || (!IsLive(pre, k) && !open(k).Opened? && ConnectFailure(k, open(k).cause) in errors)
    ensures var errors := Collect(order, ConnectError(pre, open));
            forall e :: e in errors ==>
              exists k :: k in names && !IsLive(pre, k) && !open(k).Opened? && e == ConnectFailure(k, open(k).cause)
    ensures |Collect(order, ConnectError(pre, open))|
         == |set k | k in names && !IsLive(pre, k) && !open(k).Opened?|
    ensures Aggregate(ConnectAllFailed, Collect(order, ConnectError(pre, open))).None?
        <==> forall k :: k in names ==> IsLive(pre, k) || open(k).Opened?
  {
    var step := ConnectError(pre, open);
    var errors := Collect(order, step);
    forall k | k in names && !IsLive(pre, k) && !open(k).Opened?
      ensures ConnectFailure(k, open(k).cause) in errors
    {
      CollectMember(order, step, ConnectFailure(k, open(k).cause));
    }
    forall e | e in errors
      ensures exists k :: k in names && !IsLive(pre, k) && !open(k).Opened? && e == ConnectFailure(k, open(k).cause)
    {
      CollectMember(order, step, e);
    }
    CollectCount(order, step);
    assert FailedKeys(order, step) == set k | k in names && !IsLive(pre, k) && !open(k).Opened?;
    CollectEmpty(order, step);
  }

  // ---------------------------------------------------------------------------
  // The disconnect fan-out

  /**
   * How one `close` call inside disconnect goes: its callback receives an
   * outcome, or the call throws before any callback.
   */
  datatype CloseCall = Answers(outcome: CloseOutcome) | Throws(cause: string)

  predicate CloseFails(c: CloseCall)
  {
    c.Throws? || c.outcome.CloseFailed?
  }

  function CloseCause(c: CloseCall): string
    requires CloseFails(c)
  {
    if c.Throws? then c.cause else c.outcome.cause
  }

  /** The error the disconnect step for `k` reports: `k` was live and its close failed or threw. */
  function DisconnectError(pre: map<string, Handle>, close: string -> CloseCall): string -> Option<Error>
  {
    k => if IsLive(pre, k) && CloseFails(close(k)) then Some(DisconnectFailure(k, CloseCause(close(k)))) else None
  }

  /**
   * `connections` after the disconnect steps for `names`: the driver marks a
   * connection object it closed with readyState 0; no entry goes away.
   */
  function AfterDisconnect(pre: map<string, Handle>, names: set<string>, close: string -> CloseCall): map<string, Handle>
  {
    map k | k in pre :: if k in names && IsLive(pre, k) && close(k) == Answers(Closed) then pre[k].(readyState := 0) else pre[k]
  }

  lemma AfterDisconnectNone(pre: map<string, Handle>, close: string -> CloseCall)
    ensures AfterDisconnect(pre, {}, close) == pre
  {
  }

  /** Visiting one more live name whose close succeeds marks its handle closed; nothing else changes. */
  lemma AfterDisconnectStep(pre: map<string, Handle>, done: set<string>, close: string -> CloseCall, k: string)
    requires k !in done && k in pre
    ensures var cur := AfterDisconnect(pre, done, close);
            && k in cur && cur[k] == pre[k]
            && DisconnectError(cur, close)(k) == DisconnectError(pre, close)(k)
            && AfterDisconnect(pre, done + {k}, close) == AfterDisconnect(cur, {k}, close)
  {
  }

  /**
   * After disconnect no key is gone, and an entry is still live only if it
   * was live and its close failed, in which case its error is in the list;
   * the aggregate fails exactly when some close of a live entry failed.
   */
  lemma DisconnectAccounting(pre: map<string, Handle>, order: seq<string>, close: string -> CloseCall)
    requires IsOrdering(order, pre.Keys)
    ensures AfterDisconnect(pre, pre.Keys, close).Keys == pre.Keys
    ensures var after := AfterDisconnect(pre, pre.Keys, close);
            var errors := Collect(order, DisconnectError(pre, close));
            forall k :: IsLive(after, k) ==>
              IsLive(pre, k) && CloseFails(close(k)) && DisconnectFailure(k, CloseCause(close(k))) in errors
    ensures var errors := Collect(order, DisconnectError(pre, close));
            forall e :: e in errors ==>
              exists k :: k in pre && IsLive(pre, k) && CloseFails(close(k)) && e == DisconnectFailure(k, CloseCause(close(k)))
    ensures Aggregate(DisconnectAllFailed, Collect(order, DisconnectError(pre, close))).None?
        <==> forall k :: k in pre ==> !(IsLive(pre, k) && CloseFails(close(k)))
  {
    var step := DisconnectError(pre, close);
    var after := AfterDisconnect(pre, pre.Keys, close);
    forall k | IsLive(after, k)
      ensures IsLive(pre, k) && CloseFails(close(k)) && DisconnectFailure(k, CloseCause(close(k))) in Collect(order, step)
    {
      CollectMember(order, step, DisconnectFailure(k, CloseCause(close(k))));
    }
    forall e | e in Collect(order, step)
      ensures exists k :: k in pre && IsLive(pre, k) && CloseFails(close(k)) && e == DisconnectFailure(k, CloseCause(close(k)))
    {
      CollectMember(order, step, e);
    }
    CollectEmpty(order, step);
  }

  // ---------------------------------------------------------------------------
  // The remove-all fan-out

  /** The error removeConnection reports for `k`: its close failed. */
  function RemoveError(close: string -> CloseOutcome): string -> Option<Error>
  {
    k => if close(k).CloseFailed? then Some(RemoveFailure(k, close(k).cause)) else None
  }

  /** `connections` after the remove steps for `names`: an entry goes when its close succeeded. */
  function AfterRemoveAll(pre: map<string, Handle>, names: set<string>, close: string -> CloseOutcome): map<string, Handle>
  {
    map k | k in pre && (k in names ==> close(k).CloseFailed?) :: pre[k]
  }

  lemma AfterRemoveAllNone(pre: map<string, Handle>, close: string -> CloseOutcome)
    ensures AfterRemoveAll(pre, {}, close) == pre
  {
  }

  /** Visiting one more name deletes its entry if the close succeeded; nothing else changes. */
  lemma AfterRemoveAllStep(pre: map<string, Handle>, done: set<string>, close: string -> CloseOutcome, k: string)
    requires k !in done && k in pre
    ensures var cur := AfterRemoveAll(pre, done, close);
            && k in cur
            && AfterRemoveAll(pre, done + {k}, close) == if close(k).Closed? then cur - {k} else cur
  {
  }

  /**
   * After remove-all the entries left are exactly those whose close failed,
   * with their handles; there is one error per entry left, and the aggregate
   * succeeds exactly when the table ends empty.
   */
  lemma RemoveAllAccounting(pre: map<string, Handle>, order: seq<string>, close: string -> CloseOutcome)
    requires IsOrdering(order, pre.Keys)
    ensures var after := AfterRemoveAll(pre, pre.Keys, close);
            forall k :: k in after <==> k in pre && close(k).CloseFailed?
    ensures var after := AfterRemoveAll(pre, pre.Keys, close);
            var errors := Collect(order, RemoveError(close));
            && |errors| == |after|
            && (forall k :: k in after ==> RemoveFailure(k, close(k).cause) in errors)
            && (Aggregate(RemoveAllFailed, errors).None? <==> after == map[])
  {
    var step := RemoveError(close);
    var after := AfterRemoveAll(pre, pre.Keys, close);
    var errors := Collect(order, step);
    CollectCount(order, step);
    assert FailedKeys(order, step) == after.Keys;
    forall k | k in after
      ensures RemoveFailure(k, close(k).cause) in errors
    {
      CollectMember(order, step, RemoveFailure(k, close(k).cause));
    }
    if errors != [] {
      assert |after.Keys| > 0;
    }
  }

  // ---------------------------------------------------------------------------
  // The adapter

  class MongoAdapter {
    var connectionsParams: map<string, Params>
    var connections: map<string, Handle>

    /** Every key of either table passed the name check. */
    ghost predicate Valid()
      reads this
    {
      NamesValid(connectionsParams) && NamesValid(connections)
    }

    constructor()
      ensures Valid()
      ensures connectionsParams == map[] && connections == map[]
    {
      connectionsParams := map[];
      connections := map[];
    }

    /**
     * Stores the parameters under the name when every check passes; on an
     * error neither table changes.
     */
    method AddConnectionParams(name: Name, params: ParamsArg) returns (err: Option<Error>)
      requires Valid()
      modifies this
      ensures Valid()
      ensures err == AddParamsCheck(old(connectionsParams), name, params)
      ensures err.Some? ==> connectionsParams == old(connectionsParams)
      ensures err.None? ==> connectionsParams == old(connectionsParams)[name.s := params.params]
      ensures err.None? ==> GetConnectionParams(name) == Ok(Some(params.params))
      ensures connections == old(connections)
    {
      err := AddParamsCheck(connectionsParams, name, params);
      if err.None? {
        connectionsParams := connectionsParams[name.s := params.params];
      }
    }

    /** The parameters stored under a valid name, or none. */
    function GetConnectionParams(name: Name): (r: Result<Option<Params>>)
      reads this
      ensures r.Err? <==> !ValidName(name)
      ensures r.Err? ==> r.error == InvalidNameError(GetParamsName)
      ensures r.Ok? ==> (r.value.Some? <==> name.s in connectionsParams)
      ensures r.Ok? && r.value.Some? ==> r.value.value == connectionsParams[name.s]
    {
      if !ValidName(name) then Err(InvalidNameError(GetParamsName))
      else if name.s in connectionsParams then Ok(Some(connectionsParams[name.s]))
      else Ok(None)
    }

    /** The whole parameters table; it agrees with getConnectionParams on every valid name. */
    function GetAllConnectionParams(): (r: map<string, Params>)
      reads this
      ensures forall k :: k != "" ==>
                GetConnectionParams(Str(k)) == Ok(if k in r then Some(r[k]) else None)
    {
      connectionsParams
    }

    /** Deletes that one key, if present; `connections` is never touched. */
    method RemoveConnectionParams(name: Name) returns (err: Option<Error>)
      requires Valid()
      modifies this
      ensures Valid()
      ensures err.Some? <==> !ValidName(name)
      ensures err.Some? ==> err.value == InvalidNameError(RemoveParamsName)
      ensures connectionsParams == if ValidName(name) then old(connectionsParams) - {name.s} else old(connectionsParams)
      ensures ValidName(name) && name.s !in old(connectionsParams) ==> connectionsParams == old(connectionsParams)
      ensures connections == old(connections)
    {
      if !ValidName(name) {
        return Some(InvalidNameError(RemoveParamsName));
      }
      connectionsParams := connectionsParams - {name.s};
      err := None;
    }

    method RemoveAllConnectionParams()
      requires Valid()
      modifies this
      ensures Valid()
      ensures connectionsParams == map[]
      ensures connections == old(connections)
    {
      connectionsParams := map[];
    }

    /** The handle stored under a valid name, or none. */
    function GetConnection(name: Name): (r: Result<Option<Handle>>)
      reads this
      ensures r.Err? <==> !ValidName(name)
      ensures r.Err? ==> r.error == InvalidNameError(GetConnectionName)
      ensures r.Ok? ==> (r.value.Some? <==> name.s in connections)
      ensures r.Ok? && r.value.Some? ==> r.value.value == connections[name.s]
    {
      if !ValidName(name) then Err(InvalidNameError(GetConnectionName))
      else if name.s in connections then Ok(Some(connections[name.s]))
      else Ok(None)
    }

    /** The whole connections table; it agrees with getConnection and isConnected on every valid name. */
    function GetAllConnections(): (r: map<string, Handle>)
      reads this
      ensures forall k :: k != "" ==>
                GetConnection(Str(k)) == Ok(if k in r then Some(r[k]) else None)
      ensures forall k :: k != "" ==> IsConnected(Str(k)) == Ok(IsLive(r, k))
    {
      connections
    }

    /** Throws on an invalid name; otherwise whether the stored handle has readyState 1 or 2. */
    function IsConnected(name: Name): (r: Result<bool>)
      reads this
      ensures r.Err? <==> !ValidName(name)
      ensures r.Err? ==> r.error == InvalidNameError(IsConnectedName)
      ensures r.Ok? ==> (r.value <==> name.s in connections && Live(connections[name.s]))
    {
      if !ValidName(name) then Err(InvalidNameError(IsConnectedName))
      else Ok(name.s in connections && Live(connections[name.s]))
    }

    /**
     * An invalid name is an error and an absent one a success, neither
     * changing anything; otherwise the handle is closed and the entry deleted
     * only if the close succeeded.
     */
    method RemoveConnection(name: Name, close: CloseOutcome) returns (err: Option<Error>)
      requires Valid()
      modifies this
      ensures Valid()
      ensures !ValidName(name) ==> err == Some(InvalidNameError(RemoveConnectionName)) && connections == old(connections)
      ensures ValidName(name) && name.s !in old(connections) ==> err == None && connections == old(connections)
      ensures ValidName(name) && name.s in old(connections) ==>
        match close
        case Closed => err == None && connections == old(connections) - {name.s}
        case CloseFailed(cause) => err == Some(RemoveFailure(name.s, cause)) && connections == old(connections)
      ensures connectionsParams == old(connectionsParams)
    {
      if !ValidName(name) {
        return Some(InvalidNameError(RemoveConnectionName));
      }
      if name.s !in connections {
        return None;
      }
      match close
      case Closed =>
        connections := connections - {name.s};
        err := None;
      case CloseFailed(cause) =>
        err := Some(RemoveFailure(name.s, cause));
    }

    /** removeConnection for every key of a snapshot of `connections`. */
    method RemoveAllConnections(close: string -> CloseOutcome) returns (err: Option<Error>, ghost order: seq<string>)
      requires Valid()
      modifies this
      ensures Valid()
      ensures IsOrdering(order, old(connections).Keys)
      ensures connections == AfterRemoveAll(old(connections), old(connections).Keys, close)
      ensures err == Aggregate(RemoveAllFailed, Collect(order, RemoveError(close)))
      ensures connectionsParams == old(connectionsParams)
    {
      var keys := Snapshot(connections.Keys);
      ghost var pre := connections;
      var errors: seq<Error> := [];
      var i := 0;
      AfterRemoveAllNone(pre, close);
      while i < |keys|
        invariant 0 <= i <= |keys|
        invariant Valid()
        invariant connectionsParams == old(connectionsParams)
        invariant connections == AfterRemoveAll(pre, Elems(keys[..i]), close)
        invariant errors == Collect(keys[..i], RemoveError(close))
      {
        var k := keys[i];
        ElemsStep(keys, i);
        AfterRemoveAllStep(pre, Elems(keys[..i]), close, k);
        CollectSnoc(keys, i, RemoveError(close));
        var e := RemoveConnection(Str(k), close(k));
        errors := errors + Emitted(e);
        i := i + 1;
      }
      ElemsOrdering(keys, pre.Keys);
      assert keys[..i] == keys;
      err := Aggregate(RemoveAllFailed, errors);
      order := keys;
    }

    /**
     * One step of the connect loop: a name that is not live gets a driver
     * connection, stored if it opens; a failed or throwing attempt is
     * reported. Other entries are left alone.
     */
    method OpenEntry(k: string, open: string -> OpenOutcome) returns (e: Option<Error>)
      requires Valid() && k in connectionsParams
      modifies this
      ensures Valid()
      ensures connectionsParams == old(connectionsParams)
      ensures connections == if Opens(old(connections), open, k) then old(connections)[k := open(k).handle] else old(connections)
      ensures e == ConnectError(old(connections), open)(k)
    {
      var live := IsConnected(Str(k));
      if live.value {
        e := None;
      } else {
        match open(k)
        case Opened(h) =>
          connections := connections[k := h];
          e := None;
        case OpenError(_, cause) =>
          e := Some(ConnectFailure(k, cause));
        case OpenThrew(cause) =>
          e := Some(ConnectFailure(k, cause));
      }
    }

    /**
     * For every name with parameters that is not connected, asks the driver
     * for a connection; each one that opens is stored under its name, each
     * failure is wrapped and collected.
     */
    method Connect(open: string -> OpenOutcome) returns (err: Option<Error>, ghost order: seq<string>)
      requires Valid()
      modifies this
      ensures Valid()
      ensures IsOrdering(order, old(connectionsParams).Keys)
      ensures connections == AfterConnect(old(connections), old(connectionsParams).Keys, open)
      ensures err == Aggregate(ConnectAllFailed, Collect(order, ConnectError(old(connections), open)))
      ensures connectionsParams == old(connectionsParams)
    {
      var keys := Snapshot(connectionsParams.Keys);
      ghost var pre := connections;
      var errors: seq<Error> := [];
      var i := 0;
      AfterConnectNone(pre, open);
      while i < |keys|
        invariant 0 <= i <= |keys|
        invariant Valid()
        invariant connectionsParams == old(connectionsParams)
        invariant connections == AfterConnect(pre, Elems(keys[..i]), open)
        invariant errors == Collect(keys[..i], ConnectError(pre, open))
      {
        var k := keys[i];
        ElemsStep(keys, i);
        AfterConnectStep(pre, Elems(keys[..i]), open, k);
        CollectSnoc(keys, i, ConnectError(pre, open));
        var e := OpenEntry(k, open);
        errors := errors + Emitted(e);
        i := i + 1;
      }
      ElemsOrdering(keys, connectionsParams.Keys);
      assert keys[..i] == keys;
      err := Aggregate(ConnectAllFailed, errors);
      order := keys;
    }

    /**
     * One step of the disconnect loop: a live entry is closed, and marked
     * closed only if the close succeeded; a failed or throwing close is
     * reported. Other entries are left alone.
     */
    method CloseEntry(k: string, close: string -> CloseCall) returns (e: Option<Error>)
      requires Valid() && k in connections
      modifies this
      ensures Valid()
      ensures connectionsParams == old(connectionsParams)
      ensures connections == AfterDisconnect(old(connections), {k}, close)
      ensures e == DisconnectError(old(connections), close)(k)
    {
      var live := IsConnected(Str(k));
      if live.value {
        match close(k)
        case Answers(Closed) =>
          connections := connections[k := connections[k].(readyState := 0)];
          e := None;
        case Answers(CloseFailed(cause)) =>
          e := Some(DisconnectFailure(k, cause));
        case Throws(cause) =>
          e := Some(DisconnectFailure(k, cause));
      } else {
        e := None;
      }
    }

    /**
     * Closes every live entry of a snapshot of `connections`; no key is
     * deleted. A close that throws counts as a failed close and the callback
     * is called once, with every failure in the aggregate's list.
     */
    method Disconnect(close: string -> CloseCall) returns (err: Option<Error>, ghost order: seq<string>)
      requires Valid()
      modifies this
      ensures Valid()
      ensures IsOrdering(order, old(connections).Keys)
      ensures connections == AfterDisconnect(old(connections), old(connections).Keys, close)
      ensures err == Aggregate(DisconnectAllFailed, Collect(order, DisconnectError(old(connections), close)))
      ensures connectionsParams == old(connectionsParams)
    {
      var keys := Snapshot(connections.Keys);
      ghost var pre := connections;
      var errors: seq<Error> := [];
      var i := 0;
      AfterDisconnectNone(pre, close);
      while i < |keys|
        invariant 0 <= i <= |keys|
        invariant Valid()
        invariant connectionsParams == old(connectionsParams)
        invariant connections == AfterDisconnect(pre, Elems(keys[..i]), close)
        invariant errors == Collect(keys[..i], DisconnectError(pre, close))
      {
        var k := keys[i];
        ElemsStep(keys, i);
        AfterDisconnectStep(pre, Elems(keys[..i]), close, k);
        CollectSnoc(keys, i, DisconnectError(pre, close));
        var e := CloseEntry(k, close);
        errors := errors + Emitted(e);
        i := i + 1;
      }
      ElemsOrdering(keys, pre.Keys);
      assert keys[..i] == keys;
      err := Aggregate(DisconnectAllFailed, errors);
      order := keys;
    }
  }
  // ---------------------------------------------------------------------------
  // A partial failure of connect

  /**
   * Parameters for "a" and "b", no connection yet; the driver opens "a" and
   * refuses "b". Whatever order the loop visits them in, the callback gets one
   * aggregate whose only element names "b" and wraps the driver's reason, "a"
   * ends live and "b" has no connection.
   */
  lemma ConnectOneRefused(order: seq<string>, h: Handle, g: Handle)
    requires IsOrdering(order, {"a", "b"})
    requires Live(h)
    ensures var open := (k: string) => if k == "a" then Opened(h) else OpenError(g, "ECONNREFUSED");
            && Collect(order, ConnectError(map[], open)) == [ConnectFailure("b", "ECONNREFUSED")]
            && Aggregate(ConnectAllFailed, Collect(order, ConnectError(map[], open)))
               == Some(MongoAdapterError(ConnectAllFailed, Causes([ConnectFailure("b", "ECONNREFUSED")])))
            && IsLive(AfterConnect(map[], {"a", "b"}, open), "a")
            && "b" !in AfterConnect(map[], {"a", "b"}, open)
  {
    var open := (k: string) => if k == "a" then Opened(h) else OpenError(g, "ECONNREFUSED");
    var step := ConnectError(map[], open);
    var errors := Collect(order, step);
    CollectCount(order, step);
    assert "b"[0] != "a"[0];
    assert open("b") == OpenError(g, "ECONNREFUSED");
    assert step("a") == None && step("b") == Some(ConnectFailure("b", "ECONNREFUSED"));
    assert "a" in order && "b" in order;
    assert FailedKeys(order, step) == {"b"};
    assert |errors| == 1;
    CollectMember(order, step, errors[0]);
    assert errors == [errors[0]];
    var after := AfterConnect(map[], {"a", "b"}, open);
    assert Opens(map[], open, "a");
    assert "a" in after && after["a"] == h;
  }

  // ---------------------------------------------------------------------------
  // Disconnect as written

  /** One invocation of a fan-out's callback: its error argument and any further argument. */
  datatype CallbackCall = CallbackCall(err: Option<Error>, extra: seq<Error>)

  /** The error pushed for `k` when its close answered with a failure. */
  function AnsweredCloseError(pre: map<string, Handle>, close: string -> CloseCall): string -> Option<Error>
  {
    k => if IsLive(pre, k) && close(k).Answers? && close(k).outcome.CloseFailed?
         then Some(DisconnectFailure(k, close(k).outcome.cause)) else None
  }

  /** The error the catch block hands straight to the callback when the close for `k` threw. */
  function ThrownCloseError(pre: map<string, Handle>, close: string -> CloseCall): string -> Option<Error>
  {
    k => if IsLive(pre, k) && close(k).Throws? then Some(DisconnectFailure(k, close(k).cause)) else None
  }

  /**
   * Every invocation of disconnect's callback as the code is written: one
   * immediate call per live entry whose close threw, in loop order, and then
   * the call after the join, which passes null when no answered close failed
   * and otherwise a bare string as the error with the failures as a second
   * argument.
   */
  function DisconnectCallbacksAsWritten(pre: map<string, Handle>, order: seq<string>, close: string -> CloseCall): (calls: seq<CallbackCall>)
    ensures |calls| == |Collect(order, ThrownCloseError(pre, close))| + 1
    ensures forall i :: 0 <= i < |calls| - 1 ==> calls[i].err.Some?
  {
    var early := Collect(order, ThrownCloseError(pre, close));
    var errors := Collect(order, AnsweredCloseError(pre, close));
    seq(|early|, i requires 0 <= i < |early| => CallbackCall(Some(early[i]), []))
      + [if errors == [] then CallbackCall(None, []) else CallbackCall(Some(StringError(DisconnectAllFailed)), errors)]
  }

  /**
   * When a live entry's close throws and no answered close fails, the callback
   * runs at least twice and the last call reports success, after the failure
   * was already reported.
   */
  lemma DisconnectThrowCallsBackTwice(pre: map<string, Handle>, order: seq<string>, close: string -> CloseCall, k: string)
    requires IsOrdering(order, pre.Keys)
    requires IsLive(pre, k) && close(k).Throws?
    requires forall n :: n in pre ==> !close(n).Answers? || close(n).outcome.Closed?
    ensures var calls := DisconnectCallbacksAsWritten(pre, order, close);
            && |calls| >= 2
            && DisconnectFailure(k, close(k).cause) in (set i | 0 <= i < |calls| - 1 :: calls[i].err.value)
            && calls[|calls| - 1] == CallbackCall(None, [])
  {
    var calls := DisconnectCallbacksAsWritten(pre, order, close);
    var early := Collect(order, ThrownCloseError(pre, close));
    CollectMember(order, ThrownCloseError(pre, close), DisconnectFailure(k, close(k).cause));
    CollectEmpty(order, AnsweredCloseError(pre, close));
    var i :| 0 <= i < |early| && early[i] == DisconnectFailure(k, close(k).cause);
    assert calls[i].err.value == DisconnectFailure(k, close(k).cause);
  }

  /** The smallest case: one live connection whose close throws. */
  lemma DisconnectThrowExample()
    ensures DisconnectCallbacksAsWritten(map["a" := Handle(1, 1)], ["a"], (k: string) => Throws("boom"))
         == [CallbackCall(Some(DisconnectFailure("a", "boom")), []), CallbackCall(None, [])]
  {
    var pre := map["a" := Handle(1, 1)];
    var close := (k: string) => Throws("boom");
    assert ["a"][..0] == [];
    assert IsLive(pre, "a");
    assert ThrownCloseError(pre, close)("a") == Some(DisconnectFailure("a", "boom"));
    assert AnsweredCloseError(pre, close)("a") == None;
    assert Collect(["a"], ThrownCloseError(pre, close)) == [DisconnectFailure("a", "boom")];
    assert Collect(["a"], AnsweredCloseError(pre, close)) == [];
  }

  /**
   * When an answered close fails, the error argument of the last call is a
   * bare string: a caller that reads only the error argument, as the manager
   * does, sees none of the per-connection failures, while the aggregate the
   * class's disconnect reports lists each of them.
   */
  lemma DisconnectStringDropsCauses(pre: map<string, Handle>, order: seq<string>, close: string -> CloseCall, k: string, cause: string)
    requires IsOrdering(order, pre.Keys)
    requires IsLive(pre, k) && close(k) == Answers(CloseFailed(cause))
    ensures var calls := DisconnectCallbacksAsWritten(pre, order, close);
            && calls[|calls| - 1].err == Some(StringError(DisconnectAllFailed))
            && DisconnectFailure(k, cause) !in Spliced(calls[|calls| - 1].err.value)
    ensures var agg := Aggregate(DisconnectAllFailed, Collect(order, DisconnectError(pre, close)));
            agg.Some? && agg.value.details.Causes? && DisconnectFailure(k, cause) in agg.value.details.list
  {
    CollectMember(order, AnsweredCloseError(pre, close), DisconnectFailure(k, cause));
    CollectMember(order, DisconnectError(pre, close), DisconnectFailure(k, cause));
  }

  // ---------------------------------------------------------------------------
  // addConectionParams as written

  /**
   * addConectionParams' checks with the existence test as JavaScript's `in`
   * evaluates it on the plain object that holds the table.
   */
  function AddParamsCheckAsWritten(table: map<string, Params>, name: Name, params: ParamsArg): (err: Option<Error>)
    ensures ValidName(name) && JsIn(name.s, table) ==> err == Some(MongoAdapterError(ParamsExist(name.s), NoDetails))
    ensures err.None? ==> AddParamsCheck(table, name, params).None?
  {
    if !ValidName(name) then Some(InvalidNameError(AddParamsName))
    else if JsIn(name.s, table) then Some(MongoAdapterError(ParamsExist(name.s), NoDetails))
    else if params.NotAnObject? then Some(MongoAdapterError(InvalidParams(name.s), NoDetails))
    else None
  }

  /**
   * On an empty table the name "constructor" is refused as already present,
   * though no parameters were ever stored under it; the intended check accepts it.
   */
  lemma PrototypeNameRefused(p: Params)
    ensures AddParamsCheckAsWritten(map[], Str("constructor"), ParamsObject(p))
         == Some(MongoAdapterError(ParamsExist("constructor"), NoDetails))
    ensures AddParamsCheck(map[], Str("constructor"), ParamsObject(p)) == None
  {
  }
}
