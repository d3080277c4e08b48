/**
 * A single Mongo connection record (lib/dbAdapters/mongoConnection.js): a
 * name, a URI normalised so that every comma-separated host entry carries the
 * `mongodb://` scheme, and the driver handle with idempotent connect and
 * disconnect guards keyed on the handle's readyState.
 */
module Connection {
  import opened Common
  import opened Decimal

  // ---------------------------------------------------------------------------
  // String.prototype.split(',') and Array.prototype.join(',')

  /** `s.split(',')`: the pieces between commas, in order; never empty. */
  function Split(s: string): (segs: seq<string>)
    ensures |segs| > 0
    ensures forall seg :: seg in segs ==> ',' !in seg
    decreases |s|
  {
    if s == [] then [""]
    else
      var rest := Split(s[1..]);
      if s[0] == ',' then [""] + rest
      else [[s[0]] + rest[0]] + rest[1..]
  }

  /** `segs.join(',')`. */
  function Join(segs: seq<string>): string
    requires |segs| > 0
  {
    if |segs| == 1 then segs[0] else segs[0] + "," + Join(segs[1..])
  }

  /** Joining the pieces of a split gives the string back. */
  lemma {:induction false} JoinSplit(s: string)
    ensures Join(Split(s)) == s
    decreases |s|
  {
    if s != [] {
      JoinSplit(s[1..]);
      var rest := Split(s[1..]);
      if s[0] != ',' && |rest| > 1 {
        assert Join(rest) == rest[0] + "," + Join(rest[1..]);
        assert [s[0]] + rest[0] + "," + Join(rest[1..]) == [s[0]] + Join(rest);
      }
      assert [s[0]] + s[1..] == s;
    }
  }

  /** A piece without commas splits into itself. */
  lemma {:induction false} SplitSingle(a: string)
    requires ',' !in a
    ensures Split(a) == [a]
  {
    if a != [] {
      assert ',' !in a[1..];
      SplitSingle(a[1..]);
      assert [a[0]] + a[1..] == a;
    }
  }

  /** A comma after a comma-free piece ends that piece. */
  lemma {:induction false} SplitAfterPiece(a: string, t: string)
    requires ',' !in a
    ensures Split(a + "," + t) == [a] + Split(t)
    decreases |a|
  {
    if a == [] {
      assert a + "," + t == [','] + t;
      assert (a + "," + t)[1..] == t;
    } else {
      assert ',' !in a[1..];
      SplitAfterPiece(a[1..], t);
      assert (a + "," + t)[1..] == a[1..] + "," + t;
      assert [a[0]] + a[1..] == a;
    }
  }

  /** Splitting a join of comma-free pieces gives the pieces back. */
  lemma {:induction false} SplitJoin(segs: seq<string>)
    requires |segs| > 0
    requires forall seg :: seg in segs ==> ',' !in seg
    ensures Split(Join(segs)) == segs
  {
    if |segs| == 1 {
      SplitSingle(segs[0]);
    } else {
      assert forall seg :: seg in segs[1..] ==> seg in segs;
      SplitJoin(segs[1..]);
      SplitAfterPiece(segs[0], Join(segs[1..]));
      assert [segs[0]] + segs[1..] == segs;
    }
  }

  // ---------------------------------------------------------------------------
  // setUri's normalisation

  const Scheme: string := "mongodb://"

  /** `suburi.substr(0, 10) === 'mongodb://'`; a shorter piece never matches. */
  predicate HasScheme(seg: string)
  {
    |seg| >= |Scheme| && seg[..|Scheme|] == Scheme
  }

  /** One piece as the `map` callback of setUri returns it. */
  function FixSegment(seg: string): string
  {
    if HasScheme(seg) then seg else Scheme + seg
  }

  function FixAll(segs: seq<string>): seq<string>
  {
    seq(|segs|, i requires 0 <= i < |segs| => FixSegment(segs[i]))
  }

  /** The URI setUri stores: split on ',', prefix each piece lacking the scheme, join. */
  function NormalizeUri(uri: string): string
  {
    Join(FixAll(Split(uri)))
  }

  lemma FixSegmentHasScheme(seg: string)
    ensures HasScheme(FixSegment(seg))
    ensures ',' in FixSegment(seg) <==> ',' in seg
  {
    if !HasScheme(seg) {
      assert (Scheme + seg)[..|Scheme|] == Scheme;
      assert forall i :: 0 <= i < |Scheme| ==> Scheme[i] != ',';
      assert forall i :: 0 <= i < |seg| ==> (Scheme + seg)[|Scheme| + i] == seg[i];
    }
  }

  /**
   * The pieces of the normalised URI are the pieces of the input, in the same
   * number and order: a piece that begins with the scheme is kept, any other
   * piece (empty or short ones included) gets exactly the scheme in front.
   */
  lemma NormalizedPieces(uri: string)
    ensures Split(NormalizeUri(uri)) == FixAll(Split(uri))
    ensures |Split(NormalizeUri(uri))| == |Split(uri)|
    ensures forall i :: 0 <= i < |Split(uri)| ==>
              Split(NormalizeUri(uri))[i]
                == if HasScheme(Split(uri)[i]) then Split(uri)[i] else Scheme + Split(uri)[i]
  {
    var segs := Split(uri);
    var fixed := FixAll(segs);
    forall seg | seg in fixed
      ensures ',' !in seg
    {
      var i :| 0 <= i < |fixed| && fixed[i] == seg;
      FixSegmentHasScheme(segs[i]);
    }
    SplitJoin(fixed);
  }

  /** After normalisation every comma-separated piece starts with `mongodb://`. */
  lemma EveryPieceHasScheme(uri: string)
    ensures forall seg :: seg in Split(NormalizeUri(uri)) ==> HasScheme(seg)
  {
    NormalizedPieces(uri);
    var segs := Split(uri);
    forall seg | seg in FixAll(segs)
      ensures HasScheme(seg)
    {
      var i :| 0 <= i < |segs| && FixAll(segs)[i] == seg;
      FixSegmentHasScheme(segs[i]);
    }
  }

  /** Normalising an already normalised URI changes nothing. */
  lemma NormalizeIdempotent(uri: string)
    ensures NormalizeUri(NormalizeUri(uri)) == NormalizeUri(uri)
  {
    NormalizedPieces(uri);
    var fixed := FixAll(Split(uri));
    forall i | 0 <= i < |fixed|
      ensures FixSegment(fixed[i]) == fixed[i]
    {
      FixSegmentHasScheme(Split(uri)[i]);
    }
    assert FixAll(fixed) == fixed;
    JoinSplit(NormalizeUri(uri));
  }

  // ---------------------------------------------------------------------------
  // The connection record

  const NamePrefix: string := "mongoConnection"

  class MongoConnection {
    var name: Name
    var uri: Option<string>
    var connection: Option<Handle>

    /** A stored URI is always one setUri produced: normalising it again changes nothing. */
    ghost predicate Valid()
      reads this
    {
      uri.Some? ==> NormalizeUri(uri.value) == uri.value
    }

    /**
     * Bumps the module counter and takes `'mongoConnection' + count` as the
     * name; no URI and no handle yet.
     */
    constructor(counter: Counter)
      modifies counter
      ensures counter.count == old(counter.count) + 1
      ensures name == Str(AutoName(NamePrefix, counter.count))
      ensures uri == None && connection == None
      ensures Valid()
    {
      counter.count := counter.count + 1;
      name := Str(AutoName(NamePrefix, counter.count));
      uri := None;
      connection := None;
    }

    /** Stores any value as the name; nothing is validated. */
    method SetName(n: Name)
      requires Valid()
      modifies this
      ensures Valid()
      ensures GetName() == n
      ensures uri == old(uri) && connection == old(connection)
    {
      name := n;
    }

    function GetName(): Name
      reads this
    {
      name
    }

    method SetUri(u: string)
      requires Valid()
      modifies this
      ensures Valid()
      ensures GetUri() == Some(NormalizeUri(u))
      ensures name == old(name) && connection == old(connection)
    {
      NormalizeIdempotent(u);
      uri := Some(NormalizeUri(u));
    }

    /** The stored URI, or null; every comma-separated piece of it carries the scheme. */
    function GetUri(): (r: Option<string>)
      requires Valid()
      reads this
      ensures r == uri
      ensures r.Some? ==> forall seg :: seg in Split(r.value) ==> HasScheme(seg)
    {
      if uri.Some? then EveryPieceHasScheme(uri.value); uri else uri
    }

    /** The driver handle, or null; a live one exactly when the record is connected. */
    function GetConnection(): (r: Option<Handle>)
      reads this
      ensures r == connection
      ensures (r.Some? && Live(r.value)) <==> IsConnected()
    {
      connection
    }

    /** A handle is held and its readyState is 1 (connected) or 2 (connecting). */
    predicate IsConnected()
      reads this
      ensures IsConnected() ==> connection.Some?
      ensures IsConnected() <==> connection.Some? && connection.value.readyState in {1, 2}
      ensures connection.Some? && connection.value.readyState in {0, 3} ==> !IsConnected()
    {
      connection.Some? && Live(connection.value)
    }

    /**
     * A connected record answers with its handle and ignores the driver;
     * otherwise the handle the driver creates is stored at once (it stays
     * even when the driver then reports an error), unless creating it threw.
     */
    method Connect(outcome: OpenOutcome) returns (r: Result<Handle>)
      requires Valid()
      modifies this
      ensures Valid()
      ensures name == old(name) && uri == old(uri)
      ensures old(IsConnected()) ==> r == Ok(old(connection).value) && connection == old(connection)
      ensures !old(IsConnected()) ==>
        match outcome
        case Opened(h) => r == Ok(h) && connection == Some(h)
        case OpenError(h, cause) => r == Err(DriverError(cause)) && connection == Some(h)
        case OpenThrew(cause) => r == Err(DriverError(cause)) && connection == old(connection)
      ensures r.Ok? && Live(r.value) ==> IsConnected()
    {
      if IsConnected() {
        r := Ok(connection.value);
        return;
      }
      match outcome
      case Opened(h) =>
        connection := Some(h);
        r := Ok(h);
      case OpenError(h, cause) =>
        connection := Some(h);
        r := Err(DriverError(cause));
      case OpenThrew(cause) =>
        r := Err(DriverError(cause));
    }

    /**
     * A record that is not connected drops its handle and succeeds without the
     * driver; otherwise the handle is closed, and dropped only if that worked.
     */
    method Disconnect(outcome: CloseOutcome) returns (err: Option<Error>)
      requires Valid()
      modifies this
      ensures Valid()
      ensures name == old(name) && uri == old(uri)
      ensures !old(IsConnected()) ==> err == None && connection == None
      ensures old(IsConnected()) ==>
        match outcome
        case Closed => err == None && connection == None
        case CloseFailed(cause) => err == Some(DriverError(cause)) && connection == old(connection)
      ensures err.None? <==> !IsConnected()
    {
      if !IsConnected() {
        connection := None;
        err := None;
        return;
      }
      match outcome
      case Closed =>
        connection := None;
        err := None;
      case CloseFailed(cause) =>
        err := Some(DriverError(cause));
    }
  }
}
