/**
 * lib/database/mongoose.ts: the process-wide `{conn, promise}` record that makes
 * every server action share one database connection.
 */
module Mongoose {
  import opened Js

  /** What `mongoose.connect` resolves to. */
  datatype Handle = Handle(id: nat)

  /** How a `mongoose.connect` call settles: resolved with a handle or rejected. */
  datatype Settlement = Resolves(handle: Handle) | Rejects(error: Thrown)

  /** The arguments of one `mongoose.connect` call. */
  datatype ConnectCall = ConnectCall(url: string, dbName: string, bufferCommands: bool)

  const DatabaseName := "pixelmind"

  const MissingUrlError := ErrorObject("Invalid/Missing environment variable: \"MONGODB_URL\"")

  /** `MONGODB_URL` as read from the environment; the empty string is falsy. */
  predicate UrlSet(url: Option<string>) {
    url.Some? && url.value != ""
  }

  /** The cache record, with the number of `mongoose.connect` calls made so far. */
  datatype CacheState = CacheState(conn: Option<Handle>, promise: Option<Settlement>, connectCalls: nat)

  /** The record as the module creates it. */
  const EmptyCache := CacheState(None, None, 0)

  /** The states reachable from the empty record: connect was called once if and
      only if a promise is cached, and `conn` holds what that promise resolved to. */
  predicate Consistent(s: CacheState) {
    && s.connectCalls <= 1
    && (s.connectCalls == 1 <==> s.promise.Some?)
    && (s.conn.Some? ==> s.promise == Some(Resolves(s.conn.value)))
    && (s.promise.Some? && s.promise.value.Resolves? ==> s.conn == Some(s.promise.value.handle))
  }

  /** One `connectToDatabase()` call, with `settlement` the outcome `mongoose.connect`
      would have if it were called now. */
  function Connect(s: CacheState, url: Option<string>, settlement: Settlement): (r: (Completion<Handle>, CacheState))
    ensures s.conn.Some? ==> r == (Returned(s.conn.value), s)
    ensures s.conn.None? && !UrlSet(url) ==> r == (Threw(MissingUrlError), s)
    ensures r.1.connectCalls == s.connectCalls + (if s.conn.None? && UrlSet(url) && s.promise.None? then 1 else 0)
    ensures s.conn.None? && UrlSet(url) ==>
      r.1.promise == Some(if s.promise.Some? then s.promise.value else settlement)
      && (r.0.Returned? <==> r.1.promise.value.Resolves?)
      && (r.0.Returned? ==> r.1.conn == Some(r.0.value) && r.0.value == r.1.promise.value.handle)
      && (r.0.Threw? ==> r.1.conn == s.conn && r.0.thrown == r.1.promise.value.error)
  {
    if s.conn.Some? then (Returned(s.conn.value), s)
    else if !UrlSet(url) then (Threw(MissingUrlError), s)
    else
      var promise := if s.promise.Some? then s.promise.value else settlement;
      var calls := if s.promise.Some? then s.connectCalls else s.connectCalls + 1;
      match promise
      case Resolves(h) => (Returned(h), CacheState(Some(h), Some(promise), calls))
      case Rejects(e) => (Threw(e), CacheState(s.conn, Some(promise), calls))
  }

  /** The state after a sequence of calls. */
  function After(s: CacheState, url: Option<string>, settlements: seq<Settlement>): CacheState
    decreases |settlements|
  {
    if settlements == [] then s else After(Connect(s, url, settlements[0]).1, url, settlements[1..])
  }

  /** The results of a sequence of calls, in order: each call sees the record
      the calls before it left. */
  function Results(s: CacheState, url: Option<string>, settlements: seq<Settlement>): (rs: seq<Completion<Handle>>)
    ensures |rs| == |settlements|
    ensures forall i :: 0 <= i < |settlements| ==>
      rs[i] == Connect(After(s, url, settlements[..i]), url, settlements[i]).0
    decreases |settlements|
  {
    if settlements == [] then []
    else
      var step := Connect(s, url, settlements[0]);
      var rest := Results(step.1, url, settlements[1..]);
      assert forall i :: 1 <= i < |settlements| ==>
        After(s, url, settlements[..i]) == After(step.1, url, settlements[1..][..i - 1]) by {
        forall i | 1 <= i < |settlements|
          ensures After(s, url, settlements[..i]) == After(step.1, url, settlements[1..][..i - 1])
        {
          assert settlements[..i][0] == settlements[0];
          assert settlements[..i][1..] == settlements[1..][..i - 1];
        }
      }
      assert After(s, url, settlements[..0]) == s by {
        assert settlements[..0] == [];
      }
      [step.0] + rest
  }

  /** A call keeps the record consistent. */
  lemma ConnectConsistent(s: CacheState, url: Option<string>, settlement: Settlement)
    requires Consistent(s)
    ensures Consistent(Connect(s, url, settlement).1)
    ensures Connect(s, url, settlement).1.connectCalls >= s.connectCalls
  {
  }

  /** Starting from the empty record, `mongoose.connect` is called at most once
      over any sequence of calls, and never without a URL. */
  lemma {:induction false} ConnectAtMostOnce(s: CacheState, url: Option<string>, settlements: seq<Settlement>)
    requires Consistent(s)
    ensures Consistent(After(s, url, settlements))
    ensures After(s, url, settlements).connectCalls <= 1
    ensures !UrlSet(url) ==> After(s, url, settlements) == s
    decreases |settlements|
  {
    if settlements != [] {
      ConnectConsistent(s, url, settlements[0]);
      ConnectAtMostOnce(Connect(s, url, settlements[0]).1, url, settlements[1..]);
    }
  }

  /** Once a handle is cached every later call returns that same handle. */
  lemma {:induction false} ConnectedStaysConnected(s: CacheState, url: Option<string>, settlements: seq<Settlement>)
    requires s.conn.Some?
    ensures After(s, url, settlements) == s
    ensures forall i :: 0 <= i < |settlements| ==> Results(s, url, settlements)[i] == Returned(s.conn.value)
    decreases |settlements|
  {
    if settlements != [] {
      ConnectedStaysConnected(s, url, settlements[1..]);
    }
  }

  /** A rejected promise stays cached: every later call fails with the same error
      and no new connection is attempted. */
  lemma {:induction false} FailureIsSticky(s: CacheState, url: Option<string>, settlements: seq<Settlement>)
    requires Consistent(s) && UrlSet(url)
    requires s.promise.Some? && s.promise.value.Rejects?
    ensures After(s, url, settlements) == s
    ensures forall i :: 0 <= i < |settlements| ==> Results(s, url, settlements)[i] == Threw(s.promise.value.error)
    decreases |settlements|
  {
    if settlements != [] {
      FailureIsSticky(s, url, settlements[1..]);
    }
  }

  /** The cached `{conn, promise}` record. */
  class ConnectionCache {
    var conn: Option<Handle>
    var promise: Option<Settlement>
    /** The `mongoose.connect` calls made through this record, in order. */
    var connectCalls: seq<ConnectCall>

    function State(): CacheState
      reads this
    {
      CacheState(conn, promise, |connectCalls|)
    }

    ghost predicate Valid()
      reads this
    {
      Consistent(State())
    }

    /** `{ conn: null, promise: null }`. */
    constructor ()
      ensures Valid() && State() == EmptyCache && connectCalls == []
    {
      conn := None;
      promise := None;
      connectCalls := [];
    }

    /** `connectToDatabase()`. */
    method ConnectToDatabase(url: Option<string>, settlement: Settlement) returns (r: Completion<Handle>)
      requires Valid()
      modifies this
      ensures Valid()
      ensures (r, State()) == Connect(old(State()), url, settlement)
      ensures connectCalls == old(connectCalls) +
        (if State().connectCalls > old(State()).connectCalls then [ConnectCall(url.value, DatabaseName, false)] else [])
    {
      if conn.Some? {
        return Returned(conn.value);
      }
      if !UrlSet(url) {
        return Threw(MissingUrlError);
      }
      if promise.None? {
        connectCalls := connectCalls + [ConnectCall(url.value, DatabaseName, false)];
        promise := Some(settlement);
      }
      match promise.value {
        case Resolves(h) =>
          conn := Some(h);
          r := Returned(h);
        case Rejects(e) =>
          r := Threw(e);
      }
    }
  }

  /** The `global` object the record is kept on across module reloads. */
  class Global {
    var mongoose: ConnectionCache?
    constructor ()
      ensures mongoose == null
    {
      mongoose := null;
    }
  }

  /** Loading the module: reuse the record on `global`, or create an empty one there. */
  method LoadModule(g: Global) returns (cached: ConnectionCache)
    modifies g
    ensures g.mongoose == cached
    ensures old(g.mongoose) != null ==> cached == old(g.mongoose)
    ensures old(g.mongoose) == null ==> fresh(cached) && cached.Valid() && cached.State() == EmptyCache
  {
    if g.mongoose == null {
      cached := new ConnectionCache();
      g.mongoose := cached;
    } else {
      cached := g.mongoose;
    }
  }
}
