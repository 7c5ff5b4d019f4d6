/** The path-update state held by the socket context (`WebSocketContext`):
    whether the socket is connected, and the last path snapshot received.

    Only the event handlers' bodies are modelled.  A `path_update` is accepted
    whenever its payload is present and its `path` is truthy; it then replaces
    the stored snapshot wholesale.  There is no comparison of iterations (a
    stale update overwrites a newer one) and no operation that clears the
    snapshot. */
module PathChannel {

  import opened Options

  datatype PathPoint = PathPoint(x: real, y: real)

  /** The stored snapshot (`pathData`). */
  datatype PathData = PathData(path: seq<PathPoint>, iteration: real, cost: real, length: real)

  /** A `path_update` payload.  Each field is `None` when it is missing or
      falsy (`undefined`, `null`, `false`, `0`, ...), `Some` otherwise; a path
      that is a list, even an empty one, is truthy. */
  datatype Payload = Payload(
    path: Option<seq<PathPoint>>,
    iteration: Option<real>,
    cost: Option<real>,
    length: Option<real>)

  const INITIAL_PATH_DATA: PathData := PathData([], 0.0, 0.0, 0.0)

  /** `value || 0` for a numeric field. */
  function OrZero(v: Option<real>): real
  {
    match v
    case Some(n) => n
    case None => 0.0
  }

  /** The stored snapshot after a `path_update` carrying `data` (absent when
      the event arrives without a payload). */
  function ReceivePathUpdate(current: PathData, data: Option<Payload>): PathData
  {
    if data.Some? && data.value.path.Some? then
      var p := data.value;
      PathData(p.path.value, OrZero(p.iteration), OrZero(p.cost), OrZero(p.length))
    else
      current
  }

  /** An update without a payload, or whose path is missing or falsy, leaves
      the snapshot unchanged. */
  lemma RejectedUpdateKeepsSnapshot(current: PathData, data: Option<Payload>)
    requires data.None? || data.value.path.None?
    ensures ReceivePathUpdate(current, data) == current
  {
  }

  /** An accepted update stores its path as given, and its numbers with
      missing or falsy ones read as 0. */
  lemma AcceptedUpdateStoresPayload(current: PathData, p: Payload)
    requires p.path.Some?
    ensures ReceivePathUpdate(current, Some(p)).path == p.path.value
    ensures ReceivePathUpdate(current, Some(p)).iteration == (if p.iteration.Some? then p.iteration.value else 0.0)
    ensures ReceivePathUpdate(current, Some(p)).cost == (if p.cost.Some? then p.cost.value else 0.0)
    ensures ReceivePathUpdate(current, Some(p)).length == (if p.length.Some? then p.length.value else 0.0)
  {
  }

  /** An empty path list is truthy and therefore accepted. */
  lemma EmptyPathAccepted(current: PathData, p: Payload)
    requires p.path == Some([])
    ensures ReceivePathUpdate(current, Some(p)).path == []
    ensures ReceivePathUpdate(current, Some(p)).iteration == OrZero(p.iteration)
  {
  }

  /** Acceptance does not look at the stored snapshot: an accepted update
      yields the same snapshot whatever was stored before, so in particular
      no iteration comparison takes place. */
  lemma AcceptedUpdateIgnoresCurrent(current1: PathData, current2: PathData, p: Payload)
    requires p.path.Some?
    ensures ReceivePathUpdate(current1, Some(p)) == ReceivePathUpdate(current2, Some(p))
  {
  }

  /** A stale update, with a lower iteration than the stored one, still
      overwrites it: the stored iteration goes down. */
  lemma StaleUpdateOverwrites(current: PathData, p: Payload)
    requires p.path.Some? && OrZero(p.iteration) < current.iteration
    ensures ReceivePathUpdate(current, Some(p)).iteration < current.iteration
    ensures ReceivePathUpdate(current, Some(p)).path == p.path.value
  {
  }

  /** The concrete case: iteration 5 with path [(0,0)] is stored, then an
      update at iteration 3 with path [(9,9)] replaces it. */
  lemma StaleUpdateExample()
    ensures
      var first := Payload(Some([PathPoint(0.0, 0.0)]), Some(5.0), None, None);
      var second := Payload(Some([PathPoint(9.0, 9.0)]), Some(3.0), None, None);
      var s := ReceivePathUpdate(ReceivePathUpdate(INITIAL_PATH_DATA, Some(first)), Some(second));
      s.iteration == 3.0 && s.path == [PathPoint(9.0, 9.0)]
  {
  }

  /** Receiving the same update twice is the same as receiving it once. */
  lemma ReceiveIdempotent(current: PathData, data: Option<Payload>)
    ensures ReceivePathUpdate(ReceivePathUpdate(current, data), data) == ReceivePathUpdate(current, data)
  {
  }

  /** The socket context's state and its event handlers.  The context exposes
      `isConnected` and `pathData` read-only; the handlers below are the only
      writers, and only `OnPathUpdate` writes `pathData`. */
  class PathChannelState {
    var isConnected: bool
    var pathData: PathData

    constructor ()
      ensures !isConnected && pathData == INITIAL_PATH_DATA
    {
      isConnected := false;
      pathData := INITIAL_PATH_DATA;
    }

    /** `connect`. */
    method OnConnect()
      modifies this`isConnected
      ensures isConnected
    {
      isConnected := true;
    }

    /** `disconnect`. */
    method OnDisconnect()
      modifies this`isConnected
      ensures !isConnected
    {
      isConnected := false;
    }

    /** `connect_error`. */
    method OnConnectError()
      modifies this`isConnected
      ensures !isConnected
    {
      isConnected := false;
    }

    /** `error`. */
    method OnError()
      modifies this`isConnected
      ensures !isConnected
    {
      isConnected := false;
    }

    /** `path_update`: store the payload's snapshot when it is present and its
        path is truthy, otherwise keep the stored one. */
    method OnPathUpdate(data: Option<Payload>)
      modifies this`pathData
      ensures pathData == ReceivePathUpdate(old(pathData), data)
    {
      if data.Some? && data.value.path.Some? {
        var p := data.value;
        pathData := PathData(p.path.value, OrZero(p.iteration), OrZero(p.cost), OrZero(p.length));
      }
    }

    /** `optimization_error`: the error message is only logged. */
    method OnOptimizationError(message: string)
      ensures unchanged(this)
    {
    }
  }
}
