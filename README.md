# Obstacle editor and path-update state of a UAV path-planning front end

This project models, in Dafny, the two stateful parts of the web front end of a
UAV path planner:

- the scene editor (`useObstacles`): a 600 × 600 field holding circular
  obstacles, a start and an end point, a single selected obstacle and two
  "setting start" / "setting end" flags, with the click, resize, select,
  delete, clear and reset handlers;
- the socket context's path state (`WebSocketContext`): the `isConnected` flag
  and the last received path snapshot, with the bodies of the `connect`,
  `disconnect`, `connect_error`, `error`, `path_update` and
  `optimization_error` handlers.

Files:

- `options.dfy` (module `Options`): an `Option` datatype standing for
  `null`/`undefined`.
- `geometry.dfy` (module `Geometry`): the constants, the three predicates
  (overlap with a margin of 10, nearness to the start or end with a safe
  distance of 30, out of bounds), their properties (overlap is monotone in the
  radius and symmetric; the squared-distance form agrees with the source's
  square-rooted comparison), and `SearchRadius`, the radius-relaxation loop of
  a placement click.
- `obstacles.dfy` (module `ObstacleEditing`): the list operations the handlers
  use (`find`, `filter`, `map` by id), the list invariant `WellFormed` (unique
  ids, every two obstacles at centre distance ≥ r1 + r2 + 10, every radius in
  20..100 and every circle inside the field), lemmas that placement, resize and
  delete keep it, and the class `ObstacleEditor` with one method per handler.
- `path_channel.dfy` (module `PathChannel`): the snapshot datatypes, the pure
  function `ReceivePathUpdate` that a `path_update` applies, lemmas about it,
  and the class `PathChannelState` with one method per socket handler.

Coordinates and numbers are reals.  Every distance comparison `dist < t` of
the source is written as `t > 0 && dist² < t²`, which is exactly equivalent for
a non-negative distance (`Geometry.CloseMatchesDistance`,
`Geometry.NearMatchesDistance`), so no square root is needed.

Behaviour that one might expect but that the code does not have, and which
the model therefore does not claim:

- One might expect a path update with a lower iteration than the stored one
  to be discarded, and some way to clear the stored path.  The code has
  neither: any payload with a truthy `path` replaces the snapshot, whatever
  its iteration, and nothing clears it.  `StaleUpdateOverwrites` and
  `StaleUpdateExample` state this.
- One might expect "setting start" and "setting end" to be exclusive modes.
  They are two independent flags, and the "Set Start" / "Set End" buttons
  each set one flag without clearing the other, so both can be on; a click
  then moves the start only.
- One might expect a stage click on an existing obstacle to select it.
  Outside the two setting modes, a stage click whose target is a shape
  simply returns, and selection is a separate handler.  In a setting mode the
  anchor test comes first, so a click on a shape moves the start or end
  anchor like any other click.  (The grid component, src/components/Grid.jsx
  lines 33-37, passes only clicks on the bare stage to the handler; the model
  keeps the handler's own behaviour for any click it is given.)
- One might expect every obstacle to stay clear of the start and end points.
  That clearance is checked only when placing or resizing: moving the start or
  end never looks at the obstacles, so it is not an invariant.

## Model

| member | source | states |
|---|---|---|
| Geometry.CloseMatchesDistance | src/hooks/useObstacles.js:18-25 | the squared test `Close` holds exactly when the centre distance is below r + R + 10, as the square-rooted comparison says |
| Geometry.NearMatchesDistance | src/hooks/useObstacles.js:27-41 | the squared test `NearPoint` holds exactly when the distance to the anchor is below 30 + r |
| Geometry.CloseSymmetric | src/hooks/useObstacles.js:18-25 | the overlap test between two circles gives the same answer from either side |
| Geometry.CloseMonotone | src/hooks/useObstacles.js:18-25 | a circle too close to an obstacle at radius r is too close at every radius r' ≥ r |
| Geometry.OverlappingMonotone | src/hooks/useObstacles.js:18-25 | overlap with a list is monotone in the radius |
| Geometry.ApartDistance | src/hooks/useObstacles.js:18-25 | two non-overlapping obstacles have centre distance ≥ r1 + r2 + 10 |
| Geometry.InBoundsInsideField | src/hooks/useObstacles.js:43-50 | a circle that is not out of bounds lies, rim and centre, inside [0,600] on both axes |
| Geometry.SearchRadius | src/hooks/useObstacles.js:85-102 | the five-attempt radius-relaxation loop yields a radius exactly when the point does not overlap at radius 20, and that radius is always 20 |
| ObstacleEditing.IndexOfId | src/hooks/useObstacles.js:119-122 | `find` by id: absent exactly when no obstacle has the id, otherwise the first obstacle with it |
| ObstacleEditing.Without | src/hooks/useObstacles.js:136-138 | `filter` by id keeps exactly the obstacles whose id differs |
| ObstacleEditing.WithoutUnique | src/hooks/useObstacles.js:172-174 | filtering keeps the ids unique |
| ObstacleEditing.WithoutAbsent | src/hooks/useObstacles.js:136-138 | filtering an id nobody carries returns the list unchanged |
| ObstacleEditing.WithoutAt | src/hooks/useObstacles.js:170-176 | with unique ids, deleting the selected id removes exactly that one obstacle and keeps the order of the others |
| ObstacleEditing.SetRadiusAt | src/hooks/useObstacles.js:147-153 | with unique ids, the `map` changes the radius of the selected obstacle only; its id and position and all other obstacles and their order stay |
| ObstacleEditing.SeparatedSublist | src/hooks/useObstacles.js:170-176 | a duplicate-free selection of obstacles from a non-overlapping list does not overlap |
| ObstacleEditing.WithoutKeepsWellFormed | src/hooks/useObstacles.js:170-176 | deleting by id keeps unique ids, no overlap and containment in the field |
| ObstacleEditing.PlaceKeepsWellFormed | src/hooks/useObstacles.js:75-97 | appending an in-field, non-overlapping obstacle with a fresh id keeps the invariant |
| ObstacleEditing.OverlappingOthers | src/hooks/useObstacles.js:136-146 | with unique ids, the overlap test against the list filtered by the selected id is the test against every obstacle except the selected one itself |
| ObstacleEditing.ResizeKeepsWellFormed | src/hooks/useObstacles.js:124-153 | a resize within 20..100 that stays in bounds and comes too close to no other obstacle keeps the invariant |
| ObstacleEditing.WellFormedGeometry | src/hooks/useObstacles.js:18-25 | under the invariant every two distinct obstacles are at centre distance ≥ r1 + r2 + 10 |
| ObstacleEditing.WellFormedInside | src/hooks/useObstacles.js:43-50 | under the invariant every obstacle, even a lone one, has a radius in 20..100 and its circle lies inside [0,600] on both axes |
| ObstacleEditing.ObstacleEditor.constructor | src/hooks/useObstacles.js:11-16 | initial state: no obstacles, no selection, start (50,300), end (550,300), both flags off |
| ObstacleEditing.ObstacleEditor.HandleStageClick | src/hooks/useObstacles.js:52-103 | no position: nothing changes; setting start: start moves and that flag clears, end, its flag and the list stay (start wins when both flags are on); setting end: likewise for end; otherwise appends one obstacle of radius 20 at the click exactly when it is on the bare stage, in bounds, clear of both anchors and overlapping nothing; the selection never changes; the invariant is kept |
| ObstacleEditing.ObstacleEditor.HandleRadiusChange | src/hooks/useObstacles.js:114-163 | no-op without a truthy selection, when no obstacle has the selected id, or when the resized circle is out of bounds, near an anchor or overlaps another obstacle; otherwise only that obstacle's radius changes; the invariant is kept |
| ObstacleEditing.ObstacleEditor.HandleObstacleClick | src/hooks/useObstacles.js:165-168 | the selection becomes the clicked id, unconditionally |
| ObstacleEditing.ObstacleEditor.HandleDeleteObstacle | src/hooks/useObstacles.js:170-177 | with a truthy selection, removes exactly the obstacles with that id and clears the selection; otherwise nothing changes |
| ObstacleEditing.ObstacleEditor.ClearObstacles | src/hooks/useObstacles.js:179-182 | empties the list and the selection |
| ObstacleEditing.ObstacleEditor.ResetPositions | src/hooks/useObstacles.js:184-187 | start back to (50,300) and end to (550,300), nothing else |
| ObstacleEditing.ObstacleEditor.SetIsSettingStart | src/hooks/useObstacles.js:15 | sets the start flag only, leaving the end flag as it is |
| ObstacleEditing.ObstacleEditor.SetIsSettingEnd | src/hooks/useObstacles.js:16 | sets the end flag only, leaving the start flag as it is |
| PathChannel.RejectedUpdateKeepsSnapshot | src/contexts/WebSocketContext.jsx:57-67 | an update with no payload or a missing/falsy path leaves the snapshot unchanged |
| PathChannel.AcceptedUpdateStoresPayload | src/contexts/WebSocketContext.jsx:59-65 | an accepted update stores its path, and its iteration, cost and length with missing or falsy ones as 0 |
| PathChannel.EmptyPathAccepted | src/contexts/WebSocketContext.jsx:59 | an empty path list is truthy and is accepted |
| PathChannel.AcceptedUpdateIgnoresCurrent | src/contexts/WebSocketContext.jsx:59-66 | the result of an accepted update does not depend on the stored snapshot: there is no iteration comparison |
| PathChannel.StaleUpdateOverwrites | src/contexts/WebSocketContext.jsx:59-66 | an update with a lower iteration than the stored one still replaces it, so the stored iteration can decrease |
| PathChannel.StaleUpdateExample | src/contexts/WebSocketContext.jsx:59-66 | iteration 5 with path [(0,0)] followed by iteration 3 with path [(9,9)] leaves iteration 3 and path [(9,9)] |
| PathChannel.ReceiveIdempotent | src/contexts/WebSocketContext.jsx:57-67 | receiving the same update twice equals receiving it once |
| PathChannel.PathChannelState.constructor | src/contexts/WebSocketContext.jsx:18-24 | initially disconnected, with an empty path and iteration, cost and length 0 |
| PathChannel.PathChannelState.OnConnect | src/contexts/WebSocketContext.jsx:37-40 | sets `isConnected`; `pathData` is outside its frame |
| PathChannel.PathChannelState.OnDisconnect | src/contexts/WebSocketContext.jsx:42-45 | clears `isConnected`; `pathData` is outside its frame |
| PathChannel.PathChannelState.OnConnectError | src/contexts/WebSocketContext.jsx:47-50 | clears `isConnected`; `pathData` is outside its frame |
| PathChannel.PathChannelState.OnError | src/contexts/WebSocketContext.jsx:52-55 | clears `isConnected`; `pathData` is outside its frame |
| PathChannel.PathChannelState.OnPathUpdate | src/contexts/WebSocketContext.jsx:57-67 | the new snapshot is `ReceivePathUpdate` of the old one and the payload; `isConnected` is outside its frame |
| PathChannel.PathChannelState.OnOptimizationError | src/contexts/WebSocketContext.jsx:69-71 | changes neither `isConnected` nor `pathData` |

## Left out

- Socket construction and its options, the cleanup on unmount, and every HTTP request of the page: network I/O.
- The page's reset handler: it calls `stopOptimization` and `clearPathData`, which the socket context does not provide; no reset of the path snapshot exists in the modelled code.
- The Python backend (server, threads, the optimiser): foreign code, concurrency and floating point.
- Rendering of the grid and of the controls, including hover colours and number formatting.
- Floating point: `Math.sqrt` and JavaScript numbers are modelled by exact reals and squared distances; NaN and rounding are not modelled.
- React's batching of state updates and stale closures: each handler is modelled as running to completion on the current state.
- ObstacleEditing.ObstacleEditor.HandleStageClick: the random id the source draws is a parameter required to be fresh; the source's random id does not guarantee uniqueness.
- ObstacleEditing.ObstacleEditor.HandleRadiusChange: the new radius is required to lie in 20..100, the range of the slider that is its only caller; the hook itself does not clamp, and the `Number(...)` conversion of the slider value is not modelled.
- PathChannel.PathChannelState.OnPathUpdate: a payload field that is truthy but of another type (a path that is a non-empty string, an iteration given as a string) is not modelled; paths are lists of points and numbers are reals.
- PathChannel.PathChannelState.OnOptimizationError: the handler reads `data.message` and so throws when the event carries no payload; in both cases the state is unchanged, and the logging is not modelled.
- Console logging of rejected placements and resizes.
- Event propagation: the obstacle click handler sets `cancelBubble` so that the click does not also reach the stage handler; the model does not model propagation and covers it only through the `onShape` flag of a stage click, which makes such a click a no-op for placement.
