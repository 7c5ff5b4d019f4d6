/** The scene-editing state of the obstacle editor (the `useObstacles` hook):
    the obstacle list, the single selection, the start and end anchors, and
    the two "setting start" / "setting end" flags, with the event handlers
    that update them.

    The list invariant kept by every handler (`WellFormed`): ids are unique,
    every two obstacles keep the margin between them, and every obstacle has a
    radius in [MIN_RADIUS, MAX_RADIUS] and lies inside the field. */
module ObstacleEditing {

  import opened Options
  import opened Geometry

  /** A click on the stage: the pointer position (absent when the stage
      reports none) and whether it landed on a drawn shape rather than on the
      bare stage. */
  datatype Click = Click(pos: Option<Point>, onShape: bool)

  /** JavaScript truthiness of the selection: `null` and the empty id are falsy. */
  predicate Truthy(sel: Option<Id>)
  {
    sel.Some? && sel.value != ""
  }

  predicate HasId(obs: seq<Obstacle>, id: Id)
  {
    exists i :: 0 <= i < |obs| && obs[i].id == id
  }

  predicate UniqueIds(obs: seq<Obstacle>)
  {
    forall i, j :: 0 <= i < j < |obs| ==> obs[i].id != obs[j].id
  }

  /** No two distinct obstacles of the list come within the margin. */
  predicate Separated(obs: seq<Obstacle>)
  {
    forall i, j :: 0 <= i < |obs| && 0 <= j < |obs| && i != j ==> Apart(obs[i], obs[j])
  }

  predicate InField(o: Obstacle)
  {
    MIN_RADIUS <= o.radius <= MAX_RADIUS && !OutOfBounds(o.x, o.y, o.radius)
  }

  predicate AllInField(obs: seq<Obstacle>)
  {
    forall i :: 0 <= i < |obs| ==> InField(obs[i])
  }

  predicate WellFormed(obs: seq<Obstacle>)
  {
    UniqueIds(obs) && Separated(obs) && AllInField(obs)
  }

  /** `obstacles.find(o => o.id === id)`, as the index of the first match. */
  function IndexOfId(obs: seq<Obstacle>, id: Id): (r: Option<nat>)
    ensures r.None? <==> !HasId(obs, id)
    ensures r.Some? ==> r.value < |obs| && obs[r.value].id == id
    ensures r.Some? ==> forall j :: 0 <= j < r.value ==> obs[j].id != id
  {
    if |obs| == 0 then None
    else if obs[0].id == id then Some(0)
    else
      var rest := IndexOfId(obs[1..], id);
      assert HasId(obs, id) ==> HasId(obs[1..], id) by {
        if HasId(obs, id) {
          var i :| 0 <= i < |obs| && obs[i].id == id;
          assert obs[1..][i - 1].id == id;
        }
      }
      if rest.None? then None else Some(rest.value + 1)
  }

  /** `obstacles.filter(o => o.id !== id)`. */
  function Without(obs: seq<Obstacle>, id: Id): (r: seq<Obstacle>)
    ensures forall o :: o in r <==> o in obs && o.id != id
    ensures |r| <= |obs|
  {
    if |obs| == 0 then []
    else if obs[0].id == id then Without(obs[1..], id)
    else [obs[0]] + Without(obs[1..], id)
  }

  /** The tail of a list with unique ids has unique ids. */
  lemma TailUnique(obs: seq<Obstacle>)
    requires UniqueIds(obs) && |obs| > 0
    ensures UniqueIds(obs[1..])
    ensures forall o :: o in obs[1..] ==> o.id != obs[0].id
  {
    forall i, j | 0 <= i < j < |obs[1..]| ensures obs[1..][i].id != obs[1..][j].id {
      assert obs[1..][i] == obs[i + 1] && obs[1..][j] == obs[j + 1];
    }
    forall o | o in obs[1..] ensures o.id != obs[0].id {
      var i :| 0 <= i < |obs[1..]| && obs[1..][i] == o;
      assert obs[i + 1] == o;
    }
  }

  /** Filtering keeps ids unique. */
  lemma {:induction false} WithoutUnique(obs: seq<Obstacle>, id: Id)
    requires UniqueIds(obs)
    ensures UniqueIds(Without(obs, id))
  {
    if |obs| > 0 {
      TailUnique(obs);
      WithoutUnique(obs[1..], id);
      var rest := Without(obs[1..], id);
      if obs[0].id != id {
        var r := [obs[0]] + rest;
        forall i, j | 0 <= i < j < |r| ensures r[i].id != r[j].id {
          if i == 0 {
            assert r[j] == rest[j - 1];
            assert rest[j - 1] in obs[1..];
          } else {
            assert r[i] == rest[i - 1] && r[j] == rest[j - 1];
          }
        }
      }
    }
  }

  /** Filtering out an id that no obstacle carries changes nothing. */
  lemma {:induction false} WithoutAbsent(obs: seq<Obstacle>, id: Id)
    requires !HasId(obs, id)
    ensures Without(obs, id) == obs
  {
    if |obs| > 0 {
      assert !HasId(obs[1..], id) by {
        forall i | 0 <= i < |obs[1..]| ensures obs[1..][i].id != id {
          assert obs[1..][i] == obs[i + 1];
        }
      }
      WithoutAbsent(obs[1..], id);
      assert obs[0].id != id;
      assert obs == [obs[0]] + obs[1..];
    }
  }

  /** `obstacles.map(o => o.id === id ? {...o, radius: r} : o)`. */
  function SetRadius(obs: seq<Obstacle>, id: Id, r: real): seq<Obstacle>
  {
    seq(|obs|, i requires 0 <= i < |obs| => if obs[i].id == id then obs[i].(radius := r) else obs[i])
  }

  /** With unique ids, filtering out the id of the obstacle at index `k`
      removes exactly that obstacle and keeps the order of the rest. */
  lemma {:induction false} WithoutAt(obs: seq<Obstacle>, k: nat)
    requires UniqueIds(obs) && k < |obs|
    ensures Without(obs, obs[k].id) == obs[..k] + obs[k + 1..]
  {
    var id := obs[k].id;
    TailUnique(obs);
    if k == 0 {
      assert !HasId(obs[1..], id) by {
        forall i | 0 <= i < |obs[1..]| ensures obs[1..][i].id != id {
          assert obs[1..][i] in obs[1..];
        }
      }
      WithoutAbsent(obs[1..], id);
      assert Without(obs, id) == Without(obs[1..], id);
    } else {
      var tail := obs[1..];
      assert tail[k - 1] == obs[k];
      WithoutAt(tail, k - 1);
      assert obs[0].id != id;
      assert Without(obs, id) == [obs[0]] + Without(tail, id);
      assert [obs[0]] + (tail[..k - 1] + tail[k..]) == obs[..k] + obs[k + 1..];
    }
  }

  /** With unique ids, setting the radius of the obstacle at index `k` by id
      changes that obstacle's radius only: its id and position, every other
      obstacle and the order stay. */
  lemma SetRadiusAt(obs: seq<Obstacle>, k: nat, r: real)
    requires UniqueIds(obs) && k < |obs|
    ensures SetRadius(obs, obs[k].id, r) == obs[k := obs[k].(radius := r)]
  {
    var s := SetRadius(obs, obs[k].id, r);
    forall i | 0 <= i < |obs| ensures s[i] == obs[k := obs[k].(radius := r)][i] {
      if i < k {
        assert obs[i].id != obs[k].id;
      } else if i > k {
        assert obs[k].id != obs[i].id;
      }
    }
  }

  /** A list with unique ids whose every element comes from a separated list
      is separated too. */
  lemma SeparatedSublist(obs: seq<Obstacle>, sub: seq<Obstacle>)
    requires Separated(obs) && UniqueIds(sub)
    requires forall o :: o in sub ==> o in obs
    ensures Separated(sub)
  {
    forall i, j | 0 <= i < |sub| && 0 <= j < |sub| && i != j ensures Apart(sub[i], sub[j]) {
      assert sub[i] in obs && sub[j] in obs;
      var a :| 0 <= a < |obs| && obs[a] == sub[i];
      var b :| 0 <= b < |obs| && obs[b] == sub[j];
      assert sub[i].id != sub[j].id by {
        if i < j { } else { }
      }
    }
  }

  /** Removing obstacles by id keeps the list invariant. */
  lemma WithoutKeepsWellFormed(obs: seq<Obstacle>, id: Id)
    requires WellFormed(obs)
    ensures WellFormed(Without(obs, id))
  {
    var r := Without(obs, id);
    WithoutUnique(obs, id);
    SeparatedSublist(obs, r);
    forall i | 0 <= i < |r| ensures InField(r[i]) {
      assert r[i] in obs;
    }
  }

  /** Appending an obstacle that is in the field, has a fresh id and overlaps
      nothing keeps the list invariant. */
  lemma PlaceKeepsWellFormed(obs: seq<Obstacle>, o: Obstacle)
    requires WellFormed(obs) && InField(o) && !HasId(obs, o.id)
    requires !Overlapping(o.x, o.y, o.radius, obs)
    ensures WellFormed(obs + [o])
  {
    var s := obs + [o];
    forall i, j | 0 <= i < |s| && 0 <= j < |s| && i != j ensures Apart(s[i], s[j]) {
      if j == |obs| {
        CloseSymmetric(s[i], o);
        assert !Close(o.x, o.y, o.radius, obs[i]);
      } else if i == |obs| {
        assert !Close(o.x, o.y, o.radius, obs[j]);
      } else {
        assert s[i] == obs[i] && s[j] == obs[j];
      }
    }
    forall i, j | 0 <= i < j < |s| ensures s[i].id != s[j].id {
      if j == |obs| {
        assert s[i] == obs[i];
      }
    }
  }

  /** With unique ids, the overlap test against the list filtered by the id
      of the obstacle at index `k` is the overlap test against every obstacle
      but that one: the obstacle itself is excluded, nothing else is. */
  lemma OverlappingOthers(obs: seq<Obstacle>, k: nat, x: real, y: real, r: real)
    requires UniqueIds(obs) && k < |obs|
    ensures Overlapping(x, y, r, Without(obs, obs[k].id))
        <==> exists j :: 0 <= j < |obs| && j != k && Close(x, y, r, obs[j])
  {
    var others := Without(obs, obs[k].id);
    if Overlapping(x, y, r, others) {
      var i :| 0 <= i < |others| && Close(x, y, r, others[i]);
      assert others[i] in obs;
      var j :| 0 <= j < |obs| && obs[j] == others[i];
      assert j != k;
    }
    if exists j :: 0 <= j < |obs| && j != k && Close(x, y, r, obs[j]) {
      var j :| 0 <= j < |obs| && j != k && Close(x, y, r, obs[j]);
      assert obs[j].id != obs[k].id by { if j < k { } else { } }
      assert obs[j] in others;
    }
  }

  /** Giving the obstacle at index `k` a radius within the slider's range that
      stays in bounds and comes too close to no other obstacle keeps the list
      invariant. */
  lemma ResizeKeepsWellFormed(obs: seq<Obstacle>, k: nat, r: real)
    requires WellFormed(obs) && k < |obs|
    requires MIN_RADIUS <= r <= MAX_RADIUS && !OutOfBounds(obs[k].x, obs[k].y, r)
    requires forall j :: 0 <= j < |obs| && j != k ==> !Close(obs[k].x, obs[k].y, r, obs[j])
    ensures WellFormed(obs[k := obs[k].(radius := r)])
  {
    var o := obs[k].(radius := r);
    var s := obs[k := o];
    forall i, j | 0 <= i < |s| && 0 <= j < |s| && i != j ensures Apart(s[i], s[j]) {
      if i == k {
        assert !Close(o.x, o.y, r, obs[j]);
      } else if j == k {
        assert !Close(o.x, o.y, r, obs[i]);
        CloseSymmetric(obs[i], o);
      } else {
        assert s[i] == obs[i] && s[j] == obs[j];
      }
    }
  }

  /** What the list invariant says about two obstacles in the hook's terms:
      two distinct obstacles have a centre distance `d` of at least
      `r1 + r2 + 10`. */
  lemma WellFormedGeometry(obs: seq<Obstacle>, i: nat, j: nat, d: real)
    requires WellFormed(obs) && i < |obs| && j < |obs| && i != j
    requires d >= 0.0 && Sq(d) == Dist2(obs[i].x, obs[i].y, obs[j].x, obs[j].y)
    ensures d >= obs[i].radius + obs[j].radius + MARGIN
  {
    ApartDistance(obs[i], obs[j], d);
  }

  /** What the list invariant says about each obstacle: its radius is in
      [MIN_RADIUS, MAX_RADIUS] and its circle lies inside [0, GRID_SIZE] on
      both axes. */
  lemma WellFormedInside(obs: seq<Obstacle>, i: nat)
    requires WellFormed(obs) && i < |obs|
    ensures MIN_RADIUS <= obs[i].radius <= MAX_RADIUS
    ensures 0.0 <= obs[i].x - obs[i].radius && obs[i].x + obs[i].radius <= GRID_SIZE
    ensures 0.0 <= obs[i].y - obs[i].radius && obs[i].y + obs[i].radius <= GRID_SIZE
  {
  }

  /** A placement click outside the start/end modes adds an obstacle exactly
      when it lands on the bare stage and a circle of MIN_RADIUS there is in
      bounds, clear of both anchors and overlaps nothing. */
  predicate CanPlace(p: Point, onShape: bool, obs: seq<Obstacle>, start: Point, end: Point)
  {
    !onShape && !OutOfBounds(p.x, p.y, MIN_RADIUS)
    && !NearStartOrEnd(p.x, p.y, MIN_RADIUS, start, end)
    && !Overlapping(p.x, p.y, MIN_RADIUS, obs)
  }

  /** A resize of `o` to radius `r` is accepted when the resized circle is in
      bounds, clear of both anchors and overlaps no obstacle other than
      itself. */
  predicate ResizeFits(o: Obstacle, r: real, obs: seq<Obstacle>, start: Point, end: Point)
  {
    !OutOfBounds(o.x, o.y, r) && !NearStartOrEnd(o.x, o.y, r, start, end)
    && !Overlapping(o.x, o.y, r, Without(obs, o.id))
  }

  class ObstacleEditor {
    var obstacles: seq<Obstacle>
    var selectedObstacle: Option<Id>
    var startPos: Point
    var endPos: Point
    var isSettingStart: bool
    var isSettingEnd: bool

    predicate Valid()
      reads this
    {
      WellFormed(obstacles)
    }

    constructor ()
      ensures Valid()
      ensures obstacles == [] && selectedObstacle == None
      ensures startPos == DEFAULT_START && endPos == DEFAULT_END
      ensures !isSettingStart && !isSettingEnd
    {
      obstacles := [];
      selectedObstacle := None;
      startPos := DEFAULT_START;
      endPos := DEFAULT_END;
      isSettingStart := false;
      isSettingEnd := false;
    }

    /** `handleStageClick`.  A click without a position does nothing.  In
        "setting start" mode the click moves the start and leaves the mode
        (this wins when both flags are set); otherwise in "setting end" mode
        it moves the end.  Otherwise it places an obstacle of radius
        MIN_RADIUS under `CanPlace`, with `freshId` standing for the random id
        `handleStageClick` draws. */
    method HandleStageClick(click: Click, freshId: Id)
      requires Valid()
      requires !HasId(obstacles, freshId)
      modifies this
      ensures Valid()
      ensures selectedObstacle == old(selectedObstacle)
      ensures click.pos.None? ==>
        obstacles == old(obstacles) && startPos == old(startPos) && endPos == old(endPos)
        && isSettingStart == old(isSettingStart) && isSettingEnd == old(isSettingEnd)
      ensures click.pos.Some? && old(isSettingStart) ==>
        startPos == click.pos.value && !isSettingStart
        && endPos == old(endPos) && isSettingEnd == old(isSettingEnd) && obstacles == old(obstacles)
      ensures click.pos.Some? && !old(isSettingStart) && old(isSettingEnd) ==>
        endPos == click.pos.value && !isSettingEnd
        && startPos == old(startPos) && !isSettingStart && obstacles == old(obstacles)
      ensures click.pos.Some? && !old(isSettingStart) && !old(isSettingEnd) ==>
        startPos == old(startPos) && endPos == old(endPos) && !isSettingStart && !isSettingEnd
        && obstacles == (
          var p := click.pos.value;
          if CanPlace(p, click.onShape, old(obstacles), old(startPos), old(endPos))
          then old(obstacles) + [Obstacle(freshId, p.x, p.y, MIN_RADIUS)]
          else old(obstacles))
    {
      if click.pos.None? {
        return;
      }
      var pos := click.pos.value;
      if isSettingStart {
        startPos := Point(pos.x, pos.y);
        isSettingStart := false;
        return;
      }
      if isSettingEnd {
        endPos := Point(pos.x, pos.y);
        isSettingEnd := false;
        return;
      }
      if click.onShape {
        return;
      }
      if OutOfBounds(pos.x, pos.y, MIN_RADIUS) {
        return;
      }
      if NearStartOrEnd(pos.x, pos.y, MIN_RADIUS, startPos, endPos) {
        return;
      }
      var found := SearchRadius(pos.x, pos.y, obstacles);
      if found.Some? {
        var newObstacle := Obstacle(freshId, pos.x, pos.y, found.value);
        PlaceKeepsWellFormed(obstacles, newObstacle);
        obstacles := obstacles + [newObstacle];
      }
    }

    /** `handleRadiusChange`, with the new radius coming from the slider's
        range [MIN_RADIUS, MAX_RADIUS].  It does nothing unless a (truthy) id
        is selected, an obstacle has that id and the resized circle fits;
        then exactly that obstacle's radius changes. */
    method HandleRadiusChange(newRadius: real)
      requires Valid()
      requires MIN_RADIUS <= newRadius <= MAX_RADIUS
      modifies this`obstacles
      ensures Valid()
      ensures !Truthy(selectedObstacle) || !HasId(old(obstacles), selectedObstacle.value) ==>
        obstacles == old(obstacles)
      ensures Truthy(selectedObstacle) && HasId(old(obstacles), selectedObstacle.value) ==>
        var k := IndexOfId(old(obstacles), selectedObstacle.value).value;
        var o := old(obstacles)[k];
        obstacles == if ResizeFits(o, newRadius, old(obstacles), startPos, endPos)
                     then old(obstacles)[k := o.(radius := newRadius)]
                     else old(obstacles)
    {
      if !Truthy(selectedObstacle) {
        return;
      }
      var id := selectedObstacle.value;
      var index := IndexOfId(obstacles, id);
      if index.None? {
        return;
      }
      var selectedObs := obstacles[index.value];
      if OutOfBounds(selectedObs.x, selectedObs.y, newRadius) {
        return;
      }
      if NearStartOrEnd(selectedObs.x, selectedObs.y, newRadius, startPos, endPos) {
        return;
      }
      var otherObstacles := Without(obstacles, id);
      if !Overlapping(selectedObs.x, selectedObs.y, newRadius, otherObstacles) {
        SetRadiusAt(obstacles, index.value, newRadius);
        OverlappingOthers(obstacles, index.value, selectedObs.x, selectedObs.y, newRadius);
        ResizeKeepsWellFormed(obstacles, index.value, newRadius);
        obstacles := SetRadius(obstacles, id, newRadius);
      }
    }

    /** `handleObstacleClick`: select the clicked id, unconditionally. */
    method HandleObstacleClick(id: Id)
      requires Valid()
      modifies this`selectedObstacle
      ensures Valid()
      ensures selectedObstacle == Some(id)
    {
      selectedObstacle := Some(id);
    }

    /** `handleDeleteObstacle`: with a truthy selection, drop every obstacle
        carrying the selected id and clear the selection; otherwise nothing. */
    method HandleDeleteObstacle()
      requires Valid()
      modifies this`obstacles, this`selectedObstacle
      ensures Valid()
      ensures !Truthy(old(selectedObstacle)) ==>
        obstacles == old(obstacles) && selectedObstacle == old(selectedObstacle)
      ensures Truthy(old(selectedObstacle)) ==>
        obstacles == Without(old(obstacles), old(selectedObstacle).value) && selectedObstacle == None
    {
      if Truthy(selectedObstacle) {
        WithoutKeepsWellFormed(obstacles, selectedObstacle.value);
        obstacles := Without(obstacles, selectedObstacle.value);
        selectedObstacle := None;
      }
    }

    /** `clearObstacles`: empty the list and the selection. */
    method ClearObstacles()
      modifies this`obstacles, this`selectedObstacle
      ensures Valid()
      ensures obstacles == [] && selectedObstacle == None
    {
      obstacles := [];
      selectedObstacle := None;
    }

    /** `resetPositions`: put the start and end back at their defaults. */
    method ResetPositions()
      requires Valid()
      modifies this`startPos, this`endPos
      ensures Valid()
      ensures startPos == DEFAULT_START && endPos == DEFAULT_END
    {
      startPos := DEFAULT_START;
      endPos := DEFAULT_END;
    }

    /** `setIsSettingStart`: set the flag; the other flag is left as it is. */
    method SetIsSettingStart(value: bool)
      requires Valid()
      modifies this`isSettingStart
      ensures Valid()
      ensures isSettingStart == value
    {
      isSettingStart := value;
    }

    /** `setIsSettingEnd`: set the flag; the other flag is left as it is. */
    method SetIsSettingEnd(value: bool)
      requires Valid()
      modifies this`isSettingEnd
      ensures Valid()
      ensures isSettingEnd == value
    {
      isSettingEnd := value;
    }
  }
}
