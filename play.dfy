/** The frame logic of the play state of game_states/play.py: input events,
    the sprint and x-velocity step, the horizontal collision pre-pass, the
    speedline burst after a gravity flip, and the arithmetic of drawing
    (camera, background cache, background tiling, sprite culling). */
module Play {
  import opened Geometry
  import opened Speedlines

  datatype Option<T> = None | Some(value: T)

  /** The constants the play state reads from the game's configuration:
      the screen size and the three speed constants. */
  datatype Config = Config(width: nat, height: nat,
                           playerSpeed: real, sprintSpeed: real, sprintAcceleration: real)

  /** The speed constants in the order the sprint logic presumes. */
  predicate SpeedsOrdered(cfg: Config) {
    cfg.playerSpeed <= cfg.sprintSpeed && cfg.sprintAcceleration >= 0.0
  }

  /** The size of a surface in pixels. */
  datatype Size = Size(w: nat, h: nat)

  // ----------------------------------------------------------------------
  // Zoom controls

  const MIN_ZOOM: real := 0.5
  const MAX_ZOOM: real := 2.0
  const ZOOM_STEP: real := 0.1

  /** Key `z`: zoom out by one step, never below the minimum. */
  function ZoomOut(z: real): (r: real)
    ensures MIN_ZOOM <= r
    ensures z - ZOOM_STEP <= MIN_ZOOM ==> r == MIN_ZOOM
    ensures z - ZOOM_STEP >= MIN_ZOOM ==> r == z - ZOOM_STEP
    ensures z >= MIN_ZOOM ==> r <= z
    ensures z <= MAX_ZOOM ==> r <= MAX_ZOOM
  {
    Max(MIN_ZOOM, z - ZOOM_STEP)
  }

  /** Key `c`: zoom in by one step, never above the maximum. */
  function ZoomIn(z: real): (r: real)
    ensures r <= MAX_ZOOM
    ensures z + ZOOM_STEP >= MAX_ZOOM ==> r == MAX_ZOOM
    ensures z + ZOOM_STEP <= MAX_ZOOM ==> r == z + ZOOM_STEP
    ensures z <= MAX_ZOOM ==> z <= r
    ensures z >= MIN_ZOOM ==> MIN_ZOOM <= r
    ensures z > 0.0 ==> r > 0.0
  {
    Min(MAX_ZOOM, z + ZOOM_STEP)
  }

  /** Away from the limits, one step in and one step out undo each other. */
  lemma ZoomStepsUndo(z: real)
    requires MIN_ZOOM <= z <= MAX_ZOOM
    ensures z - ZOOM_STEP >= MIN_ZOOM ==> ZoomIn(ZoomOut(z)) == z
    ensures z + ZOOM_STEP <= MAX_ZOOM ==> ZoomOut(ZoomIn(z)) == z
  {
  }

  datatype Key = KeyL | KeySpace | KeyR | KeyEscape | KeyZ | KeyC | OtherKey

  datatype Event = MouseButtonDown(button: int) | KeyDown(key: Key) | OtherEvent

  /** The calls `handle_events` makes on the player and the state manager. */
  datatype Command = FlipGravity | Jump | ResetPosition | PauseGame

  predicate IsZoomKey(e: Event) {
    e == KeyDown(KeyZ) || e == KeyDown(KeyC)
  }

  /** The zoom after one event. */
  function ZoomStep(z: real, e: Event): real {
    match e
    case KeyDown(KeyZ) => ZoomOut(z)
    case KeyDown(KeyC) => ZoomIn(z)
    case _ => z
  }

  /** The zoom after a batch of events, handled in order. */
  function ZoomAfter(z: real, events: seq<Event>): real {
    if events == [] then z
    else ZoomStep(ZoomAfter(z, events[..|events| - 1]), events[|events| - 1])
  }

  /** Does the batch hold a zoom key, that is, does it write the zoom back? */
  predicate AnyZoomKey(events: seq<Event>) {
    exists k :: 0 <= k < |events| && IsZoomKey(events[k])
  }

  /** The calls one event makes. */
  function EventCommands(e: Event): seq<Command> {
    match e
    case MouseButtonDown(b) => if b == 1 then [FlipGravity] else []
    case KeyDown(k) =>
      (match k
       case KeyL => [FlipGravity]
       case KeySpace => [Jump]
       case KeyR => [ResetPosition]
       case KeyEscape => [PauseGame]
       case _ => [])
    case OtherEvent => []
  }

  /** The calls a batch of events makes, in order. */
  function CommandsOf(events: seq<Event>): seq<Command> {
    if events == [] then []
    else CommandsOf(events[..|events| - 1]) + EventCommands(events[|events| - 1])
  }

  /** A zoom inside [0.5, 2.0] stays inside it, whatever the events. */
  lemma {:induction false} ZoomStaysInRange(z: real, events: seq<Event>)
    requires MIN_ZOOM <= z <= MAX_ZOOM
    ensures MIN_ZOOM <= ZoomAfter(z, events) <= MAX_ZOOM
  {
    if events != [] {
      ZoomStaysInRange(z, events[..|events| - 1]);
    }
  }

  /** A positive zoom stays positive, whatever the events. */
  lemma {:induction false} ZoomStaysPositive(z: real, events: seq<Event>)
    requires z > 0.0
    ensures ZoomAfter(z, events) > 0.0
  {
    if events != [] {
      ZoomStaysPositive(z, events[..|events| - 1]);
    }
  }

  /** Events other than the two zoom keys leave the zoom alone. */
  lemma {:induction false} ZoomOnlyByZoomKeys(z: real, events: seq<Event>)
    requires !AnyZoomKey(events)
    ensures ZoomAfter(z, events) == z
  {
    if events != [] {
      var init := events[..|events| - 1];
      assert !AnyZoomKey(init) by {
        forall k | 0 <= k < |init| ensures !IsZoomKey(init[k]) {
          assert init[k] == events[k];
        }
      }
      ZoomOnlyByZoomKeys(z, init);
      assert !IsZoomKey(events[|events| - 1]);
    }
  }

  // ----------------------------------------------------------------------
  // Sprint speed and x-velocity

  /** The keys `update` polls. */
  datatype Keys = Keys(lshift: bool, rshift: bool, a: bool, d: bool)

  /** Sprinting accelerates towards the sprint speed; otherwise the speed
      decays, 1.2 times as fast, towards the walking speed. */
  function NextSpeed(cfg: Config, speed: real, sprinting: bool): real {
    if sprinting then Min(cfg.sprintSpeed, speed + cfg.sprintAcceleration)
    else Max(cfg.playerSpeed, speed - cfg.sprintAcceleration * 1.2)
  }

  /** A speed between walking and sprint speed stays there; sprinting never
      slows down and walking never speeds up. */
  lemma SprintSpeedBounded(cfg: Config, speed: real, sprinting: bool)
    requires SpeedsOrdered(cfg) && cfg.playerSpeed <= speed <= cfg.sprintSpeed
    ensures cfg.playerSpeed <= NextSpeed(cfg, speed, sprinting) <= cfg.sprintSpeed
    ensures sprinting ==> NextSpeed(cfg, speed, sprinting) >= speed
    ensures !sprinting ==> NextSpeed(cfg, speed, sprinting) <= speed
  {
  }

  /** `a` subtracts the speed from 0, then `d` adds it. */
  function XVelocity(speed: real, a: bool, d: bool): real {
    var left := if a then 0.0 - speed else 0.0;
    if d then left + speed else left
  }

  /** The x-velocity is minus the speed for `a` alone, the speed for `d`
      alone, and 0 for both keys or neither. */
  lemma XVelocityCases(speed: real, a: bool, d: bool)
    ensures XVelocity(speed, a, d) == if a == d then 0.0 else if a then -speed else speed
  {
  }

  // ----------------------------------------------------------------------
  // Horizontal collision pre-pass

  /** One platform of the pre-pass: an overlapping platform pushes the player
      out along x, to the side the player's centre is on. */
  function PushOut(r: Rect, p: Rect): (q: Rect)
    ensures q.y == r.y && q.w == r.w && q.h == r.h
    ensures !Collide(r, p) ==> q == r
    ensures Collide(r, p) && r.CenterX() < p.CenterX() ==> q.Right() == p.x
    ensures Collide(r, p) && r.CenterX() >= p.CenterX() ==> q.x == p.Right()
    ensures !Collide(q, p)
  {
    if !Collide(r, p) then r
    else if r.CenterX() < p.CenterX() then r.WithRight(p.x)
    else r.WithLeft(p.Right())
  }

  /** The pre-pass: every platform once, in list order, each tested against
      the rectangle the earlier ones left. */
  function HorizontalPass(r: Rect, ps: seq<Rect>): Rect {
    if ps == [] then r else PushOut(HorizontalPass(r, ps[..|ps| - 1]), ps[|ps| - 1])
  }

  /** The pre-pass moves the player along x only. */
  lemma {:induction false} PassKeepsShape(r: Rect, ps: seq<Rect>)
    ensures HorizontalPass(r, ps).y == r.y
    ensures HorizontalPass(r, ps).w == r.w && HorizontalPass(r, ps).h == r.h
  {
    if ps != [] {
      PassKeepsShape(r, ps[..|ps| - 1]);
    }
  }

  /** When no platform overlaps the player, the pre-pass leaves it alone. */
  lemma {:induction false} PassUntouched(r: Rect, ps: seq<Rect>)
    requires forall k :: 0 <= k < |ps| ==> !Collide(r, ps[k])
    ensures HorizontalPass(r, ps) == r
  {
    if ps != [] {
      PassUntouched(r, ps[..|ps| - 1]);
    }
  }

  /** After the pre-pass the player is clear of the last platform. */
  lemma PassClearsLast(r: Rect, ps: seq<Rect>)
    requires ps != []
    ensures !Collide(HorizontalPass(r, ps), ps[|ps| - 1])
  {
  }

  /** Two platforms: the pre-pass pushes out of the first, then of the second. */
  lemma PassTwo(r: Rect, p0: Rect, p1: Rect)
    ensures HorizontalPass(r, [p0, p1]) == PushOut(PushOut(r, p0), p1)
  {
    var ps := [p0, p1];
    assert ps[..|ps| - 1] == [p0];
    assert [p0][..0] == [];
    assert HorizontalPass(r, [p0]) == PushOut(HorizontalPass(r, []), p0);
    assert HorizontalPass(r, ps) == PushOut(HorizontalPass(r, [p0]), p1);
  }

  /** A single pass does not clear every platform: when the first platform
      pushes the player left onto a second one that pushes it back right,
      and the second ends before the first does, the player overlaps the
      first platform again. */
  lemma PassMayLeaveOverlap(r: Rect, p0: Rect, p1: Rect)
    requires Collide(r, p0) && r.CenterX() < p0.CenterX()
    requires Collide(r.WithRight(p0.x), p1)
    requires r.WithRight(p0.x).CenterX() >= p1.CenterX()
    requires p1.Right() < p0.Right()
    ensures HorizontalPass(r, [p0, p1]).x == p1.Right()
    ensures Collide(HorizontalPass(r, [p0, p1]), p0)
  {
    PassTwo(r, p0, p1);
  }

  // ----------------------------------------------------------------------
  // Speedline burst

  /** The random draws of one speedline of a burst, in the order they are
      made: x across the view, vertical spread, the two offsets, then the
      length, thickness, fill alpha and speed factor of the speedline. */
  datatype SpawnDraw = SpawnDraw(x: int, spread: int, dx: int, dy: int,
                                 length: nat, thickness: nat, fill: int, factor: real)

  /** The ranges of the draws that do not depend on the view. */
  predicate DrawFieldsInRange(d: SpawnDraw) {
    && -200 <= d.spread <= 200
    && -50 <= d.dx <= 50
    && -100 <= d.dy <= 100
    && 100 <= d.length <= 200
    && 1 <= d.thickness <= 3
    && 150 <= d.fill <= 255
    && 8.0 <= d.factor <= 12.0
  }

  predicate DrawInRange(d: SpawnDraw, left: int, right: int) {
    left <= d.x <= right && DrawFieldsInRange(d)
  }

  /** A burst is between 30 and 40 draws, each in its range. */
  predicate BurstInRange(burst: seq<SpawnDraw>, left: int, right: int) {
    && 30 <= |burst| <= 40
    && forall k :: 0 <= k < |burst| ==> DrawInRange(burst[k], left, right)
  }

  /** Where a speedline of a burst is centred. */
  function SpawnPosition(d: SpawnDraw, playerY: int): (int, int) {
    (d.x + d.dx, playerY + d.spread + d.dy)
  }

  /** Spawn positions lie within 50 pixels of the view horizontally and
      within 300 pixels of the player vertically. */
  lemma SpawnInRange(d: SpawnDraw, left: int, right: int, playerY: int)
    requires DrawInRange(d, left, right)
    ensures left - 50 <= SpawnPosition(d, playerY).0 <= right + 50
    ensures playerY - 300 <= SpawnPosition(d, playerY).1 <= playerY + 300
  {
  }

  /** `int(camera[0])`: the camera coordinates are whole numbers. */
  function CameraLeft(camera: (int, int)): int {
    camera.0
  }

  /** `int(camera[0] + zoomed_width)`. */
  function CameraRight(camera: (int, int), zoomedWidth: real): int {
    Trunc(camera.0 as real + zoomedWidth)
  }

  /** A positive view width gives a non-empty range to draw x from. */
  lemma CameraRangeNonEmpty(camera: (int, int), zoomedWidth: real)
    requires zoomedWidth > 0.0
    ensures CameraLeft(camera) <= CameraRight(camera, zoomedWidth)
  {
    var v := camera.0 as real + zoomedWidth;
    if v < 0.0 {
      assert Trunc(v) as real - 1.0 < v;
      assert camera.0 < 0;
      assert Trunc(v) >= camera.0;
    }
  }

  /** The state of a speedline spawned from draw `d` when it is created:
      new, unfaded, centred at its spawn position, `thickness` wide and
      `length` tall. */
  function SpawnState(d: SpawnDraw, playerY: int): (p: Particle)
    ensures p.age == 0 && p.alpha == 255 && p.offset == (0, 0)
    ensures p.rect.Center() == SpawnPosition(d, playerY)
    ensures p.rect.w == d.thickness && p.rect.h == d.length
  {
    Particle(0, Rect(0, 0, d.thickness, d.length).WithCenter(SpawnPosition(d, playerY)), 255, (0, 0))
  }

  /** The velocity of a speedline spawned with speed factor `factor`: the
      unit direction along gravity, scaled by `factor`. */
  function AlongGravity(gravity: int, factor: real): (real, real) {
    Scale((0.0, gravity as real), factor)
  }

  /** What a speedline spawned from draw `d` looks like when it is created:
      its state, its fill and its velocity along gravity. */
  ghost predicate Spawned(s: Speedline, d: SpawnDraw, playerY: int, gravity: int)
    reads s
  {
    && s.State() == SpawnState(d, playerY)
    && s.fillAlpha == d.fill
    && s.velocity == AlongGravity(gravity, d.factor)
  }

  /** A speedline spawned from draw `d` this frame, after the group's update
      of the same frame: one frame past its spawn state. */
  ghost predicate SpawnedAndAdvanced(s: Speedline, d: SpawnDraw, playerY: int, gravity: int)
    reads s
  {
    && s.State() == Advance(SpawnState(d, playerY), s.velocity)
    && s.fillAlpha == d.fill
    && s.velocity == AlongGravity(gravity, d.factor)
  }

  // ----------------------------------------------------------------------
  // Drawing: camera, background cache, tiles, culling

  /** The camera puts the player's centre in the middle of the zoomed view,
      halving the view size with floor division. */
  function CameraFor(center: (int, int), zoomedWidth: real, zoomedHeight: real): (int, int) {
    (center.0 - FloorDiv(zoomedWidth, 2.0), center.1 - FloorDiv(zoomedHeight, 2.0))
  }

  /** The player's centre is at most half a view from the camera's corner,
      and less than one pixel short of it. */
  lemma PlayerCentredInView(center: (int, int), zoomedWidth: real, zoomedHeight: real)
    requires zoomedWidth > 0.0 && zoomedHeight > 0.0
    ensures var cam := CameraFor(center, zoomedWidth, zoomedHeight);
            && 0 <= center.0 - cam.0 && 2.0 * (center.0 - cam.0) as real <= zoomedWidth
            && zoomedWidth < 2.0 * ((center.0 - cam.0) as real + 1.0)
            && 0 <= center.1 - cam.1 && 2.0 * (center.1 - cam.1) as real <= zoomedHeight
            && zoomedHeight < 2.0 * ((center.1 - cam.1) as real + 1.0)
  {
    var qw := FloorDiv(zoomedWidth, 2.0);
    var qh := FloorDiv(zoomedHeight, 2.0);
    assert center.0 - (center.0 - qw) == qw;
    assert center.1 - (center.1 - qh) == qh;
  }

  /** The background is rescaled when the zoom differs from the cached one
      or nothing is cached. */
  predicate NeedsRescale(cachedZoom: Option<real>, cachedScaledBg: Option<Size>, zoom: real) {
    cachedZoom != Some(zoom) || cachedScaledBg.None?
  }

  /** The size of the background scaled by the zoom, at least one pixel. */
  function ScaledSize(bg: Size, zoom: real): (s: Size)
    ensures s.w >= 1 && s.h >= 1
  {
    Size(MaxInt(1, Trunc(bg.w as real * zoom)), MaxInt(1, Trunc(bg.h as real * zoom)))
  }

  /** The background cache: the zoom it was built for and the scaled size. */
  datatype Cache = Cache(zoom: Option<real>, scaled: Option<Size>)

  /** The cache after one draw at the given zoom. */
  function CacheAfterDraw(c: Cache, bg: Size, zoom: real): Cache {
    if NeedsRescale(c.zoom, c.scaled, zoom) then Cache(Some(zoom), Some(ScaledSize(bg, zoom))) else c
  }

  /** How many of the draws at the given zooms rescale the background. */
  function RescaleCount(c: Cache, bg: Size, zooms: seq<real>): nat
    decreases |zooms|
  {
    if zooms == [] then 0
    else (if NeedsRescale(c.zoom, c.scaled, zooms[0]) then 1 else 0)
         + RescaleCount(CacheAfterDraw(c, bg, zooms[0]), bg, zooms[1..])
  }

  /** Once the cache holds a surface for zoom `z`, draws at `z` never rescale. */
  lemma {:induction false} CachedNeverRescales(c: Cache, bg: Size, z: real, zooms: seq<real>)
    requires c.zoom == Some(z) && c.scaled.Some?
    requires forall k :: 0 <= k < |zooms| ==> zooms[k] == z
    ensures RescaleCount(c, bg, zooms) == 0
  {
    if zooms != [] {
      CachedNeverRescales(c, bg, z, zooms[1..]);
    }
  }

  /** Repeated draws at one zoom rescale at most once, and not at all when
      the cache already matches. */
  lemma RescaleAtMostOnce(c: Cache, bg: Size, z: real, zooms: seq<real>)
    requires forall k :: 0 <= k < |zooms| ==> zooms[k] == z
    ensures RescaleCount(c, bg, zooms) <= 1
    ensures !NeedsRescale(c.zoom, c.scaled, z) ==> RescaleCount(c, bg, zooms) == 0
  {
    if zooms != [] {
      var next := CacheAfterDraw(c, bg, z);
      CachedNeverRescales(next, bg, z, zooms[1..]);
    }
  }

  /** `parallax % tile_width - tile_width` with the parallax offset half the
      camera's x, negated. */
  function TileXStart(cameraX: int, tileWidth: nat): (x: real)
    requires tileWidth >= 1
    ensures -(tileWidth as real) <= x < 0.0
  {
    FloorMod(-(cameraX as real) * 0.5, tileWidth as real) - tileWidth as real
  }

  /** The tiles of one column, from height `y` down while inside the view. */
  function Column(x: real, y: real, zoomedHeight: real, tileHeight: nat): seq<(real, real)>
    requires tileHeight >= 1
    decreases if y < zoomedHeight then (zoomedHeight - y).Floor + 1 else 0
  {
    if y < zoomedHeight then [(x, y)] + Column(x, y + tileHeight as real, zoomedHeight, tileHeight)
    else []
  }

  /** The tiles of the columns from `x` rightwards while inside the view,
      each column starting at the top. */
  function Grid(x: real, zoomedWidth: real, zoomedHeight: real, tileWidth: nat, tileHeight: nat): seq<(real, real)>
    requires tileWidth >= 1 && tileHeight >= 1
    decreases if x < zoomedWidth then (zoomedWidth - x).Floor + 1 else 0
  {
    if x < zoomedWidth then
      Column(x, 0.0, zoomedHeight, tileHeight) + Grid(x + tileWidth as real, zoomedWidth, zoomedHeight, tileWidth, tileHeight)
    else []
  }

  /** Every height from `y` to the bottom of the view is covered by a tile of
      the column; `k` is that tile. */
  lemma {:induction false} ColumnCovers(x: real, y: real, zoomedHeight: real, tileHeight: nat, py: real)
    returns (k: nat)
    requires tileHeight >= 1 && y <= py < zoomedHeight
    ensures k < |Column(x, y, zoomedHeight, tileHeight)|
    ensures Column(x, y, zoomedHeight, tileHeight)[k].0 == x
    ensures Column(x, y, zoomedHeight, tileHeight)[k].1 <= py < Column(x, y, zoomedHeight, tileHeight)[k].1 + tileHeight as real
    decreases if y < zoomedHeight then (zoomedHeight - y).Floor + 1 else 0
  {
    if py < y + tileHeight as real {
      k := 0;
    } else {
      var j := ColumnCovers(x, y + tileHeight as real, zoomedHeight, tileHeight, py);
      k := j + 1;
    }
  }

  /** Every point of the view right of `x` is covered by a tile of the grid;
      `k` is that tile. */
  lemma {:induction false} GridCovers(x: real, zoomedWidth: real, zoomedHeight: real,
                                      tileWidth: nat, tileHeight: nat, px: real, py: real)
    returns (k: nat)
    requires tileWidth >= 1 && tileHeight >= 1
    requires x <= px < zoomedWidth && 0.0 <= py < zoomedHeight
    ensures k < |Grid(x, zoomedWidth, zoomedHeight, tileWidth, tileHeight)|
    ensures var t := Grid(x, zoomedWidth, zoomedHeight, tileWidth, tileHeight)[k];
            t.0 <= px < t.0 + tileWidth as real && t.1 <= py < t.1 + tileHeight as real
    decreases if x < zoomedWidth then (zoomedWidth - x).Floor + 1 else 0
  {
    var column := Column(x, 0.0, zoomedHeight, tileHeight);
    var rest := Grid(x + tileWidth as real, zoomedWidth, zoomedHeight, tileWidth, tileHeight);
    assert Grid(x, zoomedWidth, zoomedHeight, tileWidth, tileHeight) == column + rest;
    if px < x + tileWidth as real {
      k := ColumnCovers(x, 0.0, zoomedHeight, tileHeight, py);
    } else {
      var j := GridCovers(x + tileWidth as real, zoomedWidth, zoomedHeight, tileWidth, tileHeight, px, py);
      k := |column| + j;
    }
  }

  /** The tiles of a column lie in the view's height range, in its column. */
  lemma {:induction false} ColumnInView(x: real, y: real, zoomedHeight: real, tileHeight: nat)
    requires tileHeight >= 1
    ensures forall t :: t in Column(x, y, zoomedHeight, tileHeight) ==> t.0 == x && y <= t.1 < zoomedHeight
    decreases if y < zoomedHeight then (zoomedHeight - y).Floor + 1 else 0
  {
    if y < zoomedHeight {
      ColumnInView(x, y + tileHeight as real, zoomedHeight, tileHeight);
    }
  }

  /** Every tile starts inside the view's extent: at or right of `x`, left
      of the view's right edge, and between the top and bottom edges. */
  lemma {:induction false} GridInView(x: real, zoomedWidth: real, zoomedHeight: real, tileWidth: nat, tileHeight: nat)
    requires tileWidth >= 1 && tileHeight >= 1
    ensures forall t :: t in Grid(x, zoomedWidth, zoomedHeight, tileWidth, tileHeight) ==>
              x <= t.0 < zoomedWidth && 0.0 <= t.1 < zoomedHeight
    decreases if x < zoomedWidth then (zoomedWidth - x).Floor + 1 else 0
  {
    if x < zoomedWidth {
      ColumnInView(x, 0.0, zoomedHeight, tileHeight);
      GridInView(x + tileWidth as real, zoomedWidth, zoomedHeight, tileWidth, tileHeight);
    }
  }

  /** Where a sprite lands on the zoomed view. */
  function ScreenPosition(r: Rect, camera: (int, int)): (int, int) {
    (r.x - camera.0, r.y - camera.1)
  }

  /** The culling test: strict inequalities on both axes. */
  predicate OnScreen(r: Rect, camera: (int, int), zoomedWidth: real, zoomedHeight: real) {
    var p := ScreenPosition(r, camera);
    && -(r.w as int) < p.0 && (p.0 as real) < zoomedWidth
    && -(r.h as int) < p.1 && (p.1 as real) < zoomedHeight
  }

  /** A sprite of positive size passes the culling test exactly when its
      rectangle on the zoomed view shares an interior point with the view. */
  lemma OnScreenMeansOverlap(r: Rect, camera: (int, int), zoomedWidth: real, zoomedHeight: real)
    requires r.w > 0 && r.h > 0 && zoomedWidth > 0.0 && zoomedHeight > 0.0
    ensures OnScreen(r, camera, zoomedWidth, zoomedHeight) <==>
            var p := ScreenPosition(r, camera);
            && Max(p.0 as real, 0.0) < Min((p.0 + r.w) as real, zoomedWidth)
            && Max(p.1 as real, 0.0) < Min((p.1 + r.h) as real, zoomedHeight)
  {
  }

  /** The positions the sprites that pass the culling test are drawn at, in
      the order of the sprite list. */
  function VisibleBlits(rs: seq<Rect>, camera: (int, int), zoomedWidth: real, zoomedHeight: real): seq<(int, int)> {
    if rs == [] then []
    else
      var last := rs[|rs| - 1];
      VisibleBlits(rs[..|rs| - 1], camera, zoomedWidth, zoomedHeight)
      + (if OnScreen(last, camera, zoomedWidth, zoomedHeight) then [ScreenPosition(last, camera)] else [])
  }

  /** A position is drawn exactly when some sprite at that position passes
      the culling test. */
  lemma {:induction false} VisibleBlitsMember(rs: seq<Rect>, camera: (int, int), zoomedWidth: real, zoomedHeight: real, p: (int, int))
    ensures p in VisibleBlits(rs, camera, zoomedWidth, zoomedHeight) <==>
            exists k :: 0 <= k < |rs| && OnScreen(rs[k], camera, zoomedWidth, zoomedHeight) && ScreenPosition(rs[k], camera) == p
  {
    if rs != [] {
      var init := rs[..|rs| - 1];
      VisibleBlitsMember(init, camera, zoomedWidth, zoomedHeight, p);
      assert forall k :: 0 <= k < |init| ==> init[k] == rs[k];
    }
  }

  /** Lay out the background tiles: columns from `xStart` in steps of the
      tile width while inside the view. */
  method BackgroundTiles(xStart: real, zoomedWidth: real, zoomedHeight: real, tileWidth: nat, tileHeight: nat)
    returns (tiles: seq<(real, real)>)
    requires tileWidth >= 1 && tileHeight >= 1
    ensures tiles == Grid(xStart, zoomedWidth, zoomedHeight, tileWidth, tileHeight)
  {
    tiles := [];
    var x := xStart;
    while x < zoomedWidth
      invariant tiles + Grid(x, zoomedWidth, zoomedHeight, tileWidth, tileHeight)
                == Grid(xStart, zoomedWidth, zoomedHeight, tileWidth, tileHeight)
      decreases if x < zoomedWidth then (zoomedWidth - x).Floor + 1 else 0
    {
      var column := ColumnTiles(x, zoomedHeight, tileHeight);
      ghost var rest := Grid(x + tileWidth as real, zoomedWidth, zoomedHeight, tileWidth, tileHeight);
      assert Grid(x, zoomedWidth, zoomedHeight, tileWidth, tileHeight) == column + rest;
      assert tiles + (column + rest) == (tiles + column) + rest;
      tiles := tiles + column;
      x := x + tileWidth as real;
    }
    assert tiles + [] == tiles;
  }

  /** One column of background tiles at `x`, from the top of the view in
      steps of the tile height. */
  method ColumnTiles(x: real, zoomedHeight: real, tileHeight: nat) returns (column: seq<(real, real)>)
    requires tileHeight >= 1
    ensures column == Column(x, 0.0, zoomedHeight, tileHeight)
  {
    column := [];
    var y := 0.0;
    while y < zoomedHeight
      invariant column + Column(x, y, zoomedHeight, tileHeight) == Column(x, 0.0, zoomedHeight, tileHeight)
      decreases if y < zoomedHeight then (zoomedHeight - y).Floor + 1 else 0
    {
      ghost var below := Column(x, y + tileHeight as real, zoomedHeight, tileHeight);
      assert column + ([(x, y)] + below) == (column + [(x, y)]) + below;
      column := column + [(x, y)];
      y := y + tileHeight as real;
    }
    assert column + [] == column;
  }

  /** Cull the sprites: the positions of those that pass the test. */
  method CullSprites(rs: seq<Rect>, camera: (int, int), zoomedWidth: real, zoomedHeight: real)
    returns (blits: seq<(int, int)>)
    ensures blits == VisibleBlits(rs, camera, zoomedWidth, zoomedHeight)
  {
    blits := [];
    for i := 0 to |rs|
      invariant blits == VisibleBlits(rs[..i], camera, zoomedWidth, zoomedHeight)
    {
      assert rs[..i + 1][..i] == rs[..i];
      if OnScreen(rs[i], camera, zoomedWidth, zoomedHeight) {
        blits := blits + [ScreenPosition(rs[i], camera)];
      }
    }
    assert rs[..|rs|] == rs;
  }

  // ----------------------------------------------------------------------
  // The objects

  /** The session object that remembers the zoom across play states. */
  class StateManager {
    var zoomLevel: real
  }

  /** The player's position and the state the play state reads or writes. */
  datatype Motion = Motion(rect: Rect, justFlipped: bool, gravityDirection: int)

  class Player {
    var rect: Rect
    var currentSpeed: real
    var isSprinting: bool
    /** Set by a gravity flip, consumed by the play state's next update. */
    var justFlipped: bool
    var gravityDirection: int

    function State(): Motion
      reads this
    {
      Motion(rect, justFlipped, gravityDirection)
    }

    method ResetFlipFlag()
      modifies this`justFlipped
      ensures !justFlipped
    {
      justFlipped := false;
    }
  }

  /** The player's motion over one update: the player's own update at the
      x-velocity, the horizontal pre-pass, then physics and collisions. */
  function FrameMotion(m: Motion, xVelocity: real, platforms: seq<Rect>,
                       move: (Motion, real) -> Motion, settle: Motion -> Motion): Motion
  {
    var moved := move(m, xVelocity);
    settle(moved.(rect := HorizontalPass(moved.rect, platforms)))
  }

  class GameStatePlay {
    const stateManager: StateManager
    const player: Player
    const platforms: seq<Rect>
    /** The size of the original background image. */
    const background: Size
    const cfg: Config
    const speedLines: SpeedlineGroup
    var camera: (int, int)
    var zoom: real
    var zoomedWidth: real
    var zoomedHeight: real
    var cachedZoom: Option<real>
    var cachedScaledBg: Option<Size>

    ghost predicate Valid()
      reads this, speedLines, speedLines.sprites
    {
      && zoom > 0.0
      && speedLines.Valid()
      && (cachedScaledBg.Some? ==> cachedScaledBg.value.w >= 1 && cachedScaledBg.value.h >= 1)
    }

    /** A play state on a loaded level, with the session's zoom. */
    constructor (stateManager: StateManager, player: Player, platforms: seq<Rect>, background: Size, cfg: Config)
      requires stateManager.zoomLevel > 0.0
      ensures Valid() && fresh(speedLines) && speedLines.sprites == []
      ensures this.stateManager == stateManager && this.player == player && this.platforms == platforms
      ensures this.background == background && this.cfg == cfg
      ensures camera == (0, 0) && zoom == stateManager.zoomLevel
      ensures cachedZoom == None && cachedScaledBg == None
    {
      this.stateManager := stateManager;
      this.player := player;
      this.platforms := platforms;
      this.background := background;
      this.cfg := cfg;
      camera := (0, 0);
      speedLines := new SpeedlineGroup();
      zoom := stateManager.zoomLevel;
      cachedZoom := None;
      cachedScaledBg := None;
    }

    /** Handle a batch of events in order: return the calls made on the
        player and the state manager, and apply the zoom keys, writing each
        new zoom back to the state manager. */
    method HandleEvents(events: seq<Event>) returns (commands: seq<Command>)
      requires Valid()
      modifies this`zoom, stateManager`zoomLevel
      ensures Valid()
      ensures zoom == ZoomAfter(old(zoom), events)
      ensures commands == CommandsOf(events)
      ensures stateManager.zoomLevel == if AnyZoomKey(events) then zoom else old(stateManager.zoomLevel)
    {
      commands := [];
      for i := 0 to |events|
        invariant zoom == ZoomAfter(old(zoom), events[..i])
        invariant zoom > 0.0
        invariant commands == CommandsOf(events[..i])
        invariant stateManager.zoomLevel == if AnyZoomKey(events[..i]) then zoom else old(stateManager.zoomLevel)
      {
        var e := events[i];
        assert events[..i + 1][..i] == events[..i] && events[..i + 1][i] == e;
        commands := commands + EventCommands(e);
        if e == KeyDown(KeyZ) {
          zoom := Max(MIN_ZOOM, zoom - ZOOM_STEP);
          stateManager.zoomLevel := zoom;
        }
        if e == KeyDown(KeyC) {
          zoom := Min(MAX_ZOOM, zoom + ZOOM_STEP);
          stateManager.zoomLevel := zoom;
        }
        assert AnyZoomKey(events[..i + 1]) <==> AnyZoomKey(events[..i]) || IsZoomKey(e) by {
          assert forall k :: 0 <= k < i ==> events[..i + 1][k] == events[..i][k];
        }
      }
      assert events[..|events|] == events;
    }

    /** Spawn a burst of speedlines across the view, moving along gravity. */
    method CreateSpeedlines(burst: seq<SpawnDraw>) returns (ghost born: seq<Speedline>)
      requires zoom > 0.0 && speedLines.Valid()
      requires BurstInRange(burst, CameraLeft(camera), CameraRight(camera, cfg.width as real / zoom))
      modifies this`zoomedWidth, this`zoomedHeight, speedLines
      ensures zoomedWidth == cfg.width as real / zoom && zoomedHeight == cfg.height as real / zoom
      ensures speedLines.Valid()
      ensures speedLines.sprites == old(speedLines.sprites) + born
      ensures |born| == |burst|
      ensures forall k :: 0 <= k < |born| ==>
                fresh(born[k]) && Spawned(born[k], burst[k], player.rect.CenterY(), player.gravityDirection)
    {
      zoomedWidth := cfg.width as real / zoom;
      zoomedHeight := cfg.height as real / zoom;
      var direction := (0.0, player.gravityDirection as real);
      var playerY := player.rect.CenterY();
      born := [];
      for k := 0 to |burst|
        invariant zoomedWidth == cfg.width as real / zoom && zoomedHeight == cfg.height as real / zoom
        invariant speedLines.sprites == old(speedLines.sprites) + born
        invariant |born| == k
        invariant speedLines.Valid()
        invariant forall j :: 0 <= j < k ==>
                    fresh(born[j]) && Spawned(born[j], burst[j], playerY, player.gravityDirection)
      {
        var line := SpawnSpeedline(burst[k], direction, playerY);
        born := born + [line];
      }
    }

    /** One speedline of a burst: created from its draws and added to the
        group. */
    method SpawnSpeedline(d: SpawnDraw, direction: (real, real), playerY: int) returns (line: Speedline)
      requires DrawFieldsInRange(d) && speedLines.Valid()
      requires direction == (0.0, player.gravityDirection as real)
      modifies speedLines
      ensures fresh(line) && Spawned(line, d, playerY, player.gravityDirection)
      ensures speedLines.Valid() && speedLines.sprites == old(speedLines.sprites) + [line]
    {
      line := new Speedline(SpawnPosition(d, playerY), direction, d.length, d.thickness, d.fill, d.factor);
      assert Spawned(line, d, playerY, player.gravityDirection);
      ghost var before := speedLines.sprites;
      speedLines.Add(line);
      DistinctSnoc(before, line);
    }

    /** The horizontal collision pre-pass over the level's platforms. */
    method HandleHorizontalCollision()
      modifies player`rect
      ensures player.rect == HorizontalPass(old(player.rect), platforms)
    {
      for i := 0 to |platforms|
        invariant player.rect == HorizontalPass(old(player.rect), platforms[..i])
      {
        var platform := platforms[i];
        assert platforms[..i + 1][..i] == platforms[..i];
        if Collide(player.rect, platform) {
          if player.rect.CenterX() < platform.CenterX() {
            player.rect := player.rect.WithRight(platform.x);
          } else {
            player.rect := player.rect.WithLeft(platform.Right());
          }
        }
      }
      assert platforms[..|platforms|] == platforms;
    }

    /** One frame of game logic. `move` stands for the player's own update,
        `settle` for physics and collision handling; `burst` holds the random
        draws for a speedline burst. */
    method Update(keys: Keys, move: (Motion, real) -> Motion, settle: Motion -> Motion, burst: seq<SpawnDraw>)
      returns (xVelocity: real, ghost burstMade: bool, ghost born: seq<Speedline>)
      requires Valid()
      requires BurstInRange(burst, CameraLeft(camera), CameraRight(camera, cfg.width as real / zoom))
      modifies this`zoomedWidth, this`zoomedHeight, player, speedLines, speedLines.sprites
      ensures Valid()
      ensures player.isSprinting == (keys.lshift || keys.rshift)
      ensures player.currentSpeed == NextSpeed(cfg, old(player.currentSpeed), player.isSprinting)
      ensures xVelocity == XVelocity(player.currentSpeed, keys.a, keys.d)
      ensures var m := FrameMotion(old(player.State()), xVelocity, platforms, move, settle);
              player.rect == m.rect && player.gravityDirection == m.gravityDirection && burstMade == m.justFlipped
      ensures !player.justFlipped
      ensures |born| == if burstMade then |burst| else 0
      ensures burstMade ==> zoomedWidth == cfg.width as real / zoom && zoomedHeight == cfg.height as real / zoom
      ensures !burstMade ==> zoomedWidth == old(zoomedWidth) && zoomedHeight == old(zoomedHeight)
      ensures speedLines.sprites == Alive(old(speedLines.sprites) + born)
      ensures forall s :: s in old(speedLines.sprites) ==> s.State() == Advance(old(s.State()), s.velocity)
      ensures forall k :: 0 <= k < |born| ==>
                fresh(born[k]) && SpawnedAndAdvanced(born[k], burst[k], player.rect.CenterY(), player.gravityDirection)
    {
      xVelocity := Steer(keys);
      MovePlayer(xVelocity, move, settle);
      burstMade := player.justFlipped;
      born := UpdateSpeedlines(burst);
    }

    /** The speedline part of a frame: a burst when the player has just
        flipped gravity (clearing the flag), then one update of the group. */
    method UpdateSpeedlines(burst: seq<SpawnDraw>) returns (ghost born: seq<Speedline>)
      requires Valid()
      requires BurstInRange(burst, CameraLeft(camera), CameraRight(camera, cfg.width as real / zoom))
      modifies this`zoomedWidth, this`zoomedHeight, player`justFlipped, speedLines, speedLines.sprites
      ensures Valid() && !player.justFlipped
      ensures old(player.justFlipped) ==> zoomedWidth == cfg.width as real / zoom && zoomedHeight == cfg.height as real / zoom
      ensures !old(player.justFlipped) ==> zoomedWidth == old(zoomedWidth) && zoomedHeight == old(zoomedHeight)
      ensures |born| == if old(player.justFlipped) then |burst| else 0
      ensures speedLines.sprites == Alive(old(speedLines.sprites) + born)
      ensures forall s :: s in old(speedLines.sprites) ==> s.State() == Advance(old(s.State()), s.velocity)
      ensures forall k :: 0 <= k < |born| ==>
                fresh(born[k]) && SpawnedAndAdvanced(born[k], burst[k], player.rect.CenterY(), player.gravityDirection)
    {
      born := BurstIfFlipped(burst);
      label mid:
      speedLines.Update();
      forall k | 0 <= k < |born|
        ensures SpawnedAndAdvanced(born[k], burst[k], player.rect.CenterY(), player.gravityDirection)
      {
        var line := born[k];
        assert line in old@mid(speedLines.sprites);
        assert old@mid(Spawned(line, burst[k], player.rect.CenterY(), player.gravityDirection));
        assert old@mid(line.State()) == SpawnState(burst[k], player.rect.CenterY());
        assert line.State() == Advance(old@mid(line.State()), line.velocity);
      }
    }

    /** A burst of speedlines when the player has just flipped gravity, and
        the flag cleared. */
    method BurstIfFlipped(burst: seq<SpawnDraw>) returns (ghost born: seq<Speedline>)
      requires Valid()
      requires BurstInRange(burst, CameraLeft(camera), CameraRight(camera, cfg.width as real / zoom))
      modifies this`zoomedWidth, this`zoomedHeight, player`justFlipped, speedLines
      ensures Valid() && !player.justFlipped
      ensures old(player.justFlipped) ==> zoomedWidth == cfg.width as real / zoom && zoomedHeight == cfg.height as real / zoom
      ensures !old(player.justFlipped) ==> zoomedWidth == old(zoomedWidth) && zoomedHeight == old(zoomedHeight)
      ensures |born| == if old(player.justFlipped) then |burst| else 0
      ensures speedLines.sprites == old(speedLines.sprites) + born
      ensures forall k :: 0 <= k < |born| ==>
                fresh(born[k]) && Spawned(born[k], burst[k], player.rect.CenterY(), player.gravityDirection)
    {
      born := [];
      if player.justFlipped {
        born := CreateSpeedlines(burst);
        player.ResetFlipFlag();
      } else {
        assert old(speedLines.sprites) + born == old(speedLines.sprites);
      }
    }

    /** The first part of a frame: the sprint flag, the speed that follows
        from it, and the x-velocity from the `a` and `d` keys. */
    method Steer(keys: Keys) returns (xVelocity: real)
      modifies player`isSprinting, player`currentSpeed
      ensures player.isSprinting == (keys.lshift || keys.rshift)
      ensures player.currentSpeed == NextSpeed(cfg, old(player.currentSpeed), player.isSprinting)
      ensures xVelocity == XVelocity(player.currentSpeed, keys.a, keys.d)
    {
      player.isSprinting := keys.lshift || keys.rshift;
      if player.isSprinting {
        player.currentSpeed := Min(cfg.sprintSpeed, player.currentSpeed + cfg.sprintAcceleration);
      } else {
        player.currentSpeed := Max(cfg.playerSpeed, player.currentSpeed - cfg.sprintAcceleration * 1.2);
      }
      xVelocity := 0.0;
      if keys.a {
        xVelocity := xVelocity - player.currentSpeed;
      }
      if keys.d {
        xVelocity := xVelocity + player.currentSpeed;
      }
    }

    /** The player's part of a frame: its own update, the horizontal
        pre-pass, then physics and collisions. */
    method MovePlayer(xVelocity: real, move: (Motion, real) -> Motion, settle: Motion -> Motion)
      modifies player`rect, player`justFlipped, player`gravityDirection
      ensures player.State() == FrameMotion(old(player.State()), xVelocity, platforms, move, settle)
    {
      var moved := move(player.State(), xVelocity);
      player.rect, player.justFlipped, player.gravityDirection := moved.rect, moved.justFlipped, moved.gravityDirection;
      HandleHorizontalCollision();
      var settled := settle(player.State());
      player.rect, player.justFlipped, player.gravityDirection := settled.rect, settled.justFlipped, settled.gravityDirection;
    }

    /** Draw a frame: place the camera, refresh the background cache, lay out
        the background tiles, cull the level's sprites and hand the camera to
        every speedline. Returns whether the background was rescaled, the
        tile positions and the positions of the drawn sprites. */
    method Draw(allSprites: seq<Rect>) returns (rescaled: bool, tiles: seq<(real, real)>, blits: seq<(int, int)>)
      requires Valid()
      modifies this`zoomedWidth, this`zoomedHeight, this`camera, this`cachedZoom, this`cachedScaledBg,
               speedLines.sprites
      ensures Valid()
      ensures zoomedWidth == cfg.width as real / zoom && zoomedHeight == cfg.height as real / zoom
      ensures camera == CameraFor(player.rect.Center(), zoomedWidth, zoomedHeight)
      ensures rescaled == NeedsRescale(old(cachedZoom), old(cachedScaledBg), zoom)
      ensures Cache(cachedZoom, cachedScaledBg) == CacheAfterDraw(Cache(old(cachedZoom), old(cachedScaledBg)), background, zoom)
      ensures cachedZoom == Some(zoom) && cachedScaledBg.Some?
      ensures tiles == Grid(TileXStart(camera.0, cachedScaledBg.value.w), zoomedWidth, zoomedHeight,
                            cachedScaledBg.value.w, cachedScaledBg.value.h)
      ensures blits == VisibleBlits(allSprites, camera, zoomedWidth, zoomedHeight)
      ensures forall s :: s in speedLines.sprites ==> s.State() == old(s.State()).(offset := camera)
    {
      zoomedWidth := cfg.width as real / zoom;
      zoomedHeight := cfg.height as real / zoom;
      camera := CameraFor(player.rect.Center(), zoomedWidth, zoomedHeight);
      rescaled := NeedsRescale(cachedZoom, cachedScaledBg, zoom);
      if rescaled {
        cachedScaledBg := Some(ScaledSize(background, zoom));
        cachedZoom := Some(zoom);
      }
      var tile := cachedScaledBg.value;
      var xStart := TileXStart(camera.0, tile.w);
      tiles := BackgroundTiles(xStart, zoomedWidth, zoomedHeight, tile.w, tile.h);
      blits := CullSprites(allSprites, camera, zoomedWidth, zoomedHeight);
      var cam := camera;
      forall s | s in speedLines.sprites {
        s.offset := cam;
      }
    }
  }

  /** Appending a speedline that is not yet in a list without repetitions
      keeps it without repetitions. */
  lemma DistinctSnoc(ss: seq<Speedline>, s: Speedline)
    requires Distinct(ss) && s !in ss
    ensures Distinct(ss + [s])
  {
  }
}
