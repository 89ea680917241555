# GravityPlatformer play state and speedlines, in Dafny

This project models the frame logic of the platformer's play state
(`GameStatePlay` in `game_states/play.py`) and its speedline particles
(`Speedline` in `entities/speedlines.py`), and proves properties about them.

- **Zoom keys.** `z` zooms out and `c` zooms in by 0.1; zooming out never goes below 0.5 and zooming in never above 2.0. Each new zoom is written back to the session's state manager.
- **Other events.** The other events become the calls they make on the player and the state manager.
- **Frame update.**
  - The sprint flag and the speed that follows from it.
  - The x-velocity from the `a`/`d` keys.
  - The player's own movement.
  - The horizontal collision pre-pass over the platforms.
  - Physics and collisions.
  - A burst of 30–40 speedlines after a gravity flip, which clears the flip flag.
  - One update of the speedline group.
- **Speedlines.** A speedline ages by one frame per update. It moves by its velocity, truncating each coordinate toward zero. It fades linearly from alpha 255 to 0 over a 30-frame lifetime. It removes itself from its group when the lifetime is used up.
- **Drawing.**
  - The camera uses floor division to centre the zoomed view on the player.
  - The background is rescaled only when the zoom changed or nothing is cached.
  - Tiles wrap with half-speed parallax and one tile of left padding.
  - A sprite is drawn only when its rectangle reaches into the view by strict inequalities.

The project has three modules:

| Module | File | Contents |
|---|---|---|
| `Geometry` | `geometry.dfy` | The pygame `Rect` operations the code relies on, and Python's `int()`, float `//` and float `%` on reals. |
| `Speedlines` | `speedlines.dfy` | The `Speedline` class, and `SpeedlineGroup`, the pygame group that owns the live speedlines. |
| `Play` | `play.dfy` | The `Player`, `StateManager` and `GameStatePlay` classes, plus the pure functions and lemmas that specify them. |

Three details of the code that the model keeps exactly:
- The speed factor of a speedline is drawn with `random.uniform(8, 12)` (entities/speedlines.py:20). That call can return 12 itself, so the model allows the closed range [8, 12].
- The camera halves the zoomed view with floor division (`//`, game_states/play.py:122-123), not exact division. `CameraFor` and `PlayerCentredInView` state what that gives.
- A speedline removes itself from its group in the same update in which its age reaches its lifetime (entities/speedlines.py:31-32). So after every group update, each member is younger than its lifetime (`SpeedlineGroup.Valid`).

## Model

| member | source | states |
|---|---|---|
| Geometry.Rect.WithRight | game_states/play.py:113 | Assigning `rect.right` puts the right edge at the value and keeps y, width and height. |
| Geometry.Rect.WithLeft | game_states/play.py:115 | Assigning `rect.left` puts the left edge at the value and keeps y, width and height. |
| Geometry.Rect.WithCenter | entities/speedlines.py:19 | Assigning `rect.center` makes the centre read back as the value assigned (with pygame's halving of the size), keeping the size. |
| Geometry.Collide | game_states/play.py:111 | Defines `colliderect`: both rectangles have positive size and their half-open areas share a point. `CollideSymmetric` and `PushOut` state its properties. |
| Geometry.CollideSymmetric | game_states/play.py:111 | `colliderect` is symmetric. |
| Geometry.Trunc | entities/speedlines.py:27 | `int()` truncates toward zero: the result is 0 or has the sign of the argument, and lies within one unit of it on the side of zero. |
| Geometry.FloorDiv | game_states/play.py:122-123 | Float `//` with a positive divisor gives the q with q·b ≤ a < (q+1)·b. |
| Geometry.FloorMod | game_states/play.py:142 | Float `%` with a positive divisor lies in [0, m) and differs from the argument by a whole multiple of m. |
| Geometry.Max | game_states/play.py:50 | `max` is at least both arguments and equal to one of them. |
| Geometry.Min | game_states/play.py:54 | `min` is at most both arguments and equal to one of them. |
| Geometry.MaxInt | game_states/play.py:131-132 | Integer `max` is at least both arguments and equal to one of them. |
| Speedlines.SurfaceAlpha | entities/speedlines.py:28 | The alpha stored by `set_alpha` lies in 0..255: the value itself when already in range, otherwise the nearer end. |
| Speedlines.FadeAlpha | entities/speedlines.py:28 | Defines the alpha at an age: `set_alpha(255 - int(255 * (age / lifetime)))` with lifetime 30. `FadeAlphaWithinLifetime` and `FadeAlphaNonIncreasing` state its properties. |
| Speedlines.FadeFraction | entities/speedlines.py:28 | For a non-negative age, `int(255 * (age / lifetime))` is the integer quotient 255·age / 30. |
| Speedlines.FadeAlphaWithinLifetime | entities/speedlines.py:28 | Within the lifetime the alpha is not clamped: it is 255 − ⌊255·age/30⌋. |
| Speedlines.FadeAlphaNonIncreasing | entities/speedlines.py:24-28 | The alpha starts at 255, never grows as the age grows, and is 0 from the lifetime on. |
| Speedlines.Scale | entities/speedlines.py:20 | Defines `direction * factor` on a vector: each coordinate is multiplied by the factor. |
| Speedlines.MoveCenter | entities/speedlines.py:25-27 | Defines the move of a centre: each coordinate plus the velocity, truncated toward zero by `int()`. `MoveAlongGravity` and `Advance` state its effect. |
| Speedlines.MoveAlongGravity | entities/speedlines.py:20-27 | A speedline moving along gravity (direction (0, ±1), factor in [8, 12]) keeps its x and moves between 8 and 12 pixels per frame in the gravity direction. |
| Speedlines.Without | entities/speedlines.py:31-32 | After `kill()` the speedline is no longer in the group, and a group that never held it is unchanged. |
| Speedlines.Alive | entities/speedlines.py:31-32 | Defines the members that survive a group update: those younger than their lifetime, in order. `AliveMember`, `AliveAllExpired` and `AliveValid` state its properties. |
| Speedlines.AliveMember | entities/speedlines.py:31-32 | A speedline survives a group update exactly when it was in the group and has not reached its lifetime. |
| Speedlines.AliveAllExpired | entities/speedlines.py:31-32 | When every speedline has reached its lifetime, nothing survives. |
| Speedlines.AliveValid | entities/speedlines.py:31-32 | The survivors of a group without repetitions and with non-negative ages are without repetitions, and each has a non-negative age and is younger than its lifetime. |
| Speedlines.Advance | entities/speedlines.py:23-28 | One frame makes a speedline one frame older. It moves the centre by the velocity, truncated, and keeps the size and the camera offset. The alpha becomes the fade at the new age. |
| Speedlines.Speedline.constructor | entities/speedlines.py:7-21 | A new speedline:<br>- is age 0 with lifetime 30;<br>- has its size from the drawn thickness and length, centred at the position;<br>- has the drawn fill alpha;<br>- has velocity = `Scale(direction, factor)`;<br>- has offset (0, 0) and full alpha. |
| Speedlines.Speedline.Update | entities/speedlines.py:23-32 | The new state is `Advance` of the old one. The owning group loses this speedline exactly when the new age reaches the lifetime, and is otherwise unchanged. |
| Speedlines.SpeedlineGroup.constructor | game_states/play.py:27 | A new group is empty and valid. |
| Speedlines.SpeedlineGroup.Add | game_states/play.py:107 | `add` appends a speedline, unless it is already a member. |
| Speedlines.SpeedlineGroup.Remove | entities/speedlines.py:32 | `remove` takes out exactly that speedline and keeps the order of the rest. |
| Speedlines.SpeedlineGroup.UpdateMember | game_states/play.py:82 | Updating the next member of the group's snapshot advances it, leaves the others alone, and drops it from the group exactly when it has expired. |
| Speedlines.SpeedlineGroup.Update | game_states/play.py:82 | One group update advances every member once. The group keeps exactly the members still alive, in order, and stays valid (no repetitions, every member younger than its lifetime). |
| Speedlines.SpeedlineGroup.Completed | game_states/play.py:82 | Once every member has been updated, the group is the survivors of the snapshot and is valid. |
| Speedlines.UpdateRepeatedly | entities/speedlines.py:23-32 | Over n updates the group stays valid. Every survivor is an old member aged by exactly n. Every old member whose age plus n is below 30 survives. After 30 updates the group is empty. |
| Play.ZoomOut | game_states/play.py:49-51 | Key `z` gives zoom − 0.1, or exactly 0.5 when that would go below 0.5. The result is at least 0.5. For a zoom of at least 0.5 it never rises above its input; for a zoom of at most 2.0 it is at most 2.0. |
| Play.ZoomIn | game_states/play.py:53-55 | Key `c` gives zoom + 0.1, or exactly 2.0 when that would go above 2.0. The result is at most 2.0. For a zoom of at most 2.0 it never falls below its input; for a zoom of at least 0.5 it is at least 0.5; a positive zoom stays positive. |
| Play.ZoomStep | game_states/play.py:49-55 | Defines the zoom after one event: `ZoomOut` for key `z`, `ZoomIn` for key `c`, unchanged otherwise. |
| Play.ZoomAfter | game_states/play.py:36-55 | Defines the zoom after a batch of events: each event's `ZoomStep`, in order. `ZoomStaysInRange`, `ZoomStaysPositive` and `ZoomOnlyByZoomKeys` state its properties. |
| Play.EventCommands | game_states/play.py:37-47 | Defines the calls one event makes: a left click or `l` flips gravity, space jumps, `r` resets the player's position, escape pushes the pause state. |
| Play.CommandsOf | game_states/play.py:36-47 | Defines the calls a batch of events makes: each event's `EventCommands`, in order. |
| Play.ZoomStepsUndo | game_states/play.py:49-55 | Away from the limits, a zoom-out step followed by a zoom-in step, or the reverse, returns the original zoom. |
| Play.ZoomStaysInRange | game_states/play.py:49-55 | A zoom in [0.5, 2.0] stays in it over any batch of events. |
| Play.ZoomStaysPositive | game_states/play.py:49-55 | A positive zoom stays positive over any batch of events. |
| Play.ZoomOnlyByZoomKeys | game_states/play.py:36-55 | A batch of events without `z` or `c` leaves the zoom unchanged. |
| Play.NextSpeed | game_states/play.py:61-64 | Defines the new speed: with sprint, the speed plus the sprint acceleration, capped at sprint speed; without, the speed minus 1.2 times the acceleration, floored at walking speed. `SprintSpeedBounded` states its bounds. |
| Play.SprintSpeedBounded | game_states/play.py:61-64 | A speed between walking speed and sprint speed stays between them. Sprinting never lowers the speed; walking never raises it. |
| Play.XVelocity | game_states/play.py:66-70 | Defines the x-velocity: 0, minus the speed for `a`, plus the speed for `d`. `XVelocityCases` states its four cases. |
| Play.XVelocityCases | game_states/play.py:66-70 | The x-velocity is −speed with only `a`, +speed with only `d`, and 0 with both or neither. |
| Play.PushOut | game_states/play.py:111-115 | One platform of the pre-pass changes only x. It leaves a non-overlapping player alone. It pushes an overlapping player to the platform's left edge when the player's centre is left of the platform's centre, and to its right edge otherwise. Afterwards they no longer overlap. |
| Play.HorizontalPass | game_states/play.py:109-115 | Defines the pre-pass: `PushOut` for each platform in turn, in platform order. `PassKeepsShape`, `PassUntouched`, `PassClearsLast` and `PassMayLeaveOverlap` state its properties. |
| Play.PassKeepsShape | game_states/play.py:109-115 | The pre-pass never changes the player's y, width or height. |
| Play.PassUntouched | game_states/play.py:109-115 | When no platform overlaps the player, the pre-pass leaves the player where it was. |
| Play.PassClearsLast | game_states/play.py:109-115 | After the pre-pass the player is clear of the last platform. |
| Play.PassMayLeaveOverlap | game_states/play.py:109-115 | A single pass does not clear every platform. If the first platform pushes the player left onto a second that pushes it back right, and the second ends before the first, the player ends at the second's right edge, overlapping the first again. |
| Play.SpawnPosition | game_states/play.py:98-105 | Defines a burst speedline's centre: x plus the horizontal offset, and the player's centre height plus the vertical spread plus the vertical offset. |
| Play.SpawnState | game_states/play.py:98-107 | A speedline just spawned from one draw has age 0, full alpha and offset (0, 0). It is centred at `SpawnPosition` and is the drawn thickness wide and the drawn length tall. |
| Play.AlongGravity | game_states/play.py:91 | Defines a burst speedline's velocity: the direction (0, gravity) scaled by the drawn factor. `MoveAlongGravity` states the motion it gives. |
| Play.SpawnInRange | game_states/play.py:97-105 | A speedline of a burst is centred within 50 pixels of the view's x range and within 300 pixels of the player's centre height. |
| Play.CameraLeft | game_states/play.py:89 | Defines `camera_left`: the camera's x. |
| Play.CameraRight | game_states/play.py:90 | Defines `camera_right`: `int()` of the camera's x plus the zoomed width. |
| Play.CameraRangeNonEmpty | game_states/play.py:89-93 | With a positive view width, `camera_left <= camera_right`, so `randint` has a range to draw from. |
| Play.CameraFor | game_states/play.py:121-124 | Defines the camera: the player's centre minus half the zoomed view, with `//` on each axis. `PlayerCentredInView` states what that gives. |
| Play.PlayerCentredInView | game_states/play.py:121-124 | On each axis, the player's centre lies between half the zoomed view size, minus one pixel, and that half-size itself, measured from the camera corner. |
| Play.ScaledSize | game_states/play.py:131-132 | The scaled background is at least one pixel in each dimension. |
| Play.NeedsRescale | game_states/play.py:129 | Defines when a draw rescales: the zoom differs from the cached zoom, or nothing is cached. |
| Play.CacheAfterDraw | game_states/play.py:129-134 | Defines the cache after a draw: rescaled to `ScaledSize` at the current zoom when `NeedsRescale`, otherwise unchanged. |
| Play.CachedNeverRescales | game_states/play.py:129-134 | Once the cache holds a background for zoom z, any number of draws at z never rescale. |
| Play.RescaleAtMostOnce | game_states/play.py:129-134 | Any number of draws at one zoom rescale at most once, and not at all when the cache already matches. |
| Play.TileXStart | game_states/play.py:139-142 | The first tile column starts within one tile width to the left of the view's left edge. |
| Play.Column | game_states/play.py:146-149 | Defines one column of tiles: positions (x, y) from the given height in steps of the tile height while above the view's bottom. |
| Play.Grid | game_states/play.py:144-150 | Defines the tiling: a `Column` from the top at each x from the start, in steps of the tile width while left of the view's right edge. |
| Play.ColumnCovers | game_states/play.py:146-149 | Every height from the column's start to the view's bottom lies in some tile of the column. |
| Play.GridCovers | game_states/play.py:144-150 | Every point of the view right of the start column lies inside some tile of the tiling: no gaps. |
| Play.ColumnInView | game_states/play.py:146-149 | Every tile of a column starts in that column, between its first height and the view's bottom. |
| Play.GridInView | game_states/play.py:144-150 | Every tile starts at or right of the start column, left of the view's right edge, and between its top and bottom. |
| Play.ScreenPosition | game_states/play.py:154-155 | Defines a sprite's position on the view: its rectangle's corner minus the camera. |
| Play.OnScreen | game_states/play.py:156 | Defines the culling test: the screen position is strictly between minus the sprite's size and the zoomed view size, on both axes. |
| Play.VisibleBlits | game_states/play.py:153-157 | Defines the sprites drawn: the screen positions of those passing `OnScreen`, in sprite order. |
| Play.OnScreenMeansOverlap | game_states/play.py:154-156 | A sprite of positive size passes the culling test exactly when its rectangle on the view shares an interior point with the view. |
| Play.VisibleBlitsMember | game_states/play.py:153-157 | A position is drawn exactly when some sprite at that screen position passes the culling test. |
| Play.BackgroundTiles | game_states/play.py:144-150 | The nested tiling loops produce exactly the tile positions of `Grid`, column by column and top to bottom. |
| Play.ColumnTiles | game_states/play.py:146-149 | The inner tiling loop produces exactly the tile positions of one `Column`. |
| Play.CullSprites | game_states/play.py:153-157 | The culling loop produces exactly the screen positions of the sprites that pass the test, in sprite order. |
| Play.FrameMotion | game_states/play.py:72-76 | Defines the player's motion in one frame: its own update at the x-velocity, then `HorizontalPass` over the platforms, then physics and collisions. |
| Play.Player.ResetFlipFlag | game_states/play.py:80 | The flip flag is cleared. |
| Play.GameStatePlay.constructor | game_states/play.py:19-33 | A new play state has camera (0, 0), an empty speedline group and the session's zoom, with nothing cached. |
| Play.GameStatePlay.HandleEvents | game_states/play.py:35-55 | Events are handled in order:<br>- the final zoom is the zoom steps applied in turn;<br>- the calls on the player and the state manager are the calls each event makes, in order;<br>- the state manager's zoom equals the new zoom whenever a zoom key was pressed, and is unchanged otherwise;<br>- the play state stays valid (positive zoom). |
| Play.GameStatePlay.CreateSpeedlines | game_states/play.py:86-107 | The zoomed size is screen / zoom. One new speedline per draw of the burst is appended to the group, in order. Each is spawned at its drawn position, moves along gravity, has the drawn sizes and fill, and the group stays valid. |
| Play.GameStatePlay.SpawnSpeedline | game_states/play.py:98-107 | One speedline of a burst is created from its draws and appended to the group, which stays valid. The new speedline is in `SpawnState`, has the drawn fill and moves `AlongGravity`. |
| Play.GameStatePlay.HandleHorizontalCollision | game_states/play.py:109-115 | The player's rectangle becomes the pre-pass over the platforms, in order. |
| Play.GameStatePlay.Update | game_states/play.py:57-84 | One frame:<br>- sprint flag from either shift key;<br>- speed per `NextSpeed`;<br>- x-velocity from `a`/`d`;<br>- player motion = own movement, then pre-pass, then physics;<br>- a burst exactly when the player just flipped, after which the flag is clear;<br>- the zoomed size becomes screen / zoom with a burst and is unchanged without one;<br>- the group ends as the survivors of the old members plus the burst, and stays valid;<br>- every old member is advanced by one frame;<br>- every new speedline is fresh, has its draw's fill, moves `AlongGravity` for the player's final gravity, and is one frame past its `SpawnState` at the player's final centre height. |
| Play.GameStatePlay.Steer | game_states/play.py:58-70 | The sprint flag, the new speed and the x-velocity of a frame. |
| Play.GameStatePlay.MovePlayer | game_states/play.py:72-76 | The player's state becomes its own movement, then the horizontal pre-pass, then physics and collisions. |
| Play.GameStatePlay.UpdateSpeedlines | game_states/play.py:78-82 | A burst exactly when the flip flag is set, which it then clears, followed by one group update. With a burst the zoomed size becomes screen / zoom; without one it is unchanged. The group ends as the survivors of the old members plus the burst. Every old member is advanced by one frame. Every new speedline is fresh, has its draw's fill, moves `AlongGravity`, and is one frame past its `SpawnState`. |
| Play.GameStatePlay.BurstIfFlipped | game_states/play.py:78-80 | A burst, one new speedline per draw appended in order, exactly when the flip flag is set, which is then clear. With a burst the zoomed size becomes screen / zoom; without one it is unchanged. Each new speedline is fresh and `Spawned` from its draw; the group stays valid. |
| Play.GameStatePlay.Draw | game_states/play.py:117-164 | One draw:<br>- zoomed size = screen / zoom; camera centred on the player by floor division;<br>- a rescale exactly when the zoom changed or nothing was cached, after which the cache holds the current zoom;<br>- tiles = the tiling from the parallax start with the cached tile size;<br>- drawn sprites = those passing the culling test;<br>- every speedline's offset becomes the camera, with nothing else about it changed. |

## Left out

- Geometry.Rect has non-negative width and height. pygame allows negative sizes and `colliderect` normalises them; no rectangle in this core has a negative size, so the model assumes non-negative sizes.
- Rendering is left out: surfaces, blits, the final scale of the zoomed surface to the screen, `display.flip` and the HUD (`_draw_ui`). The model keeps only the positions the drawing loops compute and the size of the cached surface.
- Play.GameStatePlay.Draw: the screen positions of the speedlines (lines 162-164) are not returned. Only the offset update on line 161 is modelled.
- The player's own `update`, `apply_physics` and `CollisionSystem.handle_collisions` are parameters (`move`, `settle`). `Player`, `Level` and `CollisionSystem` are not part of this model. The model also assumes these parameters do not touch the player's speed or sprint flag. Because `settle` has type `Motion -> Motion`, the model also rules out any change that `CollisionSystem.handle_collisions`, which receives the state manager, might make to the session's zoom, the camera or the speedlines.
- `flip_gravity`, `jump`, `reset_position` and `push_state(GameStatePaused)` are returned as `Command`s instead of being run.
- `self.level.orbs.update()` (line 77) and the boss loop (lines 83-84) are left out. The model assumes that neither changes the player, the speedlines, the camera or the zoom. In particular, `boss.update` receives the player's rectangle, and the model assumes it does not modify it.
- Randomness is left out: every `random.randint` and `random.uniform` draw of a burst is a parameter (`SpawnDraw`), with the library's ranges as preconditions. Keyboard polling is a parameter too (`Keys`).
- Floats are modelled as exact reals, so IEEE rounding is not modelled. For example, five zoom steps out and five back from 1.0 return 1.0 exactly in the model.
- Play.GameStatePlay.constructor requires the session's zoom to be positive, HandleEvents, Update and Draw require it through `Valid()`, and CreateSpeedlines requires it directly. In the source a zero zoom divides by zero (lines 87 and 119). A negative zoom gives a negative view size: `pygame.Surface` refuses it (line 127), and `randint(camera_left, camera_right)` (line 98) gets an empty range. The zoom keys keep a positive zoom positive (`ZoomStaysPositive`) and a zoom in [0.5, 2.0] inside that range (`ZoomStaysInRange`).
- Speedlines.Speedline.Update takes its group as a parameter and leaves only that group. In pygame, `kill()` removes the sprite from every group that holds it. Here the two agree, because a speedline only ever belongs to the play state's `speed_lines` group.
- The camera is stored as a pair of integers. In the source it is a pair of floats whose values are whole numbers, so `int(camera[0])` is the same number.
- The second, identical computation of `camera_left`/`camera_right` (lines 92-93) has no effect and is not modelled separately.
- `cached_scaled_bg` is modelled by its size. A pygame surface is always truthy, so `not self.cached_scaled_bg` holds only before the first draw.
- Play.PassMayLeaveOverlap is stated for all rectangles meeting its conditions, not as a single example. One instance: a player at (10, 0, 10×10) and platforms at (15, 0, 10×10) and (2, 0, 5×10).
