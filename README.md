# Third-person camera rig and inventory menu

A Dafny model of two Unity components of the game.

**`camera_rig.dfy`, module `CameraRig`** models `Assets/Code/Scripts/ThirdPersonCamera.cs`. This is a camera rig that sits on the player next to a first-person controller (the "host"). Each frame it does the following:

- **Pitch.** It tilts the camera by the vertical mouse delta, clamped to ±`maxLookAngle`.
- **Zoom.** It zooms with the scroll wheel. Below `minDistance` there is a dead zone: the distance snaps to 0 and the first-person layer is shown. Scrolling forward jumps the distance to `minDistance + 0.1`. Above the dead zone the scroll is added and capped at `maxDistance`, and the third-person layer is shown.
- **Orbit.** It places the camera joint on a vertical circle of that radius around the player's head height.
- **Occlusion.** When a ray toward the joint hits something, it re-places the joint at the clearance (the hit distance minus 1), never closer than minDistance. With the distance at or above minDistance this pulls the joint in; in a frame where the distance is below minDistance a hit moves the joint out to minDistance.
- **Head bob.** While the player walks, the joint bobs by the sine of a phase timer. The timer advances faster when sprinting and slower when crouching. When the player stops, the timer resets and the joint eases back toward the target.

At the physics step the rig recomputes its walking, sprinting and crouching flags from the rigidbody's velocity and the held keys. At start it removes the first-person layer from the culling mask by subtracting that layer's bit.

"Exactly one view layer is visible" holds only after a frame has run. Between `Start` and the first `Update` the mask can have neither view bit set, or, after the borrow described under "## Findings", both. The model therefore keeps this fact out of the component's invariant and states it about the view switch (`CameraRig.ExactlyOneView`).

**`inventory_ui.dfy`, module `InventoryUI`** models `Assets/Code/Scripts/UI/InventoryMenu.cs`.

- **Toggle.** Pressing I toggles the menu.
- **Open.** Opening draws a panel of `count` tiles with `(int)sqrt(count)` tiles to a row, filled row by row until the tiles run out. Each tile is named `img_Tile_{x}_{y}` and placed at a fixed pitch. The panel is sized to the grid, and the panel is appended to the component's list of drawn panels.
- **Close.** Closing destroys every panel in that list.

### How the model is built

- **Components become classes.**
  - `ThirdPersonCamera` keeps the rig's fields: pitch, distance, timer and the three movement flags. It also keeps the host state the rig writes:
    - the culling mask, as a 32-bit vector;
    - the camera's pitch angle;
    - the joint position;
    - the host's two "enabled" flags.
  - `InventoryMenu` keeps `_isActive`, the list of drawn panels as a sequence, and the set of list positions whose GameObject has been destroyed.
- **Engine inputs become parameters.** This covers:
  - input axes and keys;
  - the rigidbody's speed and velocity components;
  - `Time.deltaTime`;
  - the physics raycast, passed in as a function from direction and length to an optional hit distance;
  - `Mathf.Sin` and `Mathf.Cos`, passed in as functions;
  - the host controller's head-bob tuning (`bobSpeed`, `sprintSpeed`, `speedReduction`, `bobAmount`), read anew on every frame like the other host fields.
- **Each method is proved against a specification function.** Examples: `Look` against `NextPitch`, `LayOut` against `Grid`/`ColumnCount`/`RowCount`. The properties the source relies on are lemmas about those functions.
- **One source method can become several Dafny methods.** The source's `Update` and `HeadBob` are modelled as `Update`, calling `Look`, `Zoom` and `Pose`. `Pose` calls `Aim` and `HeadBob`, and `HeadBob` calls `AdvanceTimer`. The statements run in the source's order.

### Two facts about the code worth knowing

- **The clamp applies after the delta is added.** From pitch 48 with mouse delta +10 the pitch becomes 28 (`CameraRig.DefaultExamples`).
- **There is no lower clamp on the distance.** A backward scroll can leave the distance strictly between 0 and minDistance, or below 0, for one frame; the dead zone then snaps it to 0, unless that next frame scrolls forward, which lands it at minDistance + 0.1 (`CameraRig.UndershootLastsOneFrame`). Only the upper bound is an invariant (`CameraRig.DistanceStaysCapped`).

## Model

| member | source | states |
|---|---|---|
| CameraRig.Clamp | Assets/Code/Scripts/ThirdPersonCamera.cs:65 | Mathf.Clamp gives the lower bound for a value below it, the upper bound for a value above it (when not below the lower), and the value itself inside the bounds; the result lies within the bounds |
| CameraRig.NextPitch | Assets/Code/Scripts/ThirdPersonCamera.cs:54-65 | the pitch after a frame always lies within ±maxLookAngle |
| CameraRig.PitchFollowsMouse | Assets/Code/Scripts/ThirdPersonCamera.cs:54-65 | inside the look range the pitch moves by minus sensitivity × mouse delta, or plus when the camera is inverted; past the top it sticks at maxLookAngle, and below the bottom at -maxLookAngle |
| CameraRig.NextDistance | Assets/Code/Scripts/ThirdPersonCamera.cs:68-84 | the distance never exceeds maxDistance; from the dead zone it becomes exactly 0 or minDistance + 0.1 |
| CameraRig.DeadZoneSnaps | Assets/Code/Scripts/ThirdPersonCamera.cs:69-80 | in the dead zone a forward scroll leaves the dead zone at minDistance + 0.1, and any other scroll snaps to 0 and stays in it (both directions) |
| CameraRig.ZoomOutsideDeadZone | Assets/Code/Scripts/ThirdPersonCamera.cs:81-84 | outside the dead zone the scroll is added, and the sum is capped at maxDistance only from above |
| CameraRig.ZeroIsSticky | Assets/Code/Scripts/ThirdPersonCamera.cs:69-80 | from distance 0, any run of frames without a forward scroll keeps the distance at 0 |
| CameraRig.DistanceStaysCapped | Assets/Code/Scripts/ThirdPersonCamera.cs:83-84 | from a distance within the cap, every run of scroll deltas keeps the distance at or below maxDistance |
| CameraRig.UndershootLastsOneFrame | Assets/Code/Scripts/ThirdPersonCamera.cs:69-84 | with the default settings a backward scroll from minDistance gives a distance inside (0, minDistance) or below 0, and the next frame snaps it to 0 |
| CameraRig.DefaultExamples | Assets/Code/Scripts/ThirdPersonCamera.cs:54-84 | worked frames under the field initialisers: pitch 48 with mouse +10 gives 28 and with -10 gives 50; distance 0.1 with scroll 0.5 gives 0.3, and 4.9 gives 5 |
| CameraRig.DefaultsValid | Assets/Code/Scripts/ThirdPersonCamera.cs:22-25 | the field initialisers satisfy the ranges the invariants need (0 < minDistance, minDistance + 0.1 <= maxDistance) |
| CameraRig.WithLayer | Assets/Code/Scripts/ThirdPersonCamera.cs:73 | OR-ing in the layer's bit makes that layer visible |
| CameraRig.WithoutLayer | Assets/Code/Scripts/ThirdPersonCamera.cs:74 | AND-ing with the complement of the bit makes that layer hidden |
| CameraRig.SetKeepsOtherLayers | Assets/Code/Scripts/ThirdPersonCamera.cs:73 | turning one layer on leaves every other layer's visibility unchanged |
| CameraRig.ClearKeepsOtherLayers | Assets/Code/Scripts/ThirdPersonCamera.cs:74 | turning one layer off leaves every other layer's visibility unchanged |
| CameraRig.ViewMask | Assets/Code/Scripts/ThirdPersonCamera.cs:69-88 | after the view switch the first-person layer is visible exactly when the old distance was in the dead zone, and the third-person layer exactly when it was not |
| CameraRig.ExactlyOneView | Assets/Code/Scripts/ThirdPersonCamera.cs:69-88 | after every frame exactly one of the two view layers is visible |
| CameraRig.ViewSwitchKeepsOtherLayers | Assets/Code/Scripts/ThirdPersonCamera.cs:69-88 | the view switch leaves every other layer as it was |
| CameraRig.StartClearsSetLayer | Assets/Code/Scripts/ThirdPersonCamera.cs:42 | when the first-person layer is visible, Start's subtraction equals clearing its bit and hides it |
| CameraRig.StartBorrowsFromClearLayer | Assets/Code/Scripts/ThirdPersonCamera.cs:42 | when the first-person layer is already hidden, Start's subtraction makes it visible and differs from clearing the bit; the layers below keep their bits and, unless the layer is 31, some layer above it changes |
| CameraRig.MinusLayerUndone | Assets/Code/Scripts/ThirdPersonCamera.cs:42 | Start's 32-bit subtraction of the layer's bit wraps around modulo 2³², so adding the bit back always restores the mask |
| CameraRig.StartHidesAnotherLayer | Assets/Code/Scripts/ThirdPersonCamera.cs:42 | an instance of the borrow: with only layer 1 visible and first-person layer 0, Start shows layer 0 and hides layer 1 |
| CameraRig.OrbitOffset | Assets/Code/Scripts/ThirdPersonCamera.cs:91-95 | the joint offset has no sideways component, and radius 0 puts it at head height |
| CameraRig.OrbitRadius | Assets/Code/Scripts/ThirdPersonCamera.cs:99-103 | with no hit the radius is the distance; with a hit it is the larger of minDistance and the hit distance minus 1, and one of the two |
| CameraRig.OcclusionRadius | Assets/Code/Scripts/ThirdPersonCamera.cs:99-103 | for a hit within the ray's length (distance + 1), the joint is pulled in to at most the distance when the distance is at least minDistance, and placed at exactly minDistance when the distance is below it |
| CameraRig.OrbitTarget | Assets/Code/Scripts/ThirdPersonCamera.cs:91-103 | the joint target has no sideways component and stays on the orbit at the zoom distance when the probe ray hits nothing |
| CameraRig.Classify | Assets/Code/Scripts/ThirdPersonCamera.cs:118-146 | walking exactly when speed > 0.1; never both sprinting and crouching; each flag only when its key is enabled and held and the horizontal velocity is non-zero; crouching only when sprinting is not both enabled and held |
| CameraRig.ClassifyComplete | Assets/Code/Scripts/ThirdPersonCamera.cs:131-145 | with horizontal motion, an enabled held sprint key always sets sprinting, and otherwise an enabled held crouch key always sets crouching |
| CameraRig.BobRate | Assets/Code/Scripts/ThirdPersonCamera.cs:157-170 | the phase rate is non-negative for non-negative tuning, and bobSpeed + sprintSpeed when sprinting |
| CameraRig.BobRatesOrdered | Assets/Code/Scripts/ThirdPersonCamera.cs:157-170 | for positive bobSpeed and sprintSpeed and any speedReduction below 1, sprinting bobs faster than walking, and walking faster than crouching |
| CameraRig.NextTimer | Assets/Code/Scripts/ThirdPersonCamera.cs:154-177 | the phase resets to 0 when not walking, and otherwise never decreases for non-negative time and rate, strictly increasing when both are positive |
| CameraRig.FasterRateAdvancesFurther | Assets/Code/Scripts/ThirdPersonCamera.cs:157-170 | over the same positive frame time a faster rate moves the phase strictly further |
| CameraRig.Lerp | Assets/Code/Scripts/ThirdPersonCamera.cs:178 | Mathf.Lerp stays between its endpoints, and gives the start for t <= 0 and the end for t >= 1 |
| CameraRig.Ease | Assets/Code/Scripts/ThirdPersonCamera.cs:178 | easing toward the target never moves the joint farther from the target on any axis, and is the identity for step 0 and reaches the target for step >= 1 |
| CameraRig.Displace | Assets/Code/Scripts/ThirdPersonCamera.cs:152-172 | the bobbed position equals the target when the sine is 0 or the bob amount is zero |
| CameraRig.BobAmplitude | Assets/Code/Scripts/ThirdPersonCamera.cs:152 | the amplitude is a tenth of the controller's bob amount on each axis |
| CameraRig.BobbedJoint | Assets/Code/Scripts/ThirdPersonCamera.cs:154-179 | while walking the joint is at the target whenever the sine of the phase is 0 |
| CameraRig.IdleJointSettles | Assets/Code/Scripts/ThirdPersonCamera.cs:174-179 | once the player stops, the joint never moves away from the target on any axis, stays where it was for a step of 0 or less, and reaches the target for a step of 1 or more |
| CameraRig.ThirdPersonCamera.constructor | Assets/Code/Scripts/ThirdPersonCamera.cs:18-36 | the rig starts with pitch, distance and timer 0 and all movement flags false, over the host's current state; it takes no head-bob tuning, which each frame reads from the host |
| CameraRig.ThirdPersonCamera.Start | Assets/Code/Scripts/ThirdPersonCamera.cs:38-43 | the mask becomes the old mask minus the first-person bit, which hides that layer when it was visible |
| CameraRig.ThirdPersonCamera.Update | Assets/Code/Scripts/ThirdPersonCamera.cs:45-116 | one frame: host look and bob disabled; new pitch and distance; the view-switched mask; the camera angle set to the new pitch; the advanced phase; the joint bobbed around the orbit target computed from the previous camera angle and the occlusion ray; the invariants (pitch in range, distance capped, not both sprinting and crouching) kept |
| CameraRig.ThirdPersonCamera.Look | Assets/Code/Scripts/ThirdPersonCamera.cs:54-65 | the pitch becomes NextPitch of the old pitch, so it stays in the look range |
| CameraRig.ThirdPersonCamera.Zoom | Assets/Code/Scripts/ThirdPersonCamera.cs:68-88 | the distance becomes NextDistance and the mask ViewMask of the old distance's dead-zone state |
| CameraRig.ThirdPersonCamera.Aim | Assets/Code/Scripts/ThirdPersonCamera.cs:91-103 | the joint position is the orbit target for the current distance and camera angle |
| CameraRig.ThirdPersonCamera.Pose | Assets/Code/Scripts/ThirdPersonCamera.cs:91-115 | the camera angle takes the pitch and the joint takes the bobbed orbit target computed with the angle from before the frame |
| CameraRig.ThirdPersonCamera.FixedUpdate | Assets/Code/Scripts/ThirdPersonCamera.cs:118-146 | the three flags become Classify of the speed, velocity and keys, so sprinting and crouching are never both set |
| CameraRig.ThirdPersonCamera.HeadBob | Assets/Code/Scripts/ThirdPersonCamera.cs:150-180 | the phase advances by NextTimer, and the returned position is the target displaced by the sine of the new phase while walking, or the joint eased toward the target otherwise |
| CameraRig.ThirdPersonCamera.AdvanceTimer | Assets/Code/Scripts/ThirdPersonCamera.cs:154-177 | the phase becomes NextTimer at the rate of the current movement state: sprint before crouch before walk, 0 when idle |
| InventoryUI.ISqrt | Assets/Code/Scripts/UI/InventoryMenu.cs:93 | the integer root of n is at most n and at least 1 for n >= 1 (its exact bracket is `InventoryUI.ISqrtIsRoot`) |
| InventoryUI.ISqrtIsRoot | Assets/Code/Scripts/UI/InventoryMenu.cs:93 | the integer square root r satisfies r² <= n < (r + 1)² |
| InventoryUI.ColumnCount | Assets/Code/Scripts/UI/InventoryMenu.cs:93 | at least one tile per row when there is a slot; for a negative count the square root is NaN, whose conversion C# leaves unspecified, and the model fixes the x86/x64 result int.MinValue |
| InventoryUI.ColumnCountIsRoot | Assets/Code/Scripts/UI/InventoryMenu.cs:93 | the row width is the square root of the count rounded down |
| InventoryUI.RowCount | Assets/Code/Scripts/UI/InventoryMenu.cs:96-105 | no rows without slots, at least one otherwise |
| InventoryUI.RowCountFits | Assets/Code/Scripts/UI/InventoryMenu.cs:96-105 | the rows hold all the tiles and the last row holds at least one: (h - 1)·w < count <= h·w |
| InventoryUI.RowCountUnique | Assets/Code/Scripts/UI/InventoryMenu.cs:96-105 | the row count is the only number of rows that fits the tiles that way |
| InventoryUI.RowMajor | Assets/Code/Scripts/UI/InventoryMenu.cs:99-104 | the tile created at column x of row y is the (y·w + x)-th, and division by the width recovers its row and column |
| InventoryUI.Grid | Assets/Code/Scripts/UI/InventoryMenu.cs:96-105 | one cell per slot, none for a non-positive count |
| InventoryUI.GridInRange | Assets/Code/Scripts/UI/InventoryMenu.cs:96-105 | every tile's column is below the row width and its row below the row count, in row-major order |
| InventoryUI.GridDistinct | Assets/Code/Scripts/UI/InventoryMenu.cs:96-105 | no two tiles share a cell |
| InventoryUI.OnlyLastRowPartial | Assets/Code/Scripts/UI/InventoryMenu.cs:96-105 | every row but the last has a tile in each of its columns |
| InventoryUI.NoWiderThanTall | Assets/Code/Scripts/UI/InventoryMenu.cs:93-105 | the grid has at least as many rows as columns |
| InventoryUI.LayOut | Assets/Code/Scripts/UI/InventoryMenu.cs:92-105 | the tiling loop creates exactly the cells of Grid in order, with the width and row count of the grid |
| InventoryUI.NatToString | Assets/Code/Scripts/UI/InventoryMenu.cs:125 | the decimal form is a non-empty string of digits, one digit long exactly below 10 |
| InventoryUI.IntToString | Assets/Code/Scripts/UI/InventoryMenu.cs:125 | the decimal form starts with '-' exactly for negative numbers and never contains '_' |
| InventoryUI.NatToStringInjective | Assets/Code/Scripts/UI/InventoryMenu.cs:125 | different non-negative numbers format differently |
| InventoryUI.IntToStringInjective | Assets/Code/Scripts/UI/InventoryMenu.cs:125 | different integers format differently |
| InventoryUI.SplitAtUnderscore | Assets/Code/Scripts/UI/InventoryMenu.cs:125 | two underscore-free parts joined by '_' are recovered uniquely |
| InventoryUI.TileName | Assets/Code/Scripts/UI/InventoryMenu.cs:125 | every tile name starts with `img_Tile_` and is longer than it; with `InventoryUI.TileNameInjective`, the rest determines the cell |
| InventoryUI.TileNameInjective | Assets/Code/Scripts/UI/InventoryMenu.cs:125 | the name `img_Tile_{x}_{y}` determines the column and the row |
| InventoryUI.PanelTileNamesDistinct | Assets/Code/Scripts/UI/InventoryMenu.cs:99-125 | all the tiles of one panel have different names |
| InventoryUI.TileSpacing | Assets/Code/Scripts/UI/InventoryMenu.cs:139-143 | adjacent columns are tileWidth + tilePad apart horizontally; adjacent rows are tileHeight + tilePad apart going down |
| InventoryUI.TilePosition | Assets/Code/Scripts/UI/InventoryMenu.cs:139-143 | the first column sits half a tile pitch left of the half pad, and the first row half a pitch above the half pad and the header |
| InventoryUI.PanelSize | Assets/Code/Scripts/UI/InventoryMenu.cs:108-111 | a grid with no columns is half a pad wide, and one with no rows is half a pad plus the header high |
| InventoryUI.CreateTile | Assets/Code/Scripts/UI/InventoryMenu.cs:121-144 | the tile for column x, row y records that cell, is one tile in size, and is named with the `img_Tile_` prefix |
| InventoryUI.PanelGrowsByPitch | Assets/Code/Scripts/UI/InventoryMenu.cs:108-111 | each extra column widens the panel and each extra row heightens it by one tile pitch, matching the tile spacing |
| InventoryUI.MenuPanel | Assets/Code/Scripts/UI/InventoryMenu.cs:80-113 | the panel has one tile per grid cell, in the loop's order |
| InventoryUI.EmptyMenu | Assets/Code/Scripts/UI/InventoryMenu.cs:92-111 | with no slots the panel has no tiles and is one header high; a negative count makes the width term int.MinValue tile pitches |
| InventoryUI.Positions | Assets/Code/Scripts/UI/InventoryMenu.cs:151 | exactly the list positions below n |
| InventoryUI.InventoryMenu.constructor | Assets/Code/Scripts/UI/InventoryMenu.cs:31-36 | the list starts empty, nothing is destroyed, and the menu is closed |
| InventoryUI.InventoryMenu.GetInput | Assets/Code/Scripts/UI/InventoryMenu.cs:59-74 | a press toggles the menu: opening appends the drawn panel at the origin, closing destroys every listed panel; without a press nothing changes; the list only grows |
| InventoryUI.InventoryMenu.DrawMenu | Assets/Code/Scripts/UI/InventoryMenu.cs:80-113 | the list gains exactly the panel for the count and position at its end |
| InventoryUI.InventoryMenu.CloseMenu | Assets/Code/Scripts/UI/InventoryMenu.cs:149-155 | every position in the list is added to the destroyed set, and the list itself is unchanged |

## Left out

- Yaw. The horizontal mouse look and the player's rotation are not modelled. The rotation written at line 109 is read again by the next frame's raycast (line 99), through `transform.position` and `transform.rotation`; that dependence is absorbed into the `castRay` parameter, which the caller supplies per frame.
- Euler-angle wrap-around. Unity reports `localEulerAngles.x` in [0, 360), so a negative pitch reads back as 360 + pitch. The model stores the raw pitch as the camera angle. This is an abstraction, not an identity: `sin` and `cos` are unconstrained parameters, and even for the real functions 360 × `Deg2Rad` (6.283185264) is not exactly 2π.
- Sine, cosine and the raycast. Their values are not modelled. They are function parameters, and so is the ray's start point and its rotation by the player's rotation.
- The raycast's hit distance is not bounded by the ray's length: `castRay` may report any hit, whereas `Physics.Raycast` reports only hits within `distance + 1`. `CameraRig.OcclusionRadius` therefore takes that bound as its precondition.
- The rigidbody's speed is not tied to its velocity components. `speed` stands for `_rb.velocity.magnitude`, which is at least |vx| and |vz|, but `Classify` and `FixedUpdate` take the three independently, so the model admits inputs the engine cannot produce (e.g. sprinting without walking). No contract relies on the tie.
- `Debug.DrawRay`. It has no effect on state.
- `GetComponent` lookups of the host controller and the rigidbody. They are not modelled; the fields the rig reads from them (velocity, keys, enable flags and the head-bob tuning) are method parameters.
- `LayerMask.NameToLayer` returning -1 for a missing layer. Not modelled: layers are 0 to 31.
- Single-precision floating point. Reals are exact, so rounding of distances, angles and the timer is not captured.
- InventoryUI.ColumnCount: the column count is the exact integer root, while `(int)Mathf.Sqrt(count)` goes through a single-precision root. The two differ for large counts: for 16785408 (4097² − 1) the float root rounds to 4097, where `ColumnCount` gives 4096.
- InventoryUI.ColumnCount: for a negative count the conversion of NaN to int is unspecified in C#; x86/x64 give int.MinValue and ARM64 gives 0. The model fixes the x86/x64 result.
- Aliasing of the host's camera. Its culling mask, pitch angle and joint position are plain fields of the component, so another script writing the same camera is not modelled.
- CameraRig.ThirdPersonCamera.Update: the three movement flags are framed out by the modifies clause rather than stated in an ensures.
- Non-negative phase timer. It is not kept as an invariant of the component. `NextTimer` states that the phase only grows for non-negative frame time and rate.
- `InitMenu`, the canvas and the Image and RectTransform components. They are engine objects. A panel and its tiles are modelled as the values their name, size and position properties are set to.
- Panels in the list are values, not references. The source adds the panel to the list before filling it; the model appends the finished panel. `Destroy` is modelled as marking a list position destroyed.
- `Update` of the inventory component. It only calls `GetInput`; the key press is its parameter.
- The anchors (`anchorMin`, `anchorMax`) and the tile colour. They are constants that the model does not carry.

## Findings

| source | as written | input that shows it | evidently intended | confidence | as-written member | corrected member |
|---|---|---|---|---|---|---|
| Assets/Code/Scripts/ThirdPersonCamera.cs:42 | Start hides the first-person layer with `cullingMask -= 1 << layer`, a subtraction | a mask in which the first-person layer is already hidden, e.g. mask 0b10 with the layer at bit 0: the result 0b01 shows layer 0 and hides layer 1 | clear the bit (`&= ~(1 << layer)`), as the zoom code does for the same layer | medium, not executed | CameraRig.StartHidesAnotherLayer | CameraRig.ClearKeepsOtherLayers |

The component's `Start` models the subtraction as written (`CameraRig.ThirdPersonCamera.Start`). The corrected operation is `CameraRig.WithoutLayer`: it hides the layer (`CameraRig.WithoutLayer`'s contract) and leaves every other layer as it was (`CameraRig.ClearKeepsOtherLayers`). The zoom step uses it (`CameraRig.ThirdPersonCamera.Zoom`).
