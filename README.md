# Hedgehog adventure: a Dafny model of the game rules and the flag logic

This project models the decision-making core of the hedgehog platformer demo
and proves properties of it:

- **Player** (`player.dfy`, module `Entities`) is the player sprite's per-frame rules:
  - recompute `isOnGround` from the two "down" contact flags;
  - reset `jumpCount` when grounded;
  - set the horizontal velocity and facing from the left and right keys;
  - jump on the rising edge of the up key, allowed while `jumpCount < maxJumps`;
  - choose the animation key.

  The class `Player` holds the fields that `update()` and `jump()` overwrite. Its
  methods are proved against the pure function `Step`, and the lemmas about `Step`
  state the jump-count invariant, the reset-before-jump order, the horizontal rule,
  the animation table, and the bound of two jumps between landings.
- **Level** (`level.dfy`, module `Scenes`) is the level scene:
  - the nine data-point positions;
  - the score and its `n / 9` label;
  - completion when the last point is collected, with the elapsed whole seconds;
  - the one-shot restart on space;
  - the respawn after a fall below the field.

  The class `Level` keeps the invariant `score + remaining == totalDataPoints`. The
  field is 800×600 (`game_config.dfy`, module `GameConfig`).
- **Flag panel** (`flag_panel.dfy`, module `FlagPanel`) merges the local overrides
  over the flags it receives. It also has the double-jump toggle, the speed-boost
  toggle, skin selection, reset, and `hasOverrides`.
- **Events panel** (`events_panel.dfy`, module `EventsPanel`) has:
  - the priority-ordered substring classifier for event-name colours, proved equal to
    a table-driven first-match definition;
  - the single expanded row;
  - the list rendering: a placeholder, or one row per event.
- **Flags endpoint** (`flags_route.dfy`, module `FlagsRoute`) models the `GET`
  handler as a pure function of its inputs: the API key and host environment
  variables, the `ph_distinct_id` cookie, the `x-vercel-id` header, the flag
  service's answer, and the UUIDs drawn. It returns the response body, the cookie it
  sets, and the client it creates.

Integers stand in for the engine's pixel coordinates and velocities. Time is
`Date.now()` in milliseconds, passed in as `now`. Dafny's `/` with a positive
divisor rounds down, just as `Math.floor` of the quotient does.

The model follows the code as written:

- `maxJumps` is the constant 2 and `speed` the constant 300. Neither is derived from
  the flags.
- There are 9 data points (6 on platforms and 3 on the ground).
- The game emits no events.
- Only the `default-*` animations exist, so the game does no skin switching.
- After completion the scene keeps running: the player can still move, and nothing
  freezes play.

## Model

| member | source | states |
|---|---|---|
| `Entities.Player.constructor` | src/game/entities/Player.ts:5-25 | a new player stands at the given point at rest, with `jumpCount = 0`, `maxJumps = 2`, `speed = 300`, not grounded |
| `Entities.Player.Jump` | src/game/entities/Player.ts:113-118 | `jump()` changes the state exactly as `TryJump` of the old state |
| `Entities.Player.Update` | src/game/entities/Player.ts:73-111 | `update()` keeps `0 ≤ jumpCount ≤ maxJumps`, makes the new state `Step` of the old one, sets `isOnGround` to `blocked.down` or `touching.down`, and leaves the animation given by the state-only table |
| `Entities.Player.SetPosition` | src/game/scenes/Level.ts:223 | `setPosition` changes the position and nothing else |
| `Entities.Player.SetVelocity` | src/game/scenes/Level.ts:224 | `setVelocity` changes the velocity and nothing else |
| `Entities.TryJump` | src/game/entities/Player.ts:113-118 | a jump changes only `vy` and `jumpCount`: either nothing changes, or one jump is counted and `vy = -450`; the bound `0 ≤ jumpCount ≤ maxJumps` is kept |
| `Entities.Step` | src/game/entities/Player.ts:73-111 | after a frame the position is the body's, `isOnGround` is the contact disjunction, some animation is playing, the counter is its reset value or one more, and `maxJumps` and `speed` are unchanged |
| `Entities.JumpGate` | src/game/entities/Player.ts:113-118 | a jump succeeds iff `jumpCount < maxJumps`; success sets `vy = -450` and adds exactly 1, failure changes nothing |
| `Entities.StepKeepsJumpBound` | src/game/entities/Player.ts:73-118 | every frame preserves `0 ≤ jumpCount ≤ maxJumps` and never changes `maxJumps` or `speed` |
| `Entities.GroundedResetPrecedesJump` | src/game/entities/Player.ts:75-102 | `isOnGround` is exactly the contact disjunction; when grounded, the counter is 0 before the jump check, so a grounded jump always succeeds and leaves `jumpCount = 1` |
| `Entities.JumpEffect` | src/game/entities/Player.ts:100-118 | after the reset, the counter goes up by one and `vy` becomes -450 exactly when the jump succeeds; otherwise both keep their reset/body values |
| `Entities.HeldUpDoesNotJump` | src/game/entities/Player.ts:100-102 | the held state of the up key has no effect; without the just-down edge no jump happens |
| `Entities.HorizontalRule` | src/game/entities/Player.ts:81-98 | left gives `vx = -speed` and `flipX` and wins over right; right alone gives `vx = speed` and not `flipX`; neither gives `vx = 0` with `flipX` unchanged |
| `Entities.AnimationIsFunctionOfState` | src/game/entities/Player.ts:84-110 | the animation after a frame is walk or idle when grounded (moving or not), jump when airborne with `vy < 0`, fall otherwise |
| `Entities.AnimationKeys` | src/game/entities/Player.ts:85-108 | the walk, idle, jump and fall animations of the table are played under the keys `default-walk`, `default-idle`, `default-jump` and `default-fall` |
| `Entities.AirborneJumpsCounted` | src/game/entities/Player.ts:77-118 | over airborne frames the counter is never reset: it counts every successful jump, so at most `maxJumps - jumpCount` jumps succeed |
| `Entities.AtMostMaxJumpsBetweenLandings` | src/game/entities/Player.ts:77-118 | from a grounded frame up to the next one, at most `maxJumps` (two for the player) jumps succeed |
| `Entities.DoubleJumpThenNoOp` | src/game/entities/Player.ts:100-118 | with `maxJumps = 2`, a grounded jump and one airborne jump both succeed and a third press in the air is a silent no-op |
| `Scenes.Raised` | src/game/scenes/Level.ts:92 | the mapped list has the same length and each point moved up by the offset with `x` kept |
| `Scenes.AllPositionsOrder` | src/game/scenes/Level.ts:91-94 | the platform positions raised by 50, in order, followed by the ground positions unchanged |
| `Scenes.InitialDataPoints` | src/game/scenes/Level.ts:98-112 | the group has exactly the keys `0 … n-1` for the `n` positions, and key `i` holds position `i` |
| `Scenes.DataPointLayout` | src/game/scenes/Level.ts:76-96 | there are 9 positions: the six platform centres raised by 50, in platform order, then three at `height - 60`, all inside the 800×600 field |
| `Scenes.Decimal` | src/game/scenes/Level.ts:154 | a number's template-string rendering is a non-empty string of decimal digits |
| `Scenes.DecimalRoundTrip` | src/game/scenes/Level.ts:154 | the score label's rendering of a number reads back as that number |
| `Scenes.ScoreLabelReadsBack` | src/game/scenes/Level.ts:154 | the label `${score} / ${total}` splits at ` / ` into two digit strings that read back as the score and the total |
| `Scenes.InitialLabelMatchesTotal` | src/game/scenes/Level.ts:121 | the literal `0 / 9` that the label starts with is the label for score 0 out of all data points |
| `Scenes.ElapsedSeconds` | src/game/scenes/Level.ts:162 | the result is the floor of the elapsed milliseconds over 1000, and is non-negative when `now ≥ startTime` |
| `Scenes.FallCheck` | src/game/scenes/Level.ts:222-225 | below `height + 100`, the player goes back to `(100, height - 100)` with zero velocity and no other change; otherwise nothing changes |
| `Scenes.RespawnIsSpawn` | src/game/scenes/Level.ts:222-224 | the respawn point, written separately in `update()`, is the spawn point of `createPlayer` (Level.ts:116); it is back inside the bound, and the jump count is kept |
| `Scenes.Level.constructor` | src/game/scenes/Level.ts:8-29 | a started level has score 0, the start time, all 9 points present, label `0 / 9`, no overlay, and a new player at the spawn point |
| `Scenes.Level.Create` | src/game/scenes/Level.ts:17-29 | `create()` zeroes the score, records the start time, rebuilds all data points and a fresh player, and restores the invariant |
| `Scenes.AddEach` | src/game/scenes/Level.ts:98-112 | the `forEach` loop adds one point per position: the group has exactly the keys `0 … n-1`, key `i` holds position `i`, and it has `n` points |
| `Scenes.Level.CreateDataPoints` | src/game/scenes/Level.ts:73-113 | the group holds exactly one point per position, keyed by index, and `totalDataPoints` is the number of positions |
| `Scenes.Level.CreatePlayer` | src/game/scenes/Level.ts:115-117 | a fresh player at `(100, height - 100)` |
| `Scenes.Level.CreateUI` | src/game/scenes/Level.ts:119-130 | the label starts as `0 / 9` |
| `Scenes.Level.CollectDataPoint` | src/game/scenes/Level.ts:143-159 | removes exactly that point and adds exactly 1 to the score, keeping `score + remaining = totalDataPoints`; completion fires iff it was the last point, records the elapsed seconds, and arms the restart |
| `Scenes.Level.LevelComplete` | src/game/scenes/Level.ts:161-216 | the overlay shows the elapsed whole seconds and the one-shot restart handler is armed |
| `Scenes.Level.PressSpace` | src/game/scenes/Level.ts:213-215 | an armed press restarts the level, so the score is 0, all points are back, a new player stands at the spawn point at rest, and it disarms the handler; any other press changes nothing |
| `Scenes.Level.Update` | src/game/scenes/Level.ts:218-227 | the player takes its frame step and then the fall check; score and data points are untouched and the invariant is kept |
| `FlagPanel.Effective` | src/components/FlagPanel.tsx:27-31 | each effective field is the override when set, else the received flag |
| `FlagPanel.ToggleDoubleJump` | src/components/FlagPanel.tsx:43-50 | the effective double jump is negated, it becomes an override, and the other overrides are untouched |
| `FlagPanel.ToggleSpeedBoost` | src/components/FlagPanel.tsx:52-59 | the effective speed boost is negated, it becomes an override, and the other overrides are untouched |
| `FlagPanel.ChangeSkin` | src/components/FlagPanel.tsx:61-67 | the effective skin is the chosen one whatever the received skin, and only the skin override changes |
| `FlagPanel.ResetOverrides` | src/components/FlagPanel.tsx:69-72 | after reset there are no overrides and the effective flags equal the received flags |
| `FlagPanel.HasOverrides` | src/components/FlagPanel.tsx:74 | `Object.keys(localOverrides).length > 0` iff at least one override field is set |
| `FlagPanel.HasOverridesIffVisible` | src/components/FlagPanel.tsx:74 | `hasOverrides` holds iff for some received flags the effective flags differ from them |
| `FlagPanel.ToggleTwiceRestores` | src/components/FlagPanel.tsx:43-59 | toggling a boolean twice restores its original effective value |
| `FlagPanel.OverrideMasksBase` | src/components/FlagPanel.tsx:28-30 | while a field is overridden, changing the received value of that field does not change its effective value |
| `FlagPanel.SkinChoiceIsOffered` | src/components/FlagPanel.tsx:145-148 | example of `ChangeSkin`'s contract: choosing one of the offered `default`, `spiderhog`, `robohog` makes that the effective skin |
| `EventsPanel.Includes` | src/components/EventsPanel.tsx:36-41 | `includes` never holds for a keyword longer than the name, and always holds for the empty keyword |
| `EventsPanel.IncludesIffOccurs` | src/components/EventsPanel.tsx:36-41 | the recursive `includes` holds iff the keyword occurs at some index |
| `EventsPanel.FirstMatchWins` | src/components/EventsPanel.tsx:36-41 | in a rule table scanned in order, the first rule whose keyword occurs gives the colour, whatever later rules match |
| `EventsPanel.NoMatchFallsBack` | src/components/EventsPanel.tsx:42 | when no keyword occurs, the scan gives the fallback colour |
| `EventsPanel.GetEventColor` | src/components/EventsPanel.tsx:35-43 | the if-chain equals the first-match scan over the table started → completed → collected → died → jumped → override |
| `EventsPanel.ColorIsFirstMatchingRule` | src/components/EventsPanel.tsx:35-43 | a name gets rule k's colour iff it contains rule k's keyword and none of the earlier keywords |
| `EventsPanel.NoKeywordIsGray` | src/components/EventsPanel.tsx:42 | a name containing none of the keywords gets `text-gray-300` |
| `EventsPanel.StartedIsGreen` | src/components/EventsPanel.tsx:36 | any name containing `started` is green, whatever else it contains |
| `EventsPanel.ClickRow` | src/components/EventsPanel.tsx:65-67 | clicking the expanded id collapses to none; clicking any other id makes that id the only expanded one |
| `EventsPanel.ClickTwice` | src/components/EventsPanel.tsx:65-67 | two clicks on the same row return to that row expanded if it was, else to nothing expanded |
| `EventsPanel.Render` | src/components/EventsPanel.tsx:56-85 | no events show the placeholder; otherwise one row per event, in order, each with its id, its event name, the colour of that name, and its properties shown iff it is the expanded id |
| `EventsPanel.AtMostOneExpanded` | src/components/EventsPanel.tsx:78-82 | with distinct ids, at most one row shows its properties |
| `FlagsRoute.Host` | src/app/api/flags/route.ts:6 | a non-empty `POSTHOG_HOST` is used; otherwise `https://us.i.posthog.com` |
| `FlagsRoute.DistinctId` | src/app/api/flags/route.ts:22-24 | the id is the cookie id, else the `x-vercel-id` header, else the random id; empty values count as absent |
| `FlagsRoute.FlagOr` | src/app/api/flags/route.ts:33-35 | `??` on a key: the service's value when the key is defined, else the default |
| `FlagsRoute.Normalize` | src/app/api/flags/route.ts:33-35 | each flag the service defines (including `false`) passes through unchanged; a missing one takes its default |
| `FlagsRoute.Get` | src/app/api/flags/route.ts:4-60 | without a key: the defaults, a fresh id, no cookie, no client; with a key and an answer: the chosen id, the normalised flags, and a one-year `ph_distinct_id` cookie iff there was no cookie id; with a failure: the defaults, a newly drawn id, no cookie |
| `FlagsRoute.NoKeyIgnoresService` | src/app/api/flags/route.ts:8-16 | without a key the response does not depend on the flag service and no client is created |
| `FlagsRoute.DefinedFlagsPassThrough` | src/app/api/flags/route.ts:33-35 | examples of `Normalize`'s contract: with no flags defined the response flags are the defaults; defined flags pass through exactly, `false` included |
| `FlagsRoute.CookieOnlyForNewVisitors` | src/app/api/flags/route.ts:39-45 | a cookie is set iff there is a key, no cookie id, and the lookup succeeded; it carries the distinct id for 31536000 seconds |
| `FlagsRoute.ReturningVisitorKeepsId` | src/app/api/flags/route.ts:22-39 | a visitor with a cookie id keeps that id on a successful lookup, and no new cookie is set |

## Left out

- Arcade physics: gravity, velocity integration, collision resolution and world bounds are engine numerics. The body state a frame starts with is the `Body` argument of `Player.Update`.
- `Scenes.FallCheck`: the body's `y` is a free input. In the game as configured, Player.ts:16 calls `setCollideWorldBounds(true)`, and the world bounds default to the 800×600 field. Read that way, the body never gets below y = 600, so the branch `player.y > height + 100` (Level.ts:222) looks unreachable. The model still covers it; this was not executed.
- Overlap detection is left out: collection is an explicit `CollectDataPoint(id, now)` on a point still present. The engine only reports overlaps with live points.
- Rendering is left out: the background colour and random stars, platform and data-point graphics, tweens, text styling, and the completion overlay's layout. Only the overlay's presence (`completed`) and its seconds are kept.
- Animation registration (frame ranges, frame rates) is left out. Only the choice of the animation key is modelled.
- Float positions: the engine's coordinates are floating point, and the model uses integers.
- Scene management: the `Boot` scene's asset loading and `changeScene` are engine calls with no decisions. The engine configuration gives only the 800×600 field.
- `Scenes.Level.constructor`: it merges the scene's construction (field defaults) with its first `create()`, because the engine calls `create()` before any frame. `Scenes.Level.Create` therefore requires a scene without an overlay; each restart provides one.
- `Scenes.Level.PressSpace`: it models the engine's `scene.restart()` as dropping the overlay and its keyboard handler, then running `create()`.
- `Scenes.Level.Update`: the `if (this.player)` guard is always true once the scene has started, because the invariant requires a player.
- The React mount/unmount of the game instance, the static page and the analytics provider set-up are browser I/O.
- Analytics calls are left out: `posthog?.capture` in the flag panel, `console.error`, and the `PostHog` client's own behaviour (`getAllFlags`, `shutdown`). The service is a function parameter, and a failure of either call is `Failed`.
- `FlagsRoute.Get`: a second failure, of `shutdown` inside the `catch` block, is outside the model. It would escape the handler.
- Randomness and clocks: `crypto.randomUUID()` results are passed in as `firstUuid`/`secondUuid`, and `Date.now()` as `now`. The panel's `formatTime` is locale formatting and is left out.
- The flag panel's `onFlagChange` effect and the markup (toggle styling, "(override)" badges, the reset button and its visibility) are rendering.
- `FlagPanel.ToggleDoubleJump`, `FlagPanel.ToggleSpeedBoost`, `EventsPanel.ClickRow`: the new value is computed from the state being updated. The source computes it from the values the render captured (`effectiveFlags` at FlagPanel.tsx:44 and 53, `expanded` at EventsPanel.tsx:66). The two agree when one update is applied per render. Several updates batched into one render are not modelled.
- The events panel's scrolling, time column and the JSON text of the properties are rendering. Only whether a row shows its properties is modelled.
- Events panel colours: a `Color` datatype with `ClassName()` stands for the class-name strings.
