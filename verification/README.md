# Rush 80 game rules and PSD layer export, in Dafny

This project models two parts of a small web application.

- **The driving game (`app.js`).** The player's car changes between four lanes
  while traffic comes down the road. Each car that gets past the player is worth
  20 points. Every 100 points in the coin buffer become 5 coins. At
  `nextBossScore` a boss fight starts: it has 25 hit-points, shoots at the
  player and pays 150 points when won. Cars passed outside a boss fight are
  counted; every 15th of them brings a mini-enemy with 3 hit-points, if fewer
  than two are on the road. Tapping a mini-enemy or the boss fires a bullet
  for one coin. A crash costs the shield if one is owned, otherwise a heart;
  the last heart ends the game, with a 25-coin penalty. The model is the class
  `Rush.Game` (`game.dfy`). Its fields are the `state` record and the entity
  lists `traffic`, `miniEnemies`, `playerBullets`, `boss` and `bossBullets`.
  Its methods are the handlers and the frame update, and they keep one
  invariant, `Valid`, throughout.
- **The PSD export worker (`worker.js`).** It walks the layer tree of a
  Photoshop document and selects the visible raster leaves. It numbers them for
  the page and, on request, finds them again by number and names the export
  files. The model is the module `PsdWorker` (`psd.dfy`). The tree is a
  datatype. The selection, the re-selection and the file naming are recursive
  functions. The numbering loop and the export loop are methods. The worker's
  single global, the parsed document, is the field of class `Worker`.

Positions are whole pixels and only the vertical coordinate is kept. The
distance a car, enemy or bullet moves in one frame is a parameter. Every test
that involves the horizontal layout is a boolean supplied by the caller: a car
alongside the player, a bullet striking an enemy, a boss bullet hitting the
player, a tap on an enemy. The model never computes these.

## Model

| member | source | states |
|---|---|---|
| Rush.Inventory.With | app.js:926 | the bought item becomes owned and every other item keeps its flag |
| Rush.ClampLane | app.js:759-761 | the result is a lane of the road; a lane already on the road is unchanged; lanes left of it go to 0 and right of it to 3 |
| Rush.Exchange | app.js:536-541 | the exchange loop leaves the buffer below 100, and not negative if it started at zero or more; it credits 5 coins per 100 points taken out |
| Rush.LastStrike | app.js:321-341 | the bullet the backward bullet loop meets first: it strikes the enemy, and no bullet after it does |
| Rush.LastStrikeIs | app.js:321-341 | the index where a backward search for a striking bullet stops is exactly that bullet |
| Rush.SteppedTouches | app.js:315-349 | the corrected mini-enemy step leaves every enemy other than the i-th in place and in order |
| Rush.SteppedAsWrittenDropsNeighbour | app.js:329-347 | with the double splice, an enemy killed as it passes the player also removes an untouched neighbour |
| Rush.Game.constructor | app.js:12-47 | the game starts on the menu, in lane 1, with no boss and empty lists; the stored values are taken as loaded; the invariant holds |
| Rush.Game.StartGame | app.js:819-860 | play starts in lane 1, unpaused, with no boss and empty lists; score, hearts, coins and the boss threshold are kept |
| Rush.Game.Move | app.js:755-763 | while playing and not paused the lane moves by `dir` and is clamped to the road; otherwise nothing changes |
| Rush.Game.TogglePause | app.js:862-876 | the pause flag flips only while playing |
| Rush.Game.Suspend | app.js:934-948 | losing focus or visibility pauses a running game and changes nothing else |
| Rush.Game.BuyItem | app.js:921-931 | an unowned item with enough coins is paid for and owned, and coins stay non-negative; otherwise coins and inventory are unchanged |
| Rush.Game.StartBossFight | app.js:475-493 | boss fight active, 25 boss hit-points, a boss present, traffic and mini-enemies emptied |
| Rush.Game.EndBossFight | app.js:495-509 | fight over, no boss and no boss bullets; score up by 150 and the next threshold up by 10000 |
| Rush.Game.AddScore | app.js:529-551 | score up by exactly 20; the buffer is drained by the exchange; a boss fight starts exactly when none is active and the new score reaches the threshold, and nothing else changes otherwise |
| Rush.Game.GameOver | app.js:554-592 | best becomes max(best, score) and coins max(0, coins - 25); score 0, hearts 5, threshold 10000; all lists emptied, no boss; mode OVER, unpaused; everything else kept |
| Rush.Game.Settle | app.js:556-565 | the score part of game over: best, coin penalty, session values reset |
| Rush.Game.Clear | app.js:567-586 | the list part of game over: lists emptied, no boss, mode OVER, unpaused |
| Rush.Game.Crash | app.js:594-622 | with a shield: the shield is used up, hearts are kept and the car is moved to height + 500; without one, a heart is lost and the car is moved; game over exactly when no heart is left |
| Rush.Game.CountPass | app.js:289-298 | during a boss fight nothing changes; otherwise the pass counter advances modulo 15, and a mini-enemy (y -200, 3 hit-points) is appended exactly when the counter reaches 15 while fewer than 2 exist |
| Rush.Game.PassCar | app.js:284-298 | a passed car is stored as passed and scores 20 with the coin exchange; if that reaches the threshold the boss fight starts, traffic and mini-enemies are emptied and the counter is not moved; otherwise the counter advances and may spawn a mini-enemy as CountPass states |
| Rush.Game.TrafficStep | app.js:281-311 | one car: moved; scored once when it first gets below the player, with the pass effects of PassCar; dropped below height + 50; crashed into when it overlaps the player (vertical test computed, horizontal supplied), with the shield, heart and game-over cases of Crash; in each case every field it does not change is stated unchanged and the lane is outside its frame; cars before index i are untouched unless a boss start or game over emptied the list |
| Rush.Game.PassStep | app.js:284-306 | a car that has passed the player: scored as PassCar states, then dropped if below height + 50; it never crashes |
| Rush.Game.StillStep | app.js:305-311 | a car that has not passed: dropped below height + 50, crashed into on overlap (shield, heart, or game over), or else stored back; every other field unchanged in the first three cases |
| Rush.Game.TrafficScanAsWritten | app.js:280-312 | the scan as written throws exactly after the list has been emptied under it; it does throw when the last of two or more cars starts the boss fight or takes the last heart |
| Rush.Game.TrafficScan | app.js:280-312 | the scan that stops once the list is emptied: never more cars than before; a boss start on the last car leaves the fight on and the road empty; a fatal crash into it ends on the game over screen with the road empty |
| Rush.Game.FindStrike | app.js:321-327 | the backward search returns the last bullet that strikes enemy i, or -1 when none does |
| Rush.Game.HitMini | app.js:321-341 | the striking bullet is spent and the enemy loses one hit-point; at none it is removed for 20 points; without a strike nothing changes |
| Rush.Game.MoveMini | app.js:316-318 | enemy i moves dy down and every other enemy is kept |
| Rush.Game.MiniStepAsWritten | app.js:315-348 | the step as written: a kill that passes the player is scored +20 and -20 and spliced twice |
| Rush.Game.MiniStep | app.js:315-348 | the corrected step: the enemy moves and is hit; a survivor below the player is dropped for -20; a kill is not tested for passing |
| Rush.Game.DropMini | app.js:344-348 | a passing enemy is removed with a 20-point penalty |
| Rush.Game.MiniScan | app.js:315-349 | the mini-enemy loop keeps the invariant and never adds enemies or bullets |
| Rush.Game.BossShoot | app.js:352-371 | during a boss fight a shot adds one boss bullet at y 140 at the end of the list; otherwise nothing changes |
| Rush.Game.BossBulletStep | app.js:374-402 | a hit costs a heart and removes the bullet, with game over at no hearts; a miss moves the bullet and drops it below the screen; outside game over every other field is stated unchanged and the lane is outside its frame |
| Rush.Game.BossBulletScanAsWritten | app.js:374-403 | the scan as written throws exactly after game over has emptied the list; it does throw when the last of two or more bullets takes the last heart |
| Rush.Game.BossBulletScan | app.js:374-403 | the scan that stops once the list is emptied: a fatal hit on the last bullet ends in a clean game over |
| Rush.Game.PlayerBulletStep | app.js:406-429 | during a fight a hit removes the bullet and takes one boss hit-point, and the fight ends (+150, threshold +10000) at none; otherwise the bullet moves and is dropped above y -20 |
| Rush.Game.PlayerBulletScan | app.js:406-430 | the bullet loop never adds bullets and never lowers the boss threshold during a fight |
| Rush.Game.Update | app.js:245-446 | the corrected frame of `loop` (app.js:229-243), built from the corrected traffic, mini-enemy and boss-bullet loops: while not playing or paused it changes nothing; traffic stays empty during a boss fight; at most one car is spawned |
| Rush.Game.Tap | app.js:772-811 | a bullet is fired exactly when playing, the tap is on a mini-enemy or on the boss during a fight, and a coin is left; it costs one coin, at most one bullet per tap, coins never go negative; then the lane moves toward the tapped half |
| Rush.BossStartAbortsTrafficScan | app.js:280-312 | at score 9980 with two cars, the older one lower and already scored, the newer car starting the boss fight makes the scan as written throw, while the corrected scan ends in the fight |
| Rush.FatalCrashAbortsTrafficScan | app.js:280-312 | one heart, no shield, two cars, the older one lower and already scored: a crash into the newer car makes the scan as written throw, while the corrected scan ends on the game over screen |
| Rush.DestroyedMiniSplicedTwice | app.js:315-349 | two enemies, the first killed as it passes: as written both disappear for 0 net points; corrected, the second stays and the kill earns 20 |
| Rush.GameOverAbortsBossBulletScan | app.js:374-403 | one heart and two boss bullets, the older one lower, in a viewport 1600 pixels tall; the newer one hits: the scan as written throws |
| PsdWorker.Select | worker.js:85-109 | every selected layer is a visible leaf with positive width and height and raster data |
| PsdWorker.SelectNode | worker.js:85-105 | the same for one node; a hidden group yields nothing |
| PsdWorker.SelectIsShownSelectable | worker.js:85-109 | the selection equals the leaf test applied to the leaves outside hidden groups, in tree order |
| PsdWorker.SelectInTreeOrder | worker.js:85-109 | the selection is a subsequence of all leaves, depth first and left to right |
| PsdWorker.HiddenGroupsIgnored | worker.js:86-89 | two trees that differ only below hidden groups have the same selection |
| PsdWorker.HiddenGroupContributesNothing | worker.js:86-89 | inserting a hidden group anywhere adds no layer to the selection |
| PsdWorker.SetId | worker.js:122 | numbering keeps a layer a leaf and keeps the leaf test; a group is unchanged; the leaf carries the new id and keeps its name, visibility, size and canvas |
| PsdWorker.Numbered | worker.js:118-123 | numbering keeps the length of the selection |
| PsdWorker.NumberedAt | worker.js:118-123 | the k-th selected layer carries id start + k |
| PsdWorker.DisplayName | worker.js:130 | the payload name is never empty: the layer name when it has one, otherwise "Layer " followed by the decimal numeral, without leading zeros, of i + 1 |
| PsdWorker.BuildPayload | worker.js:118-135 | entry i has id i, the display name, width and height of the i-th selected layer; the layers come back numbered 0..n-1 |
| PsdWorker.SelectTagged | worker.js:107-123 | numbering the tree in place numbers exactly the selected leaves, by their position in the selection |
| PsdWorker.FindById | worker.js:186-196 | every layer found is a leaf with a defined id that is among the requested ids |
| PsdWorker.FindByIdFindsSelection | worker.js:186-196 | on a numbered tree, re-selection returns exactly the numbered selected leaves whose id is requested, in selection order, hidden groups included in the walk |
| PsdWorker.FoundIffRequested | worker.js:186-196 | the leaf numbered k is found again if and only if k is requested |
| PsdWorker.Trim | worker.js:221 | the trimmed string is no longer than the input, starts and ends with no whitespace, and is the input itself when that has none at either end |
| PsdWorker.TrimCutsOnlyEnds | worker.js:221 | the trimmed string is an infix `s[a..b]` of the input, and every character cut before a and after b is whitespace or a line terminator |
| PsdWorker.ReplaceReserved | worker.js:223 | same length; each of \ / : * ? " < > \| becomes '_', every other character is kept |
| PsdWorker.DecimalString | worker.js:130 | a non-empty string of decimal digits |
| PsdWorker.DecimalStringValue | worker.js:130 | the digits are the numeral of n: no leading zero, and their decimal value is n |
| PsdWorker.IdText | worker.js:221-224 | the id text is non-empty, has no whitespace at its ends and no reserved character |
| PsdWorker.IdTextSpellsId | worker.js:221-224 | a defined id is written as its decimal numeral; an undefined one as "undefined" |
| PsdWorker.FallbackIsClean | worker.js:224 | `Layer_<id>` passes trimming and replacing unchanged |
| PsdWorker.SanitizedNameSpec | worker.js:221-224 | the file stem is never empty and holds no reserved character; it is `Layer_<id>` exactly when the trimmed name is empty, and otherwise the trimmed name with reserved characters replaced |
| PsdWorker.Extension | worker.js:181 | "png" exactly for format "png", "jpg" for anything else |
| PsdWorker.MimeType | worker.js:180 | "image/png" exactly for format "png", "image/jpeg" for anything else |
| PsdWorker.Written | worker.js:199-229 | the export loop over the first n found layers writes at most n files |
| PsdWorker.WithPixels | worker.js:199-200 | the layers an export writes are leaves with a canvas, all taken from the found layers, and every found leaf with a canvas is among them |
| PsdWorker.WrittenOfPixels | worker.js:199-229 | the loop writes exactly one file per found leaf with a canvas, in the order found, each named by the naming function |
| PsdWorker.ExportNamesOfPixels | worker.js:199-229 | the export's k-th file name is `${filename}.${ext}` for the k-th found leaf with a canvas, and there are no others |
| PsdWorker.ExportNamesAreSafe | worker.js:199-229 | every exported name is a safe non-empty stem, a dot and the extension |
| PsdWorker.NamedFile | worker.js:221-227 | the name of one exported layer has that form |
| PsdWorker.ExportFiles | worker.js:199-229 | the export loop computes exactly the names the naming function gives the found layers with a canvas, in order |
| PsdWorker.Worker.constructor | worker.js:38 | no document is held at start |
| PsdWorker.Worker.Parse | worker.js:79-135 | the document is kept even when nothing is selected; an empty selection fails with "No visible raster layers found in this PSD."; otherwise the kept tree is numbered and entry i describes the i-th selected layer |
| PsdWorker.Worker.Export | worker.js:176-232 | without a document it fails with "PSD data not found. Please reload file."; otherwise the files are named for the found layers that have a canvas, in order |
| PsdWorker.Worker.Handle | worker.js:41-57 | a parse request keeps the document, numbered when anything is selected, and is answered with one entry per selected layer (id i, display name, size) or with "No visible raster layers found in this PSD."; an export request is answered with the names ExportNames gives the found layers, or with the missing-document message, and leaves the document as it was; other requests get no reply |

## Left out

- Sound (the `Audio` object), canvas drawing, device pixel ratio, screen shake and particles are not modelled. They produce output only.
- Speed easing, the lane lerp and tilt, the road offset and the frame-time clamp are floating-point kinematics; they are not modelled. Boss movement and the bullet speeds are left out the same way. Each frame's movement is an integer parameter instead.
- Horizontal overlaps are not computed. A car's vertical overlap with the player is computed, with the 8-pixel inset. The other hit tests (mini-enemy by bullet, player by boss bullet, boss by bullet, tap on an enemy) are supplied as booleans.
- Random spawning is a boolean input. That covers the traffic spawn timer, the 1.5-second warm-up, the spawn chance, the anti-stacking test and the boss shot timer. Lanes are not kept for spawned cars and enemies.
- `speed`, `runtime` and `doubleTimer` are not modelled. They are floating-point timers set by startGame and update.
- `resize` is not modelled: the viewport height and the player's position and size are constants of a `Game`. In the source a resize recomputes `player.y` and `player.h` (app.js:220-222) without moving the cars, enemies and bullets already on the road, so the model cannot reach states that only a resize during play produces; the Findings below say where that matters.
- Persistence is not modelled: `saveData`, and reading `localStorage` with its `parseInt || default` fallbacks. The constructor takes the loaded values as parameters.
- Score, coins and hearts are unbounded integers; JavaScript numbers are exact in the range a game reaches.
- Event listeners, the pause-button check in the touch handler, the keyboard mapping and the screens are not modelled. Tap, Move, TogglePause and Suspend are the handlers' effects.
- Rush.Game.BuyItem: only the four shop items exist; a purchase of any other name is not modelled.
- Rush.Game.Update: models the corrected frame; the frame as written, in which a loop that throws leaves `update` and `loop` before `requestAnimationFrame` (app.js:242) and so stops the animation, is modelled only loop by loop (Rush.Game.TrafficScanAsWritten, Rush.Game.MiniStepAsWritten, Rush.Game.BossBulletScanAsWritten), not as a whole frame.
- Rush.Game.Update: states only the invariant, the paused and not-playing cases, the empty road during a boss fight and the spawn bound; each pass's full effect is stated by the step members it runs.
- Rush.Game.MiniScan: states the invariant and the size bounds only; the effect of each iteration is stated by Rush.Game.MiniStep.
- Rush.Game.PlayerBulletScan: states the invariant and the bounds only; each iteration is stated by Rush.Game.PlayerBulletStep.
- Rush.Game.TrafficScan: states the invariant, the size bound, the boss-start case and the fatal-crash case only; each iteration is stated by Rush.Game.TrafficStep.
- Rush.Game.BossBulletScan: states the invariant, the size bounds and the fatal-hit case only; each iteration is stated by Rush.Game.BossBulletStep.
- Reading the PSD file is not modelled; it belongs to the PSD library. That includes `readPsd`, the canvas set-up hooks and the start-up error message. A document is the tree the library returns, and `hasCanvas` stands for the presence of `layer.canvas`. A document without `children` is an empty forest.
- Thumbnails (`generateThumbnail`), `OffscreenCanvas` drawing and blob encoding are not modelled. An exported file is represented by its name. MimeType states the encoding choice of worker.js:180, but Export does not use it, since no blob is produced.
- The asynchronous `onmessage` and `postMessage` plumbing is the `Request`/`Response` pair. Errors thrown inside the library are not modelled.
- PsdWorker.Worker.Handle, PsdWorker.Worker.Parse, PsdWorker.Worker.Export: each request runs to completion before the next. The source awaits inside both (worker.js:126 and the thumbnail encoding it calls, worker.js:215) and `onmessage` does not wait for a previous request (worker.js:41-48). So an export that arrives while a parse is still making thumbnails searches the new document with only its first layers numbered, and a parse arriving during an export can replace `psd` before the export finishes. Such interleavings are not modelled.
- A missing layer name is the empty string, which the source treats the same way.

## Findings

| source | as written | input that shows it | evidently intended | confidence | as-written member | corrected member |
|---|---|---|---|---|---|---|
| app.js:280-312 | the backward traffic loop keeps indexing `traffic` after `addScore` started a boss fight, or `crash` ended the game; both empty the list, so `traffic[i]` is `undefined` and reading `.y` throws, out of `loop` before `requestAnimationFrame`, which freezes the game | score 9980, threshold 10000, two cars, the older one lower and already scored, the newer one passing the player in this frame; or one heart, no shield, and the newer car crashed into (Rush.FatalCrashAbortsTrafficScan) | stop the scan once the list has been emptied | not executed | Rush.Game.TrafficScanAsWritten, Rush.BossStartAbortsTrafficScan, Rush.FatalCrashAbortsTrafficScan | Rush.Game.TrafficScan |
| app.js:315-349 | a mini-enemy killed by a bullet is still tested for passing the player; it costs the 20-point penalty and `splice(i, 1)` runs again, removing the enemy that moved into index i | two enemies, the older one lower; it has 1 hit-point, is struck and has just passed the player. A bullet starts at the player's top edge (app.js:467) and only rises, so this needs a resize that moved the player up (app.js:220-222) after the bullet was fired | a destroyed enemy is not tested for passing, and only enemy i is ever removed | not executed | Rush.Game.MiniStepAsWritten, Rush.SteppedAsWrittenDropsNeighbour, Rush.DestroyedMiniSplicedTwice | Rush.Game.MiniStep, Rush.SteppedTouches |
| app.js:374-403 | a boss bullet that takes the last heart calls `gameOver`, which empties `bossBullets`; the loop continues and `bossBullets[i]` is `undefined` | one heart, two boss bullets, the older one lower, the newer one hitting the player. The older one is 360 pixels lower (1.2 s at 300 px/s) and still on screen only when the viewport is taller than about 1380 pixels | stop the scan once the game has ended | not executed | Rush.Game.BossBulletScanAsWritten, Rush.GameOverAbortsBossBulletScan | Rush.Game.BossBulletScan |
