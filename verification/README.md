# Flappy Bird gameplay logic in Dafny

This project models the gameplay logic of `flappyBird.js`, a browser "Flappy Bird" clone. The
script's globals become one immutable `Game` record:

- the mode: start screen, play or game over;
- the bird position `bX`, `bY`;
- the score and the best score;
- the pipe list;
- the gate gap;
- the canvas width and height.

The script's handlers become pure functions on that record:

- `Input.MoveUp` is the activation input: key press, touch or click.
- `FrameStep.Draw` is one animation frame, with the drawing removed.
- `Input.Reset` is `resetGame`.
- `Viewport.Resize` is `resizeCanvas`.
- `Input.Load` is the state the page starts with.
- `Session.Run` feeds a sequence of host events through these functions.

Modules:

- `GameState`: the record, the script's constants, the pipe speed and the invariant `Valid`.
- `Pipes`: moving a pipe, counting pipes at a column, and the random offset of a new pipe.
- `Viewport`: the landscape/portrait choice of the gap.
- `Collision`: the per-pipe game-over test.
- `Frame`: one iteration of draw()'s pipe loop (`Step`), and the loop itself (`Scan`) over a pipe list that grows while the loop runs. `ScanVisits` proves what the loop computes.
- `FrameStep`: the whole frame (`Draw`).
- `Freeze`: a step-bounded run of the same loop. It shows that the frames `Draw` reports as `Hung` are exactly those whose loop cannot end by reaching the end of the pipe list.
- `Input`: `moveUp`, `resetGame` and the page's initial state.
- `Session`: host events and runs of them.
- `Alignment`: what the exact-equality spawn and score tests imply.

Behaviour of the script that the model keeps as written:

- A pipe appended during a frame is moved and tested in the same frame, because the loop re-reads the list length. A new pipe therefore ends its first frame at `canvas.width - speed`, not at `canvas.width`.
- Setting game over does not stop the loop. Gravity is still added in that frame.
- `moveUp` on the start screen, or after game over, calls `draw()` at once. The first frame of a round therefore runs inside the input itself. `Input.Activate` is the state change alone; `Input.MoveUp` is that change followed by the frame.
- When `canvas.width - speed == 125` and some pipe lands on 125, each appended pipe lands on 125 too. It appends another pipe, so the loop never reaches the end of the list: the page freezes, appending pipes until memory runs out. `Draw` returns `Hung` in exactly that case. `Freeze.HungIffUnbounded` proves that the bounded loop runs out of every budget there, and ends within twice the pipe count everywhere else.
- Spawning and scoring test `x === 125` and `x === 5` exactly. Pipe columns are the canvas width minus whole moves of 2 or 4, and both marks are 1 modulo 2 and modulo 4. So on a canvas whose width is not 1 modulo the speed, no pipe is ever added and no point is ever scored. One example is a landscape canvas of 800 by 600. `Alignment.LoadedOffGrid` proves this for any run of taps and frames without a resize.
- `draw()` has no game-over guard, but the host only schedules it while in play. `Session.Apply` therefore ignores an animation frame outside play.

The script has no pipe speed that ramps up over time, never removes a pipe that has left the screen, keeps no per-pipe `scored` flag and has no ceiling test; the model has none of these either. Restarting after game over resets, shows the start screen and switches straight to play in one input, and the model does the same.

Host inputs are parameters:

- The image sizes the logic reads (`pipeNorth.height`, `pipeNorth.width`, `fg.height`) are an `Assets` value. Each tap and animation frame of a `Session.Run` carries its own, so images that finish loading between frames are covered; within one frame the sizes are fixed, as they are while the script's loop runs.
- The canvas size that `resizeCanvas` derives from the window is given as whole numbers.
- `Math.random()` is a stream of reals in [0, 1). The k-th draw is used for the k-th pipe appended in a frame.

## Model

| member | source | states |
|---|---|---|
| GameState.Speed | flappyBird.js:90 | pipes move 4 pixels per frame exactly on a canvas wider than tall, and 2 otherwise |
| Collision.GateClearance | flappyBird.js:99-103 | a bird strictly between the gate's halves and above the ground line never crashes; a bird overlapping the pipe's columns crashes when it touches either half; a bird clear of the pipe's columns and above the ground line never crashes on it; reaching the ground line crashes whatever the pipe |
| Collision.CrashIgnoresProgress | flappyBird.js:99-103 | the game-over test reads only the bird, the gap and the canvas height, so the loop's own updates to pipes, score and mode do not change its answer for later pipes |
| Frame.StepEffect | flappyBird.js:86-108 | one loop iteration moves pipe `i` and no other, appends one pipe at the right edge exactly when pipe `i` lands on 125, scores one point exactly when it lands on 5, and ends the game exactly on a crash with it |
| Pipes.SpawnY | flappyBird.js:95 | a new pipe's offset `floor(random * h) - h` lies in [-h, 0) for a draw in [0, 1) and a positive image height, and is 0 when the height is 0 |
| Pipes.SpawnYOnto | flappyBird.js:95 | every offset in [-h, 0) is produced by some draw, so the spawn range is exactly that interval |
| Viewport.LandscapeIff | flappyBird.js:43-44 | the aspect test `innerWidth / innerHeight > 1`, with JavaScript's division by zero, holds exactly when the width exceeds the height |
| Viewport.GapFor | flappyBird.js:44-54 | the gap is 150 exactly for a landscape window and 120 exactly otherwise |
| Viewport.Resize | flappyBird.js:42-55 | a resize sets the canvas size and the orientation's gap and leaves mode, bird, score, best score and pipes alone |
| Frame.ScanVisits | flappyBird.js:85-109 | the pipe loop moves every visited pipe exactly once, appends one pipe at the right edge per pipe landing on 125, also visits and moves the appended pipes, adds one point per pipe landing on 5, and ends in game over exactly when it was over before or a visited pipe crashes |
| FrameStep.Draw | flappyBird.js:77-134 | a start-screen frame changes nothing. Otherwise every old pipe moves left by the speed keeping its offset, and the list only grows. The new pipes are one per old pipe landing on 125; they end the frame at `width - speed` with offsets in [-h, 0). The score rises by the number of pipes at 5. Game over holds exactly when some pipe crashes, and a frame never leaves game over. `bY` rises by 1.5. On game over the best score becomes the larger of best and score. The result is `Hung` exactly when the loop would not end |
| Freeze.NeverFinishes | flappyBird.js:85-97 | when an appended pipe would itself land on 125 and an unvisited pipe is about to append one, the loop never reaches its end |
| Freeze.FinishesWithin | flappyBird.js:85-109 | otherwise the loop ends, within its measure, with the result of `Scan` |
| Input.Reset | flappyBird.js:150-158 | a reset puts the game on the start screen with score 0, the bird at (10, 150) and the single pipe `{x: canvas.width, y: 0}`, keeps best score, gap and canvas, and keeps a valid state valid |
| Freeze.HungIffUnbounded | flappyBird.js:85-97 | a frame is `Hung` exactly when its pipe loop runs out of every iteration budget; a running frame's loop ends within twice its starting pipe count |
| Input.ResetForgetsRound | flappyBird.js:150-156 | the state `resetGame` leaves depends only on the best score and the viewport, so resetting twice equals resetting once |
| Input.Activate | flappyBird.js:63-75 | the input always leaves the game in play and keeps best score, gap and canvas. In play it lifts the bird by exactly 25 with score and pipes unchanged. From the start screen it changes only the mode. After game over it first runs `resetGame` (lines 150-156): score 0, bird at (10, 150), and a single pipe at the right edge with offset 0 |
| Input.MoveUp | flappyBird.js:63-75 | in play the input is only the lift. From the start screen and after game over it is the state change followed by one frame; after game over the new round's first pipe is at `width - speed` with offset 0 and the bird at 151.5. Valid states stay valid, and the best score never drops |
| Input.Load | flappyBird.js:25-40 | after the initial values, `resizeCanvas()` (line 56) and `resetGame()` (line 160), the page starts valid on the start screen with score 0, the bird at (10, 150), the stored best score, one pipe at the right edge, and the orientation's gap |
| Session.Apply | flappyBird.js:57-75 | every host event keeps the state valid and never lowers the best score. Outside game over it never lowers the score or shortens the pipe list, and the only event that shortens it is a tap after game over, which resets. A frame after game over changes nothing. Each tap and frame carries the image sizes current when it runs |
| Session.RunKeepsBest | flappyBird.js:125-128 | over any sequence of taps, frames and resizes the best score never decreases |
| Session.RunKeepsValid | flappyBird.js:150-155 | over any sequence of events the game keeps at least one pipe, the bird's column 10 and a gap of 120 or 150 |
| Session.FramesAfterGameOver | flappyBird.js:122-124 | once the game is over, animation frames change nothing. This carries the model's reading of lines 122-124 (no frame is scheduled after game over, so `Apply` ignores frames outside play) over to runs of events; it is not a fact about `draw()` itself, which has no game-over guard |
| Session.FallWithoutInput | flappyBird.js:114 | with frames only and the round still in play, the bird has fallen by exactly 1.5 times the number of frames |
| Alignment.OffGridFrame | flappyBird.js:90-108 | on a canvas whose width is not 1 modulo the speed, a frame never hangs, appends no pipe, scores nothing and keeps pipes on their grid |
| Alignment.OffGridRun | flappyBird.js:92-108 | from one aligned pipe and no score on such a canvas, any run of taps and frames keeps one pipe and score 0 |
| Alignment.LoadedOffGrid | flappyBird.js:92-108 | a page loaded on such a canvas, 800 by 600 for one, never hangs, never shows a second pipe and never scores without a resize |

## Left out

- Drawing: images, text, fonts and `displayStartScreen` are rendering only (flappyBird.js:78, 87-88, 111-120, 129-132, 136-148).
- Audio: `fly.play()` and `scoreSound.play()` are fire-and-forget calls with no effect on the state.
- Storage: `localStorage` reads and writes are not modelled. The stored best score is an integer parameter of `Input.Load`. Its string-versus-number coercion in `score > bestScore` is not modelled either.
- Image loading: the image sizes are the `Assets` carried by each tap and frame; the loading itself is host I/O.
- Host scheduling: the DOM listener wiring and `requestAnimationFrame` become the `Session.Event` values; the frame callback is treated as pending exactly in play.
- Randomness: `Math.random` is a parameter stream; only its range [0, 1) is assumed.
- Canvas sizing: `innerWidth * 0.7` and `innerWidth * 0.8` are floating point, and the host then converts them to the canvas size. The model takes the resulting canvas width and height as given whole numbers.
- Floating point: `bY` is an exact `real`. Its steps of 1.5 and -25 are exact in doubles at game-sized values. The rounding of `Math.random() * h` before the floor is not modelled.
- Hung: `Hung` stands for the page dying in a loop that keeps appending pipes. `pipe.push` throwing a RangeError at 2^32 - 1 elements, which would end `draw()` without gravity or a new frame and leave the page in play with no frame pending, is not modelled.
- Initial canvas: the page markup is not part of this model. `Input.Load` starts from the HTML default canvas of 300 by 150. That value is overwritten by `resizeCanvas()` and `resetGame()` before the game can read it.
