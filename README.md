# Player jump controller and score manager, modelled in Dafny

This project models the two scripts of a small Unity game.

- **`PlayerController`** (module `PlayerControl`). Each frame it does two things. It sets the rigidbody's horizontal velocity from the move stick. Then it runs a jump state machine: a jump starts when the player is grounded and jump is pressed, a hold boost is added while the button is held and the hold timer is below `maxJumpTime`, and the jump stops on release or when the timer runs out. `OnCollisionStay` sets the ground flag and `OnCollisionExit` clears it.
  - The class `PlayerController` has the source's fields and makes its changes step by step. `Update` becomes `Tick`, whose input signals and frame time are plain parameters.
  - Each method is proved equal to a pure specification (`Step`, `Apply`). The source's per-frame promises are stated on `Step`.
  - `Run` applies a sequence of frames and collision callbacks. Lemmas about `Run` give the properties that hold across many frames.
- **`GameManager`** (module `GameManagement`). It keeps a C# `int` score and a label whose text is `"Score: " + score.ToString()`. Under a first-wins rule, only one manager stays registered in the static `Instance` field.
  - The static field is an `InstanceSlot` object passed to `Awake`.
  - `Destroy(gameObject)` sets a `destroyed` flag.
  - Unity's overloaded `==` treats a destroyed object as null. `InstanceSlot.IsEmpty` models this.
- **`int.ToString()`** (module `IntFormat`). This is the decimal format the label uses. It is proved to be a bijection with an independent parser, `ParseInt`.

Times and velocities are `real`. The score is 32-bit, and it wraps around modulo 2^32, as unchecked C# arithmetic does.

`PlayerController` has no camera-relative movement, no turning toward the movement direction and no double jump, so the model has none. The score is a signed `int`: negative amounts are added as given, and overflow wraps.

## Model

| member | source | states |
|---|---|---|
| `PlayerControl.Step` | Assets/PlayerController.cs:22-51 | One frame. The horizontal velocity is exactly the stick input times `moveSpeed`. The ground flag is never changed. A jump start sets `vy` to `jumpForce` and the timer to 0, before any boost in the same frame. Otherwise the boost adds exactly `jumpHoldForce*dt` to `vy` and `dt` to the timer, and applies only when jumping, held and below `maxJumpTime`. An airborne frame with no jump in progress leaves `vy` unchanged. After the frame, `isJumping` is true exactly when a jump was in progress or started, jump was not released, and the timer is below `maxJumpTime`. The timer decreases only on a restart. It stays at most `maxJumpTime + dt`, and strictly below that when it started below `maxJumpTime`. The jump invariant is re-established. |
| `PlayerControl.PlayerController.Tick` | Assets/PlayerController.cs:22-51 | The imperative `Update`, in the source's order. Its new state is `Step` of the old state. It keeps `Valid()`. |
| `PlayerControl.PlayerController.OnContactStay` | Assets/PlayerController.cs:53-56 | Sets `isGrounded` to true and changes nothing else. |
| `PlayerControl.PlayerController.OnContactExit` | Assets/PlayerController.cs:58-61 | Sets `isGrounded` to false and changes nothing else. |
| `PlayerControl.PlayerController.constructor` | Assets/PlayerController.cs:6-14 | Starts with the given tuning (`maxJumpTime > 0`), timer 0, not grounded, not jumping. |
| `PlayerControl.RunGroundedIsLastContact` | Assets/PlayerController.cs:22-61 | After any run of frames and callbacks, `isGrounded` is what the last collision callback set, or its initial value if none fired. So frames never touch it. |
| `PlayerControl.RunKeepsJumpInvariant` | Assets/PlayerController.cs:32-50 | Across any run, the timer stays non-negative and a jump in progress always has hold time left (`isJumping ==> jumpHoldTime < maxJumpTime`). |
| `PlayerControl.RunHoldTimeBound` | Assets/PlayerController.cs:35-50 | If no frame is longer than `maxDt`, the hold timer never exceeds `maxJumpTime + maxDt`. |
| `PlayerControl.RunHoldTimeMonotone` | Assets/PlayerController.cs:35-43 | Without a jump press the hold timer never decreases. It is reset only by a new jump. |
| `PlayerControl.RunNoAirJump` | Assets/PlayerController.cs:32-50 | Start airborne with no jump in progress and never touch ground: no frame starts a jump or boosts one, and the timer stays put. |
| `PlayerControl.StepInBlocks` | Assets/PlayerController.cs:28-50 | `Step` equals the jump-start block, then the hold block, then the stop rule, applied one after another. `Tick` takes exactly these three steps. |
| `PlayerControl.RunAppend` | Assets/PlayerController.cs:22-61 | Running `es + [e]` is running `es` and then applying `e`. |
| `GameManagement.GameManager.constructor` | Assets/GameManager.cs:9-10 | A new manager has score 0 and is not destroyed. |
| `GameManagement.GameManager.Awake` | Assets/GameManager.cs:13-24 | With the slot empty (null or destroyed), the manager registers itself, and this call does not destroy it. Otherwise the registered manager stays, and stays alive when it is a different object. The waking manager is marked destroyed. Score and text are unchanged. |
| `GameManagement.GameManager.AddScore` | Assets/GameManager.cs:26-30 | `score` becomes `old(score) + amount` with 32-bit wrap-around. The label then shows `"Score: " + IntToString(score)`, so it starts with `"Score: "`. |
| `GameManagement.GameManager.UpdateScoreText` | Assets/GameManager.cs:32-35 | The label text becomes the formatted current score. Nothing else changes. |
| `GameManagement.InstanceSlot.constructor` | Assets/GameManager.cs:7 | The static field starts as null. |
| `GameManagement.Wrap32` | Assets/GameManager.cs:28 | The result is in `int` range. It equals the input when the input is in range, and is congruent to it modulo 2^32. |
| `GameManagement.AddWrapped` | Assets/GameManager.cs:28 | `score += amount` unchecked: the result is congruent to the exact sum modulo 2^32, and equal to it without overflow. |
| `GameManagement.AddScoreTwice` | Assets/GameManager.cs:26-29 | `AddScore(a)` followed by `AddScore(b)` leaves the score where one addition of `a+b` would, wrap-around included. |
| `GameManagement.ScoreFromZero` | Assets/GameManager.cs:10-29 | A fresh score of 0 after `AddScore(a)` and `AddScore(b)` is `a+b` wrapped to 32 bits. |
| `GameManagement.ScoreText` | Assets/GameManager.cs:32-35 | The label text starts with `"Score: "` and the rest parses back to the score. |
| `GameManagement.ScoreTextInjective` | Assets/GameManager.cs:32-35 | Different scores never show the same label. |
| `GameManagement.SceneWithTwoManagers` | Assets/GameManager.cs:7-35 | Two managers wake in turn. The first stays registered and alive, and the second is destroyed with score 0. For any `a` and `b`, after `AddScore(a)` and `AddScore(b)` the registered score is `a+b` wrapped to 32 bits, and the label shows it. |
| `IntFormat.NatToString` | Assets/GameManager.cs:34 | The digits of a magnitude: at least one, no leading zero, and `"0"` exactly for 0. |
| `IntFormat.IntToString` | Assets/GameManager.cs:34 | `score.ToString()`: starts with `'-'` exactly for negative numbers, followed by a canonical magnitude other than `"0"`. |
| `IntFormat.ParseIntToString` | Assets/GameManager.cs:34 | Parsing the formatted number gives it back. |
| `IntFormat.IntToStringParse` | Assets/GameManager.cs:34 | Every string the parser accepts is exactly the format of the number it reads. |
| `IntFormat.IntToStringInjective` | Assets/GameManager.cs:34 | Different integers are formatted differently. |

## Left out

- `Start` (Assets/PlayerController.cs:16-20): `GetComponent<Rigidbody>()` and `rb.freezeRotation` are engine set-up, and the model has no rotation.
- The physics solver: it changes `rb.linearVelocity` between frames (gravity, collisions), and the model does not. In `Run`, `vy` is carried over from the model's previous state, where the real body's `vy` has meanwhile been changed by gravity. So, of the last frame's velocity, only `vx` and `vz` match the program, and `vy` matches only when that frame starts a jump. The run lemmas are about the flags and the hold timer, which the solver does not touch.
- PlayerControl.PlayerController.constructor: requires `maxJumpTime > 0`, and so do `Step` and `Tick`. The public field accepts 0 or a negative value from the inspector. With such a value, a jump starts and stops in the same frame with no hold boost, because `0 >= maxJumpTime` already holds. The model states nothing for such settings.
- The constructor's zero velocity: the source does not set this. It stands for a rigidbody at rest.
- `InputManager.Instance` is not part of this model. Its move vector and its three jump signals are the parameters of `Tick`. `Time.deltaTime` is the parameter `dt >= 0`.
- Floating-point rounding in `float` arithmetic and in the `<`/`>=` timer comparisons: times and velocities are exact reals.
- Edits made in the Unity inspector to the public fields, including `jumpHoldTime`, between frames. The tuning is fixed at construction.
- TMP label rendering, and `scoreText` being unassigned (a null reference): the label is a string field that is always present.
- `Destroy(gameObject)` being deferred to the end of the frame, and objects being destroyed when a scene unloads: the model has only the `destroyed` flag that `Awake` sets.
- Culture-specific number formatting: `IntToString` uses the invariant format, with `'-'` as the negative sign and no group separators.
- Unity's guarantee that `Awake` runs once per object is not enforced. Calling `Awake` again on the registered manager destroys it, as the code does, and the slot then counts as empty.
