# Emotion and magnet core of "delicate", in Dafny

This project models the server-side simulation core of the multiplayer game
MartyChouette/delicate and proves properties of it.

- **Emotion state.** Each player body and the box carry four emotion intensities: fear,
  abandonment, denial and anger. Each intensity moves towards a target at a rate the
  emotion's definition sets.
- **Magnets.** Magnets with words on them stick to metal surfaces and are listed on the
  attach point of the body they stick to.
- **Targets.** The words attached to a body scale its abandonment target (box) or fear
  target (player).
- **Effects.** The intensities trigger forces, torques and a "denial" phasing of the box's
  colliders and renderers.
- **Hands.** Players grab, release and toss magnets with two hands.
- **HUD.** The owner's HUD lists the words on the player's attach point. That list is
  filled only on the server and is not replicated, so the words show only for a player
  who is also the host (`ClientHudIsEmpty`).

One Dafny module per source file:

| file | module | source |
|---|---|---|
| `types.dfy` | `Types` | the enumerations, the tuning record, word names |
| `geometry.dfy` | `Geometry` | the small part of Unity's vector and quaternion arithmetic that is used |
| `emotions.dfy` | `EmotionStates` | `EmotionState` |
| `attach.dfy` | `AttachPoints` | `MagnetAttachPoint` |
| `magnets.dfy` | `Magnets` | `Magnet` |
| `box.dfy` | `BoxEmotion` | `BoxEmotionApplier` |
| `player.dfy` | `PlayerEmotion` | `PlayerEmotionApplier` |
| `hands.dfy` | `HandControl` | `PlayerHandController` |
| `hud.dfy` | `StatusHud` | `PlayerStatusUI` |

## Modelling choices

- **State.** Components whose fields the source updates in place are classes with those
  fields: `EmotionState`, `MagnetAttachPoint`, `Magnet`, the two appliers, the hand
  controller and the HUD. Their methods carry `modifies` clauses and state the new state.
  The rules they follow are pure functions, with lemmas proved about those functions.
- **Loops.** The source's loops are `for` loops proved against those functions:
  - the definition cache at spawn;
  - the abandonment and fear target loops;
  - the nearest-player search;
  - the collider and renderer toggles;
  - the HUD's `StringBuilder` loop.
- **Numbers.** C# `float` values are `real`s. `float.MaxValue` is the constant `FloatMax`.
- **Role.** `IsServer` and `IsOwner` are boolean parameters.
- **Engine inputs as parameters.** The engine's square roots, `Random.value`,
  `Random.Range` draws and normalised random directions are parameters of the operations
  that use them. So are the raycast hit, the distances between players, and the contact point in
  the hit transform's local space (`InverseTransformPoint`, the `localContact` of a
  `Collision`).
- **Physics calls.** The calls into the rigidbody (`AddForce`, `AddTorque`) are returned
  as a list of `Effect`s.
- **Hooks.** The owner-side input hooks of the hand controller return the server RPCs
  they send as a list of `Request`s. The server-side RPC bodies are methods of the same
  class.
- **`Mathf.MoveTowards`.** Its source is not part of the repository. It is modelled by
  its documented behaviour: return the target when it is within `maxDelta`, else step
  exactly `maxDelta` towards it.

### Behaviour of the code worth knowing

- **Membership.** Attach-point membership and a magnet's state can disagree: a freed
  magnet can stay listed (see Findings). The strip, the grab and the toss all free a
  magnet through the as-written `Unstick`, as the code does; the corrected
  `UnstickRegistered` is stated beside it, with its own scenario.
- **Duplicate definitions.** Several definitions of one emotion kind may be listed. The
  last one listed wins (`CachedDefIsLast`).
- **Clamping.** Only the target is clamped: each step moves towards `Clamp01(target)`.
  The intensity stays in [0, 1] because it starts at 0 and steps never overshoot (`Step`,
  `EmotionState.InUnitRange`).
- **Requests.** Each server RPC runs as it arrives. Two hands can hold the same magnet, so
  no single-winner property is stated.

## Model

| member | source | states |
|---|---|---|
| Types.WordName | Assets/Scripts/EB_Types.cs:22-35 | the `ToString()` text of each magnet word is non-empty and made of letters only |
| Types.WordNameInjective | Assets/Scripts/EB_Types.cs:22-35 | different words have different names |
| Types.WordNameRoundTrip | Assets/Scripts/EB_Types.cs:22-35 | parsing a word's name gives back that word |
| Types.OccurrencesIsMultiplicity | Assets/Scripts/BoxEmotionApplier.cs:48-61 | counting a word along the list gives its multiplicity, so counts ignore order |
| EmotionStates.Clamp01 | Assets/Scripts/Emotions/EmotionState.cs:65 | the result is in [0, 1], equals the input inside it, and is 0 below and 1 above |
| EmotionStates.MoveTowards | Assets/Scripts/Emotions/EmotionState.cs:63-66 | a non-negative step moves at most `maxDelta`, never overshoots, and closes the gap by exactly `maxDelta` or entirely |
| EmotionStates.Step | Assets/Scripts/Emotions/EmotionState.cs:63-66 | one step: changes by at most `intensityLerpSpeed*dt`, stays between the old value and `Clamp01(target)`, keeps [0, 1], and is a fixed point at the clamped target |
| EmotionStates.StepsIsProduct | Assets/Scripts/Emotions/EmotionState.cs:63-66 | `n` steps of `d` cover `n*d` |
| EmotionStates.IterateReaches | Assets/Scripts/Emotions/EmotionState.cs:63-66 | once `n` steps cover the distance, `n` calls reach the target exactly, and further calls stay there |
| EmotionStates.IterateApproaches | Assets/Scripts/Emotions/EmotionState.cs:63-66 | before the distance is covered, each call moves exactly `maxDelta` towards the target, from above or from below, and the gap shrinks by the steps taken |
| EmotionStates.ConvergenceScenario | Assets/Scripts/Emotions/EmotionState.cs:63-66 | from 0 towards 0.8 at speed 1 with 0.1 s ticks: 0.7 after 7 ticks, 0.8 after 8 and 9 |
| EmotionStates.CachedDefIsLast | Assets/Scripts/Emotions/EmotionState.cs:45-55 | the last listed definition of a kind is the one cached |
| EmotionStates.CachedDefWhenAbsent | Assets/Scripts/Emotions/EmotionState.cs:45-55 | a kind with no listed definition keeps its previous cache (null at spawn) |
| EmotionStates.CachedDefFromList | Assets/Scripts/Emotions/EmotionState.cs:45-55 | a cached definition is one of the listed non-null entries and has the requested kind |
| EmotionStates.EmotionState.constructor | Assets/Scripts/Emotions/EmotionState.cs:17-27 | all four intensities start at 0 and no definition is cached |
| EmotionStates.EmotionState.GetIntensity | Assets/Scripts/Emotions/EmotionState.cs:97-107 | the intensity of the requested kind lies in [0, 1] while every intensity does |
| EmotionStates.EmotionState.OnNetworkSpawn | Assets/Scripts/Emotions/EmotionState.cs:40-56 | the loop leaves each kind's cache equal to `CachedDef` of the list: null entries skipped, last entry of the kind wins |
| EmotionStates.EmotionState.Lerp | Assets/Scripts/Emotions/EmotionState.cs:60-94 | off the server or without the kind's definition nothing changes; otherwise that kind's intensity takes one `Step`; the other three intensities never change; with a non-negative step every intensity stays in [0, 1] |
| AttachPoints.Registered | Assets/Scripts/Network/MagnetAttachPoint.cs:29-30 | the magnet is listed afterwards; a new magnet is appended at the end, a listed one leaves the list as it was; a duplicate-free list stays duplicate-free |
| AttachPoints.RemovedSplits | Assets/Scripts/Network/MagnetAttachPoint.cs:39-40 | removal of an absent magnet changes nothing; otherwise the list loses exactly its first occurrence and keeps the rest in order |
| AttachPoints.RemovedNoDuplicates | Assets/Scripts/Network/MagnetAttachPoint.cs:39-40 | in a duplicate-free list, removal takes the magnet out entirely and keeps the list duplicate-free |
| AttachPoints.RegisterThenUnregister | Assets/Scripts/Network/MagnetAttachPoint.cs:26-44 | registering an absent magnet and then unregistering it restores the list |
| AttachPoints.RepeatIsNoOp | Assets/Scripts/Network/MagnetAttachPoint.cs:26-44 | registering twice equals registering once; unregistering twice equals unregistering once |
| AttachPoints.AttachPoint.constructor | Assets/Scripts/Network/MagnetAttachPoint.cs:16 | the list starts empty |
| AttachPoints.AttachPoint.Register | Assets/Scripts/Network/MagnetAttachPoint.cs:26-34 | on the server the list becomes `Registered(old, m)`, off the server it is unchanged; the list stays duplicate-free |
| AttachPoints.AttachPoint.Unregister | Assets/Scripts/Network/MagnetAttachPoint.cs:36-44 | on the server the list becomes `Removed(old, m)` and no longer holds `m`, off the server it is unchanged; it stays duplicate-free |
| Magnets.Magnet.constructor | Assets/Scripts/Network/Magnet.cs:10-22 | a new magnet is free, dynamic and registered nowhere |
| Magnets.Magnet.FixedUpdate | Assets/Scripts/Network/Magnet.cs:35-47 | on the server a stuck magnet is placed at its host's transform of the recorded offset, with the host's rotation composed with the recorded one (so the host's own rotation right after sticking), and both velocities are zeroed; otherwise nothing changes |
| Magnets.Magnet.OnCollisionEnter | Assets/Scripts/Network/Magnet.cs:49-69 | off the server nothing changes; a free magnet sticks only when the layer is in its mask; a stuck magnet never re-sticks and comes off only when the impulse is strictly above the strip threshold, through `Unstick`, leaving the magnet listed wherever that lookup misses; on a stick the collider's attach point gains the magnet; in every other case neither attach point changes; a collision never moves the magnet or changes its velocities, and a strip keeps its recorded offset |
| Magnets.Magnet.TryStickTo | Assets/Scripts/Network/Magnet.cs:71-91 | stuck to the hit transform, kinematic, local offset of the contact, identity local rotation, and registered with the collider's attach point when there is one |
| Magnets.Magnet.Unstick | Assets/Scripts/Network/Magnet.cs:93-110 | as written: a free magnet is untouched; a stuck one is freed and made dynamic, and is removed from the attach point found above its host transform; its velocities, pose and offset stay |
| Magnets.Magnet.UnstickRegistered | Assets/Scripts/Network/Magnet.cs:93-110 | corrected: as `Unstick`, but it unregisters from the attach point it registered with, so the magnet is no longer listed there |
| Magnets.StaleEntryAsWritten | Assets/Scripts/Network/Magnet.cs:71-110 | a magnet that stuck to a body whose attach point is a child is still listed after a hit above the strip threshold frees it through the as-written `Unstick` |
| Magnets.NoStaleEntryCorrected | Assets/Scripts/Network/Magnet.cs:71-110 | the same collision followed by the corrected unstick leaves the attach point empty |
| BoxEmotion.AbandonTarget | Assets/Scripts/BoxEmotionApplier.cs:42-61 | the abandonment target lies in (0, 0.3] |
| BoxEmotion.AbandonTargetClosedForm | Assets/Scripts/BoxEmotionApplier.cs:42-61 | the target is 0.3 scaled by 0.3 for each Stay or DontLeave and by 0.6 for each Safe, whatever the other words |
| BoxEmotion.AbandonTargetOrderIndependent | Assets/Scripts/BoxEmotionApplier.cs:42-61 | lists with the same words in any order give the same target |
| BoxEmotion.StayScenario | Assets/Scripts/BoxEmotionApplier.cs:52-55 | one Stay magnet gives the target 0.09 |
| BoxEmotion.TargetAbandonment | Assets/Scripts/BoxEmotionApplier.cs:42-62 | the loop over the attached magnets computes `AbandonTarget` of their words |
| BoxEmotion.DriftEffects | Assets/Scripts/BoxEmotionApplier.cs:66-71 | a drift is emitted exactly when there is an abandonment definition and the intensity is above 0.01; it is an acceleration of `baseDriftStrength*abandonment` along the drift direction |
| BoxEmotion.DenialInterval | Assets/Scripts/BoxEmotionApplier.cs:83 | the interval is the larger of 0.5 s and `phaseIntervalSeconds / max(denial, 0.01)`: at least both, and equal to one of them |
| BoxEmotion.DenialIntervalAntitone | Assets/Scripts/BoxEmotionApplier.cs:83 | a stronger denial never lengthens the interval |
| BoxEmotion.DenialScenario | Assets/Scripts/BoxEmotionApplier.cs:83 | denial 0.5 with a 3 s phase gives a 6 s interval |
| BoxEmotion.ToggleTwiceRestores | Assets/Scripts/BoxEmotionApplier.cs:146-158 | from a uniform state with at least one collider, two toggles restore every flag |
| BoxEmotion.NoCollidersStayHidden | Assets/Scripts/BoxEmotionApplier.cs:148-157 | without colliders every toggle disables the renderers, so they never come back |
| BoxEmotion.JoltEffects | Assets/Scripts/BoxEmotionApplier.cs:97-114 | a jolt fires exactly when there is an anger definition, anger is above 0.1 and the draw is below `0.3*anger*dt`; it is an impulse of `randomImpulseStrength` along the random direction |
| BoxEmotion.BoxEmotionApplier.constructor | Assets/Scripts/BoxEmotionApplier.cs:15-21 | the denial timer starts at 0 |
| BoxEmotion.BoxEmotionApplier.ToggleDenialPhase | Assets/Scripts/BoxEmotionApplier.cs:146-158 | every collider and renderer gets the negation of the first collider's old state, or false with no collider |
| BoxEmotion.BoxEmotionApplier.AdvanceDenial | Assets/Scripts/BoxEmotionApplier.cs:77-91 | with a denial definition and denial above 0.05 the timer advances by `dt`; on reaching the interval it resets to 0 and exactly one toggle happens; otherwise nothing changes |
| BoxEmotion.BoxEmotionApplier.FixedUpdate | Assets/Scripts/BoxEmotionApplier.cs:33-115 | off the server or without an emotion state nothing happens; otherwise the cached definitions are kept, only abandonment is stepped towards `AbandonTarget` of the attached words, the denial timer and phase follow `AdvanceDenial`'s rule, and the effects are the drift then the jolt |
| PlayerEmotion.BaseFear | Assets/Scripts/PlayerEmotionApplier.cs:41-46 | 0.8 exactly when the nearest other player is farther than the radius, 0.25 exactly when not |
| PlayerEmotion.FearTarget | Assets/Scripts/PlayerEmotionApplier.cs:49-66 | with a positive base the fear target is positive and no larger than the base |
| PlayerEmotion.FearTargetClosedForm | Assets/Scripts/PlayerEmotionApplier.cs:49-66 | the target is the base scaled by 0.4 per Warmth, 0.7 per Help and 0.9 per Sorry, whatever the other words |
| PlayerEmotion.FearTargetOrderIndependent | Assets/Scripts/PlayerEmotionApplier.cs:49-66 | lists with the same words in any order give the same target |
| PlayerEmotion.WarmthScenario | Assets/Scripts/PlayerEmotionApplier.cs:41-66 | a lone player with one Warmth magnet has fear target 0.32 |
| PlayerEmotion.Nearest | Assets/Scripts/PlayerEmotionApplier.cs:106-116 | the result is at most `float.MaxValue` and at most every other player's distance, and is `float.MaxValue` or one of those distances |
| PlayerEmotion.AloneIsFar | Assets/Scripts/PlayerEmotionApplier.cs:41-46 | with no other player the distance is `float.MaxValue` and the base fear target is 0.8 |
| PlayerEmotion.GetNearestOtherPlayerDistance | Assets/Scripts/PlayerEmotionApplier.cs:106-116 | the loop, which skips the player itself, computes `Nearest` |
| PlayerEmotion.TargetFear | Assets/Scripts/PlayerEmotionApplier.cs:49-66 | the loop over the attached magnets computes `FearTarget` of their words |
| PlayerEmotion.SwayEffects | Assets/Scripts/PlayerEmotionApplier.cs:76-81 | a sway is emitted exactly when there is a fear definition and fear is above 0.01; it is an angular acceleration about the z axis of `swayRoll*swayTorque*fear` |
| PlayerEmotion.StumbleEffects | Assets/Scripts/PlayerEmotionApplier.cs:84-92 | a stumble fires exactly when there is a fear definition, fear is above 0.4 and the draw is below `stumbleChancePerSecond*fear*dt`; it is a velocity change of `stumbleImpulse` sideways |
| PlayerEmotion.PushEffects | Assets/Scripts/PlayerEmotionApplier.cs:95-103 | a push fires exactly when there is an anger definition and anger is above 0.1; it is an acceleration of `randomImpulseStrength*anger*dt` along the random direction |
| PlayerEmotion.PlayerEmotionApplier.constructor | Assets/Scripts/PlayerEmotionApplier.cs:14-18 | sway torque 5, stumble impulse 2, radius 4 |
| PlayerEmotion.PlayerEmotionApplier.FixedUpdate | Assets/Scripts/PlayerEmotionApplier.cs:34-104 | off the server or without an emotion state nothing happens; otherwise only fear is stepped towards the target from the nearest player and the attached words, and the effects are sway, stumble, push |
| Geometry.Normalized | Assets/Scripts/Network/PlayerHandController.cs:218 | a vector longer than the epsilon becomes a unit vector, a shorter one the zero vector |
| Geometry.QMulIdentity | Assets/Scripts/Network/Magnet.cs:43 | composing with the identity rotation changes nothing, so a stuck magnet takes its host's rotation |
| HandControl.GrabJoint | Assets/Scripts/Network/PlayerHandController.cs:147-150 | the joint holds the hit body and breaks at force and torque 2000 |
| HandControl.TossVelocity | Assets/Scripts/Network/PlayerHandController.cs:217-221 | when the aim `0.8*forward + 0.5*up` is longer than the epsilon, the velocity change points along it and has squared length `tossForce^2`; otherwise it is zero |
| HandControl.PlayerHandController.constructor | Assets/Scripts/Network/PlayerHandController.cs:29-51 | nothing pressed, locked or held, no focus, toss force 6 |
| HandControl.PlayerHandController.SetHandPressed | Assets/Scripts/Network/PlayerHandController.cs:66-84 | only that side's pressed flag changes; a press asks for a grab; an unpress asks for a release unless that side is locked |
| HandControl.PlayerHandController.ToggleLockHand | Assets/Scripts/Network/PlayerHandController.cs:86-100 | one side's lock flips, the other's is kept; a release is asked exactly when that side is now unlocked and not pressed |
| HandControl.PlayerHandController.ToggleLockBothHands | Assets/Scripts/Network/PlayerHandController.cs:102-111 | the left lock flips and the right lock copies it; each unlocked, unpressed hand asks for a release, left first |
| HandControl.PlayerHandController.RequestTossMagnet | Assets/Scripts/Network/PlayerHandController.cs:189-193 | only the owner asks for a toss |
| HandControl.PlayerHandController.SetFocusPoint | Assets/Scripts/Network/PlayerHandController.cs:113-118 | the last call's point and flag win |
| HandControl.PlayerHandController.TryGrabClosest | Assets/Scripts/Network/PlayerHandController.cs:122-163 | no hand, no camera, no hit or no rigidbody: nothing changes; otherwise that side gets a new joint to the hit body and holds its magnet (or nothing), the magnet is unstuck through the as-written `Unstick`, so it leaves only the attach point found above its host, the other side is untouched, and the hand invariant is kept |
| HandControl.PlayerHandController.ClearHandJoint | Assets/Scripts/Network/PlayerHandController.cs:225-244 | on an existing hand that side's joint and held magnet are cleared, the other side untouched; on a missing hand nothing changes |
| HandControl.PlayerHandController.ReleaseHand | Assets/Scripts/Network/PlayerHandController.cs:165-185 | on an existing hand that side's joint and held magnet are cleared and the other side is untouched; on a missing hand nothing changes |
| HandControl.PlayerHandController.TossMagnet | Assets/Scripts/Network/PlayerHandController.cs:195-222 | with nothing held nothing happens; otherwise the left magnet (else the right) is let go by that hand only, unstuck through the as-written `Unstick` (leaving only the attach point found above its host), its velocities are zeroed, it is placed at the hand, and it gets a velocity change of `TossVelocity` |
| StatusHud.HudText | Assets/Scripts/PlayerStatusUI.cs:34-48 | the text is empty exactly when no magnet is attached |
| StatusHud.HudTextBrackets | Assets/Scripts/PlayerStatusUI.cs:42-47 | a non-empty text opens with `[` and closes with `]`: no leading or trailing space |
| StatusHud.HudTextAppend | Assets/Scripts/PlayerStatusUI.cs:42-47 | one more magnet appends one space and its bracketed name |
| StatusHud.HudTextSpaces | Assets/Scripts/PlayerStatusUI.cs:45-46 | n entries contain exactly n-1 spaces |
| StatusHud.DecodeHudText | Assets/Scripts/PlayerStatusUI.cs:42-48 | reading the text back gives exactly the attached words, in list order |
| StatusHud.HudTextInjective | Assets/Scripts/PlayerStatusUI.cs:42-48 | different word lists give different texts |
| StatusHud.ProgressStep | Assets/Scripts/PlayerStatusUI.cs:42-47 | one round of the loop appends the next entry, and a space unless it is the last |
| StatusHud.FormatMagnetList | Assets/Scripts/PlayerStatusUI.cs:34-48 | the `StringBuilder` loop (empty list: `""`) produces `HudText` of the attached words |
| StatusHud.PlayerStatusUI.Update | Assets/Scripts/PlayerStatusUI.cs:30-49 | without ownership, text or attach point nothing changes; otherwise the text becomes `HudText` of the attached words |
| StatusHud.ClientHudIsEmpty | Assets/Scripts/Network/MagnetAttachPoint.cs:26-30 | off the server registering leaves the player's list empty, so the owner's HUD shows nothing; on the host the same magnet shows as `[Warmth]` |

## Left out

- Floating point: every `float` is a `real`, so rounding, non-associativity and the
  timer's loss of precision are not modelled.
- Netcode: replication of the `NetworkVariable`s, RPC delivery and role assignment are
  not modelled. The role is a boolean parameter, and the owner-side hooks return the
  RPCs they send.
- `Awake` and `OnNetworkSpawn` component lookups (`GetComponent*`) are left out of every
  class. The references they find are constructor parameters.
- `PlayerStatusUI.OnNetworkSpawn` (`SetActive(IsOwner)`) is left out, because it is
  visibility only. `Update` checks ownership itself.
- `GetAbandonmentDirection` is an input: the direction away from the players' average
  position, normalised by the engine.
- Random draws and random or sideways directions are inputs. The stumble's `sidewaysDir`
  stands for `(right * Random.Range(-1,1)).normalized`.
- `PlayerHandController.FixedUpdate` and `UpdateHandTarget` (hand springs and focus
  attraction) are left out: they are force computations with square roots, and only
  their inputs (focus point and flag) are state of this core.
- The physics engine is not modelled:
  - the integration of the emitted forces;
  - collisions, apart from the `Collision` value handed to `OnCollisionEnter`;
  - joint breaking above 2000 N. A broken joint would leave `_leftHeldMagnet` or
    `_rightHeldMagnet` set.
  - the raycast (`grabRange`, `grabMask`). The hit is an input.
- Transforms are parentless world poses. `Magnet.FixedUpdate` uses the host's pose as
  given; the parent hierarchy is not modelled.
- `maxBodyTiltDeg` is read into `maxTilt` at `PlayerEmotionApplier.cs:78` but never used.
  It is not part of the model.
- The `_ => 0f` arm of `GetIntensity` is left out: it is unreachable for the four-valued
  enumeration.
- No file of the repository calls `LerpDenial` or `LerpAnger`, so denial and anger stay 0
  and their effects never fire in the game. The model keeps `Lerp` for every kind and the
  effect rules as written.
- No "exactly one hand holds a magnet" property is stated, because the source does not
  ensure one.
- The HUD on a client that is not the host: the attach-point list is neither filled there
  nor replicated, so that owner's HUD stays empty. The model shows this
  (`ClientHudIsEmpty`) and does not model the missing replication.

## Findings

| source | as written | input that shows it | evidently intended | confidence | as-written member | corrected member |
|---|---|---|---|---|---|---|
| Assets/Scripts/Network/Magnet.cs:86,102 | `TryStickTo` registers with the attach point above `collision.collider`. `Unstick` unregisters from the attach point above `_stuckTo`, which is `collision.transform` (line 75), the hit rigidbody's transform. | A magnet hits a player body whose attach point is on a child object. The magnet registers with the child's attach point. When a hit above the strip threshold, a grab or a toss frees it, the lookup from the body root finds no attach point, and the magnet stays listed. The player's fear target and HUD still count it. | Unstick unregisters from the attach point the magnet registered with. | medium, not executed | Magnets.Magnet.Unstick, Magnets.Magnet.OnCollisionEnter, Magnets.StaleEntryAsWritten | Magnets.Magnet.UnstickRegistered, Magnets.NoStaleEntryCorrected |
