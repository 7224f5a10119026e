# bemyval front end — verified model of the playful components and the key store

This project is a Dafny model of the logic at the heart of the bemyval
("be my valentine") web front end. It covers:

- **PlayfulButton** — the "no" button that runs away from the pointer. It
  changes its text over five progressions and gives up on the last one.
- **ShrinkButton** — the alternative "no" button. It shrinks on every click
  and gives up from the fifth click on.
- **Confetti** — a burst of 150 heart particles. They fall under gravity,
  fade near the bottom of the canvas, and stop the animation once none is
  visible.
- **FloatingHearts** — twenty background hearts. They rise forever, wobble
  sideways, and are recycled below the bottom edge once they leave the top.
- **Storage** — the `localStorage` helpers. They keep the owner token and
  one record per created valentine under keys with the prefix `bemyval_`.

Numbers are exact `real`s. `Math.random`, `Math.sqrt`, `Math.atan2`,
`Math.sin`, `Math.cos` and `new Date()` are not computed. Their results are
parameters, and random draws are constrained to [0, 1).

Components whose fields change in place are classes:
- the click counter and offset of a dodge button (`DodgeState`);
- the counter and target scale of a shrink button (`ShrinkState`);
- the particle array (`ConfettiCanvas`);
- the heart array (`HeartsCanvas`);
- the string map behind `localStorage` (`BrowserStorage`).

Their methods are proved against pure functions that state one step
(`RelocatedOffset`, `StepParticle`, `StepHeart`, `Encode`/`Decode`). The
properties that span many steps are proved in two ways:
- as lemmas about those functions;
- by client methods that click a freshly mounted button many times.

`JSON.stringify`/`JSON.parse` of a stored record are modelled by a small
codec (`StoredJson`). It writes the record's three fields as a JSON object
and reads back exactly that layout; the round trip is proved in both
directions.

Three behaviours of the code are worth stating plainly, and the model
keeps them as written:
- An axis that leaves the container is bounced to the *opposite* side of
  the centre (`Math.sign(newX) * -maxX * 0.7`), at 70% of the bound.
- The random turn of the escape angle is `(r - 0.5) * 0.5` rad, that is
  ±0.25 rad (about ±14°), although the comment beside it says ±30 degrees.
- `ShrinkButton` calls `onGiveUp` on every click from the fifth on, not only
  on the fifth.

## Model

| member | source | states |
|---|---|---|
| Progressions.TextIndex | src/components/PlayfulButton.tsx:26 | the progression index is always valid: the click count itself until the last entry, then the last entry |
| Progressions.ProgressionText | src/components/PlayfulButton.tsx:26 | the button text is an entry of the progression: entry `clickCount` up to the last index, the last entry afterwards; the shrink button shows the same text (src/components/ShrinkButton.tsx line 30) |
| PlayfulButton.Scale | src/components/PlayfulButton.tsx:27 | the scale lies in [0.7, 1]; it is 1 before any click and sits on the floor 0.7 exactly from the fourth click on |
| PlayfulButton.ScaleNonIncreasing | src/components/PlayfulButton.tsx:27 | more clicks never give a larger scale |
| PlayfulButton.EscapeDirection | src/components/PlayfulButton.tsx:44-55 | with a non-zero distance, the direction times the distance is the pointer-to-centre offset, so it points away from the pointer; at distance 0 each component is a random value in [-1, 1) |
| PlayfulButton.AngleJitter | src/components/PlayfulButton.tsx:58 | the random turn of the escape angle lies in [-0.25, 0.25) rad |
| PlayfulButton.MoveDistance | src/components/PlayfulButton.tsx:63 | the travel distance is at least 150 px and at least 40% of the container's smaller side, and equals one of the two |
| PlayfulButton.MaxX | src/components/PlayfulButton.tsx:66 | the horizontal bound is half the spare width less 10 px; it is non-negative exactly when the container is at least 20 px wider than the button |
| PlayfulButton.MaxY | src/components/PlayfulButton.tsx:67 | the vertical bound is half the spare height less 10 px; it is non-negative exactly when the container is at least 20 px taller than the button |
| PlayfulButton.BounceAndClamp | src/components/PlayfulButton.tsx:66-83 | with a non-negative bound: the result is within the bound, an in-bounds candidate is kept, one beyond +bound lands at -0.7·bound and one beyond -bound at +0.7·bound; with a negative bound the clamp yields -bound |
| PlayfulButton.RelocatedOffset | src/components/PlayfulButton.tsx:38-87 | without a measurement the offset is unchanged; otherwise each axis ends within its bound whenever that bound is non-negative, whatever the direction |
| PlayfulButton.DodgeState.constructor | src/components/PlayfulButton.tsx:13-19 | a mounted button has no clicks and offset (0, 0) |
| PlayfulButton.DodgeState.RunAway | src/components/PlayfulButton.tsx:38-87 | the committed offset is `RelocatedOffset` of the previous offset; the counter is untouched |
| PlayfulButton.DodgeState.HandleClick | src/components/PlayfulButton.tsx:89-100 | the click gives up exactly when the counter is at the last progression index, and then changes nothing; otherwise the counter rises by one and the button runs away; the counter never passes N - 1 |
| PlayfulButton.DodgeState.HandleMouseEnter | src/components/PlayfulButton.tsx:102-107 | the button runs away exactly when 0 < clickCount < N - 1, otherwise the offset is unchanged; the counter never changes |
| PlayfulButton.ClickSequence | src/components/PlayfulButton.tsx:89-100 | on a fresh button, click j gives up exactly when j >= N - 1 (the fifth click is the first); the counter ends at min(clicks, N - 1); with the layout held fixed across clicks, the final offset is within non-negative bounds |
| ShrinkButton.ShrinkScale | src/components/ShrinkButton.tsx:21 | the target scale lies in [0.3, 1]; it is 1 before any click and below 1 after one, 0.4 after four, and on the floor 0.3 exactly from the fifth click on |
| ShrinkButton.ShrinkScaleNonIncreasing | src/components/ShrinkButton.tsx:21 | more clicks never give a larger target scale |
| ShrinkButton.ShrinkState.constructor | src/components/ShrinkButton.tsx:13-14 | a mounted button has no clicks and scale 1 |
| ShrinkButton.ShrinkState.HandleClick | src/components/ShrinkButton.tsx:16-28 | every click raises the counter by exactly one; the target scale is `ShrinkScale` of the new count and never grows; `onGiveUp` is called exactly when the new count is at least N |
| ShrinkButton.ClickRepeatedly | src/components/ShrinkButton.tsx:16-28 | on a fresh button, click j (from 1) calls `onGiveUp` exactly when j >= N, so every click from the fifth on does; after k clicks the target scale is `ShrinkScale(k)` |
| Confetti.ColorIndex | src/components/Confetti.tsx:39 | the colour index is a valid index into the five-colour palette |
| Confetti.Spawn | src/components/Confetti.tsx:30-40 | a new particle is fully opaque, starts in (-120, -20] with x inside a positive-width canvas, falls at [2, 5) px per frame, drifts at [-4, 4), turns at [-5, 5), has scale in [0.5, 1) and a palette colour |
| Confetti.CreateParticles | src/components/Confetti.tsx:24-44 | without a canvas the batch is empty; otherwise it holds 150 particles, the i-th spawned from the i-th draws |
| Confetti.StepParticle | src/components/Confetti.tsx:80-92 | a particle without opacity is untouched; a live one moves by its velocity, gains 0.1 in vertical velocity, turns by its rotation speed, and loses exactly 0.02 opacity if and only if it is within 100 px of the bottom; scale and colour never change and opacity never grows |
| Confetti.CountLive | src/components/Confetti.tsx:78-104 | the live count never exceeds the number of particles |
| Confetti.CountLiveZero | src/components/Confetti.tsx:103-109 | the live count is zero exactly when no particle is live, so the animation stops exactly when every particle has faded |
| Confetti.StepKeepsFadeGrid | src/components/Confetti.tsx:89-91 | an opacity in [0, 1] that is a whole number of fade steps stays so after a step |
| Confetti.OpacityStaysInRange | src/components/Confetti.tsx:83-93 | starting from full opacity (or any whole number of fade steps), opacity stays in [0, 1] on every later frame and never grows |
| Confetti.DeadParticleFrozen | src/components/Confetti.tsx:81 | a particle without opacity is never changed again |
| Confetti.FadesOutAfter | src/components/Confetti.tsx:83-93 | a falling particle already in the fade zone with k fade steps of opacity stays live for fewer than k frames and has opacity exactly 0 after k |
| Confetti.FullOpacityLastsFiftyFrames | src/components/Confetti.tsx:83-93 | a fully opaque particle that has reached the fade zone is visible for exactly 50 more frames |
| Confetti.FirstFrameKeepsFullOpacity | src/components/Confetti.tsx:30-91 | on a canvas at least 85 px tall a new particle keeps full opacity through its first frame |
| Confetti.Advance | src/components/Confetti.tsx:83-91 | the field-by-field update of a live particle computes exactly `StepParticle` |
| Confetti.ConfettiCanvas.constructor | src/components/Confetti.tsx:21 | a mounted burst holds no particles |
| Confetti.ConfettiCanvas.Animate | src/components/Confetti.tsx:71-110 | without a canvas nothing changes; otherwise every particle is replaced in place by its step, the active count is the number of live particles afterwards, and another frame is requested exactly when it is positive, that is exactly when some particle is still live |
| Confetti.ConfettiCanvas.Activate | src/components/Confetti.tsx:132-143 | when inactive nothing changes and no frame is requested; when active the list is replaced by a new batch (150 particles, none without a canvas) and one frame runs at once: particle i is the i-th spawned particle after one step, and another frame is requested exactly when one of them is still live, never without a canvas |
| FloatingHearts.SpawnHeart | src/components/FloatingHearts.tsx:40-48 | a new heart lies inside a positive canvas, has size in [10, 25), speed in [0.2, 0.7), opacity in [0.05, 0.2), wobble phase in [0, 2π) and wobble speed in [0.01, 0.03) |
| FloatingHearts.CreateHearts | src/components/FloatingHearts.tsx:37-51 | the list holds 20 hearts, the i-th spawned from the i-th draws |
| FloatingHearts.StepHeart | src/components/FloatingHearts.tsx:74-82 | size, speed, opacity and wobble speed never change and the phase advances by the wobble speed; a heart not recycled rises by its speed and drifts at most 0.5 px sideways; a recycled one restarts 30 px below the bottom at x inside the canvas; afterwards no heart is above -30 |
| FloatingHearts.StepKeepsWellFormed | src/components/FloatingHearts.tsx:74-82 | the attribute ranges set at spawn hold on every frame |
| FloatingHearts.UnrecycledHeartRises | src/components/FloatingHearts.tsx:75-79 | a heart that is not recycled is strictly higher after the frame |
| FloatingHearts.HeartsCanvas.constructor | src/components/FloatingHearts.tsx:18 | a mounted background holds no hearts |
| FloatingHearts.HeartsCanvas.Mount | src/components/FloatingHearts.tsx:21-90 | without a canvas nothing is created and no frame is requested; otherwise the list becomes 20 new hearts and the first frame runs at once: heart i is the i-th spawned heart after one step, every heart keeps its spawn ranges, and the loop keeps going |
| FloatingHearts.HeartsCanvas.Animate | src/components/FloatingHearts.tsx:71-88 | every heart is replaced in place by its frame, no heart ends above -30 on a canvas of non-negative height, and a new frame is always requested |
| StoredJson.ParseCharsEscape | src/lib/storage.ts:64-78 | reading an escaped string back stops at the quote that closes it and yields the original text and the rest |
| StoredJson.Encode | src/lib/storage.ts:58-64 | the stored text is a JSON object that starts with the `id` member and ends with `}` |
| StoredJson.Decode | src/lib/storage.ts:76-81 | parsing fails on the empty text and on any text that does not start the object with its `id` member |
| StoredJson.DecodeEncode | src/lib/storage.ts:58-78 | a stored record's text is never empty and parses back to the same record |
| StoredJson.EncodeDecode | src/lib/storage.ts:64-77 | any text that parses is exactly the encoding of the record it yields, so under this codec each record has one text |
| Storage.GetKey | src/lib/storage.ts:48-50 | the key of a valentine is the prefix `bemyval_` followed by exactly its id |
| Storage.GetKeyInjective | src/lib/storage.ts:48-50 | distinct ids have distinct keys |
| Storage.OwnerTokenKeyCollision | src/lib/storage.ts:5-6 | a valentine's key equals the owner token's key if and only if its id is "token" |
| Storage.BrowserStorage.GetOwnerToken | src/lib/storage.ts:23-26 | the token is present exactly in a browser with a token entry, and is that entry |
| Storage.BrowserStorage.HasOwnerToken | src/lib/storage.ts:31-33 | true exactly when `getOwnerToken` is non-null, that is in a browser with a token entry |
| Storage.BrowserStorage.SetOwnerToken | src/lib/storage.ts:15-18 | without a window nothing changes; otherwise only the token entry is written and the token reads back |
| Storage.BrowserStorage.GetValentineKey | src/lib/storage.ts:70-82 | a key is returned exactly in a browser whose entry for the id exists, is non-empty and parses; it is the parsed record's owner key |
| Storage.BrowserStorage.StoreValentineKey | src/lib/storage.ts:55-65 | without a window nothing changes; otherwise only the entry at the id's key is written, the owner key reads back, every other valentine reads as before, and the owner token is kept unless the id is "token", in which case it is overwritten by the record's text |
| Storage.StoringTokenIdOverwritesOwnerToken | src/lib/storage.ts:55-65 | storing the valentine "token" after setting the owner token replaces the token with the record's text |

## Left out

- Canvas drawing (`drawHeart`, `clearRect`), `requestAnimationFrame` and `cancelAnimationFrame`: browser output and timing. Only the request for another frame is modelled, as a boolean.
- Resize listeners: the canvas size is a parameter of each step.
- The pointer-tracking `mousemove` listener: the pointer position is a parameter of `EscapeDirection`.
- The `isRunning` wobble set by `setTimeout` and the framer-motion springs: third-party timing. Only the targets passed to `.set` are modelled.
- Rendering and animation of the text (`AnimatePresence`, `whileTap`, `whileHover`): presentation only.
- React's asynchronous state updates and stale closures: each handler is modelled as reading the state as it is at the call.
- PlayfulButton.EscapeDirection: does not state that the normalised direction has length 1. This needs nonlinear real arithmetic beyond what the model proves; the ensures state the ratio instead.
- PlayfulButton.RunAway: the direction is `dir`, the cosine and sine of the jittered angle. `Math.atan2`, `Math.cos` and `Math.sin` are not modelled, so it is not linked to `EscapeDirection` and `AngleJitter` inside the model.
- Floating-point rounding: all arithmetic is exact, so the fade grid and the 50-frame lifetime hold for exact decimals. In IEEE doubles, repeated subtraction of 0.02 may end slightly above or below 0.
- StoredJson.Decode: accepts only the layout that `Encode` writes, not any JSON text. Control characters are not escaped. A JSON value that parses but has no `ownerKey` (where `JSON.parse` succeeds and the result is `undefined`) is treated as a parse failure.
- `isOwner`, imported by the owner page, is not part of this model.
- The pages (`create`, `my/[id]`, `v/[id]`, home), the API client, the types and the remaining constants: rendering, routing and network I/O.
