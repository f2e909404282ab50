# Lucas: screen state machine and audio/speech service, in Dafny

Lucas is a browser game for small children: a welcome screen, a choice of seven
"buddies" (toby, lila, payasin, gogo, pipo, maya, bruno), one mini-game per buddy
that raises that buddy's level, a shared sticker counter, a rewards screen, a
parental overlay, and spoken and synthesised audio feedback.

This project models the two pieces of it that hold logic:

- `app.dfy`, module `LucasApp` (App.tsx): the component state — current view,
  active buddy, parental flag, stickers, per-buddy levels — as a class `App` with
  one method per event handler, each specified against the pure transition
  function `Step`. A ghost history `credited` (the buddies credited with a
  completed round) is tied to the state by `Consistent`: stickers equal the number
  of credited rounds and each level is 1 plus the rounds credited to that buddy.
  Each handler also returns the audio-service calls it makes, in order
  (`Effect`), instead of calling the service.
- `audio_service.dfy`, module `AudioService` (services/geminiService.ts): the
  module-level `audioContext`, `selectedVoice`, `isAudioUnlocked` and the speech
  engine's current utterance, as a class `Service` whose methods are specified
  against the pure functions `LoadVoiceSpec`, `InitAudioSpec`, `SpeakSpec` and
  `PlaySoundSpec`. The browser is a `Platform` value passed to each call: whether
  speech synthesis and an AudioContext constructor exist, the voice list, and
  where (if anywhere) the unlock body throws.
- `voices.dfy`, module `Voices`: `includes`, `find` and the es-MX / es-US /
  es-ES / "es" voice-priority chain of `loadVoice`.
- `phrases.dfy`, module `Phrases`: `getDynamicInstruction` and
  `getEncouragement`; `Math.random()` is a parameter `u` with `0 <= u < 1`.
- `wrappers.dfy`, module `Wrappers`: `Option`, for `null`/`undefined`.

The model follows the code. Four points where the code does something other than one might expect:

- The level-up handler decides on the rewards screen from the level read
  *before* the increment (App.tsx:84 against App.tsx:81). A buddy starting at
  level 1 therefore reaches the rewards screen on its 10th completed round, at
  level 11, not when its level first reaches 10 after 9 rounds, as the
  mastery threshold of 10 suggests
  (`LucasApp.FreshBuddyRewards`, `LucasApp.TobyScenario`).
- The handlers do not test the view: selecting a buddy sets the game view
  whatever the current one, and a level-up never reads the view. The model
  lets every action fire in every view.
- A sound effect with no audio context does not always leave the state alone:
  if audio was never unlocked, `playSoundEffect` first runs `initAudio`, which
  may unlock speech (`AudioService.PlaySoundGuards`). It is a no-op when the
  context is closed, or absent after an earlier unlock
  (`AudioService.PlaySoundUnavailable`).
- A successful unlock re-runs `loadVoice`, which replaces a cached voice with
  the current priority choice, possibly none (`AudioService.UnlockOutcome`).

## Model

| member | source | states |
|---|---|---|
| `Voices.IncludesIffOccurs` | services/geminiService.ts:13-15 | `includes(tag)` holds exactly when the tag occurs at some position of the language string |
| `Voices.IncludesWitness` | services/geminiService.ts:13-15 | when `includes(tag)` holds, an occurrence of the tag exists and is returned |
| `Voices.OccurrenceIncluded` | services/geminiService.ts:13-15 | every occurrence of the tag makes `includes(tag)` hold |
| `Voices.FindFrom` | services/geminiService.ts:13-16 | `find` returns the first index whose voice passes the test, and none when no voice passes |
| `Voices.SelectVoice` | services/geminiService.ts:13-17 | the chosen voice is the first voice passing the first rule (es-MX, es-US, es-ES, prefix "es") that any voice passes; no voice is chosen iff no voice passes any rule |
| `Voices.PickIsUnique` | services/geminiService.ts:13-17 | the rule and voice the priority chain picks are determined uniquely |
| `Voices.MexicanVoicePreferred` | services/geminiService.ts:13 | a list holding an es-MX voice always yields the first such voice, whatever else it holds |
| `AudioService.WarnsOnSpeechError` | services/geminiService.ts:85-89 | the speech error handler stays silent exactly for "interrupted" and "not-allowed" |
| `AudioService.LoadVoiceKeepsCacheOnEmptyList` | services/geminiService.ts:10-12 | without speech synthesis or with an empty voice list, `loadVoice` changes nothing |
| `AudioService.LoadVoiceChangesOnlyVoice` | services/geminiService.ts:12-18 | `loadVoice` changes only the cached voice; with speech and a non-empty list it always sets it to the priority choice, overwriting a cached voice even with none |
| `AudioService.InitAudioWhenUnlocked` | services/geminiService.ts:31-36 | once unlocked, `initAudio` creates no context and touches neither voice nor speech; a suspended context is resumed, and that is its only change |
| `AudioService.UnlockLatch` | services/geminiService.ts:38-68 | `isAudioUnlocked` is true afterwards iff it was before or the unlock body ran without throwing |
| `AudioService.FailedUnlockFrame` | services/geminiService.ts:38-67 | an unlock that throws keeps the latch and the voice; it may only have created a running context and cancelled the pending utterance (always cancelled when the unlock utterance throws, line 56 having run) |
| `AudioService.InitAudioIdempotent` | services/geminiService.ts:30-69 | a second `initAudio` equals the first, apart from resuming a suspended context |
| `AudioService.UnlockOutcome` | services/geminiService.ts:39-64 | a successful unlock leaves a running context if the platform has one, the silent unlock utterance pending if it has speech, and the voice re-chosen |
| `AudioService.SpeakWithoutSpeech` | services/geminiService.ts:72 | without speech synthesis `speakText` changes nothing |
| `AudioService.SpeakLeavesOwnUtterance` | services/geminiService.ts:73-91 | `speakText` unlocks if needed, cancels, and leaves exactly its own text pending in es-MX with the cached voice |
| `AudioService.SpeakReloadsMissingVoice` | services/geminiService.ts:82-83 | with no cached voice, `speakText` re-resolves it and the utterance carries the priority choice, or the default voice when there is none |
| `AudioService.SpeakLastWins` | services/geminiService.ts:71-92 | after two `speakText` calls only the second text is pending |
| `AudioService.PlaySoundGuards` | services/geminiService.ts:98-101 | a tone is scheduled iff, after the attempted unlock, a context exists and is not closed; a suspended one is resumed first |
| `AudioService.PlaySoundUnavailable` | services/geminiService.ts:98-99 | with a closed context, or none after an earlier unlock, a sound effect changes nothing and plays nothing |
| `AudioService.Service.constructor` | services/geminiService.ts:2-24 | the service starts with no context, no voice, locked and silent, then runs `loadVoice` once |
| `AudioService.Service.LoadVoice` | services/geminiService.ts:9-19 | the new state is `LoadVoiceSpec` of the old one |
| `AudioService.Service.InitAudio` | services/geminiService.ts:30-69 | the new state is `InitAudioSpec` of the old one |
| `AudioService.Service.SpeakText` | services/geminiService.ts:71-92 | the new state is `SpeakSpec` of the old one; with speech, the pending utterance is this text |
| `AudioService.Service.PlaySoundEffect` | services/geminiService.ts:96-101 | the new state and the scheduled effect are those of `PlaySoundSpec` |
| `Phrases.PickIndex` | services/geminiService.ts:175 | `Math.floor(Math.random() * n)` is always an index below `n` |
| `Phrases.Article` | services/geminiService.ts:161-163 | m gives el, f la, mp los, fp las; a missing or unknown gender gives el |
| `Phrases.SizesArticle` | services/geminiService.ts:169 | the "sizes" phrase uses `el` exactly for `el`/`los`, otherwise `la` |
| `Phrases.Instructions` | services/geminiService.ts:165-172 | the table has exactly the six game types, each with a non-empty phrase list |
| `Phrases.InstructionPool` | services/geminiService.ts:165-174 | every pool is non-empty; an unknown game type gets the single phrase "Busca <target>" |
| `Phrases.DynamicInstruction` | services/geminiService.ts:161-176 | the instruction is always a member of the selected pool |
| `Phrases.InstructionReachable` | services/geminiService.ts:175 | every phrase of the pool comes out for some random draw |
| `Phrases.SizesInstruction` | services/geminiService.ts:169 | the "sizes" instruction is "Toca la más …" for f/fp and "Toca el más …" otherwise |
| `Phrases.Encouragement` | services/geminiService.ts:178-181 | the encouragement is always one of the five fixed messages |
| `Phrases.EveryEncouragementReachable` | services/geminiService.ts:179-180 | each of the five messages comes out for some random draw |
| `LucasApp.InitialScreen` | App.tsx:54-60 | the first state is the welcome view, no buddy, overlay hidden, 0 stickers, every buddy at level 1 |
| `LucasApp.InitialLevelsCoverCatalogue` | App.tsx:58-60 | the initial level map has an entry 1 for each of the seven buddies |
| `LucasApp.LevelOrOne` | App.tsx:81 | `prev[b] \|\| 1` is 1 for a missing or 0 entry and the stored level otherwise |
| `LucasApp.Step` | App.tsx:62-157 | one handler run: stickers grow by the rounds it credits, no step returns to the welcome view, only a level-up enters the rewards view, and only a credited buddy can gain a level entry |
| `LucasApp.EffectsOf` | App.tsx:63-107 | every handler reached by a tap calls `initAudio` first and only once; level-up and closing the overlay make no audio calls; only the start tap speaks the greeting |
| `LucasApp.StepKeepsConsistent` | App.tsx:62-88 | every handler keeps stickers equal to the credited rounds and each level at 1 plus that buddy's credited rounds |
| `LucasApp.RunKeepsConsistent` | App.tsx:62-88 | the same holds along any sequence of handler runs |
| `LucasApp.ReachableInvariants` | App.tsx:54-88 | from the first render, every level is at least 1 and stickers equal the level-ups taken with an active buddy |
| `LucasApp.ParentalIsolated` | App.tsx:107 | only the settings and close actions move the parental flag, and they move nothing else |
| `LucasApp.RoundsFromLevel` | App.tsx:77-88 | n rounds from level l raise the level and stickers by n, leave other buddies alone, and show the rewards iff n > 0 and l + n - 1 >= 10 |
| `LucasApp.FreshBuddyRewards` | App.tsx:84-86 | from level 1 the 9th round keeps the game (level 10) and the 10th shows the rewards (level 11) |
| `LucasApp.TobyScenario` | App.tsx:62-88 | start, pick toby, win rounds: level 2 and 1 sticker after one round, rewards first after the 10th |
| `LucasApp.App.constructor` | App.tsx:54-60 | the component starts in the initial state with no credited rounds |
| `LucasApp.App.HandleStart` | App.tsx:62-67 | unlock, pop, greet; view becomes selection and nothing else changes |
| `LucasApp.App.StartBuddyAdventure` | App.tsx:69-75 | unlock, confirm sound, intro; the buddy becomes active and the view game; levels, stickers and overlay unchanged |
| `LucasApp.App.HandleLevelUp` | App.tsx:77-88 | without an active buddy nothing changes; otherwise that buddy's level and the stickers rise by one, other levels stay, and the view becomes rewards iff the level before the rise was 10 or more |
| `LucasApp.App.PressHome` | App.tsx:99 | unlock, pop; view becomes selection from any view; buddy, levels, stickers and overlay unchanged |
| `LucasApp.App.PressSettings` | App.tsx:107 | unlock; the overlay opens and nothing else changes |
| `LucasApp.App.CloseParental` | App.tsx:157 | the overlay closes and nothing else changes |

## Left out

- Rendering: the JSX, CSS, the monkey SVG and the buddy grid (App.tsx:16-51, 90-158) are presentation only.
- The mini-games, the parental overlay's content, `constants.tsx` and `types.ts` are not part of this model. A mini-game is an outside actor that may trigger a level-up at any step; the buddy's display name in the introduction phrase comes from the catalogue, so that phrase is the effect `SpeakBuddyIntro(b)`.
- Which handler a screen offers: the start tap exists only on the welcome view (App.tsx:114-115), the buddy buttons only on the selection view (App.tsx:129-132), and a mini-game's level-up only on the game view with an active buddy (App.tsx:142-151). The model does not restrict Start, SelectBuddy and LevelUp to those views; its invariants hold for every order of actions, so they hold for the orders the screens allow.
- React's batching and the stale closure in `handleLevelUp`: each handler is one atomic step, and the threshold test reads the level stored before that step.
- Oscillator and gain scheduling in `playSoundEffect` (frequencies, ramps, timings, the four-tone "complete" sequence), the silent unlock tone, and the pitch and rate of utterances: floating-point platform timing. `PlaySoundEffect` reports which effect it would schedule; exceptions thrown while building the tone are not modelled.
- `AudioService.Service.InitAudio`: `resume()` is asynchronous and may be refused by the browser; the model treats it as making the context running at once, and a newly created context as running after its resume.
- The browser APIs themselves (`speechSynthesis`, `AudioContext`), the `onvoiceschanged` registration and console logging: replaced by the `Platform` parameter and the abstract state; the platform may call `LoadVoice` at any time. A voice is only its language tag. The end of an utterance, which empties the speech engine, is not modelled.
- Keys inherited from `Object.prototype` (a game type or gender such as "toString") are treated as unknown keys.
- `Math.random()` is the parameter `u` in [0, 1); floating-point rounding of `u * n` is not modelled.
- The text builders are `async` but never await; they are plain functions here.
- `AudioService.Service.SpeakText`: `speakText` has no try/catch, so a throwing speech call would escape into the calling handler and cut it short (App.tsx:66 and 74 would not run); the model lets `speakText` always complete, and the platform's fault only governs the body of `initAudio`. Exceptions from speech calls and their propagation into the handlers are not modelled.
- `AudioService.Service`: the browser's own changes of the context state (suspending or closing it) are not steps of the object, so its methods only ever produce no context or a running one; the resume and closed guards are proved over arbitrary states by `AudioService.InitAudioWhenUnlocked`, `AudioService.PlaySoundGuards` and `AudioService.PlaySoundUnavailable`.
- Levels and stickers are JavaScript numbers, modelled as unbounded integers.
