/**
 * The audio and speech service (services/geminiService.ts): the module-level
 * `audioContext`, `selectedVoice` and `isAudioUnlocked`, plus the speech engine's
 * current utterance. The browser is abstract: what it offers on a given call is a
 * `Platform` value passed in.
 */
module AudioService {
  import opened Wrappers
  import opened Voices

  /** The audio context as far as the service can observe it; `NoContext` is the source's `null`. */
  datatype AudioCtx = NoContext | Suspended | Running | Closed

  /** The sound effects `playSoundEffect` knows (geminiService.ts:94). */
  datatype SoundEffect = Correct | Incorrect | Complete | Pop | Drag | Drop

  /** Where, if anywhere, the try-block of `initAudio` throws. */
  datatype UnlockFault =
    | NoFault
    | ContextFault  // constructing the AudioContext throws
    | ToneFault     // the context exists, building the silent tone throws
    | SpeechFault   // audio is done and speech cancelled, then the silent unlock utterance throws

  /** What the browser offers. */
  datatype Platform = Platform(
    hasSpeech: bool,         // 'speechSynthesis' in window
    hasAudioContext: bool,   // window.AudioContext || webkitAudioContext
    voices: seq<Voice>,      // speechSynthesis.getVoices()
    fault: UnlockFault)

  /** An utterance handed to the speech engine; pitch and rate are not modelled. */
  datatype Utterance = Utterance(text: string, lang: string, voice: Option<Voice>, muted: bool)

  /** The volume-0, rate-10 utterance " " that unlocks speech (geminiService.ts:57-60). */
  const UnlockUtterance := Utterance(" ", "", None, true)

  /** The language tag every spoken text carries (geminiService.ts:78). */
  const SpeechLang := "es-MX"

  /** The service's whole state; `pending` is the utterance the engine is speaking, if any. */
  datatype ServiceState = ServiceState(
    context: AudioCtx,
    selectedVoice: Option<Voice>,
    unlocked: bool,
    pending: Option<Utterance>)

  const InitialState := ServiceState(NoContext, None, false, None)

  /** `resume()` on a suspended context; other states are left alone. */
  function Resumed(c: AudioCtx): AudioCtx
  {
    if c == Suspended then Running else c
  }

  /** The unlock body throws on this platform. */
  predicate UnlockThrows(env: Platform)
  {
    || (env.hasAudioContext && (env.fault == ContextFault || env.fault == ToneFault))
    || (env.hasSpeech && env.fault == SpeechFault)
  }

  /** `loadVoice` (geminiService.ts:9-19). */
  function LoadVoiceSpec(s: ServiceState, env: Platform): ServiceState
  {
    if !env.hasSpeech || |env.voices| == 0 then s
    else s.(selectedVoice := SelectVoice(env.voices))
  }

  /** `initAudio` (geminiService.ts:30-69); a freshly built context is resumed at once, so it ends `Running`. */
  function InitAudioSpec(s: ServiceState, env: Platform): ServiceState
  {
    if s.unlocked then s.(context := Resumed(s.context))
    else if env.hasAudioContext && env.fault == ContextFault then s
    else
      var withContext := if env.hasAudioContext then s.(context := Running) else s;
      if env.hasAudioContext && env.fault == ToneFault then withContext
      else if env.hasSpeech && env.fault == SpeechFault then withContext.(pending := None)
      else
        var withSpeech :=
          if env.hasSpeech then LoadVoiceSpec(withContext.(pending := Some(UnlockUtterance)), env)
          else withContext;
        withSpeech.(unlocked := true)
  }

  /** `speakText` (geminiService.ts:71-92): unlock if needed, cancel, pick a voice, speak. */
  function SpeakSpec(s: ServiceState, text: string, env: Platform): ServiceState
  {
    if !env.hasSpeech then s
    else
      var ready := if !s.unlocked then InitAudioSpec(s, env) else s;
      var cancelled := ready.(pending := None);
      var voiced := if cancelled.selectedVoice.None? then LoadVoiceSpec(cancelled, env) else cancelled;
      voiced.(pending := Some(Utterance(text, SpeechLang, voiced.selectedVoice, false)))
  }

  /** The context `playSoundEffect` sees after its attempted `initAudio` (geminiService.ts:98). */
  function SoundReady(s: ServiceState, env: Platform): ServiceState
  {
    if s.context == NoContext then InitAudioSpec(s, env) else s
  }

  /** `playSoundEffect` (geminiService.ts:96-101): the new state and the effect scheduled, if any. */
  function PlaySoundSpec(s: ServiceState, kind: SoundEffect, env: Platform): (ServiceState, Option<SoundEffect>)
  {
    var ready := SoundReady(s, env);
    if ready.context == NoContext || ready.context == Closed then (ready, None)
    else (ready.(context := Running), Some(kind))
  }

  /** The speech `onerror` handler warns unless the error is one of the two expected ones (geminiService.ts:85-89). */
  function WarnsOnSpeechError(error: string): (warns: bool)
    ensures !warns <==> error in {"interrupted", "not-allowed"}
  {
    error != "interrupted" && error != "not-allowed"
  }

  // ---------------------------------------------------------------------------
  // Properties of the service

  /** `loadVoice` never forgets a cached voice because the list is empty or speech is missing. */
  lemma LoadVoiceKeepsCacheOnEmptyList(s: ServiceState, env: Platform)
    requires !env.hasSpeech || env.voices == []
    ensures LoadVoiceSpec(s, env) == s
  {
  }

  /** `loadVoice` only ever changes the cached voice, and then to the priority choice. */
  lemma LoadVoiceChangesOnlyVoice(s: ServiceState, env: Platform)
    ensures var r := LoadVoiceSpec(s, env);
      && r.(selectedVoice := s.selectedVoice) == s
      && (r.selectedVoice != s.selectedVoice ==> r.selectedVoice == SelectVoice(env.voices))
      && (env.hasSpeech && |env.voices| > 0 ==> r.selectedVoice == SelectVoice(env.voices))
  {
  }

  /** Once unlocked, `initAudio` creates nothing, speaks nothing and only resumes a suspended context. */
  lemma InitAudioWhenUnlocked(s: ServiceState, env: Platform)
    requires s.unlocked
    ensures var r := InitAudioSpec(s, env);
      && r.unlocked
      && r.selectedVoice == s.selectedVoice
      && r.pending == s.pending
      && (r.context != s.context ==> s.context == Suspended && r.context == Running)
      && (s.context == Suspended ==> r.context == Running)
  {
  }

  /** The latch: `isAudioUnlocked` is set exactly when the unlock body runs to its end. */
  lemma UnlockLatch(s: ServiceState, env: Platform)
    ensures InitAudioSpec(s, env).unlocked <==> s.unlocked || !UnlockThrows(env)
  {
  }

  /**
   * A failed unlock leaves the latch and the voice alone; it may have created the
   * context, and it may have cancelled the pending utterance, nothing else.
   */
  lemma FailedUnlockFrame(s: ServiceState, env: Platform)
    requires !s.unlocked && UnlockThrows(env)
    ensures var r := InitAudioSpec(s, env);
      && r.(context := s.context, pending := s.pending) == s
      && (r.context != s.context ==> r.context == Running)
      && (r.pending != s.pending ==> r.pending == None)
      && (env.hasSpeech && env.fault == SpeechFault ==> r.pending == None)
  {
  }

  /** Calling `initAudio` twice is calling it once, followed at most by a resume. */
  lemma InitAudioIdempotent(s: ServiceState, env: Platform)
    ensures var once := InitAudioSpec(s, env);
      InitAudioSpec(once, env) == if once.unlocked then once.(context := Resumed(once.context)) else once
  {
  }

  /** A successful unlock leaves the silent utterance pending and a running context when the platform has one. */
  lemma UnlockOutcome(s: ServiceState, env: Platform)
    requires !s.unlocked && !UnlockThrows(env)
    ensures var r := InitAudioSpec(s, env);
      && r.unlocked
      && (env.hasAudioContext ==> r.context == Running)
      && (!env.hasAudioContext ==> r.context == s.context)
      && r.pending == (if env.hasSpeech then Some(UnlockUtterance) else s.pending)
      && r.selectedVoice == (if env.hasSpeech && |env.voices| > 0 then SelectVoice(env.voices) else s.selectedVoice)
  {
  }

  /** Without speech synthesis, `speakText` does nothing at all. */
  lemma SpeakWithoutSpeech(s: ServiceState, text: string, env: Platform)
    requires !env.hasSpeech
    ensures SpeakSpec(s, text, env) == s
  {
  }

  /** With speech synthesis, `speakText` leaves exactly its own text pending, in es-MX, with the cached voice. */
  lemma SpeakLeavesOwnUtterance(s: ServiceState, text: string, env: Platform)
    requires env.hasSpeech
    ensures var r := SpeakSpec(s, text, env);
      && r.pending == Some(Utterance(text, SpeechLang, r.selectedVoice, false))
      && r.unlocked == (s.unlocked || !UnlockThrows(env))
      && (s.unlocked && s.selectedVoice.Some? ==> r.selectedVoice == s.selectedVoice)
  {
  }

  /** A missing voice is re-resolved before speaking: the utterance gets the priority choice, if any. */
  lemma SpeakReloadsMissingVoice(s: ServiceState, text: string, env: Platform)
    requires env.hasSpeech && s.selectedVoice.None?
    ensures var r := SpeakSpec(s, text, env);
      && r.selectedVoice == (if |env.voices| > 0 then SelectVoice(env.voices) else None)
      && r.pending == Some(Utterance(text, SpeechLang, r.selectedVoice, false))
  {
  }

  /** Last call wins: after two `speakText` calls only the second text is pending. */
  lemma SpeakLastWins(s: ServiceState, first: string, second: string, env: Platform)
    requires env.hasSpeech
    ensures var r := SpeakSpec(SpeakSpec(s, first, env), second, env);
      r.pending.Some? && r.pending.value.text == second
  {
  }

  /** `playSoundEffect` schedules a tone iff, after the attempted unlock, the context exists and is not closed. */
  lemma PlaySoundGuards(s: ServiceState, kind: SoundEffect, env: Platform)
    ensures var (r, played) := PlaySoundSpec(s, kind, env);
      var ready := SoundReady(s, env);
      && (played.None? <==> ready.context == NoContext || ready.context == Closed)
      && (played.None? ==> r == ready)
      && (played.Some? ==> played == Some(kind) && r == ready.(context := Running))
  {
  }

  /** With a closed context, or no context after an earlier unlock, a sound effect changes nothing. */
  lemma PlaySoundUnavailable(s: ServiceState, kind: SoundEffect, env: Platform)
    requires s.context == Closed || (s.context == NoContext && s.unlocked)
    ensures PlaySoundSpec(s, kind, env) == (s, None)
  {
  }

  // ---------------------------------------------------------------------------
  // The service object

  class Service {
    var audioContext: AudioCtx
    var selectedVoice: Option<Voice>
    var isAudioUnlocked: bool
    var currentUtterance: Option<Utterance>

    function Snapshot(): ServiceState
      reads this
    {
      ServiceState(audioContext, selectedVoice, isAudioUnlocked, currentUtterance)
    }

    /** Module load: the three variables start empty, then `loadVoice` runs once (geminiService.ts:2-4, 21-24). */
    constructor(env: Platform)
      ensures Snapshot() == LoadVoiceSpec(InitialState, env)
    {
      audioContext := NoContext;
      selectedVoice := None;
      isAudioUnlocked := false;
      currentUtterance := None;
      if env.hasSpeech && |env.voices| > 0 {
        selectedVoice := SelectVoice(env.voices);
      }
    }

    /** `loadVoice`; the platform also calls it whenever its voice list changes. */
    method LoadVoice(env: Platform)
      modifies this
      ensures Snapshot() == LoadVoiceSpec(old(Snapshot()), env)
    {
      if !env.hasSpeech {
        return;
      }
      if |env.voices| > 0 {
        selectedVoice := SelectVoice(env.voices);
      }
    }

    /** `initAudio`. */
    method InitAudio(env: Platform)
      modifies this
      ensures Snapshot() == InitAudioSpec(old(Snapshot()), env)
    {
      if isAudioUnlocked {
        if audioContext == Suspended {
          audioContext := Running;
        }
        return;
      }
      // try {
      if env.hasAudioContext {
        if env.fault == ContextFault {
          return;
        }
        audioContext := Running;
        if env.fault == ToneFault {
          return;
        }
      }
      if env.hasSpeech {
        currentUtterance := None;
        if env.fault == SpeechFault {
          return;
        }
        currentUtterance := Some(UnlockUtterance);
        LoadVoice(env);
      }
      isAudioUnlocked := true;
      // } catch: the exits above leave isAudioUnlocked false
    }

    /** `speakText`. */
    method SpeakText(text: string, env: Platform)
      modifies this
      ensures Snapshot() == SpeakSpec(old(Snapshot()), text, env)
      ensures env.hasSpeech ==> currentUtterance == Some(Utterance(text, SpeechLang, selectedVoice, false))
    {
      if !env.hasSpeech {
        return;
      }
      if !isAudioUnlocked {
        InitAudio(env);
      }
      currentUtterance := None;
      if selectedVoice.None? {
        LoadVoice(env);
      }
      currentUtterance := Some(Utterance(text, SpeechLang, selectedVoice, false));
    }

    /** `playSoundEffect`: returns the effect whose tone was scheduled, or `None` when a guard returned early. */
    method PlaySoundEffect(kind: SoundEffect, env: Platform) returns (played: Option<SoundEffect>)
      modifies this
      ensures (Snapshot(), played) == PlaySoundSpec(old(Snapshot()), kind, env)
    {
      if audioContext == NoContext {
        InitAudio(env);
      }
      if audioContext == NoContext || audioContext == Closed {
        return None;
      }
      if audioContext == Suspended {
        audioContext := Running;
      }
      played := Some(kind);
    }
  }
}
