/**
 * Choice of the speech voice (services/geminiService.ts, `loadVoice`).
 * A voice is known by its language tag, so a voice list is a list of tags.
 */
module Voices {
  import opened Wrappers

  type Voice = string

  /** JavaScript's `s.includes(p)`: `p` occurs somewhere in `s`. */
  function Includes(s: string, p: string): bool
    decreases |s|
  {
    p <= s || (|s| > 0 && Includes(s[1..], p))
  }

  /** `p` occurs in `s` starting at position `i`. */
  ghost predicate OccursAt(s: string, p: string, i: nat)
  {
    i + |p| <= |s| && s[i..i + |p|] == p
  }

  /** An occurrence in the tail of `s` is an occurrence in `s`, one position later. */
  lemma OccursInTail(s: string, p: string, i: nat)
    requires |s| > 0
    ensures OccursAt(s[1..], p, i) <==> OccursAt(s, p, i + 1)
  {
  }

  /** When `Includes` says yes, it says so because of an occurrence, here returned. */
  lemma {:induction false} IncludesWitness(s: string, p: string) returns (i: nat)
    requires Includes(s, p)
    ensures OccursAt(s, p, i)
    decreases |s|
  {
    if p <= s {
      assert s[0..|p|] == p;
      i := 0;
    } else {
      var j := IncludesWitness(s[1..], p);
      OccursInTail(s, p, j);
      i := j + 1;
    }
  }

  /** Every occurrence is found by `Includes`. */
  lemma {:induction false} OccurrenceIncluded(s: string, p: string, i: nat)
    requires OccursAt(s, p, i)
    ensures Includes(s, p)
    decreases i
  {
    if i == 0 {
      assert p <= s;
    } else {
      OccursInTail(s, p, i - 1);
      OccurrenceIncluded(s[1..], p, i - 1);
    }
  }

  /** `Includes` holds exactly when the tag occurs somewhere. */
  lemma IncludesIffOccurs(s: string, p: string)
    ensures Includes(s, p) <==> exists i: nat :: OccursAt(s, p, i)
  {
    if Includes(s, p) {
      var i := IncludesWitness(s, p);
    }
    if i: nat :| OccursAt(s, p, i) {
      OccurrenceIncluded(s, p, i);
    }
  }

  /** One test of the priority list: `lang.includes(tag)` or `lang.startsWith(tag)`. */
  datatype LangRule = Contains(tag: string) | Prefix(tag: string)

  predicate Matches(v: Voice, rule: LangRule)
  {
    match rule
    case Contains(t) => Includes(v, t)
    case Prefix(t) => t <= v
  }

  /** The tests `loadVoice` tries, in order (geminiService.ts:13-16). */
  const VoicePriority: seq<LangRule> :=
    [Contains("es-MX"), Contains("es-US"), Contains("es-ES"), Prefix("es")]

  /** `Array.prototype.find` from position `from`: the first index whose voice passes the rule. */
  function FindFrom(voices: seq<Voice>, rule: LangRule, from: nat): (r: Option<nat>)
    requires from <= |voices|
    ensures r.Some? ==> from <= r.value < |voices| && Matches(voices[r.value], rule)
    ensures r.Some? ==> forall j :: from <= j < r.value ==> !Matches(voices[j], rule)
    ensures r.None? ==> forall j :: from <= j < |voices| ==> !Matches(voices[j], rule)
    decreases |voices| - from
  {
    if from == |voices| then None
    else if Matches(voices[from], rule) then Some(from)
    else FindFrom(voices, rule, from + 1)
  }

  /** Rule `k` of the priority list is the first one some voice passes, and `voices[i]` is the first voice passing it. */
  ghost predicate PicksAt(voices: seq<Voice>, k: nat, i: nat)
  {
    && k < |VoicePriority|
    && i < |voices|
    && Matches(voices[i], VoicePriority[k])
    && (forall j :: 0 <= j < i ==> !Matches(voices[j], VoicePriority[k]))
    && (forall k', j :: 0 <= k' < k && 0 <= j < |voices| ==> !Matches(voices[j], VoicePriority[k']))
  }

  /** No voice passes any rule of the priority list. */
  ghost predicate NoneMatches(voices: seq<Voice>)
  {
    forall k, j :: 0 <= k < |VoicePriority| && 0 <= j < |voices| ==> !Matches(voices[j], VoicePriority[k])
  }

  /**
   * The `find(...) || find(...) || ... || null` chain of `loadVoice`: the first voice containing
   * es-MX, else es-US, else es-ES, else the first starting with "es", else nothing.
   */
  function SelectVoice(voices: seq<Voice>): (r: Option<Voice>)
    ensures r.Some? ==> exists k: nat, i: nat :: PicksAt(voices, k, i) && r.value == voices[i]
    ensures r.None? <==> NoneMatches(voices)
  {
    match FindFrom(voices, VoicePriority[0], 0)
    case Some(i0) => assert PicksAt(voices, 0, i0); Some(voices[i0])
    case None =>
      match FindFrom(voices, VoicePriority[1], 0)
      case Some(i1) => assert PicksAt(voices, 1, i1); Some(voices[i1])
      case None =>
        match FindFrom(voices, VoicePriority[2], 0)
        case Some(i2) => assert PicksAt(voices, 2, i2); Some(voices[i2])
        case None =>
          match FindFrom(voices, VoicePriority[3], 0)
          case Some(i3) => assert PicksAt(voices, 3, i3); Some(voices[i3])
          case None => None
  }

  /** The priority choice is unique: whatever voice list, at most one (rule, index) pair is picked. */
  lemma PickIsUnique(voices: seq<Voice>, k1: nat, i1: nat, k2: nat, i2: nat)
    requires PicksAt(voices, k1, i1) && PicksAt(voices, k2, i2)
    ensures k1 == k2 && i1 == i2
  {
  }

  /** A list with a Mexican-Spanish voice always yields the first such voice, whatever else it holds. */
  lemma MexicanVoicePreferred(voices: seq<Voice>, i: nat)
    requires i < |voices| && Includes(voices[i], "es-MX")
    requires forall j :: 0 <= j < i ==> !Includes(voices[j], "es-MX")
    ensures SelectVoice(voices) == Some(voices[i])
  {
  }
}
