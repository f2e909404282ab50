/**
 * The spoken-text builders of services/geminiService.ts: `getDynamicInstruction`
 * and `getEncouragement`. `Math.random()` is the parameter `u`, a real in [0, 1).
 */
module Phrases {
  import opened Wrappers

  /** `Math.floor(u * n)` for `u = Math.random()`: always a valid index of a list of length `n`. */
  function PickIndex(u: real, n: nat): (i: nat)
    requires 0.0 <= u < 1.0 && n > 0
    ensures i < n
  {
    assert u * n as real < n as real;
    (u * n as real).Floor
  }

  /** The article table of `getDynamicInstruction` (geminiService.ts:162). */
  const Articles: map<string, string> := map["m" := "el", "f" := "la", "mp" := "los", "fp" := "las"]

  /** `articles[gender] || 'el'`, where a missing `gender` argument is 'm'. */
  function Article(gender: Option<string>): (art: string)
    ensures art in {"el", "la", "los", "las"}
    ensures gender.None? ==> art == "el"
    ensures gender.Some? && gender.value !in Articles ==> art == "el"
    ensures gender == Some("m") ==> art == "el"
    ensures gender == Some("f") ==> art == "la"
    ensures gender == Some("mp") ==> art == "los"
    ensures gender == Some("fp") ==> art == "las"
  {
    var g := if gender.Some? then gender.value else "m";
    if g in Articles then Articles[g] else "el"
  }

  /** The article of the "sizes" instruction: masculine for `el` and `los`, feminine otherwise. */
  function SizesArticle(art: string): (a: string)
    ensures a == "el" <==> art in {"el", "los"}
    ensures a != "el" ==> a == "la"
  {
    if art == "el" || art == "los" then "el" else "la"
  }

  /** The instruction table of `getDynamicInstruction` (geminiService.ts:165-172). */
  function Instructions(target: string, art: string): (table: map<string, seq<string>>)
    ensures table.Keys == GameTypes
    ensures forall t :: t in table ==> |table[t]| > 0
  {
    map[
      "contar" := ["¡Vamos a contar " + target + "!", "¿Me ayudas a contar " + target + "?", "¡Contemos juntos!"],
      "reconocer partes del rostro" := ["¿Dónde están " + art + " " + target + "?", "¡Toca " + art + " " + target + "!"],
      "shapes" := ["Busca " + art + " " + target + " de colores", "¿Dónde está " + art + " " + target + "?"],
      "sizes" := ["Toca " + SizesArticle(art) + " más " + target],
      "patterns" := ["¿Qué sigue ahora?", "¡Completa el patrón!"],
      "builder" := ["¡Vamos a construir!", "Pon las piezas donde quieras."]
    ]
  }

  const GameTypes: set<string> :=
    {"contar", "reconocer partes del rostro", "shapes", "sizes", "patterns", "builder"}

  /** `instructions[gameType] || [`Busca ${target}`]`: never empty, and the fallback for unknown game types. */
  function InstructionPool(gameType: string, target: string, art: string): (pool: seq<string>)
    ensures |pool| > 0
    ensures gameType !in GameTypes ==> pool == ["Busca " + target]
    ensures gameType in GameTypes ==> pool == Instructions(target, art)[gameType]
  {
    var table := Instructions(target, art);
    if gameType in table then table[gameType] else ["Busca " + target]
  }

  /** `getDynamicInstruction`: always one of the phrases of the selected pool. */
  function DynamicInstruction(gameType: string, target: string, gender: Option<string>, u: real): (text: string)
    requires 0.0 <= u < 1.0
    ensures text in InstructionPool(gameType, target, Article(gender))
  {
    var pool := InstructionPool(gameType, target, Article(gender));
    pool[PickIndex(u, |pool|)]
  }

  /** Every phrase of the selected pool can come out, for a suitable random draw. */
  lemma InstructionReachable(gameType: string, target: string, gender: Option<string>, k: nat)
    requires k < |InstructionPool(gameType, target, Article(gender))|
    ensures var n := |InstructionPool(gameType, target, Article(gender))|;
      DynamicInstruction(gameType, target, gender, k as real / n as real)
        == InstructionPool(gameType, target, Article(gender))[k]
  {
  }

  /** The "sizes" instruction names the target with `el` for masculine genders and `la` for feminine ones. */
  lemma SizesInstruction(target: string, gender: Option<string>, u: real)
    requires 0.0 <= u < 1.0
    ensures var feminine := gender == Some("f") || gender == Some("fp");
      DynamicInstruction("sizes", target, gender, u) == "Toca " + (if feminine then "la" else "el") + " más " + target
  {
  }

  /** The five messages of `getEncouragement` (geminiService.ts:179). */
  const Encouragements: seq<string> := ["¡Lo hiciste genial!", "¡Eres increíble!", "¡Muy bien!", "¡Excelente!", "¡Bravo!"]

  /** `getEncouragement`: one of its five fixed messages, whatever the buddy and the action. */
  function Encouragement(buddyName: string, action: string, u: real): (text: string)
    requires 0.0 <= u < 1.0
    ensures text in Encouragements
  {
    Encouragements[PickIndex(u, |Encouragements|)]
  }

  /** Every one of the five messages can come out. */
  lemma EveryEncouragementReachable(buddyName: string, action: string, k: nat)
    requires k < |Encouragements|
    ensures Encouragement(buddyName, action, k as real / 5.0) == Encouragements[k]
  {
  }
}
