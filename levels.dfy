/**
 * Severity levels of the logging library and their display names.
 *
 * A level is an integer: 0 is `fatal`, the most severe, 100 is `trace`, the
 * least severe. Any other integer is a valid level value too (the source casts
 * arbitrary integers to `level`); it is displayed as "unknown".
 */
module Levels {

  newtype Level = int

  const Fatal: Level := 0
  const Error: Level := 20
  const Warn: Level := 40
  const Info: Level := 60
  const Debug: Level := 80
  const Trace: Level := 100

  /** The six named ranks. */
  predicate IsNamed(l: Level) {
    l == Fatal || l == Error || l == Warn || l == Info || l == Debug || l == Trace
  }

  /** The display name of a level (level_to_str). */
  function LevelName(l: Level): (r: string)
    ensures r == "unknown" <==> !IsNamed(l)
    ensures r in {"fatal", "error", "warning", "info", "debug", "trace", "unknown"}
  {
    if l == Fatal then "fatal"
    else if l == Error then "error"
    else if l == Warn then "warning"
    else if l == Info then "info"
    else if l == Debug then "debug"
    else if l == Trace then "trace"
    else "unknown"
  }

  /** Distinct named levels have distinct names, so the name identifies the rank. */
  lemma LevelNameIdentifiesRank(a: Level, b: Level)
    requires IsNamed(a) && IsNamed(b)
    ensures LevelName(a) == LevelName(b) <==> a == b
  {
  }

  /** The named ranks are strictly ordered from fatal (most severe) to trace. */
  lemma RanksStrictlyOrdered()
    ensures Fatal < Error < Warn < Info < Debug < Trace
    ensures Fatal == 0 && Trace == 100
  {
  }

  /**
   * A level is active against an activation threshold when the threshold is
   * greater than or equal to it.
   */
  predicate Active(l: Level, threshold: Level) {
    threshold >= l
  }

  /**
   * Activation is monotone in both arguments: a more severe level passes
   * whenever a less severe one does, and raising the threshold never
   * deactivates a level.
   */
  lemma ActiveMonotone(l: Level, l': Level, t: Level, t': Level)
    requires Active(l, t) && l' <= l && t <= t'
    ensures Active(l', t')
  {
  }

  /** Against a named threshold, fatal is always active and trace only at trace. */
  lemma ActiveExtremes(t: Level)
    requires IsNamed(t)
    ensures Active(Fatal, t)
    ensures Active(Trace, t) <==> t == Trace
  {
  }
}
