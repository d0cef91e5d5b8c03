/** The inter-arrival delay sampler (rdelay.go): which generator a
    distribution name selects, and which integer `Delay` picks. */
module RandomDelay {
  import opened Wrappers

  /** A sample generator. `Poisson` draws come from an external library and
      are supplied to `Delay` by the caller. */
  datatype Generator = Const(value: int) | Poisson

  /** `rgen` is `None` when no generator was set (Go's nil function). */
  datatype RandomDelay = RandomDelay(rgen: Option<Generator>, unit: string)

  /** The default constant of the `const` generator. */
  const DefaultConst: real := 500.0

  /** The value `Delay` uses when no generator is set. */
  const FallbackDelay: int := 100

  /** The unit `Delay` substitutes for an empty one. */
  const DefaultUnit: string := "ms"

  /** ASCII lower-casing of one character. */
  function LowerChar(c: char): char {
    if 'A' <= c <= 'Z' then (c as int + 32) as char else c
  }

  /** `strings.ToLower`, on the ASCII letters. */
  function ToLower(s: string): (r: string)
    ensures |r| == |s|
    ensures forall i :: 0 <= i < |s| ==> r[i] == LowerChar(s[i])
  {
    if s == [] then [] else [LowerChar(s[0])] + ToLower(s[1..])
  }

  /** `t` is written in lower-case ASCII letters (and other non-upper characters). */
  predicate IsLowerWord(t: string) {
    forall i :: 0 <= i < |t| ==> !('A' <= t[i] <= 'Z')
  }

  /** Reference definition of a case-insensitive match against a lower-case
      word: each character is the word's character or its upper-case form. */
  predicate MatchesIgnoringCase(s: string, t: string) {
    && |s| == |t|
    && forall i :: 0 <= i < |s| ==>
         s[i] == t[i] || ('a' <= t[i] <= 'z' && s[i] as int == t[i] as int - 32)
  }

  /** Lower-casing `s` gives the lower-case word `t` exactly when `s` spells
      `t` in any mixture of cases. */
  lemma ToLowerMatches(s: string, t: string)
    requires IsLowerWord(t)
    ensures ToLower(s) == t <==> MatchesIgnoringCase(s, t)
  {
    if ToLower(s) == t {
      forall i | 0 <= i < |s|
        ensures s[i] == t[i] || ('a' <= t[i] <= 'z' && s[i] as int == t[i] as int - 32)
      {
        assert t[i] == LowerChar(s[i]);
      }
    }
    if MatchesIgnoringCase(s, t) {
      forall i | 0 <= i < |s|
        ensures ToLower(s)[i] == t[i]
      {
        assert LowerChar(s[i]) == t[i];
      }
    }
  }

  /** Go's conversion of a float to an integer, which rounds toward zero. */
  function Truncate(x: real): (r: int)
    ensures x >= 0.0 ==> r as real <= x < r as real + 1.0
    ensures x < 0.0 ==> r as real - 1.0 < x <= r as real
  {
    if x >= 0.0 then x.Floor else -((-x).Floor)
  }

  /** The constructor: the unit is stored as given; the name, lower-cased,
      selects the generator; an unknown name leaves it unset. */
  function NewRandomDelay(unit: string, dist: string, params: seq<real>): (rd: RandomDelay)
    ensures rd.unit == unit
    ensures rd.rgen.None? <==> ToLower(dist) != "poisson" && ToLower(dist) != "const"
    ensures ToLower(dist) == "poisson" ==> rd.rgen == Some(Poisson)
  {
    var gen :=
      match ToLower(dist)
      case "poisson" => Some(Poisson)
      case "const" => Some(Const(Truncate(if |params| > 0 then params[0] else DefaultConst)))
      case _ => None;
    RandomDelay(gen, unit)
  }

  /** One call of `Delay`: the integer it picks and the delay after the call,
      whose unit may have been defaulted. */
  datatype Sample = Sample(t: int, after: RandomDelay)

  /** `Delay` up to the choice of the integer. `draw` is the Poisson
      library's next sample, consulted only by a Poisson generator. */
  function Delay(rd: RandomDelay, draw: int): (s: Sample)
    ensures rd.rgen.None? ==> s.t == FallbackDelay
    ensures rd.rgen == Some(Poisson) ==> s.t == draw
    ensures rd.rgen.Some? && rd.rgen.value.Const? ==> s.t == rd.rgen.value.value
    ensures s.after.rgen == rd.rgen
    ensures |s.after.unit| > 0
    ensures |rd.unit| == 0 ==> s.after.unit == DefaultUnit
    ensures |rd.unit| > 0 ==> s.after.unit == rd.unit
  {
    var t :=
      match rd.rgen
      case None => FallbackDelay
      case Some(Const(v)) => v
      case Some(Poisson) => draw;
    var unit := if |rd.unit| == 0 then DefaultUnit else rd.unit;
    Sample(t, RandomDelay(rd.rgen, unit))
  }

  /** `const` with a parameter: every sample is the first parameter truncated
      toward zero, whatever the draw and whatever parameters follow. */
  lemma ConstSamplesFirstParameter(unit: string, dist: string, params: seq<real>, draw: int)
    requires ToLower(dist) == "const" && |params| > 0
    ensures Delay(NewRandomDelay(unit, dist, params), draw).t == Truncate(params[0])
    ensures NewRandomDelay(unit, dist, params) == NewRandomDelay(unit, dist, params[..1])
  {
  }

  /** `const` without parameters: every sample is 500. */
  lemma ConstDefaultSample(unit: string, dist: string, draw: int)
    requires ToLower(dist) == "const"
    ensures Delay(NewRandomDelay(unit, dist, []), draw).t == 500
  {
  }

  /** Any spelling of `const` in any mixture of cases builds the same delay
      as `const` itself. */
  lemma ConstIgnoresCase(unit: string, dist: string, params: seq<real>)
    requires MatchesIgnoringCase(dist, "const")
    ensures NewRandomDelay(unit, dist, params) == NewRandomDelay(unit, "const", params)
  {
    ToLowerMatches(dist, "const");
    ToLowerMatches("const", "const");
  }

  /** An unknown name leaves the generator unset, so every sample is 100. */
  lemma UnknownNameFallsBack(unit: string, dist: string, params: seq<real>, draw: int)
    requires !MatchesIgnoringCase(dist, "const") && !MatchesIgnoringCase(dist, "poisson")
    ensures NewRandomDelay(unit, dist, params).rgen.None?
    ensures Delay(NewRandomDelay(unit, dist, params), draw).t == FallbackDelay
  {
    ToLowerMatches(dist, "const");
    ToLowerMatches(dist, "poisson");
  }

  /** Unit defaulting: an empty unit becomes "ms" on the first call and stays
      so; later calls change nothing. */
  lemma UnitDefaultIdempotent(rd: RandomDelay, d1: int, d2: int)
    ensures Delay(rd, d1).after.unit == (if rd.unit == [] then DefaultUnit else rd.unit)
    ensures Delay(Delay(rd, d1).after, d2).after == Delay(rd, d1).after
  {
  }
}
