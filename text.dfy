/** The two JavaScript string searches the model needs: `indexOf` and `includes`. */
module Text {

  /** `needle` occurs in `hay` at offset `i`. */
  predicate OccursAt(hay: string, needle: string, i: int)
  {
    0 <= i && i + |needle| <= |hay| && hay[i..i + |needle|] == needle
  }

  /**
   * The first offset at or after `from` where `needle` occurs, or -1 when there is none.
   * This is `hay.indexOf(needle, from)` for every `from` up to `|hay|`; past the end,
   * JavaScript answers `|hay|` for an empty needle where this answers -1.
   */
  function IndexOfFrom(hay: string, needle: string, from: nat): (r: int)
    ensures r == -1 || (from <= r && OccursAt(hay, needle, r))
    ensures forall j :: from <= j && (r == -1 || j < r) ==> !OccursAt(hay, needle, j)
    decreases |hay| - from
  {
    if from + |needle| > |hay| then -1
    else if hay[from..from + |needle|] == needle then from
    else IndexOfFrom(hay, needle, from + 1)
  }

  /** `hay.indexOf(needle)`: the first occurrence of `needle`, or -1. */
  function IndexOf(hay: string, needle: string): (r: int)
    ensures r == -1 <==> forall j :: !OccursAt(hay, needle, j)
    ensures r != -1 ==> OccursAt(hay, needle, r) && forall j :: j < r ==> !OccursAt(hay, needle, j)
  {
    IndexOfFrom(hay, needle, 0)
  }

  /** `hay.includes(needle)`. */
  predicate Includes(hay: string, needle: string)
  {
    IndexOf(hay, needle) != -1
  }

  /** A string's first occurrence inside itself is at offset 0 (the empty string included). */
  lemma IndexOfSelf(s: string)
    ensures IndexOf(s, s) == 0
  {
  }

  /** `includes` holds exactly when the needle occurs somewhere; the empty needle always does. */
  lemma IncludesIffOccurs(hay: string, needle: string)
    ensures Includes(hay, needle) <==> exists j :: OccursAt(hay, needle, j)
    ensures needle == [] ==> Includes(hay, needle)
  {
  }
}
