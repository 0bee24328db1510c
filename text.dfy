/** Substring search on strings, as `std::string::find` provides it to the player. */
module Text {

  /** `needle` occurs in `hay` starting at position `i`. */
  predicate OccursAt(hay: string, needle: string, i: nat)
  {
    i + |needle| <= |hay| && hay[i..i + |needle|] == needle
  }

  /** `needle` is a (case-sensitive) substring of `hay`. */
  predicate Contains(hay: string, needle: string)
  {
    exists i: nat :: i <= |hay| && OccursAt(hay, needle, i)
  }

  /** The value `find` returns when there is no occurrence (`std::string::npos`). */
  const Npos: int := -1

  /** The empty string occurs in every string, at position 0. */
  lemma ContainsEmpty(hay: string)
    ensures Contains(hay, "")
  {
    assert OccursAt(hay, "", 0);
  }

  /** `hay.find(needle)`: the first position at which `needle` occurs, or `Npos`. */
  method Find(hay: string, needle: string) returns (pos: int)
    ensures pos == Npos <==> !Contains(hay, needle)
    ensures pos != Npos ==> 0 <= pos && OccursAt(hay, needle, pos)
    ensures pos != Npos ==> forall j: nat :: j < pos ==> !OccursAt(hay, needle, j)
  {
    var i: nat := 0;
    while i + |needle| <= |hay|
      invariant forall j: nat :: j < i ==> !OccursAt(hay, needle, j)
      decreases |hay| - i
    {
      if hay[i..i + |needle|] == needle {
        assert OccursAt(hay, needle, i);
        return i;
      }
      i := i + 1;
    }
    return Npos;
  }
}
