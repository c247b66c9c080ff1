/** The page size of the musician portal's list views
    (orchestra/contrib/musician/mixins.py, `ExtendedPaginationMixin`). */
module MusicianMixins {
  import opened Wrappers
  import Numerals

  const PaginateBy := 20
  const PaginateByKwarg := "per_page"

  /** `get_paginate_by`: the `per_page` query parameter read as an integer
      (Python's `int`), falling back to 20 when it is missing, empty or not
      an integer. */
  function GetPaginateBy(query: map<string, string>): (r: int)
    ensures PaginateByKwarg !in query || query[PaginateByKwarg] == "" ==> r == PaginateBy
    ensures PaginateByKwarg in query && Numerals.ParseInt(query[PaginateByKwarg]).Some? ==>
      r == Numerals.ParseInt(query[PaginateByKwarg]).value
    ensures PaginateByKwarg in query && Numerals.ParseInt(query[PaginateByKwarg]).None? ==> r == PaginateBy
  {
    if PaginateByKwarg !in query || query[PaginateByKwarg] == "" then PaginateBy
    else match Numerals.ParseInt(query[PaginateByKwarg])
      case Some(n) => n
      case None => PaginateBy
  }

  /** Any integer written in the query is the page size, 0 and negative
      numbers included. */
  lemma PageSizeRoundTrip(n: int)
    ensures GetPaginateBy(map[PaginateByKwarg := Numerals.IntToString(n)]) == n
  {
    Numerals.IntRoundTrip(n);
  }

  /** `per_page=0` is returned as 0, not replaced by the default. */
  lemma ZeroKept()
    ensures GetPaginateBy(map[PaginateByKwarg := "0"]) == 0
  {
    PageSizeRoundTrip(0);
    assert Numerals.IntToString(0) == "0";
  }

  /** A value that is not an integer falls back to the default. */
  lemma NotANumber()
    ensures GetPaginateBy(map[PaginateByKwarg := "all"]) == PaginateBy
  {
    var t := "all";
    assert !Numerals.IsSpace(t[0]) && !Numerals.IsSpace(t[|t| - 1]);
    Numerals.StripUnchanged(t);
    assert !Numerals.IsDigit(t[0]);
  }
}
