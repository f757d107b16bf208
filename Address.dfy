/**
 * City and state extraction from the geocoder's free-text address: the
 * address is split on commas and the fields are picked by fixed offsets
 * from the end, each behind a guard on the number of pieces.
 */
module Address {
  import opened Text

  /** The sentinel shown when a field cannot be determined. */
  const Unknown := "Unknown"

  /** The piece fifth from the end, stripped, when there are more than four pieces. */
  function City(address: string): string
  {
    var parts := Split(address, ',');
    if |parts| > 4 then Strip(parts[|parts| - 5]) else Unknown
  }

  /** The piece third from the end, stripped, when there are more than two pieces. */
  function State(address: string): string
  {
    var parts := Split(address, ',');
    if |parts| > 2 then Strip(parts[|parts| - 3]) else Unknown
  }

  /**
   * The guards: too few commas give "Unknown"; otherwise the extracted field
   * has no whitespace at either end and never contains a comma.
   */
  lemma ExtractedFields(address: string)
    ensures CountChar(address, ',') < 4 ==> City(address) == Unknown
    ensures CountChar(address, ',') >= 4 ==> IsTrimmed(City(address)) && ',' !in City(address)
    ensures CountChar(address, ',') < 2 ==> State(address) == Unknown
    ensures CountChar(address, ',') >= 2 ==> IsTrimmed(State(address)) && ',' !in State(address)
  {
    var parts := Split(address, ',');
    if |parts| > 4 {
      StripAbsent(parts[|parts| - 5], ',');
    }
    if |parts| > 2 {
      StripAbsent(parts[|parts| - 3], ',');
    }
  }

  predicate CommaFree(fields: seq<string>) {
    forall k :: 0 <= k < |fields| ==> ',' !in fields[k]
  }

  /**
   * City read off an address whose pieces are already known. This only
   * unfolds `City`; stating it over an abstract address keeps the solver from
   * unfolding `Split` over `Join` in the lemmas below.
   */
  lemma CityFromPieces(address: string, pieces: seq<string>)
    requires |pieces| >= 1 && Split(address, ',') == pieces
    ensures City(address) == if |pieces| >= 5 then Strip(pieces[|pieces| - 5]) else Unknown
  {
  }

  /** State read off an address whose pieces are already known; like `CityFromPieces`, only an unfolding. */
  lemma StateFromPieces(address: string, pieces: seq<string>)
    requires |pieces| >= 1 && Split(address, ',') == pieces
    ensures State(address) == if |pieces| >= 3 then Strip(pieces[|pieces| - 3]) else Unknown
  {
  }

  /**
   * For an address made of comma-free fields, the city is the fifth field
   * from the end (stripped) when there are at least five fields, and
   * "Unknown" otherwise.
   */
  lemma CityOfFields(fields: seq<string>)
    requires |fields| >= 1 && CommaFree(fields)
    ensures City(Join(fields, [','])) == if |fields| >= 5 then Strip(fields[|fields| - 5]) else Unknown
  {
    SplitJoin(fields, ',');
    CityFromPieces(Join(fields, [',']), fields);
  }

  /**
   * For an address made of comma-free fields, the state is the third field
   * from the end (stripped) when there are at least three fields, and
   * "Unknown" otherwise.
   */
  lemma StateOfFields(fields: seq<string>)
    requires |fields| >= 1 && CommaFree(fields)
    ensures State(Join(fields, [','])) == if |fields| >= 3 then Strip(fields[|fields| - 3]) else Unknown
  {
    SplitJoin(fields, ',');
    StateFromPieces(Join(fields, [',']), fields);
  }

  /** Three or four fields give a real state but an unknown city. */
  lemma StateWithoutCity(fields: seq<string>)
    requires 3 <= |fields| <= 4 && CommaFree(fields)
    ensures City(Join(fields, [','])) == Unknown
    ensures State(Join(fields, [','])) == Strip(fields[|fields| - 3])
  {
    CityOfFields(fields);
    StateOfFields(fields);
  }

  /**
   * A five-piece address such as "123 Main St, Springfield, Sangamon County,
   * Illinois, USA": the city is the first piece and the state the third,
   * each stripped.
   */
  lemma FivePieceAddress(a: string, b: string, c: string, d: string, e: string)
    requires ',' !in a && ',' !in b && ',' !in c && ',' !in d && ',' !in e
    ensures City(a + "," + b + "," + c + "," + d + "," + e) == Strip(a)
    ensures State(a + "," + b + "," + c + "," + d + "," + e) == Strip(c)
  {
    var fields := [a, b, c, d, e];
    assert Join(fields[4..], [',']) == e;
    assert Join(fields[3..], [',']) == d + "," + e;
    assert Join(fields[2..], [',']) == c + "," + d + "," + e;
    assert Join(fields[1..], [',']) == b + "," + c + "," + d + "," + e;
    assert Join(fields, [',']) == a + "," + b + "," + c + "," + d + "," + e;
    CityOfFields(fields);
    StateOfFields(fields);
  }
}
