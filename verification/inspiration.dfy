/**
 * The daily alignment panel: a mental model, a productivity method and a quote
 * chosen by a 32-bit hash of the date string, and an investor chosen by the
 * week number.
 */
module Inspiration {
  import opened Wrappers
  import opened Types

  const TwoTo31: int := 0x8000_0000
  const TwoTo32: int := 0x1_0000_0000

  /** JavaScript's ToInt32 (applied by `|` and `<<`): the value modulo 2^32, read as signed. */
  function ToInt32(x: int): (r: int)
    ensures -TwoTo31 <= r < TwoTo31
    ensures (x - r) % TwoTo32 == 0
  {
    var m := x % TwoTo32;
    if m >= TwoTo31 then m - TwoTo32 else m
  }

  /** Two numbers that differ by a multiple of 2^32 convert to the same 32-bit integer. */
  lemma ToInt32Congruent(x: int, y: int)
    requires (x - y) % TwoTo32 == 0
    ensures ToInt32(x) == ToInt32(y)
  {
    var k := (x - y) / TwoTo32;
    assert x == y + TwoTo32 * k;
    assert x % TwoTo32 == y % TwoTo32;
  }

  /**
   * One step of `seededRandom` as written, `((h << 5) - h) + code` and then `|0`,
   * is the Java `String.hashCode` step `ToInt32(31 * h + code)`.
   */
  lemma ShiftStep(h: int, code: int)
    ensures ToInt32(ToInt32(h * 32) - h + code) == ToInt32(31 * h + code)
  {
    var a := ToInt32(h * 32);
    var k := (h * 32 - a) / TwoTo32;
    assert h * 32 - a == TwoTo32 * k;
    assert (a - h + code) - (31 * h + code) == -(TwoTo32 * k);
    ToInt32Congruent(a - h + code, 31 * h + code);
  }

  /** The hash of `s`: the recurrence `h := ToInt32(31 * h + code)` over its characters, from 0. */
  function Hash(s: string): (h: int)
    ensures -TwoTo31 <= h < TwoTo31
  {
    if s == [] then 0 else ToInt32(31 * Hash(s[..|s| - 1]) + s[|s| - 1] as int)
  }

  function Abs(x: int): (r: nat)
    ensures r == x || r == -x
  {
    if x < 0 then -x else x
  }

  /** The seed `seededRandom` returns for `s`: 0 for the empty string, never above 2^31. */
  function Seed(s: string): (r: nat)
    ensures r <= TwoTo31
    ensures s == [] ==> r == 0
  {
    Abs(Hash(s))
  }

  /** `seededRandom(seed)`: the loop over the characters with the shift-and-subtract step. */
  method SeededRandom(seed: string) returns (r: nat)
    ensures r == Seed(seed)
  {
    var hash := 0;
    for i := 0 to |seed|
      invariant hash == Hash(seed[..i])
    {
      assert seed[..i + 1][..i] == seed[..i];
      ShiftStep(hash, seed[i] as int);
      hash := ToInt32(ToInt32(hash * 32) - hash + seed[i] as int);
    }
    assert seed[..|seed|] == seed;
    r := if hash < 0 then -hash else hash;
  }

  /** `list[idx % list.length]`: undefined (`None`) for an empty list, where the modulo is NaN. */
  function PickAt<T>(xs: seq<T>, idx: nat): (r: Option<T>)
    ensures r.None? <==> xs == []
    ensures xs != [] ==> r == Some(xs[idx % |xs|])
    ensures r.Some? ==> r.value in xs
  {
    if xs == [] then None else Some(xs[idx % |xs|])
  }

  /** The four cards of the panel. */
  datatype DailyContent = DailyContent(
    model: Option<LibraryItem>,
    prod: Option<LibraryItem>,
    quote: Option<string>,
    investor: Option<LibraryItem>)

  /**
   * `dailyContent` for the date string `dateSeed` in week `weekNum` of its year:
   * indices `seed`, `2 * seed` and `3 * seed` and `weekNum`, each modulo the
   * length of its list.
   */
  function Daily(lib: Library, dateSeed: string, weekNum: nat): (r: DailyContent)
    ensures r.model.Some? <==> lib.mentalModels != []
    ensures r.prod.Some? <==> lib.productivity != []
    ensures r.quote.Some? <==> lib.quotes != []
    ensures r.investor.Some? <==> lib.investors != []
    ensures r.model.Some? ==> r.model.value in lib.mentalModels
    ensures r.prod.Some? ==> r.prod.value in lib.productivity
    ensures r.quote.Some? ==> r.quote.value in lib.quotes
    ensures r.investor.Some? ==> r.investor.value in lib.investors
    ensures lib.mentalModels != [] ==> r.model == Some(lib.mentalModels[Seed(dateSeed) % |lib.mentalModels|])
    ensures lib.productivity != [] ==> r.prod == Some(lib.productivity[(2 * Seed(dateSeed)) % |lib.productivity|])
    ensures lib.quotes != [] ==> r.quote == Some(lib.quotes[(3 * Seed(dateSeed)) % |lib.quotes|])
    ensures lib.investors != [] ==> r.investor == Some(lib.investors[weekNum % |lib.investors|])
  {
    var seedVal := Seed(dateSeed);
    DailyContent(
      PickAt(lib.mentalModels, seedVal),
      PickAt(lib.productivity, seedVal * 2),
      PickAt(lib.quotes, seedVal * 3),
      PickAt(lib.investors, weekNum))
  }

  /** The investor depends on the week only: every day of a week shows the same one. */
  lemma InvestorOfTheWeek(lib: Library, day1: string, day2: string, weekNum: nat)
    ensures Daily(lib, day1, weekNum).investor == Daily(lib, day2, weekNum).investor
  {
  }

  /** The investors rotate: the list comes round again after as many weeks as it has entries. */
  lemma InvestorRotation(lib: Library, dateSeed: string, weekNum: nat)
    ensures Daily(lib, dateSeed, weekNum + |lib.investors|).investor == Daily(lib, dateSeed, weekNum).investor
  {
    PickAtPeriodic(lib.investors, weekNum);
  }

  /** Picking comes round again after as many steps as the list has entries. */
  lemma PickAtPeriodic<T>(xs: seq<T>, idx: nat)
    ensures PickAt(xs, idx + |xs|) == PickAt(xs, idx)
  {
    if xs != [] {
      ModPeriod(idx, |xs|);
    }
  }

  lemma ModPeriod(w: nat, n: nat)
    requires n > 0
    ensures (w + n) % n == w % n
  {
    var q, r := w / n, w % n;
    var q2, r2 := (w + n) / n, (w + n) % n;
    var k := q2 - (q + 1);
    assert n * q2 == n * q + n + n * k;
    assert n * (-k) == -(n * k);
    MulAtLeast(n, k);
    MulAtLeast(n, -k);
  }

  /** A positive multiple of `n` is at least `n`. */
  lemma MulAtLeast(n: int, d: int)
    ensures n > 0 && d >= 1 ==> n * d >= n
    decreases if d > 0 then d else 0
  {
    if n > 0 && d > 1 {
      MulAtLeast(n, d - 1);
      assert n * d == n * (d - 1) + n;
    }
  }

  /** The hash of a string extended by one character is one more step of the recurrence. */
  lemma HashSnoc(s: string, c: char)
    ensures Hash(s + [c]) == ToInt32(31 * Hash(s) + c as int)
  {
    assert (s + [c])[..|s|] == s;
  }
}
