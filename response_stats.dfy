/**
 * The volunteer's statistics card
 * (src/pages/volunteer-dashboard/components/ResponseStats.jsx): the four
 * figures, the star row for the community rating, and the achievement
 * badges. The rating is held in tenths, so `4.8` is `48`.
 *
 * As written, the star row drops a star for ratings whose first decimal is
 * 1 to 4: the whole stars are floored, the half star needs a fraction of at
 * least one half, and the empty stars are counted from the ceiling.
 * `RatingStarsAsWritten` keeps that behaviour; `RatingStars` counts the
 * empty stars from the stars already drawn, so the row always has five.
 */
module ResponseStats {
  import opened Common
  import opened JsText
  import opened DurationText

  datatype Stats = Stats(totalResponses: int, successfulHelps: int, averageResponseTime: int, communityRating: nat)

  datatype Star = Full | Half | Empty

  /** `n` copies of one star; nothing for a count of zero or less, as a `for` loop does. */
  function Repeat(s: Star, n: int): (r: seq<Star>)
    ensures |r| == if n > 0 then n else 0
    ensures forall i | 0 <= i < |r| :: r[i] == s
    decreases n
  {
    if n <= 0 then [] else Repeat(s, n - 1) + [s]
  }

  /** `rating % 1 >= 0.5` in tenths; JavaScript's remainder keeps the sign of a negative rating. */
  predicate HasHalfStar(rating: int) {
    JsRem(rating, 10) >= 5
  }

  /** The row getRatingStars draws as written: floor full, a half, then `5 - ceil` empty. */
  function StarsAsWritten(rating: int): seq<Star> {
    Repeat(Full, FloorTenths(rating)) + (if HasHalfStar(rating) then [Half] else [])
    + Repeat(Empty, 5 - CeilTenths(rating))
  }

  /** The intended row: floor full, a half, and empty stars for whatever is left of five. */
  function StarsFor(rating: int): seq<Star> {
    var half := if HasHalfStar(rating) then 1 else 0;
    Repeat(Full, FloorTenths(rating)) + (if HasHalfStar(rating) then [Half] else [])
    + Repeat(Empty, 5 - FloorTenths(rating) - half)
  }

  /** getRatingStars as written: three loops pushing onto the row. */
  method RatingStarsAsWritten(rating: int) returns (stars: seq<Star>)
    ensures stars == StarsAsWritten(rating)
  {
    stars := [];
    var fullStars := FloorTenths(rating);
    var hasHalfStar := JsRem(rating, 10) >= 5;
    var i := 0;
    while i < fullStars
      invariant 0 <= i <= (if fullStars > 0 then fullStars else 0)
      invariant stars == Repeat(Full, i)
    {
      stars := stars + [Full];
      i := i + 1;
    }
    assert stars == Repeat(Full, fullStars);
    if hasHalfStar {
      stars := stars + [Half];
    }
    var prefix := stars;
    var emptyStars := 5 - CeilTenths(rating);
    i := 0;
    while i < emptyStars
      invariant 0 <= i <= (if emptyStars > 0 then emptyStars else 0)
      invariant stars == prefix + Repeat(Empty, i)
    {
      stars := stars + [Empty];
      i := i + 1;
    }
    assert stars == prefix + Repeat(Empty, emptyStars);
  }

  /** getRatingStars with the empty stars counted from the ones drawn. */
  method RatingStars(rating: int) returns (stars: seq<Star>)
    ensures stars == StarsFor(rating)
  {
    stars := [];
    var fullStars := FloorTenths(rating);
    var hasHalfStar := JsRem(rating, 10) >= 5;
    var i := 0;
    while i < fullStars
      invariant 0 <= i <= (if fullStars > 0 then fullStars else 0)
      invariant stars == Repeat(Full, i)
    {
      stars := stars + [Full];
      i := i + 1;
    }
    assert stars == Repeat(Full, fullStars);
    if hasHalfStar {
      stars := stars + [Half];
    }
    var prefix := stars;
    var emptyStars := 5 - fullStars - (if hasHalfStar then 1 else 0);
    i := 0;
    while i < emptyStars
      invariant 0 <= i <= (if emptyStars > 0 then emptyStars else 0)
      invariant stars == prefix + Repeat(Empty, i)
    {
      stars := stars + [Empty];
      i := i + 1;
    }
    assert stars == prefix + Repeat(Empty, emptyStars);
  }

  /**
   * As written, a rating from 0 to 5 draws five stars when its first
   * decimal is 0 or at least 5, and four when it is 1 to 4.
   */
  lemma StarsAsWrittenLength(rating: int)
    requires 0 <= rating <= 50
    ensures |StarsAsWritten(rating)| == if 1 <= rating % 10 <= 4 then 4 else 5
  {
  }

  /** A 4.2 rating draws four full stars and no empty one. */
  lemma FourPointTwoDrawsFourStars()
    ensures StarsAsWritten(42) == [Full, Full, Full, Full]
  {
    assert Repeat(Full, 4) == [Full, Full, Full, Full];
    assert Repeat(Empty, 0) == [];
  }

  /**
   * For a rating from 0 to 5 the intended row always has five stars: the
   * floored whole stars first, then a half star exactly when the fraction
   * is at least one half, then empty ones.
   */
  lemma StarsForShape(rating: int)
    requires 0 <= rating <= 50
    ensures var r := StarsFor(rating);
      |r| == 5
      && (forall i | 0 <= i < rating / 10 :: r[i] == Full)
      && (rating / 10 < 5 ==> (r[rating / 10] == Half <==> rating % 10 >= 5))
      && (forall i | rating / 10 + (if rating % 10 >= 5 then 1 else 0) <= i < 5 :: r[i] == Empty)
  {
    var half: seq<Star> := if rating % 10 >= 5 then [Half] else [];
    var r := StarsFor(rating);
    assert r == Repeat(Full, rating / 10) + half + Repeat(Empty, 5 - rating / 10 - |half|);
    if rating / 10 < 5 {
      assert r[rating / 10] == if rating % 10 >= 5 then Half else Empty;
    }
  }

  /** The as-written row and the intended one agree exactly when the rating's first decimal is 0 or at least 5. */
  lemma StarsAgreeIff(rating: int)
    requires 0 <= rating <= 50
    ensures StarsAsWritten(rating) == StarsFor(rating) <==> !(1 <= rating % 10 <= 4)
  {
    StarsAsWrittenLength(rating);
    StarsForShape(rating);
    if !(1 <= rating % 10 <= 4) {
      assert CeilTenths(rating) == FloorTenths(rating) + (if HasHalfStar(rating) then 1 else 0);
    }
  }

  /** The four figures: the counts as text, the average time as a duration, the rating with one decimal. */
  function StatValues(s: Stats): (r: seq<string>)
    ensures |r| == 4
    ensures ParseInt(r[0]) == Some(s.totalResponses) && ParseInt(r[1]) == Some(s.successfulHelps)
    ensures ParseDuration(r[2]) == Some(s.averageResponseTime)
    ensures var t := r[3];
      |t| >= 3 && t[|t| - 2] == '.' && AllDigits(t[..|t| - 2]) && IsDigit(t[|t| - 1])
      && 10 * DigitsValue(t[..|t| - 2]) + DigitValue(t[|t| - 1]) == s.communityRating
  {
    ParseIntStr(s.totalResponses);
    ParseIntStr(s.successfulHelps);
    FormatDurationRoundTrip(s.averageResponseTime);
    ToFixed1Value(s.communityRating);
    [IntStr(s.totalResponses), IntStr(s.successfulHelps), FormatDuration(s.averageResponseTime), ToFixed1(s.communityRating)]
  }

  /** The achievement badges, in the order they are drawn. */
  function Badges(s: Stats): (r: seq<string>)
    ensures "Helper" in r <==> s.totalResponses >= 5
    ensures "Guardian" in r <==> s.totalResponses >= 10
    ensures "Quick Responder" in r <==> s.averageResponseTime <= 300 && s.totalResponses >= 3
    ensures "Community Hero" in r <==> s.communityRating >= 45
    ensures |r| <= 4
  {
    (if s.totalResponses >= 5 then ["Helper"] else [])
    + (if s.totalResponses >= 10 then ["Guardian"] else [])
    + (if s.averageResponseTime <= 300 && s.totalResponses >= 3 then ["Quick Responder"] else [])
    + (if s.communityRating >= 45 then ["Community Hero"] else [])
  }

  /** Every Guardian is also a Helper, and the Guardian badge comes after the Helper badge. */
  lemma GuardianIsHelper(s: Stats)
    requires "Guardian" in Badges(s)
    ensures "Helper" in Badges(s) && Badges(s)[0] == "Helper" && Badges(s)[1] == "Guardian"
  {
  }
}
