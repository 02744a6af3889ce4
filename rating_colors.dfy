/**
 * Rating tiers of a pin (src/lib/utils/ratingColors.ts): the marker colour,
 * the Portuguese label, the table-driven category and the "good rating"
 * test, over an average rating that may be missing (`null`/`undefined`).
 * Ratings are exact reals: rounding of binary floating point and `NaN` are
 * not part of this model.
 */
module RatingColors {
  import opened Wrappers

  const Green := "#27ae60"
  const Yellow := "#f39c12"
  const Orange := "#e67e22"
  const Red := "#e74c3c"
  const Gray := "#95a5a6"

  const Unrated := "Sem avaliações"

  /** One row of `RATING_COLOR_SCHEMES`. */
  datatype Scheme = Scheme(color: string, tierLabel: string, min: real, max: real)

  /** `RATING_COLOR_SCHEMES`, in table order. */
  const Schemes: seq<Scheme> := [
    Scheme(Green, "Excelente", 4.0, 5.0),
    Scheme(Yellow, "Bom", 2.5, 3.99),
    Scheme(Orange, "Regular", 1.5, 2.49),
    Scheme(Red, "Ruim", 0.01, 1.49),
    Scheme(Gray, Unrated, 0.0, 0.0)
  ]

  /** `!averageRating`: a missing rating and 0 are falsy. */
  predicate Falsy(rating: Option<real>) {
    rating.None? || rating.value == 0.0
  }

  /** `averageRating || 0` */
  function OrZero(rating: Option<real>): real {
    if Falsy(rating) then 0.0 else rating.value
  }

  /** `getRatingColor`: gray without a rating, then green, yellow, orange, red as the rating falls. */
  function RatingColor(rating: Option<real>): (r: string)
    ensures r == Gray <==> Falsy(rating)
    ensures r == Green <==> !Falsy(rating) && rating.value >= 4.0
    ensures r == Yellow <==> !Falsy(rating) && 2.5 <= rating.value < 4.0
    ensures r == Orange <==> !Falsy(rating) && 1.5 <= rating.value < 2.5
    ensures r == Red <==> !Falsy(rating) && rating.value < 1.5
  {
    if Falsy(rating) then Gray
    else if rating.value >= 4.0 then Green
    else if rating.value >= 2.5 then Yellow
    else if rating.value >= 1.5 then Orange
    else Red
  }

  /** `getRatingLabel` */
  function RatingLabel(rating: Option<real>): string {
    if Falsy(rating) then Unrated
    else if rating.value >= 4.0 then "Excelente"
    else if rating.value >= 2.5 then "Bom"
    else if rating.value >= 1.5 then "Regular"
    else "Ruim"
  }

  /** Label and colour always name the same row of the table, whatever the rating (negative and above 5 included). */
  lemma LabelMatchesColor(rating: Option<real>)
    ensures exists s :: s in Schemes && s.color == RatingColor(rating) && s.tierLabel == RatingLabel(rating)
  {
    var i := if Falsy(rating) then 4
      else if rating.value >= 4.0 then 0
      else if rating.value >= 2.5 then 1
      else if rating.value >= 1.5 then 2
      else 3;
    assert Schemes[i].color == RatingColor(rating) && Schemes[i].tierLabel == RatingLabel(rating);
  }

  /** `schemes.find(s => rating >= s.min && rating <= s.max)` */
  function FindScheme(schemes: seq<Scheme>, rating: real): (r: Option<Scheme>)
    ensures r.Some? ==> r.value in schemes && r.value.min <= rating <= r.value.max
    ensures r.None? <==> forall s :: s in schemes ==> !(s.min <= rating <= s.max)
  {
    if schemes == [] then None
    else if schemes[0].min <= rating <= schemes[0].max then Some(schemes[0])
    else FindScheme(schemes[1..], rating)
  }

  /** `getRatingCategory` as written: the label of the first row whose closed range holds the rating. */
  function RatingCategoryAsWritten(rating: Option<real>): string {
    var found := FindScheme(Schemes, OrZero(rating));
    if found.Some? && found.value.tierLabel != "" then found.value.tierLabel else Unrated
  }

  /** The first row of the table that holds `x`, range by range. */
  lemma FindSchemeInTable(x: real)
    ensures FindScheme(Schemes, x) ==
      if 4.0 <= x <= 5.0 then Some(Schemes[0])
      else if 2.5 <= x <= 3.99 then Some(Schemes[1])
      else if 1.5 <= x <= 2.49 then Some(Schemes[2])
      else if 0.01 <= x <= 1.49 then Some(Schemes[3])
      else if x == 0.0 then Some(Schemes[4])
      else None
  {
    var t := Schemes;
    assert t[1..][1..][1..][1..][1..] == [];
  }

  /** Where a row covers the rating, the table agrees with `getRatingLabel`. */
  lemma CategoryAgreesWhereCovered(rating: Option<real>)
    requires exists s :: s in Schemes && s.min <= OrZero(rating) <= s.max
    ensures RatingCategoryAsWritten(rating) == RatingLabel(rating)
  {
    FindSchemeInTable(OrZero(rating));
  }

  /**
   * The ranges of the table leave gaps (3.99 to 4.0, 2.49 to 2.5, 1.49 to
   * 1.5, 0 to 0.01, below 0, above 5): an average of 3.995, which 200
   * reviews of whole stars can produce, is labelled "Bom" but categorised
   * as unrated; so are ratings below 0 and above 5.
   */
  lemma CategoryGapCounterexample()
    ensures RatingLabel(Some(3.995)) == "Bom" && RatingCategoryAsWritten(Some(3.995)) == Unrated
    ensures RatingLabel(Some(5.5)) == "Excelente" && RatingCategoryAsWritten(Some(5.5)) == Unrated
    ensures RatingLabel(Some(-1.0)) == "Ruim" && RatingCategoryAsWritten(Some(-1.0)) == Unrated
    ensures RatingLabel(Some(0.005)) == "Ruim" && RatingCategoryAsWritten(Some(0.005)) == Unrated
  {
    FindSchemeInTable(3.995);
    FindSchemeInTable(5.5);
    FindSchemeInTable(-1.0);
  }

  /** The category by the tier thresholds of `getRatingColor`: the label of the row of the marker colour, with no gaps. */
  function RatingCategory(rating: Option<real>): (r: string)
    ensures r == RatingLabel(rating)
  {
    if Falsy(rating) then Schemes[4].tierLabel
    else if rating.value >= 4.0 then Schemes[0].tierLabel
    else if rating.value >= 2.5 then Schemes[1].tierLabel
    else if rating.value >= 1.5 then Schemes[2].tierLabel
    else Schemes[3].tierLabel
  }

  /** The corrected category names the row of the colour, and changes nothing where the table had a row. */
  lemma RatingCategoryRepairsGaps(rating: Option<real>)
    ensures exists s :: s in Schemes && s.color == RatingColor(rating) && s.tierLabel == RatingCategory(rating)
    ensures (exists s :: s in Schemes && s.min <= OrZero(rating) <= s.max) ==>
      RatingCategory(rating) == RatingCategoryAsWritten(rating)
  {
    LabelMatchesColor(rating);
    if exists s :: s in Schemes && s.min <= OrZero(rating) <= s.max {
      CategoryAgreesWhereCovered(rating);
    }
  }

  /** `isGoodRating`: `(averageRating || 0) >= 2.5`, that is, the colour is green or yellow. */
  function IsGoodRating(rating: Option<real>): (r: bool)
    ensures r <==> RatingColor(rating) == Green || RatingColor(rating) == Yellow
    ensures r <==> !Falsy(rating) && rating.value >= 2.5
  {
    OrZero(rating) >= 2.5
  }
}
