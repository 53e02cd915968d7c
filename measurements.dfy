/** The body-measurement page: which figures the current statistics show, the BMI
    category, the body-composition split and the record the entry form builds. */
module Measurements {
  import opened Wrappers
  import opened Text
  import opened Records
  import NutritionCalculator
  import SessionStorage
  import DatabaseStorage

  // ---------------------------------------------------------------- current statistics

  /** The figures `show_current_stats` derives its metrics from. */
  datatype CurrentStats = CurrentStats(
    weightKg: real,
    heightCm: real,
    bodyFatPercent: Option<real>,
    muscleMassKg: Option<real>,
    dateLabel: string)

  /** The empty dictionary, which is falsy. */
  const Blank: Measurement := Measurement(None, None, None, None, None, None, None, None, None, None, None)

  /** The latest measurement with each missing figure taken from the profile, or the profile
      alone when there is no (non-empty) measurement. */
  function CurrentStatsOf(latest: Option<Measurement>, profileWeight: real, profileHeight: real): (s: CurrentStats)
    ensures latest.None? || latest.value == Blank ==>
      s == CurrentStats(profileWeight, profileHeight, None, None, "From profile")
    ensures latest.Some? && latest.value != Blank ==>
      (latest.value.weightKg.Some? ==> s.weightKg == latest.value.weightKg.value) &&
      (latest.value.weightKg.None? ==> s.weightKg == profileWeight) &&
      (latest.value.heightCm.Some? ==> s.heightCm == latest.value.heightCm.value) &&
      (latest.value.heightCm.None? ==> s.heightCm == profileHeight) &&
      s.bodyFatPercent == latest.value.bodyFatPercent && s.muscleMassKg == latest.value.muscleMassKg
  {
    if latest.Some? && latest.value != Blank then
      var m := latest.value;
      CurrentStats(m.weightKg.GetOr(profileWeight), m.heightCm.GetOr(profileHeight),
                   m.bodyFatPercent, m.muscleMassKg, m.date.GetOr("Unknown"))
    else
      CurrentStats(profileWeight, profileHeight, None, None, "From profile")
  }

  /** Rows of the measurements table have no height column, so the current statistics read
      from the database store always show the profile height. */
  lemma DatabaseLatestShowsProfileHeight(history: seq<Measurement>, profileWeight: real, profileHeight: real)
    ensures CurrentStatsOf(DatabaseStorage.GetLatestMeasurement(history), profileWeight, profileHeight).heightCm
         == profileHeight
  {
  }

  /** The session store keeps the whole record: a measurement just added with a height
      shows that height. */
  lemma SessionLatestShowsRecordedHeight(m: Measurement, today: string, now: string, profileWeight: real, profileHeight: real)
    requires m.heightCm.Some?
    ensures CurrentStatsOf(Some(SessionStorage.StampedMeasurement(m, today, now)), profileWeight, profileHeight).heightCm
         == m.heightCm.value
  {
  }

  // ---------------------------------------------------------------- BMI category

  datatype BmiCategory = Underweight | NormalWeight | Overweight | Obese {
    function Label(): string {
      match this
      case Underweight => "Underweight"
      case NormalWeight => "Normal weight"
      case Overweight => "Overweight"
      case Obese => "Obese"
    }

    /** Position on the scale, lightest first. */
    function Rank(): nat {
      match this
      case Underweight => 0
      case NormalWeight => 1
      case Overweight => 2
      case Obese => 3
    }
  }

  /** The four half-open buckets: below 18.5, [18.5, 25), [25, 30), 30 and above. */
  function BmiCategoryOf(bmi: real): (c: BmiCategory)
    ensures c == Underweight <==> bmi < 18.5
    ensures c == NormalWeight <==> 18.5 <= bmi < 25.0
    ensures c == Overweight <==> 25.0 <= bmi < 30.0
    ensures c == Obese <==> bmi >= 30.0
  {
    if bmi < 18.5 then Underweight
    else if 18.5 <= bmi < 25.0 then NormalWeight
    else if 25.0 <= bmi < 30.0 then Overweight
    else Obese
  }

  /** A higher BMI never lands in a lighter category. */
  lemma BmiCategoryMonotone(b1: real, b2: real)
    requires b1 <= b2
    ensures BmiCategoryOf(b1).Rank() <= BmiCategoryOf(b2).Rank()
  {
  }

  /** The category of the current statistics; a zero height raises ZeroDivisionError. */
  function CurrentBmiCategory(s: CurrentStats): (c: BmiCategory)
    requires s.heightCm != 0.0
    ensures var m := s.heightCm / 100.0;
      && (c == Underweight <==> s.weightKg < 18.5 * m * m)
      && (c == NormalWeight <==> 18.5 * m * m <= s.weightKg < 25.0 * m * m)
      && (c == Overweight <==> 25.0 * m * m <= s.weightKg < 30.0 * m * m)
      && (c == Obese <==> s.weightKg >= 30.0 * m * m)
  {
    var bmi := NutritionCalculator.Bmi(s.weightKg, s.heightCm);
    var m := s.heightCm / 100.0;
    BelowTimes(bmi, 18.5, m, m, s.weightKg);
    BelowTimes(bmi, 25.0, m, m, s.weightKg);
    BelowTimes(bmi, 30.0, m, m, s.weightKg);
    BmiCategoryOf(bmi)
  }

  /** A BMI is below a threshold exactly when the weight is below the threshold times the
      squared height; the height is passed twice, as `h` and `k`, so that the square stays a
      product of two factors. */
  lemma BelowTimes(bmi: real, t: real, h: real, k: real, w: real)
    requires h == k && h != 0.0 && bmi * h * k == w
    ensures bmi < t <==> w < t * h * k
  {
    if h > 0.0 {
      MulPositive(h, k);
    } else {
      MulPositive(-h, -k);
    }
    if bmi < t {
      MulPositive(t - bmi, h * k);
    } else if t < bmi {
      MulPositive(bmi - t, h * k);
    }
  }

  lemma MulPositive(a: real, b: real)
    requires a > 0.0 && b > 0.0
    ensures a * b > 0.0
  {
  }

  /** 70 kg at 175 cm is a normal weight, 85 kg at the same height overweight. */
  lemma BmiCategoryExamples()
    ensures CurrentBmiCategory(CurrentStats(70.0, 175.0, None, None, "")) == NormalWeight
    ensures CurrentBmiCategory(CurrentStats(85.0, 175.0, None, None, "")) == Overweight
  {
    var b1 := NutritionCalculator.Bmi(70.0, 175.0);
    var b2 := NutritionCalculator.Bmi(85.0, 175.0);
    assert b1 * 3.0625 == 70.0;
    assert b2 * 3.0625 == 85.0;
  }

  // ---------------------------------------------------------------- body composition

  /** The pie chart's slices. */
  datatype Composition =
    | WithMuscle(muscle: real, fat: real, other: real)
    | WithoutMuscle(lean: real, fat: real)

  /** `show_body_composition_chart`: fat is the body-fat share of the weight; with a muscle
      mass the rest, floored at zero, is "other", without one it is lean mass. */
  function BodyComposition(weight: real, bodyFatPercent: real, muscleMass: Option<real>): (c: Composition)
    ensures c.fat * 100.0 == weight * bodyFatPercent
    ensures muscleMass.None? ==> c.WithoutMuscle? && c.lean + c.fat == weight
    ensures muscleMass.Some? ==> c.WithMuscle? && c.muscle == muscleMass.value
    ensures c.WithMuscle? ==> c.other >= 0.0 && c.other >= weight - c.fat - c.muscle &&
                              (c.other > 0.0 ==> c.muscle + c.fat + c.other == weight)
  {
    var fat := weight * (bodyFatPercent / 100.0);
    match muscleMass
    case Some(muscle) =>
      var other := weight - fat - muscle;
      WithMuscle(muscle, fat, if other > 0.0 then other else 0.0)
    case None => WithoutMuscle(weight - fat, fat)
  }

  /** With a body-fat share between 0 and 100% the fat slice lies between nothing and
      the whole weight, and so does the lean slice. */
  lemma FatMassWithinWeight(weight: real, bodyFatPercent: real)
    requires weight >= 0.0 && 0.0 <= bodyFatPercent <= 100.0
    ensures var c := BodyComposition(weight, bodyFatPercent, None);
      0.0 <= c.fat <= weight && 0.0 <= c.lean <= weight
  {
    var c := BodyComposition(weight, bodyFatPercent, None);
    assert weight * bodyFatPercent <= weight * 100.0;
    assert 0.0 <= weight * bodyFatPercent;
  }

  /** When muscle and fat exceed the weight the "other" slice is clipped to zero, so the
      slices then add up to more than the weight. */
  lemma OtherSliceClipped()
    ensures BodyComposition(80.0, 50.0, Some(50.0)) == WithMuscle(50.0, 40.0, 0.0)
  {
  }

  // ---------------------------------------------------------------- the entry form

  /** A figure left at 0 in the form is not recorded. */
  function PositiveOrNone(x: real): (r: Option<real>)
    ensures r.Some? <==> x > 0.0
    ensures r.Some? ==> r.value == x
  {
    if x > 0.0 then Some(x) else None
  }

  /** Notes are stored stripped; blank notes are not recorded. */
  function NotesOrNone(notes: string): (r: Option<string>)
    ensures r.None? <==> forall i :: 0 <= i < |notes| ==> IsSpace(notes[i])
    ensures r.Some? ==> r.value == Strip(notes) && r.value != []
  {
    var s := Strip(notes);
    if s != [] then Some(s) else None
  }

  /** Stored notes are already normalised. */
  lemma NotesOrNoneStable(notes: string)
    requires NotesOrNone(notes).Some?
    ensures NotesOrNone(NotesOrNone(notes).value) == NotesOrNone(notes)
  {
    StripIdempotent(notes);
  }

  /** `measurement_data` as the submitted form builds it. */
  function FormMeasurement(date: string, weightKg: real, heightCm: real, bodyFatPercent: real,
                           muscleMassKg: real, waistCm: real, notes: string): (m: Measurement)
    ensures m.date == Some(date) && m.weightKg == Some(weightKg) && m.heightCm == Some(heightCm)
    ensures m.bodyFatPercent == PositiveOrNone(bodyFatPercent)
    ensures m.muscleMassKg == PositiveOrNone(muscleMassKg) && m.waistCm == PositiveOrNone(waistCm)
    ensures m.chestCm.None? && m.armsCm.None? && m.thighsCm.None? && m.timestamp.None?
    ensures m.notes == NotesOrNone(notes)
  {
    Measurement(Some(date), Some(weightKg), Some(heightCm), PositiveOrNone(bodyFatPercent),
                PositiveOrNone(muscleMassKg), PositiveOrNone(waistCm), None, None, None,
                NotesOrNone(notes), None)
  }

  /** As written, the database store raises TypeError('height_cm') for every record the form
      submits, since the form always sends a height and the table has no column for it. */
  lemma FormRecordRaisesTypeError(date: string, weightKg: real, heightCm: real, bodyFatPercent: real,
                                  muscleMassKg: real, waistCm: real, notes: string, today: string)
    ensures DatabaseStorage.AddMeasurement(
      FormMeasurement(date, weightKg, heightCm, bodyFatPercent, muscleMassKg, waistCm, notes), today)
      == Err(TypeError("height_cm"))
  {
  }

  /** Corrected: the form's record is stored, and once it is the newest row the current
      statistics show the submitted weight with the profile height, and a body fat only if
      one above 0 was entered. */
  lemma FormShowsInDatabaseStats(date: string, weightKg: real, heightCm: real, bodyFatPercent: real,
                                 muscleMassKg: real, waistCm: real, notes: string, today: string,
                                 older: seq<Measurement>, profileWeight: real, profileHeight: real)
    ensures var m := FormMeasurement(date, weightKg, heightCm, bodyFatPercent, muscleMassKg, waistCm, notes);
      var latest := DatabaseStorage.GetLatestMeasurement([DatabaseStorage.AddMeasurementColumns(m, today)] + older);
      var s := CurrentStatsOf(latest, profileWeight, profileHeight);
      s.weightKg == weightKg && s.heightCm == profileHeight && s.dateLabel == date &&
      (s.bodyFatPercent.Some? <==> bodyFatPercent > 0.0)
  {
    var m := FormMeasurement(date, weightKg, heightCm, bodyFatPercent, muscleMassKg, waistCm, notes);
    DatabaseStorage.StoredMeasurementReadsBack(m, today, older);
  }

  /** After submitting the form to the session store, the current statistics show the
      submitted weight and height and a body fat only if one above 0 was entered. */
  lemma FormShowsInCurrentStats(date: string, weightKg: real, heightCm: real, bodyFatPercent: real,
                                muscleMassKg: real, waistCm: real, notes: string,
                                today: string, now: string, profileWeight: real, profileHeight: real)
    ensures var m := FormMeasurement(date, weightKg, heightCm, bodyFatPercent, muscleMassKg, waistCm, notes);
      var s := CurrentStatsOf(Some(SessionStorage.StampedMeasurement(m, today, now)), profileWeight, profileHeight);
      s.weightKg == weightKg && s.heightCm == heightCm && s.dateLabel == date &&
      (s.bodyFatPercent.Some? <==> bodyFatPercent > 0.0)
  {
  }
}
