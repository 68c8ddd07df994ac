/** Soil grading (app.py, get_soil_grade and its inner classify): each of the
    three nutrient readings is put into one of three bands by two fixed
    thresholds. The readings are compared only, so they are modelled as
    exact reals. */
module SoilGrading {

  datatype Grade = Low | Moderate | High

  /** Position of a grade in the order Low < Moderate < High. */
  function Rank(g: Grade): (r: nat)
    ensures r <= 2
    ensures g == Low <==> r == 0
    ensures g == High <==> r == 2
  {
    match g
    case Low => 0
    case Moderate => 1
    case High => 2
  }

  const NitrogenLow: real := 50.0
  const NitrogenHigh: real := 100.0
  const PhosphorusLow: real := 30.0
  const PhosphorusHigh: real := 60.0
  const PotassiumLow: real := 30.0
  const PotassiumHigh: real := 60.0

  /** The inner classify: below `low` is Low, above `high` is High, and
      everything else (both bounds included) is Moderate. */
  function Classify(value: real, low: real, high: real): Grade
  {
    if value < low then Low
    else if value > high then High
    else Moderate
  }

  /** With ordered thresholds the three bands are exactly the three intervals
      (-inf, low), [low, high] and (high, +inf). */
  lemma ClassifyBands(value: real, low: real, high: real)
    requires low <= high
    ensures Classify(value, low, high) == Low <==> value < low
    ensures Classify(value, low, high) == Moderate <==> low <= value <= high
    ensures Classify(value, low, high) == High <==> high < value
  {
  }

  /** An independent description of the grade: its rank is the number of
      thresholds the value has reached (at least `low`, beyond `high`). */
  lemma ClassifyCountsThresholds(value: real, low: real, high: real)
    requires low <= high
    ensures Rank(Classify(value, low, high)) ==
            (if low <= value then 1 else 0) + (if high < value then 1 else 0)
  {
  }

  /** Raising the value never lowers its grade. */
  lemma ClassifyMonotone(v: real, w: real, low: real, high: real)
    requires low <= high
    requires v <= w
    ensures Rank(Classify(v, low, high)) <= Rank(Classify(w, low, high))
  {
    ClassifyCountsThresholds(v, low, high);
    ClassifyCountsThresholds(w, low, high);
  }

  datatype SoilGrades = SoilGrades(n: Grade, p: Grade, k: Grade)

  /** get_soil_grade: nitrogen is graded against 50/100, phosphorus and
      potassium against 30/60. */
  function GetSoilGrade(n: real, p: real, k: real): (g: SoilGrades)
    ensures g.n == Low <==> n < 50.0
    ensures g.n == Moderate <==> 50.0 <= n <= 100.0
    ensures g.n == High <==> 100.0 < n
    ensures g.p == Low <==> p < 30.0
    ensures g.p == Moderate <==> 30.0 <= p <= 60.0
    ensures g.p == High <==> 60.0 < p
    ensures g.k == Low <==> k < 30.0
    ensures g.k == Moderate <==> 30.0 <= k <= 60.0
    ensures g.k == High <==> 60.0 < k
  {
    SoilGrades(
      Classify(n, NitrogenLow, NitrogenHigh),
      Classify(p, PhosphorusLow, PhosphorusHigh),
      Classify(k, PotassiumLow, PotassiumHigh))
  }

  /** The thresholds themselves grade Moderate, and just past them the grade
      changes. */
  lemma SoilGradeBoundaries()
    ensures GetSoilGrade(50.0, 30.0, 30.0) == SoilGrades(Moderate, Moderate, Moderate)
    ensures GetSoilGrade(100.0, 60.0, 60.0) == SoilGrades(Moderate, Moderate, Moderate)
    ensures GetSoilGrade(49.5, 29.5, 29.5) == SoilGrades(Low, Low, Low)
    ensures GetSoilGrade(100.5, 60.5, 60.5) == SoilGrades(High, High, High)
  {
  }

  /** Each grade depends on its own nutrient only. */
  lemma SoilGradeIndependent(n: real, p: real, k: real, n': real, p': real, k': real)
    ensures n == n' ==> GetSoilGrade(n, p, k).n == GetSoilGrade(n', p', k').n
    ensures p == p' ==> GetSoilGrade(n, p, k).p == GetSoilGrade(n', p', k').p
    ensures k == k' ==> GetSoilGrade(n, p, k).k == GetSoilGrade(n', p', k').k
  {
  }

  /** Raising any reading never lowers any of the three grades. */
  lemma SoilGradeMonotone(n: real, p: real, k: real, n': real, p': real, k': real)
    requires n <= n' && p <= p' && k <= k'
    ensures Rank(GetSoilGrade(n, p, k).n) <= Rank(GetSoilGrade(n', p', k').n)
    ensures Rank(GetSoilGrade(n, p, k).p) <= Rank(GetSoilGrade(n', p', k').p)
    ensures Rank(GetSoilGrade(n, p, k).k) <= Rank(GetSoilGrade(n', p', k').k)
  {
    ClassifyMonotone(n, n', NitrogenLow, NitrogenHigh);
    ClassifyMonotone(p, p', PhosphorusLow, PhosphorusHigh);
    ClassifyMonotone(k, k', PotassiumLow, PotassiumHigh);
  }
}
