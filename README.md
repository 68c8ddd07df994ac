# AgroGurad rule logic in Dafny

AgroGurad is a small web application for farmers. A user enters nitrogen,
phosphorus and potassium readings and a soil type. The application answers
with three things: a soil-nutrient grade, a ranked list of recommended crops
produced by a pre-trained classifier, and a rule-based report for a field
damaged by flooding.

This project models the deterministic parts of `app.py` that surround the
classifier:

- **Soil grading** (`SoilGrading`, `soil_grading.dfy`): `get_soil_grade` and
  its inner `classify`. Each reading is graded Low, Moderate or High against
  two fixed thresholds: 50/100 for nitrogen and 30/60 for phosphorus and
  potassium. The thresholds themselves grade Moderate. Readings are exact
  `real`s, because the code only compares them.
- **Flood-damage expert system** (`FloodExpert`, `flood_expert.dfy`):
  `analyze_flood_damage`. The method `AnalyzeFloodDamage` builds the report
  the way the source does: it starts from an empty report, appends to each
  list when a recognised symptom is present, then fills in the two defaults.
  It is proved equal to `Diagnose`, which reads the same report off a rule
  table (`Rules`, one `Rule` per symptom, applied in order by `ApplyRules`).
  The lemmas about `Diagnose` state what the report contains.
- **Recommendation post-processing** (`Recommendation`,
  `recommendation.dfy`): the block of `suggesveg` that turns classifier
  output into recommendations. `BuildRecommendations` is the loop that builds
  one record per class, with the picture taken from `CropImageMap`.
  `RankByProb` is the stable sort by probability, highest first.
  `Suggest` cuts the result to five entries, or returns the single prediction
  of a classifier that gives no probabilities. A ranking is specified by
  `IsStableRanking`: sorted highest first, and for every probability the
  records with that probability appear in their input order. This is what
  Python's stable `sort(reverse=True)` produces. The lemmas prove that such a
  ranking is a permutation of its input and is unique, so `Suggest`'s result
  (the first five entries of a stable ranking) is fully determined. They
  also prove that those entries satisfy `IsTopRanked`.
- `Wrappers` (`wrappers.dfy`) holds `Option` (for the picture lookup's
  `None`) and `Result` (for the error path).

Each fixed line of advice in the flood report is a constructor of the
`Advice` datatype. `FloodExpert.Text` gives its exact wording.

The classifier is not modelled. Its output is an input to `Suggest`: the
class names, plus either one percentage per class (`Probabilities`) or the
name of the predicted crop (`Prediction`).

## Model

| member | source | states |
|---|---|---|
| `SoilGrading.ClassifyBands` | app.py:62-68 | with ordered thresholds: Low iff the value is below `low`, High iff it is above `high`, Moderate iff `low <= value <= high` (both bounds included) |
| `SoilGrading.ClassifyCountsThresholds` | app.py:62-68 | independent description: the rank of the grade (Low 0, Moderate 1, High 2) is the number of thresholds the value has reached |
| `SoilGrading.ClassifyMonotone` | app.py:62-68 | raising a value never lowers its grade |
| `SoilGrading.GetSoilGrade` | app.py:61-74 | each of the three grades is given by its own reading's interval: N against 50/100, P and K against 30/60, bounds Moderate |
| `SoilGrading.SoilGradeBoundaries` | app.py:70-72 | N=50, N=100, P=30, P=60, K=30, K=60 all grade Moderate; just outside the bounds the grade is Low or High |
| `SoilGrading.SoilGradeIndependent` | app.py:70-74 | the N grade depends only on N, the P grade only on P, the K grade only on K |
| `SoilGrading.SoilGradeMonotone` | app.py:70-74 | raising any reading never lowers any of the three grades |
| `FloodExpert.AnalyzeFloodDamage` | app.py:77-122 | the report built by appends and defaults equals `Diagnose(symptoms)`, the rule table applied in order and then the defaults; `description` plays no part |
| `FloodExpert.DiagnoseAlwaysActionable` | app.py:78-120 | for every input, `problem` is "Flood damage detected." and `immediate_actions` and `crops_to_plant` are non-empty |
| `FloodExpert.DiagnoseNoSymptoms` | app.py:78-120 | with none of the four recognised symptoms, the report is exactly the two default actions, the three default crops, and empty reasons, prevention, fertilizers and crops to avoid |
| `FloodExpert.DefaultActionsIffNoneRecognised` | app.py:114-117 | the actions are the two defaults iff no recognised symptom is present |
| `FloodExpert.ReasonsInFixedOrder` | app.py:89-110 | one reason per recognised symptom present, in the order water logging, yellow leaves, root rot, soil erosion |
| `FloodExpert.FertilizersIffYellowLeaves` | app.py:98-102 | fertilizers are Urea and the foliar NPK spray when leaves are yellow, and empty otherwise; so they are non-empty iff `yellow_leaves` is present |
| `FloodExpert.CropsToPlantRule` | app.py:95-120 | crops to plant are rice and jute iff `water_logging` is present, and the three default crops otherwise |
| `FloodExpert.ApplyRulesCongruent` | app.py:89-109 | applying rules depends only on which of the rules' symptoms are members of the input |
| `FloodExpert.DiagnoseDependsOnlyOnRecognised` | app.py:89-109 | two symptom lists with the same recognised members give the same report; unknown symptoms change nothing |
| `FloodExpert.DiagnoseIgnoresOrderAndDuplicates` | app.py:89-109 | two symptom lists with the same members, in any order and with any repetitions, give the same report |
| `Recommendation.RecordsOfClasses` | app.py:219-222 | a record is among the built records iff it is some class with its own probability and its own picture |
| `Recommendation.BuildRecommendations` | app.py:218-222 | one record per class in class order, each with the class's own probability and picture; a probability vector shorter than the class list is an error at index `len(probs)` |
| `Recommendation.InsertionPoint` | app.py:223 | the position found lies after every record of at least `x`'s probability and before the first record of a lower one |
| `Recommendation.RankByProb` | app.py:223 | the result is a stable ranking of the records, highest probability first, and a permutation of them |
| `Recommendation.InsertKeepsStableRanking` | app.py:223 | inserting a record after all records of at least its probability keeps a stable ranking |
| `Recommendation.StableRankingIsPermutation` | app.py:223 | a stable ranking holds exactly the records of its input (same multiset, same length) |
| `Recommendation.StableRankingUnique` | app.py:223 | two stable rankings of the same records are equal, so the sorted list is fully determined |
| `Recommendation.RankingOfRankedIsSame` | app.py:223 | input already highest first is left unchanged by ranking; in particular equal probabilities keep class order |
| `Recommendation.TiesKeepClassOrder` | app.py:223 | when the first and third classes tie below the second, the ranking is second, first, third |
| `Recommendation.TopOfStableRanking` | app.py:223-225 | the first `min(5, n)` entries of a stable ranking are sorted, are records of the input, keep tied records in input order, and no record left out has a higher probability than one kept |
| `Recommendation.Suggest` | app.py:215-229 | with probabilities: an error iff the vector is shorter than the class list, and otherwise exactly the first `min(5, n)` entries of the stable ranking of the built records, which are also the top-ranked records. Without probabilities: exactly one record, the predicted crop at 100.0 with its picture |

## Left out

- Flask routes, form and JSON parsing, template rendering, and the
  `try/except` wrappers that turn exceptions into HTTP 400/500 responses.
  They are web-framework plumbing. The one exception the modelled block can
  raise itself (a probability vector shorter than the class list) is a
  `Failure` result.
- The SQLite helpers (`insert_user`, `validate_login`, the password update in
  `fg`) and `database.py`. They are database I/O with no logic of their own.
- Loading the model, encoders and scaler, and the calls `soil_le.transform`,
  `scaler.transform`, `model.predict_proba`, `model.predict` and
  `le.inverse_transform`. These are foreign ML library calls. Their results
  are the inputs of `Suggest`. For a classifier without probabilities, the
  input is the already decoded predicted name.
- The feature-engineering ratios with the `1e-9` epsilon and
  `round(prob * 100, 2)`. These are floating-point arithmetic. The model
  takes the already rounded percentage of each class as a `real`. Rounding
  can turn two different probabilities into a tie. The ranking sorts on the
  rounded value, as the source does.
- Floating-point special values (NaN, infinities) in the soil readings and
  the probabilities. Readings and percentages are exact reals.
- `Recommendation.RankByProb`: the list is sorted in place by Python's
  built-in sort. The model builds a new sequence by stable insertion and
  states the result the built-in sort guarantees, not its algorithm.
- `FloodExpert.AnalyzeFloodDamage`: `symptoms` is modelled as a list of
  strings. If the request sent a single string instead, Python's `in` would
  test for a substring. That case is not modelled.
- The returned report and recommendations are values. Serialising them to
  JSON is not modelled. The report's field order is the `Report`
  constructor's.
- `static/js/main.js` (browser UI) and the offline scripts
  `generate_data.py`, `train_model.py`, `debug_model.py` and
  `verify_artifacts.py` (data synthesis and training). They are not part of
  this model.
