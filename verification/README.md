# Movie verdict: labelling and feature-encoding rules

This project models the deterministic core of a film-outcome predictor. A
training script labels historical films Flop, Average or Hit from their gross
over budget. It takes each film's main genre from its pipe-delimited genre
list, encodes that genre as an integer with a label encoder, and lays out the
four-column feature rows a classifier is trained on. A prediction page rebuilds
the same feature vector for a genre picked from the encoder's class list,
colours the predicted label, and shows a second verdict computed from a quality
score alone.

Modules, leaf first:

- `Wrappers` (wrappers.dfy): `Option` and `Result`.
- `Outcome` (outcome.dfy): the labels, their strings, and the prediction colour table.
- `Financial` (financial.dfy): the gross/budget labeller.
- `Genres` (genres.dfy): `str.split('|')`, its inverse `join`, and the main genre.
- `StringOrder` (string_order.dfy): Python's string `<`, proved to be a strict total order.
- `Encoder` (encoder.dfy): the label encoder's fit, transform and inverse transform.
- `Features` (features.dfy): the feature column order, the training table, and the inference vector.
- `Verdict` (verdict.dfy): the score verdict.

Budget, gross and the other numeric columns are exact `real`s.

- **Encoder order.** scikit-learn's `LabelEncoder` keeps `classes_` as the
  sorted distinct values. A genre's code is therefore its position in sorted
  order, not its order of first appearance. `Encoder.FitIgnoresOrder` proves
  that the codes do not depend on row order.
- **Score range.** The score verdict has no range precondition. The [0, 10]
  range comes from the slider, not from the rule.

Where the page's explanatory text and the code disagree, the model follows the code:

- **Label boundaries.** The page's explanatory text says "Hit: Revenue > 2x
  Budget" (app.py:15) and "Hit > 7.0" (app.py:92). The code makes both boundary
  values Hit (`else` after a strict `<`), and the model follows the code.

## Model

| member | source | states |
|---|---|---|
| Financial.Classify | train_model.py:41-54 | budget 0 gives Average for any gross; for a positive budget, Flop exactly when gross < budget and Hit exactly when gross >= 2·budget; for a negative budget, the same comparisons reversed |
| Financial.RatioVersusMultiple | train_model.py:47-49 | for a non-zero budget, gross/budget < k is the same as comparing gross with k·budget, with the comparison reversed when the budget is negative |
| Financial.ClassifyRatioBands | train_model.py:47-54 | for a non-zero budget: Flop iff ratio < 1.0, Average iff 1.0 <= ratio < 2.0, Hit iff ratio >= 2.0 |
| Financial.ClassifyBoundaries | train_model.py:51-54 | ratio exactly 1.0 is Average and ratio exactly 2.0 is Hit |
| Financial.ClassifyMonotoneInGross | train_model.py:47-54 | for a fixed positive budget, more gross never lowers the label in Flop < Average < Hit |
| Financial.ClassifyAntitoneInBudget | train_model.py:47-54 | for a fixed non-negative gross, a larger positive budget never raises the label |
| Financial.ClassifyDependsOnRatio | train_model.py:47 | two films with non-zero budgets and equal ratios get the same label |
| Financial.ClassifyExamples | train_model.py:45-54 | budget 10M with gross 25M, 10M and 5M gives Hit, Average and Flop; budget 0 gives Average whatever the gross |
| Genres.Split | train_model.py:33 | splitting on the pipe yields at least one piece, and no piece contains the pipe |
| Genres.JoinSplit | train_model.py:33 | joining the pieces of a split with the pipe gives back the original string |
| Genres.SplitJoin | train_model.py:33 | splitting a pipe-join of separator-free pieces gives back exactly those pieces |
| Genres.FirstTokenIsPrefix | train_model.py:33 | the first piece is a prefix of the string and has no pipe; it ends at the first pipe or at the end of the string; with no pipe it is the whole string |
| Genres.MainGenre | train_model.py:33 | the main genre of a string cell contains no pipe |
| Genres.MainGenreOfList | train_model.py:33 | a genre list that starts with a separator-free name followed by the pipe has that name as its main genre |
| Encoder.Insert | train_model.py:68-69 | adding a value to a strictly sorted class list keeps it strictly sorted; the new list holds exactly the old elements plus the value |
| Encoder.Classes | train_model.py:68-69 | the fitted class list is strictly sorted and holds exactly the values of the column |
| Encoder.Fit | train_model.py:68-69 | the fitted encoder is valid (sorted, no duplicates), and its classes are exactly the values it was fitted on |
| Encoder.FitIgnoresOrder | train_model.py:68-69 | two columns with the same set of values give the same encoder, whatever their order or repetitions |
| Encoder.IndexOf | app.py:59 | finds the first position of a value, and returns none exactly when the value is absent |
| Encoder.Transform | app.py:59 | an unseen value fails with UnknownCategory; a seen value gets a code below the class count whose class is that value |
| Encoder.InverseTransform | app.py:43 | a code indexes the class list exactly when it is in 0..n-1, and then gives one of the classes |
| Encoder.DecodeEncode | train_model.py:69 | decoding the code of a known genre gives the genre back |
| Encoder.EncodeDecode | train_model.py:69 | for a fitted encoder, encoding the class at code c gives c back |
| Encoder.TransformInjective | train_model.py:69 | distinct genres never share a code |
| Encoder.TransformOnto | train_model.py:69 | every code 0..n-1 of a fitted encoder is the code of some class |
| Encoder.TransformExamples | app.py:59 | fitting on Comedy, Action, Comedy gives classes [Action, Comedy]; Noir is rejected as unknown; Comedy encodes to 1 |
| Features.FeatureRow | train_model.py:62-63 | the row has four entries, and entry i holds the column named by the i-th feature column (main_genre, cast_total_facebook_likes, budget, title_year) |
| Features.MainGenres | train_model.py:33 | the main_genre column has one entry per record, and each entry is that record's main genre |
| Features.BuildTrainingSet | train_model.py:33-69 | the encoder is fitted on exactly the main genres; codes, rows and labels line up one per record; each code decodes to its record's main genre; each row is the record's feature row; each label is the financial rule applied to that record |
| Features.TransformColumn | train_model.py:69 | encoding a column whose values the encoder knows gives one code per value, and each code indexes that value |
| Features.GenreOptions | app.py:43-44 | the offered genres are exactly the encoder's classes |
| Features.InferenceRow | app.py:59-60 | an unknown genre fails with UnknownCategory; otherwise the vector has four entries: a code whose class is the genre, then likes, budget and year in that order |
| Features.InferenceMatchesTraining | app.py:60 | the inference vector equals the training feature row of a record with the same genre and values |
| Features.OfferedGenreEncodes | app.py:43-59 | a genre offered at index i always encodes, its code is i, and code i decodes back to it |
| Features.TrainingRowReproducedAtInference | app.py:59-60 | feeding a training record's own integer values to the inference path rebuilds that record's training row |
| Outcome.Parse | app.py:75 | a recognised string is the name of the label returned; an unrecognised string names no label |
| Outcome.OutcomeColor | app.py:75-76 | Hit is green, Average is orange, Flop is red, and exactly the non-label strings get blue |
| Outcome.OutcomeColorSeparatesLabels | app.py:75-76 | no label is shown in blue, and different labels get different colours |
| Verdict.ClassifyImdb | app.py:85-88 | Flop iff score < 5.0, Hit iff score >= 7.0 (Average otherwise); the colour returned is the colour the prediction table gives that label |
| Verdict.ClassifyImdbMonotone | app.py:85-88 | a higher score never gives a lower verdict |
| Verdict.ClassifyImdbNeverBlue | app.py:85-88 | the verdict colour is never the prediction table's fallback blue |
| Verdict.ClassifyImdbExamples | app.py:86-88 | scores 4.9, 5.0, 6.99 and 7.0 give Flop/red, Average/orange, Average/orange and Hit/green |

## Left out

- Financial.Classify: budget and gross are exact reals. The source divides
  floats, and near the 1.0 and 2.0 cut-points rounding of `gross / budget` can
  differ from the exact ratio. NaN cannot occur after imputation and is not
  modelled.
- Features.InferenceRow: the form's integers become exact reals. The int64
  array and its later float conversion by the scaler are not modelled.
- Genres.MainGenre: for a cell that is not a string, the text `str()` would
  produce is taken as given (`NonText`), because Python's `str()` of arbitrary
  objects is outside the model.
- Imputation (median and most-frequent `SimpleImputer`) and `drop_duplicates`:
  whole-table library statistics. The model starts from cleaned records.
- `StandardScaler` fit and transform: library floating-point statistics.
- Random-forest training, `predict`, `predict_proba`, `train_test_split` and
  accuracy scoring: opaque library numerics and randomness. The model stops at
  the feature vector and the label column.
- CSV reading, pickle save and load, the `exit()` on a missing data file, and
  the artifact cache: I/O.
- The Streamlit widgets, layout and captions: UI. Only the genre list offered
  (app.py:43-44) and the two colour rules are modelled.
- create_ppt.py (slide generation) and generate_charts.py (plots) are not part
  of this model. The chart script's genre split and ROI repeat the rules above.
