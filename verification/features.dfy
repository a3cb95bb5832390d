/**
 * The feature layout shared by training and inference, and the training
 * table built from the cleaned records: main genre, genre code, the
 * four-column feature rows and the financial labels.
 */
module Features {
  import opened Wrappers
  import opened Outcome
  import opened Genres
  import opened Encoder
  import Financial

  /** One cleaned record; numeric columns are reals after imputation. */
  datatype Movie = Movie(genres: GenreCell, castLikes: real, budget: real, year: real, gross: real)

  /** The feature columns, in the order the classifier and scaler see them. */
  const FeatureColumns: seq<string> :=
    ["main_genre", "cast_total_facebook_likes", "budget", "title_year"]

  /** The value of a named column of a record whose main genre has been replaced by its code. */
  function Column(m: Movie, genreCode: nat, name: string): Option<real>
  {
    if name == "main_genre" then Some(genreCode as real)
    else if name == "cast_total_facebook_likes" then Some(m.castLikes)
    else if name == "budget" then Some(m.budget)
    else if name == "title_year" then Some(m.year)
    else None
  }

  /** `df[features]` for one record: each position holds the column named at that position. */
  function FeatureRow(m: Movie, genreCode: nat): (row: seq<real>)
    ensures |row| == |FeatureColumns|
    ensures forall i :: 0 <= i < |row| ==> Column(m, genreCode, FeatureColumns[i]) == Some(row[i])
  {
    [genreCode as real, m.castLikes, m.budget, m.year]
  }

  /** The `main_genre` column derived from the `genres` column. */
  function MainGenres(movies: seq<Movie>): (col: seq<string>)
    ensures |col| == |movies|
    ensures forall i :: 0 <= i < |movies| ==> col[i] == MainGenre(movies[i].genres)
  {
    if |movies| == 0 then []
    else MainGenres(movies[..|movies| - 1]) + [MainGenre(movies[|movies| - 1].genres)]
  }

  /** The fitted genre encoder, the feature matrix, the genre codes and the label column. */
  datatype TrainingSet = TrainingSet(encoder: LabelEncoder, codes: seq<nat>, x: seq<seq<real>>, y: seq<Label>)

  /**
   * Derives the main genre, labels every record with the financial rule,
   * fits the encoder on the main genres and lays out one feature row per
   * record with the genre replaced by its code.
   */
  method BuildTrainingSet(movies: seq<Movie>) returns (t: TrainingSet)
    ensures Valid(t.encoder)
    ensures forall g :: g in t.encoder.classes <==> g in MainGenres(movies)
    ensures |t.codes| == |t.x| == |t.y| == |movies|
    ensures forall i :: 0 <= i < |movies| ==>
              InverseTransform(t.encoder, t.codes[i]) == Success(MainGenre(movies[i].genres))
    ensures forall i :: 0 <= i < |movies| ==> t.x[i] == FeatureRow(movies[i], t.codes[i])
    ensures forall i :: 0 <= i < |movies| ==>
              t.y[i] == Financial.Classify(movies[i].budget, movies[i].gross)
  {
    var genres := MainGenres(movies);
    var encoder := Fit(genres);
    var codes := TransformColumn(encoder, genres);
    var x := seq(|movies|, k requires 0 <= k < |movies| => FeatureRow(movies[k], codes[k]));
    var y := seq(|movies|, k requires 0 <= k < |movies| => Financial.Classify(movies[k].budget, movies[k].gross));
    forall k | 0 <= k < |movies|
      ensures InverseTransform(encoder, codes[k]) == Success(genres[k])
    {
    }
    t := TrainingSet(encoder, codes, x, y);
  }

  /** LabelEncoder.transform of a whole column whose values the encoder has all seen. */
  method TransformColumn(e: LabelEncoder, values: seq<string>) returns (codes: seq<nat>)
    requires forall k :: 0 <= k < |values| ==> values[k] in e.classes
    ensures |codes| == |values|
    ensures forall k :: 0 <= k < |values| ==> codes[k] < |e.classes| && e.classes[codes[k]] == values[k]
  {
    codes := [];
    var i := 0;
    while i < |values|
      invariant 0 <= i <= |values|
      invariant |codes| == i
      invariant forall k :: 0 <= k < i ==> codes[k] < |e.classes| && e.classes[codes[k]] == values[k]
    {
      var code := Transform(e, values[i]).value;
      codes := codes + [code];
      i := i + 1;
    }
  }

  /** The genres the prediction form offers: the encoder's class list. */
  function GenreOptions(e: LabelEncoder): (options: seq<string>)
    ensures forall g :: g in options <==> g in e.classes
  {
    e.classes
  }

  /**
   * The inference feature vector `[genre_encoded, fb_likes, budget, year]`,
   * or the encoder's error for a genre it never saw.
   */
  function InferenceRow(e: LabelEncoder, genre: string, likes: int, budget: int, year: int)
    : (r: Result<seq<real>, EncodeError>)
    ensures r.Failure? <==> genre !in e.classes
    ensures r.Failure? ==> r.error == UnknownCategory(genre)
    ensures r.Success? ==> |r.value| == |FeatureColumns|
    ensures r.Success? ==> r.value[1..] == [likes as real, budget as real, year as real]
    ensures r.Success? ==> exists code: nat :: code < |e.classes| && r.value[0] == code as real
                                             && e.classes[code] == genre
  {
    match Transform(e, genre)
    case Failure(err) => Failure(err)
    case Success(code) => Success([code as real, likes as real, budget as real, year as real])
  }

  /**
   * The inference vector is the training row of a record with the same
   * values: the same column order and the same genre code.
   */
  lemma InferenceMatchesTraining(e: LabelEncoder, genre: string, likes: int, budget: int, year: int, gross: real)
    requires genre in e.classes
    ensures InferenceRow(e, genre, likes, budget, year)
            == Success(FeatureRow(Movie(Text(genre), likes as real, budget as real, year as real, gross),
                                  Transform(e, genre).value))
  {
  }

  /** Every genre the form offers encodes, and its code decodes back to it. */
  lemma OfferedGenreEncodes(e: LabelEncoder, i: nat, likes: int, budget: int, year: int)
    requires Valid(e)
    requires i < |GenreOptions(e)|
    ensures InferenceRow(e, GenreOptions(e)[i], likes, budget, year).Success?
    ensures InferenceRow(e, GenreOptions(e)[i], likes, budget, year).value[0] == i as real
    ensures InverseTransform(e, i) == Success(GenreOptions(e)[i])
  {
    EncodeDecode(e, i);
  }

  /** A training set and the inference path agree: each record's own values rebuild its row. */
  lemma TrainingRowReproducedAtInference(movies: seq<Movie>, t: TrainingSet, i: nat)
    requires Valid(t.encoder)
    requires |t.codes| == |t.x| == |movies|
    requires forall k :: 0 <= k < |movies| ==>
               InverseTransform(t.encoder, t.codes[k]) == Success(MainGenre(movies[k].genres))
    requires forall k :: 0 <= k < |movies| ==> t.x[k] == FeatureRow(movies[k], t.codes[k])
    requires i < |movies|
    requires movies[i].castLikes == movies[i].castLikes.Floor as real
    requires movies[i].budget == movies[i].budget.Floor as real
    requires movies[i].year == movies[i].year.Floor as real
    ensures InferenceRow(t.encoder, MainGenre(movies[i].genres), movies[i].castLikes.Floor,
                         movies[i].budget.Floor, movies[i].year.Floor) == Success(t.x[i])
  {
    var code := t.codes[i];
    EncodeDecode(t.encoder, code);
  }
}
