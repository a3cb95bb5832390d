/**
 * The three financial-outcome classes shared by the training labeller, the
 * score verdict and the colour table of the prediction page.  The Python code
 * carries them as the strings 'Flop', 'Average' and 'Hit'.
 */
module Outcome {
  import opened Wrappers

  datatype Label = Flop | Average | Hit

  /** Position in the order Flop < Average < Hit. */
  function Rank(l: Label): (n: nat)
    ensures n <= 2
  {
    match l
    case Flop => 0
    case Average => 1
    case Hit => 2
  }

  /** The string the Python code uses for a label. */
  function Name(l: Label): string
  {
    match l
    case Flop => "Flop"
    case Average => "Average"
    case Hit => "Hit"
  }

  /** Reads one of the three label strings back; anything else is not a label. */
  function Parse(s: string): (r: Option<Label>)
    ensures r.Some? ==> Name(r.value) == s
    ensures r.None? ==> forall l: Label :: Name(l) != s
  {
    if s == "Flop" then Some(Flop)
    else if s == "Average" then Some(Average)
    else if s == "Hit" then Some(Hit)
    else None
  }

  lemma ParseName(l: Label)
    ensures Parse(Name(l)) == Some(l)
  {
  }

  /**
   * The colour dictionary of the prediction page, looked up with `get` and
   * the default 'blue' for a prediction that is not one of its keys.
   */
  function OutcomeColor(prediction: string): (c: string)
    ensures Parse(prediction) == Some(Hit) ==> c == "green"
    ensures Parse(prediction) == Some(Average) ==> c == "orange"
    ensures Parse(prediction) == Some(Flop) ==> c == "red"
    ensures Parse(prediction).None? <==> c == "blue"
  {
    var table := map["Hit" := "green", "Average" := "orange", "Flop" := "red"];
    if prediction in table then table[prediction] else "blue"
  }

  /** Different labels are shown in different colours, none of them the fallback. */
  lemma OutcomeColorSeparatesLabels(l: Label, m: Label)
    ensures OutcomeColor(Name(l)) != "blue"
    ensures l != m ==> OutcomeColor(Name(l)) != OutcomeColor(Name(m))
  {
    ParseName(l);
    ParseName(m);
  }
}
