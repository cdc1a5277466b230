/**
 * `ScoreIndicator`: the percentage a score value shows and the colour band
 * chosen for it. The text colour and the background colour are chosen by two
 * copies of the same threshold chain, so the model has one band for both.
 */
module Score {
  import opened Options
  import opened JsText
  import opened JsValue
  import opened Presentation

  /** `typeof score === 'number' ? score : parseFloat(score) || 0`. */
  function Percentage(score: Json): (p: int)
    ensures score.JNum? ==> p == score.n
    ensures !score.JNum? && ParseFloat(JsString(score)).Some? ==> p == ParseFloat(JsString(score)).value
    ensures !score.JNum? && ParseFloat(JsString(score)).None? ==> p == 0
  {
    if score.JNum? then score.n
    else
      match ParseFloat(JsString(score))
      case None => 0
      case Some(x) => x
  }

  /** At least 80 is success, at least 60 warning, anything lower (negative
      values included) destructive; there is no upper or lower clamp. */
  function Band(percentage: int): (t: Tone)
    ensures t == Success <==> percentage >= 80
    ensures t == Warning <==> 60 <= percentage < 80
    ensures t == Error <==> percentage < 60
  {
    if percentage >= 80 then Success
    else if percentage >= 60 then Warning
    else Error
  }

  /** The order of the bands, worst first. */
  function Rank(t: Tone): nat {
    match t
    case Error => 0
    case Warning => 1
    case Success => 2
    case Default => 0
  }

  /** A higher percentage never lands in a worse band. */
  lemma BandMonotone(p: int, q: int)
    requires p <= q
    ensures Rank(Band(p)) <= Rank(Band(q))
  {
  }

  /** The indicator of a score: its percentage, coloured by one band for
      both the text and the background. */
  function Indicator(score: Json, caption: string): (item: Item)
    ensures item.ScoreIndicator? && item.caption == caption && item.percentage == Percentage(score)
    ensures item.tone == Success <==> item.percentage >= 80
    ensures item.tone == Warning <==> 60 <= item.percentage < 80
    ensures item.tone == Error <==> item.percentage < 60
  {
    var p := Percentage(score);
    ScoreIndicator(caption, p, Band(p))
  }

  /** A number is shown as it is, however far outside 0..100 it lies, and the
      indicator's band is the band of that number. */
  lemma NumberShownAsIs(n: int, caption: string)
    ensures Indicator(JNum(n), caption) == ScoreIndicator(caption, n, Band(n))
  {
  }

  /** Numeric text is read by `parseFloat`: the string `String(n)` shows `n`,
      and so does a one-element array holding `n`. */
  lemma NumericTextShownAsNumber(n: int)
    ensures Percentage(JStr(IntToString(n))) == n
    ensures Percentage(JArr([JNum(n)])) == n
  {
    ParseFloatOfIntToString(n);
    var a := JArr([JNum(n)]);
    assert JNum(n) in a.elems;
    assert Join(a, a.elems) == IntToString(n);
  }

  /** A value whose text holds no digit at all reads as NaN, and `|| 0` turns
      that into 0; objects and booleans are such values. */
  lemma NoDigitsShowsZero(v: Json)
    requires !v.JNum?
    requires forall c :: c in JsString(v) ==> !IsDigit(c)
    ensures Percentage(v) == 0
  {
  }

  lemma ObjectsAndBooleansShowZero(entries: seq<(string, Json)>, b: bool)
    ensures Percentage(JObj(entries)) == 0
    ensures Percentage(JBool(b)) == 0
    ensures Percentage(JNull) == 0
  {
    var o := JObj(entries);
    assert JsString(o) == "[object Object]";
    ParseFloatOfWord(JsString(o));
    assert JsString(JBool(b)) in {"true", "false"};
    ParseFloatOfWord(JsString(JBool(b)));
    assert JsString(JNull) == "null";
    ParseFloatOfWord(JsString(JNull));
  }
}
