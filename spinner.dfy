/** The analysing overlay of src/components/Spinner.tsx: the message chosen
 *  by the progress, and the progress bar with its rounded percentage. */
module Spinner {
  import opened Common

  const MESSAGES: seq<string> := [
    "Analyzing ingredients for your health...",
    "Checking for allergens and additives...",
    "Calculating nutritional values...",
    "Generating personalized advice..."
  ]

  /** JavaScript's `a % b` for `b > 0`: the remainder takes the sign of `a`. */
  function JsRem(a: int, b: int): (r: int)
    requires b > 0
    ensures -b < r < b
    ensures a >= 0 ==> r == a % b
    ensures a < 0 ==> r <= 0
  {
    if a >= 0 then a % b else -((-a) % b)
  }

  /** The index `Math.floor((progress || 0) / 25) % 4` into `MESSAGES`;
      `None` when it is negative, where the overlay shows no message. */
  function MessageIndex(progress: Option<real>): (k: Option<int>)
    ensures k.Some? ==> 0 <= k.value < |MESSAGES|
    ensures progress.None? ==> k == Some(0)
    ensures progress.Some? && progress.value >= 0.0 ==> k == Some((progress.value / 25.0).Floor % 4)
  {
    var p := if progress.Some? then progress.value else 0.0;
    var k := JsRem((p / 25.0).Floor, |MESSAGES|);
    if k >= 0 then Some(k) else None
  }

  /** The message the overlay shows. */
  function Message(progress: Option<real>): (m: Option<string>)
    ensures m.Some? <==> MessageIndex(progress).Some?
    ensures m.Some? ==> m.value in MESSAGES && m.value == MESSAGES[MessageIndex(progress).value]
  {
    match MessageIndex(progress)
    case Some(k) => Some(MESSAGES[k])
    case None => None
  }

  /** `Floor` moves in step with whole shifts of its argument. */
  lemma FloorShift(x: real)
    ensures (x + 1.0).Floor == x.Floor + 1
  {
    assert x.Floor as real <= x < x.Floor as real + 1.0;
  }

  /** Each further quarter of the way brings the next message, cyclically;
      without a progress the first message shows. */
  lemma MessagesFollowProgress(p: real)
    requires p >= 0.0
    ensures MessageIndex(None) == Some(0)
    ensures MessageIndex(Some(p + 25.0)).Some? && MessageIndex(Some(p)).Some?
    ensures MessageIndex(Some(p + 25.0)).value == (MessageIndex(Some(p)).value + 1) % |MESSAGES|
    ensures Message(Some(p + 25.0)) == Some(MESSAGES[(MessageIndex(Some(p)).value + 1) % |MESSAGES|])
  {
    assert (p + 25.0) / 25.0 == p / 25.0 + 1.0;
    FloorShift(p / 25.0);
  }

  /** Every progress of at least 0 has a message. */
  lemma ProgressHasMessage(p: real)
    requires p >= 0.0
    ensures Message(Some(p)).Some?
  {
  }

  /** The progress bar: its width in percent and the label
      `Math.round(progress)%` under it. */
  datatype Bar = Bar(width: real, percent: int)

  /** The bar is there exactly when a progress number is given; its label is
      the nearest whole percentage, so a progress within 0..100 is labelled
      within 0..100. */
  function ProgressBar(progress: Option<real>): (bar: Option<Bar>)
    ensures bar.Some? <==> progress.Some?
    ensures bar.Some? ==> bar.value.width == progress.value
    ensures bar.Some? ==> bar.value.percent as real - 0.5 <= progress.value < bar.value.percent as real + 0.5
    ensures bar.Some? && 0.0 <= progress.value <= 100.0 ==> 0 <= bar.value.percent <= 100
  {
    match progress
    case Some(p) => Some(Bar(p, Round(p)))
    case None => None
  }
}
