/**
 * The size filter of `detect_and_display`. The cascade classifier is not
 * part of this model: its output, the list of candidate boxes, is the input.
 */
module Obstruction {

  /** A candidate box as the classifier reports it. */
  datatype Rect = Rect(x: int, y: int, width: int, height: int)

  const SIGN_MIN: int := 150
  const SIGN_MAX: int := 200

  /** A box whose height is in the braking-distance band. */
  predicate InSignBand(r: Rect)
  {
    SIGN_MIN <= r.height <= SIGN_MAX
  }

  /** Some candidate box is in the band. */
  predicate SignInView(signs: seq<Rect>)
  {
    exists i :: 0 <= i < |signs| && InSignBand(signs[i])
  }

  /** The stop-sign verdict `detect_and_display` returns for a frame's boxes. */
  function SignVerdict(signs: seq<Rect>): (v: int)
    ensures v == 0 || v == 1
    ensures v == 1 <==> SignInView(signs)
  {
    if SignInView(signs) then 1 else 0
  }

  /** Appending a box adds exactly that box's verdict. */
  lemma SignInViewAppend(signs: seq<Rect>, r: Rect)
    ensures SignInView(signs + [r]) <==> SignInView(signs) || InSignBand(r)
  {
    if InSignBand(r) {
      assert (signs + [r])[|signs|] == r;
    }
    if SignInView(signs) {
      var i :| 0 <= i < |signs| && InSignBand(signs[i]);
      assert (signs + [r])[i] == signs[i];
    }
    if SignInView(signs + [r]) {
      var i :| 0 <= i < |signs| + 1 && InSignBand((signs + [r])[i]);
      if i < |signs| {
        assert (signs + [r])[i] == signs[i];
      }
    }
  }

  /** The band is closed: 150 and 200 count, 149 and 201 do not; 175 counts, 140 and 210 do not. */
  lemma SignBandExamples()
    ensures SignInView([Rect(0, 0, 175, 175)])
    ensures SignInView([Rect(0, 0, 150, 150)]) && SignInView([Rect(0, 0, 200, 200)])
    ensures !SignInView([Rect(0, 0, 140, 140)]) && !SignInView([Rect(0, 0, 210, 210)])
    ensures !SignInView([Rect(0, 0, 149, 149), Rect(0, 0, 201, 201)])
    ensures !SignInView([])
  {
    assert InSignBand([Rect(0, 0, 175, 175)][0]);
    assert InSignBand([Rect(0, 0, 150, 150)][0]);
    assert InSignBand([Rect(0, 0, 200, 200)][0]);
  }

  /**
   * `detect_and_display` after the classifier: 1 when some box is in the
   * band, else 0. Tracing and the ellipse overlay are left out.
   */
  method DetectAndDisplay(signs: seq<Rect>) returns (ret: int)
    ensures ret == 0 || ret == 1
    ensures ret == SignVerdict(signs)
    ensures ret == 1 <==> SignInView(signs)
  {
    ret := 0;
    var i := 0;
    while i < |signs|
      invariant 0 <= i <= |signs|
      invariant ret == 0 || ret == 1
      invariant ret == 1 <==> SignInView(signs[..i])
    {
      SignInViewAppend(signs[..i], signs[i]);
      assert signs[..i + 1] == signs[..i] + [signs[i]];
      if signs[i].height >= SIGN_MIN && signs[i].height <= SIGN_MAX {
        ret := 1;
      }
      i := i + 1;
    }
    assert signs[..i] == signs;
  }
}
