/**
 * The mapping from the editor's scroll position to the preview's.
 *
 * The editor's position is turned into a fraction of its scroll range and
 * the preview is scrolled to the same fraction of its own range. The
 * division by the editor's range is not guarded, so the target is a
 * JavaScript number that can be NaN or infinite.
 */
module ScrollSync {
  import opened Js

  /** The target offset for the preview: `scrollTop / (scrollHeight - height)`
      of the preview's range `previewScrollHeight - previewClientHeight`. */
  function TargetY(scrollTop: real, scrollHeight: real, height: real,
                   previewScrollHeight: real, previewClientHeight: real): (r: Number)
    ensures scrollHeight != height ==> r.Finite?
    ensures scrollHeight == height ==> !r.Finite?
    ensures r.Finite? ==> r.value * (scrollHeight - height)
                          == (previewScrollHeight - previewClientHeight) * scrollTop
  {
    var maxScrollTop := scrollHeight - height;
    var scrollRatio := Divide(scrollTop, maxScrollTop);
    Scale(previewScrollHeight - previewClientHeight, scrollRatio)
  }

  /** Where an element's scroll offset ends up when asked to scroll to `target`:
      a non-finite request counts as 0, and the offset is kept within the
      element's scroll range `[0, range]` (a range below 0 counts as 0). */
  function ScrollTo(target: Number, range: real): (r: real)
    ensures 0.0 <= r
    ensures range >= 0.0 ==> r <= range
    ensures target.Finite? && 0.0 <= target.value <= range ==> r == target.value
    ensures !target.Finite? ==> r == 0.0
    ensures target.Finite? && target.value < 0.0 ==> r == 0.0
    ensures target.Finite? && range >= 0.0 && target.value > range ==> r == range
  {
    var y := if target.Finite? then target.value else 0.0;
    if y < 0.0 || range < 0.0 then 0.0
    else if y > range then range
    else y
  }

  /** With the editor scrolled within its range, the target lies within the
      preview's range: the same fraction of it. */
  lemma TargetWithinPreviewRange(scrollTop: real, scrollHeight: real, height: real,
                                 previewScrollHeight: real, previewClientHeight: real)
    requires scrollHeight - height > 0.0
    requires 0.0 <= scrollTop <= scrollHeight - height
    requires previewScrollHeight - previewClientHeight >= 0.0
    ensures var t := TargetY(scrollTop, scrollHeight, height, previewScrollHeight, previewClientHeight);
            t.Finite? && 0.0 <= t.value <= previewScrollHeight - previewClientHeight
  {
    var m := scrollHeight - height;
    var range := previewScrollHeight - previewClientHeight;
    var t := TargetY(scrollTop, scrollHeight, height, previewScrollHeight, previewClientHeight);
    var ratio := scrollTop / m;
    assert ratio * m == scrollTop;
    assert 0.0 <= ratio by {
      if ratio < 0.0 { NegativeTimesPositive(ratio, m); }
    }
    assert ratio <= 1.0 by {
      if ratio > 1.0 { NegativeTimesPositive(1.0 - ratio, m); }
    }
    assert t.value == range * ratio;
    assert range - t.value == range * (1.0 - ratio);
  }

  lemma NegativeTimesPositive(x: real, a: real)
    requires x < 0.0 && a > 0.0
    ensures x * a < 0.0
  {
  }

  /** With no scrollable overflow in the editor the target is not a number
      (NaN, or an infinity when the editor reports a positive offset), and the
      preview ends up at its top. */
  lemma DegenerateEditorScrollsPreviewToTop(scrollTop: real, scrollHeight: real, height: real,
                                            previewScrollHeight: real, previewClientHeight: real)
    requires scrollHeight == height
    ensures var t := TargetY(scrollTop, scrollHeight, height, previewScrollHeight, previewClientHeight);
            !t.Finite? && ScrollTo(t, previewScrollHeight - previewClientHeight) == 0.0
    ensures scrollTop == 0.0 ==>
              TargetY(scrollTop, scrollHeight, height, previewScrollHeight, previewClientHeight).NaN?
  {
  }

  /** An example: 100 of a 500px range is 0.2, and 0.2 of the
      preview's 1200px range is 240. */
  lemma WorkedExample()
    ensures TargetY(100.0, 1100.0, 600.0, 2000.0, 800.0) == Finite(240.0)
  {
  }
}
