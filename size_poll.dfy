/**
 * The window-size heuristic of script.js (lines 274-284): on every tick of
 * its interval timer it compares the outer and inner window sizes.
 */
module SizePoll {
  import opened Wrappers
  import opened Detection
  import Config

  /**
   * window.outerWidth, innerWidth, outerHeight, innerHeight; None stands for
   * any falsy value (undefined, null, NaN).
   */
  datatype WindowDims = WindowDims(
    outerWidth: Option<int>,
    innerWidth: Option<int>,
    outerHeight: Option<int>,
    innerHeight: Option<int>)

  /** `dim || 0`: a falsy dimension reads as 0. */
  function OrZero(dim: Option<int>): int
  {
    if dim.Some? then dim.value else 0
  }

  /** `ow - iw` after the `|| 0` defaults. */
  function WidthDelta(w: WindowDims): int
  {
    OrZero(w.outerWidth) - OrZero(w.innerWidth)
  }

  /** `oh - ih` after the `|| 0` defaults. */
  function HeightDelta(w: WindowDims): int
  {
    OrZero(w.outerHeight) - OrZero(w.innerHeight)
  }

  /** JavaScript's `delta > threshold`: always false when the threshold is undefined. */
  predicate Exceeds(delta: int, threshold: Option<int>)
  {
    threshold.Some? && delta > threshold.value
  }

  /** One tick of the poll: a size-delta detection or nothing. It never suppresses anything. */
  function OnSizePoll(w: WindowDims, threshold: Option<int>): (r: Option<Reason>)
    ensures r == None || r == Some(SizeDelta)
  {
    if Exceeds(WidthDelta(w), threshold) || Exceeds(HeightDelta(w), threshold) then
      Some(SizeDelta)
    else
      None
  }

  /** One tick of the interval timer, as seen by handleDetection. */
  method SizePollTick(log: DetectionLog, w: WindowDims, threshold: Option<int>)
    modifies log
    ensures log.reasons == old(log.reasons)
      + if OnSizePoll(w, threshold).Some? then [Tag(SizeDelta)] else []
  {
    var r := OnSizePoll(w, threshold);
    if r.Some? {
      log.Handle(r.value);
    }
  }

  /** With a defined threshold, the poll stays silent exactly when both deltas are within it. */
  lemma SilentIffWithinThreshold(w: WindowDims, t: int)
    ensures OnSizePoll(w, Some(t)).None? <==> WidthDelta(w) <= t && HeightDelta(w) <= t
  {
  }

  /** Deltas up to and including the threshold do not fire. */
  lemma ThresholdBoundary(w: WindowDims, t: int)
    requires WidthDelta(w) <= t && HeightDelta(w) <= t
    ensures OnSizePoll(w, Some(t)) == None
  {
  }

  /** A threshold one pixel below the delta on either axis fires. */
  lemma OneBelowDeltaFires(w: WindowDims)
    ensures OnSizePoll(w, Some(WidthDelta(w) - 1)) == Some(SizeDelta)
    ensures OnSizePoll(w, Some(HeightDelta(w) - 1)) == Some(SizeDelta)
  {
  }

  /** Lowering the threshold never silences a poll that fired. */
  lemma LowerThresholdStillFires(w: WindowDims, t: int, t': int)
    requires t' <= t
    requires OnSizePoll(w, Some(t)).Some?
    ensures OnSizePoll(w, Some(t')) == Some(SizeDelta)
  {
  }

  /** An undefined threshold never fires, whatever the window sizes. */
  lemma UndefinedThresholdNeverFires(w: WindowDims)
    ensures OnSizePoll(w, None) == None
  {
  }

  /**
   * As shipped, CONFIG.SIZE_THRESHOLD is undefined, so even a docked
   * inspector 200 pixels wide goes unreported.
   */
  lemma ShippedPollNeverFires(w: WindowDims)
    ensures OnSizePoll(w, Config.SizeThreshold) == None
  {
  }

  /**
   * With the threshold defined (160 pixels, say), a 200-pixel width delta is
   * reported; missing height fields read as 0 and do not hide it.
   */
  lemma DefinedThresholdReportsDockedInspector()
    ensures OnSizePoll(WindowDims(Some(1200), Some(1000), Some(800), Some(800)), Some(160)) == Some(SizeDelta)
    ensures OnSizePoll(WindowDims(Some(1200), Some(1000), None, None), Some(160)) == Some(SizeDelta)
    ensures OnSizePoll(WindowDims(Some(1160), Some(1000), None, None), Some(160)) == None
  {
  }
}
