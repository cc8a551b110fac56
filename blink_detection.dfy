/**
 * Blink_Detection's per-frame bookkeeping: a sliding window over the
 * incoming pupil positions that keeps about the newest 0.3 seconds, and the
 * frequency activity it recomputes once the window spans that long. The
 * spectrum itself (numpy's rfft and abs) is a parameter.
 */
module BlinkDetection {
  import opened Wrappers
  import opened GazeData

  /** history_length, in seconds. */
  const HistoryLength: real := 0.3

  /**
   * The pruning loop: the oldest position is dropped while the second
   * oldest is older than the threshold; a history of fewer than two
   * positions is where the loop stops on an IndexError.
   */
  function PruneBelow(h: seq<PupilDatum>, threshold: real): (r: seq<PupilDatum>)
    ensures |r| <= |h| && (h != [] ==> r != [])
  {
    if |h| >= 2 && h[1].timestamp < threshold then PruneBelow(h[1..], threshold) else h
  }

  /** Pruning only ever removes a prefix. */
  lemma {:induction false} PruneBelowSuffix(h: seq<PupilDatum>, threshold: real)
    ensures var r := PruneBelow(h, threshold);
            r == h[|h| - |r|..]
  {
    if |h| >= 2 && h[1].timestamp < threshold {
      PruneBelowSuffix(h[1..], threshold);
      assert h[1..][|h| - 1 - |PruneBelow(h, threshold)|..] == h[|h| - |PruneBelow(h, threshold)|..];
    }
  }

  /** The history after pruning against its newest position; an empty history is left alone. */
  function Prune(h: seq<PupilDatum>): seq<PupilDatum> {
    if h == [] then h else PruneBelow(h, h[|h| - 1].timestamp - HistoryLength)
  }

  /**
   * Pruning keeps the newest position, and at least two positions when
   * there were two; afterwards the second oldest is no older than the
   * threshold. A history of fewer than two positions stays as it is.
   */
  lemma {:induction false} PruneBelowKeeps(h: seq<PupilDatum>, threshold: real)
    requires h != [] && threshold < h[|h| - 1].timestamp
    ensures var r := PruneBelow(h, threshold);
            r != [] && r[|r| - 1] == h[|h| - 1] &&
            (|h| >= 2 ==> |r| >= 2 && r[1].timestamp >= threshold) &&
            (|h| < 2 ==> r == h)
  {
    if |h| >= 2 && h[1].timestamp < threshold {
      PruneBelowKeeps(h[1..], threshold);
    }
  }

  /** Each removed position was removed because the position after it was older than the threshold. */
  lemma {:induction false} PruneBelowRemoves(h: seq<PupilDatum>, threshold: real)
    ensures var k := |h| - |PruneBelow(h, threshold)|;
            forall j :: 1 <= j <= k ==> h[j].timestamp < threshold
  {
    if |h| >= 2 && h[1].timestamp < threshold {
      PruneBelowRemoves(h[1..], threshold);
      var k := |h| - |PruneBelow(h, threshold)|;
      forall j | 2 <= j <= k
        ensures h[j].timestamp < threshold
      {
        assert h[j] == h[1..][j - 1];
      }
    }
  }

  /** The threshold is the newest timestamp less 0.3 s, so pruning by Prune has all the facts above. */
  lemma PruneFacts(h: seq<PupilDatum>)
    requires h != []
    ensures var r := Prune(h);
            r != [] && r == h[|h| - |r|..] && r[|r| - 1] == h[|h| - 1] &&
            (|h| >= 2 ==> |r| >= 2 && r[1].timestamp >= h[|h| - 1].timestamp - HistoryLength) &&
            (|h| < 2 ==> r == h)
  {
    PruneBelowKeeps(h, h[|h| - 1].timestamp - HistoryLength);
    PruneBelowSuffix(h, h[|h| - 1].timestamp - HistoryLength);
  }

  /** The window is analysed when it holds two positions spanning at least the history length. */
  predicate SpansHistory(h: seq<PupilDatum>) {
    |h| >= 2 && h[|h| - 1].timestamp - h[0].timestamp >= HistoryLength
  }

  function Confidences(h: seq<PupilDatum>): (c: seq<real>)
    ensures |c| == |h| && forall i :: 0 <= i < |h| ==> c[i] == h[i].confidence
  {
    seq(|h|, i requires 0 <= i < |h| => h[i].confidence)
  }

  class BlinkDetector {
    /** The deque of recent pupil positions, oldest first. */
    var history: seq<PupilDatum>
    /** The magnitude spectrum of the last analysed window, None before the first. */
    var recentAct: Option<seq<real>>

    constructor ()
      ensures history == [] && recentAct.None?
    {
      history := [];
      recentAct := None;
    }

    /**
     * recent_events: the blinks of the frame are reset to an empty list,
     * the incoming positions are appended in order, the history is pruned,
     * and the activity is recomputed only when the window spans the
     * history length.
     */
    method RecentEvents(incoming: seq<PupilDatum>, spectrum: seq<real> -> seq<real>) returns (blinks: seq<real>)
      modifies this
      ensures blinks == []
      ensures history == Prune(old(history) + incoming)
      ensures recentAct == if SpansHistory(history) then Some(spectrum(Confidences(history))) else old(recentAct)
    {
      blinks := [];
      var h := history + incoming;
      if h != [] {
        var threshold := h[|h| - 1].timestamp - HistoryLength;
        ghost var extended := h;
        while |h| >= 2 && h[1].timestamp < threshold
          invariant PruneBelow(h, threshold) == PruneBelow(extended, threshold)
          decreases |h|
        {
          h := h[1..];
        }
      }
      history := h;
      if |h| < 2 || h[|h| - 1].timestamp - h[0].timestamp < HistoryLength {
        return;
      }
      recentAct := Some(spectrum(Confidences(h)));
    }
  }

  /** Two positions at least 0.3 s apart both survive pruning, and the window they make is analysed. */
  lemma TwoFramesApartAnalysed(a: PupilDatum, b: PupilDatum)
    requires b.timestamp - a.timestamp >= HistoryLength
    ensures Prune([a, b]) == [a, b] && SpansHistory(Prune([a, b]))
  {
  }
}
