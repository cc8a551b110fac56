/**
 * Seek_Control: the trim marks of the player's seek bar, their text form,
 * and the play / seek requests it passes to the capture.
 */
module SeekControl {
  import opened Wrappers
  import opened Decimal
  import opened PySeq

  function Max(a: int, b: int): int { if a >= b then a else b }
  function Min(a: int, b: int): int { if a <= b then a else b }

  /** The trim_left setter: the current value is a no-op; any other is clamped into 0 .. right-1. */
  function ClampLeft(left: int, right: int, val: int): int {
    if val == left then left else Max(0, Min(val, right - 1))
  }

  /** The trim_right setter: the current value is a no-op; any other is clamped into left+1 .. frame_count-1. */
  function ClampRight(left: int, right: int, val: int, frameCount: int): int {
    if val == right then right else Max(left + 1, Min(val, frameCount - 1))
  }

  /**
   * A new left mark is never negative and lies below the right mark whenever
   * that is positive; a value already inside the bounds is kept as given;
   * setting the result again changes nothing.
   */
  lemma ClampLeftFacts(left: int, right: int, val: int)
    requires 0 <= left
    ensures var r := ClampLeft(left, right, val);
            0 <= r &&
            (val != left && right >= 1 ==> r < right) &&
            (0 <= val < right ==> r == val) &&
            ClampLeft(r, right, r) == r && (val != left ==> ClampLeft(r, right, val) == r)
  {
  }

  /** A new right mark lies above the left one and, when the left mark leaves room, within the recording. */
  lemma ClampRightFacts(left: int, right: int, val: int, frameCount: int)
    ensures var r := ClampRight(left, right, val, frameCount);
            (val != right ==> left < r) &&
            (val != right && left + 1 <= frameCount - 1 ==> r <= frameCount - 1) &&
            (left < val <= frameCount - 1 ==> r == val) &&
            (val != right ==> ClampRight(left, r, val, frameCount) == r)
  {
  }

  /** set_trim_range: left first, clamped against the old right mark, then right against the new left mark. */
  function TrimsAfterRange(left: int, right: int, frameCount: int, range: (int, int)): (int, int) {
    var l := ClampLeft(left, right, range.0);
    (l, ClampRight(l, right, range.1, frameCount))
  }

  /** Moving both marks past the old right mark stops the left one just below it. */
  lemma TrimRangeLeftFirst()
    ensures TrimsAfterRange(0, 10, 100, (20, 30)) == (9, 30)
  {
  }

  /** get_trim_range_string: '{left} - {right}'. */
  function TrimRangeText(left: int, right: int): string {
    IntToString(left) + " - " + IntToString(right)
  }

  /** Splitting on '-' into exactly two sides and int() of each; None where Python raises. */
  function ParseTrimRange(s: string): (r: Option<(int, int)>)
    ensures r.Some? <==> |Split(s, '-')| == 2 && ParseInt(Split(s, '-')[0]).Some? && ParseInt(Split(s, '-')[1]).Some?
  {
    var parts := Split(s, '-');
    if |parts| == 2 then
      match (ParseInt(parts[0]), ParseInt(parts[1]))
      case (Some(a), Some(b)) => Some((a, b))
      case _ => None
    else None
  }

  /** set_trim_range_string: a parsed pair goes through both setters; anything else leaves the marks. */
  function TrimsAfterText(left: int, right: int, frameCount: int, s: string): (int, int) {
    match ParseTrimRange(s)
    case None => (left, right)
    case Some((a, b)) => TrimsAfterRange(left, right, frameCount, (a, b))
  }

  lemma SplitLengthPrefix(a: string, t: string, sep: char)
    requires sep !in a
    ensures |Split(a + t, sep)| == |Split(t, sep)|
  {
    SplitNoSep(a, t, sep);
  }

  lemma SplitLengthSep(t: string, sep: char)
    ensures |Split([sep] + t, sep)| == |Split(t, sep)| + 1
  {
    assert ([sep] + t)[1..] == t;
  }

  /** '<x> - <y>' splits on '-' into '<x> ' and ' <y>' when neither side holds a '-'. */
  lemma SplitAroundDash(x: string, y: string)
    requires '-' !in x && '-' !in y
    ensures Split(x + " - " + y, '-') == [x + " ", " " + y]
  {
    assert x + " - " + y == (x + " ") + ['-'] + (" " + y);
    SplitOnce(x + " ", " " + y, '-');
  }

  lemma ParseDashed(x: string, y: string, m: int, n: int)
    requires '-' !in x && '-' !in y
    requires ParseInt(x + " ") == Some(m) && ParseInt(" " + y) == Some(n)
    ensures ParseTrimRange(x + " - " + y) == Some((m, n))
  {
    SplitAroundDash(x, y);
  }

  /** The text of two marks reads back as the same marks when both are non-negative. */
  lemma ParseTrimRangeText(left: int, right: int)
    requires 0 <= left && 0 <= right
    ensures ParseTrimRange(TrimRangeText(left, right)) == Some((left, right))
  {
    var dl, dr := NatToString(left), NatToString(right);
    ParseLeftSide(left);
    ParseRightSide(right);
    ParseDashed(dl, dr, left, right);
    TrimRangeTextOfNats(left, right);
  }

  /** The left side of '<left> - <right>', with its trailing space, parses as the left mark. */
  lemma ParseLeftSide(n: nat)
    ensures ParseInt(NatToString(n) + " ") == Some(n as int)
  {
    var d := NatToString(n);
    assert d + " " == [] + d + " ";
    ParseIntOfNatToString(n, [], " ", d + " ");
  }

  /** The right side, with its leading space, parses as the right mark. */
  lemma ParseRightSide(n: nat)
    ensures ParseInt(" " + NatToString(n)) == Some(n as int)
  {
    var d := NatToString(n);
    assert " " + d == " " + d + [];
    ParseIntOfNatToString(n, " ", [], " " + d);
  }

  lemma TrimRangeTextOfNats(left: nat, right: nat)
    ensures TrimRangeText(left, right) == NatToString(left) + " - " + NatToString(right)
  {
  }

  /** A negative right mark puts a second '-' into the text, which then does not parse. */
  lemma ParseTrimRangeNegative(left: nat, right: int)
    requires right < 0
    ensures ParseTrimRange(TrimRangeText(left, right)) == None
  {
    var a, c := NatToString(left) + " ", NatToString(-right);
    var s := TrimRangeText(left, right);
    assert s == a + (['-'] + (" " + (['-'] + c)));
    SplitLengthPrefix(c, [], '-');
    assert c + [] == c;
    assert Split([], '-') == [""];
    SplitLengthSep(c, '-');
    SplitLengthPrefix(" ", ['-'] + c, '-');
    SplitLengthSep(" " + (['-'] + c), '-');
    SplitLengthPrefix(a, ['-'] + (" " + (['-'] + c)), '-');
  }

  /** Setting the marks from their own text changes nothing. */
  lemma TrimRangeTextRoundTrip(left: nat, right: int, frameCount: int)
    ensures TrimsAfterText(left, right, frameCount, TrimRangeText(left, right)) == (left, right)
  {
    if right >= 0 {
      ParseTrimRangeText(left, right);
    } else {
      ParseTrimRangeNegative(left, right);
    }
  }

  /** Text that does not split on '-' into exactly two parts leaves both marks. */
  lemma TrimRangeTextRejects(left: int, right: int, frameCount: int, s: string)
    requires |Split(s, '-')| != 2
    ensures TrimsAfterText(left, right, frameCount, s) == (left, right)
  {
  }

  class SeekControl {
    const frameCount: int
    var trimLeft: int
    var trimRight: int
    /** g_pool.capture.play */
    var play: bool
    /** g_pool.capture.get_frame_index(): the capture moves it, the plugin only reads it. */
    var frameIndex: int
    /** g_pool.new_seek */
    var newSeek: bool
    var wasPlaying: bool
    var dragMode: bool
    /** The frames passed to capture.seek_to_frame, oldest first. */
    var seeks: seq<int>

    /** 0 <= left, and left < right <= frame_count-1 once the recording has two frames. */
    predicate Valid()
      reads this
    {
      0 <= trimLeft && (frameCount >= 2 ==> trimLeft < trimRight <= frameCount - 1)
    }

    constructor (frameIndex: int, frameCount: int, play: bool)
      ensures Valid()
      ensures this.frameCount == frameCount && trimLeft == 0 && trimRight == frameCount - 1
      ensures this.frameIndex == frameIndex && this.play == play
      ensures !dragMode && wasPlaying && !newSeek && seeks == []
    {
      this.frameCount := frameCount;
      this.frameIndex := frameIndex;
      this.play := play;
      trimLeft := 0;
      trimRight := frameCount - 1;
      dragMode := false;
      wasPlaying := true;
      newSeek := false;
      seeks := [];
    }

    method SetTrimLeft(val: int)
      requires Valid()
      modifies this`trimLeft
      ensures trimLeft == ClampLeft(old(trimLeft), trimRight, val)
      ensures Valid()
    {
      if val != trimLeft {
        trimLeft := Max(0, Min(val, trimRight - 1));
      }
    }

    method SetTrimRight(val: int)
      requires Valid()
      modifies this`trimRight
      ensures trimRight == ClampRight(trimLeft, old(trimRight), val, frameCount)
      ensures Valid()
    {
      if val != trimRight {
        trimRight := Max(trimLeft + 1, Min(val, frameCount - 1));
      }
    }

    method SetTrimRange(range: (int, int))
      requires Valid()
      modifies this`trimLeft, this`trimRight
      ensures (trimLeft, trimRight) == TrimsAfterRange(old(trimLeft), old(trimRight), frameCount, range)
      ensures Valid()
    {
      SetTrimLeft(range.0);
      SetTrimRight(range.1);
    }

    function TrimRangeString(): string
      reads this
    {
      TrimRangeText(trimLeft, trimRight)
    }

    /** set_trim_range_string; `warned` is the logged warning for text that does not parse. */
    method SetTrimRangeString(s: string) returns (warned: bool)
      requires Valid()
      modifies this`trimLeft, this`trimRight
      ensures (trimLeft, trimRight) == TrimsAfterText(old(trimLeft), old(trimRight), frameCount, s)
      ensures warned <==> ParseTrimRange(s).None?
      ensures Valid()
    {
      var parts := Split(s, '-');
      if |parts| != 2 {
        return true;
      }
      var inM := ParseInt(parts[0]);
      var outM := ParseInt(parts[1]);
      if inM.None? || outM.None? {
        return true;
      }
      SetTrimLeft(inM.value);
      SetTrimRight(outM.value);
      warned := false;
    }

    /** recent_events: a frame on either trim mark pauses playback. */
    method RecentEvents(frame: Option<int>)
      modifies this`play
      ensures frame.Some? && (frame.value == trimLeft || frame.value == trimRight) ==> !play
      ensures !(frame.Some? && (frame.value == trimLeft || frame.value == trimRight)) ==> play == old(play)
    {
      if frame.None? {
        return;
      }
      if frame.value == trimLeft || frame.value == trimRight {
        play := false;
      }
    }

    /** The play setter: starting at or past the last frame first seeks back to frame 0. */
    method SetPlay(newState: bool)
      modifies this`play, this`seeks
      ensures play == newState
      ensures seeks == old(seeks) + (if newState && frameIndex >= frameCount - 1 then [0] else [])
    {
      if newState && frameIndex >= frameCount - 1 {
        seeks := seeks + [0];
      }
      play := newState;
    }

    /** The current_index setter: a different frame is requested from the capture and flagged as a new seek. */
    method SetCurrentIndex(val: int)
      modifies this`seeks, this`newSeek
      ensures val == frameIndex ==> seeks == old(seeks) && newSeek == old(newSeek)
      ensures val != frameIndex ==> seeks == old(seeks) + [val] && newSeek
    {
      if frameIndex != val {
        seeks := seeks + [val];
        newSeek := true;
      }
    }

    /** on_seek: pressing the bar remembers and stops playback; releasing it seeks to the current frame and resumes. */
    method OnSeek(seeking: bool)
      modifies this`play, this`wasPlaying, this`seeks, this`newSeek
      ensures seeking ==> wasPlaying == old(play) && !play && seeks == old(seeks) && newSeek == old(newSeek)
      ensures !seeking ==> play == old(wasPlaying) && wasPlaying == old(wasPlaying) &&
                           seeks == old(seeks) + [frameIndex] && newSeek
    {
      if seeking {
        wasPlaying := play;
        play := false;
      } else {
        seeks := seeks + [frameIndex];
        newSeek := true;
        play := wasPlaying;
      }
    }
  }

  /** Pressing and releasing the seek bar leaves playback as it was. */
  method SeekRestoresPlay(sc: SeekControl)
    modifies sc`play, sc`wasPlaying, sc`seeks, sc`newSeek
    ensures sc.play == old(sc.play)
    ensures sc.seeks == old(sc.seeks) + [sc.frameIndex]
  {
    sc.OnSeek(true);
    sc.OnSeek(false);
  }
}
