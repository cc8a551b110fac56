/**
 * The surface tracker's marker detectors: the detection modes and their
 * labels, the apriltag parameter dict, the perimeter filter, the square
 * detector's previous-frame bookkeeping, and the combined detector that
 * keeps a square and an apriltag detector in step.
 *
 * The image detectors themselves (square_marker_detect's robust detector
 * and pupil_apriltags' Detector) are parameters; a raw detection is an id
 * and a perimeter.
 */
module SurfaceMarkers {
  import opened Wrappers
  import opened PySeq

  const DefaultApriltagFamily: string := "tag36h11"

  datatype Mode = SquareMarker | ApriltagMarker

  /** Surface_Marker_Type; any value other than the two known ones is OtherType. */
  datatype MarkerType = Square | ApriltagV3 | OtherType(name: string)

  datatype Marker = Marker(markerType: MarkerType, uid: int, perimeter: real)

  /** What an image detector reports for one marker. */
  datatype RawDetection = RawDetection(id: int, perimeter: real)

  type GrayImage = seq<seq<int>>

  /** from_marker: the detection mode that finds a marker of this type. */
  function FromMarker(m: Marker): (r: Result<Mode, string>)
    ensures r == Ok(SquareMarker) <==> m.markerType == Square
    ensures r == Ok(ApriltagMarker) <==> m.markerType == ApriltagV3
    ensures r.Err? <==> m.markerType.OtherType?
  {
    match m.markerType
    case Square => Ok(SquareMarker)
    case ApriltagV3 => Ok(ApriltagMarker)
    case OtherType(_) => Err("ValueError: Can't map marker of type '" + m.markerType.name + "' to a detection mode")
  }

  /** label: each mode's display name; only the apriltag label starts with 'A'. */
  function Label(mode: Mode): (l: string)
    ensures |l| > 0
    ensures l[0] == 'A' <==> mode == ApriltagMarker
  {
    match mode
    case SquareMarker => "Legacy square markers"
    case ApriltagMarker => "Apriltag (" + DefaultApriltagFamily + ")"
  }

  /** The two labels differ, so a label names its mode; the apriltag label names the family. */
  lemma LabelsNameModes(a: Mode, b: Mode)
    ensures Label(a) == Label(b) <==> a == b
    ensures Label(ApriltagMarker)[10..18] == DefaultApriltagFamily
  {
    assert Label(ApriltagMarker) == "Apriltag (" + DefaultApriltagFamily + ")";
    assert ("Apriltag (" + DefaultApriltagFamily + ")")[10..18] == DefaultApriltagFamily;
    if a != b {
      assert Label(a)[0] != Label(b)[0];
    }
  }

  // ---------------------------------------------------------------------
  // The apriltag detector parameters

  /** A keyword argument: Unset is the `...` default. */
  datatype Param<T> = Unset | Given(value: T)

  /** The keyword arguments of pupil_apriltags' Detector, by name. */
  datatype ParamKey = Families | NThreads | QuadDecimate | QuadSigma | RefineEdges | DecodeSharpening | Debug {
    function Name(): string {
      match this
      case Families => "families"
      case NThreads => "nthreads"
      case QuadDecimate => "quad_decimate"
      case QuadSigma => "quad_sigma"
      case RefineEdges => "refine_edges"
      case DecodeSharpening => "decode_sharpening"
      case Debug => "debug"
    }
  }

  datatype DictValue = StrValue(s: string) | IntValue(i: int) | RealValue(x: real) | BoolValue(b: bool)

  datatype ApriltagParams = ApriltagParams(
    families: seq<string>,
    nthreads: Param<int>,
    quadDecimate: Param<real>,
    quadSigma: Param<real>,
    refineEdges: Param<bool>,
    decodeSharpening: Param<real>,
    debug: Param<bool>)

  /** The constructor asserts that at least one family is given. */
  function MakeParams(families: seq<string>, nthreads: Param<int>, quadDecimate: Param<real>, quadSigma: Param<real>,
                      refineEdges: Param<bool>, decodeSharpening: Param<real>, debug: Param<bool>): (r: Result<ApriltagParams, string>)
    ensures r.Err? <==> families == []
    ensures r.Ok? ==> r.value == ApriltagParams(families, nthreads, quadDecimate, quadSigma, refineEdges, decodeSharpening, debug)
  {
    if |families| > 0 then Ok(ApriltagParams(families, nthreads, quadDecimate, quadSigma, refineEdges, decodeSharpening, debug))
    else Err("AssertionError")
  }

  /** The value stored under `key` in an insertion-ordered dict, if any. */
  function Lookup(d: seq<(ParamKey, DictValue)>, key: ParamKey): (r: Option<DictValue>)
    ensures r.Some? ==> (key, r.value) in d
  {
    if d == [] then None
    else if d[0].0 == key then Some(d[0].1)
    else Lookup(d[1..], key)
  }

  predicate DistinctKeys<V>(d: seq<(ParamKey, V)>) {
    forall i, j :: 0 <= i < j < |d| ==> d[i].0 != d[j].0
  }

  /** The value of the first argument named `key`, None when absent or unset. */
  function Find(args: seq<(ParamKey, Option<DictValue>)>, key: ParamKey): Option<DictValue> {
    if args == [] then None
    else if args[0].0 == key then args[0].1
    else Find(args[1..], key)
  }

  /** With distinct names, an argument is found at its own position. */
  lemma {:induction false} FindAt(args: seq<(ParamKey, Option<DictValue>)>, i: nat)
    requires DistinctKeys(args) && i < |args|
    ensures Find(args, args[i].0) == args[i].1
  {
    if i > 0 {
      assert DistinctKeys(args[1..]) by {
        forall a, b | 0 <= a < b < |args[1..]| ensures args[1..][a].0 != args[1..][b].0 {
          assert args[1..][a] == args[a + 1] && args[1..][b] == args[b + 1];
        }
      }
      FindAt(args[1..], i - 1);
      assert args[1..][i - 1] == args[i];
    }
  }

  /** The dict of the arguments that are set, in order. */
  function Compact(args: seq<(ParamKey, Option<DictValue>)>): (d: seq<(ParamKey, DictValue)>)
    requires DistinctKeys(args)
    ensures forall k :: Lookup(d, k) == Find(args, k)
    ensures forall x :: x in d ==> (x.0, Some(x.1)) in args
    ensures DistinctKeys(d)
  {
    if args == [] then []
    else
      var rest := Compact(args[1..]);
      assert forall x :: x in rest ==> (x.0, Some(x.1)) in args && x.0 != args[0].0 by {
        forall x | x in rest ensures (x.0, Some(x.1)) in args && x.0 != args[0].0 {
          var i :| 0 <= i < |args[1..]| && args[1..][i] == (x.0, Some(x.1));
          assert args[i + 1] == args[1..][i];
        }
      }
      if args[0].1.Some? then
        var d := [(args[0].0, args[0].1.value)] + rest;
        assert d[1..] == rest;
        assert forall j :: 0 < j < |d| ==> d[j] in rest;
        d
      else rest
  }

  function IntParam(p: Param<int>): Option<DictValue> {
    if p.Given? then Some(IntValue(p.value)) else None
  }

  function RealParam(p: Param<real>): Option<DictValue> {
    if p.Given? then Some(RealValue(p.value)) else None
  }

  function BoolParam(p: Param<bool>): Option<DictValue> {
    if p.Given? then Some(BoolValue(p.value)) else None
  }

  /** int(debug) */
  function DebugParam(p: Param<bool>): Option<DictValue> {
    if p.Given? then Some(IntValue(if p.value then 1 else 0)) else None
  }


  /**
   * to_dict: 'families' always comes first, joined by spaces; each other
   * parameter is present exactly when it was given, with debug as 0 or 1.
   */
  function ToDict(p: ApriltagParams): (d: seq<(ParamKey, DictValue)>)
    ensures |d| >= 1 && d[0] == (Families, StrValue(JoinWith(p.families, ' ')))
    ensures DistinctKeys(d)
  {
    Compact(Arguments(p))
  }

  /** Every keyword argument of the detector, set or not, in to_dict's order. */
  function Arguments(p: ApriltagParams): (args: seq<(ParamKey, Option<DictValue>)>)
    ensures |args| == 7 && DistinctKeys(args)
  {
    [(Families, Some(StrValue(JoinWith(p.families, ' ')))),
     (NThreads, IntParam(p.nthreads)),
     (QuadDecimate, RealParam(p.quadDecimate)),
     (QuadSigma, RealParam(p.quadSigma)),
     (RefineEdges, BoolParam(p.refineEdges)),
     (DecodeSharpening, RealParam(p.decodeSharpening)),
     (Debug, DebugParam(p.debug))]
  }

  /** Each parameter other than the families is in the dict exactly when it was given; debug becomes 0 or 1. */
  lemma ToDictEntries(p: ApriltagParams)
    ensures var d := ToDict(p);
            Lookup(d, NThreads) == IntParam(p.nthreads) &&
            Lookup(d, QuadDecimate) == RealParam(p.quadDecimate) &&
            Lookup(d, QuadSigma) == RealParam(p.quadSigma) &&
            Lookup(d, RefineEdges) == BoolParam(p.refineEdges) &&
            Lookup(d, DecodeSharpening) == RealParam(p.decodeSharpening) &&
            Lookup(d, Debug) == (if p.debug.Given? then Some(IntValue(if p.debug.value then 1 else 0)) else None)
  {
    var args := Arguments(p);
    FindAt(args, 1);
    FindAt(args, 2);
    FindAt(args, 3);
    FindAt(args, 4);
    FindAt(args, 5);
    FindAt(args, 6);
  }

  /** The 'families' entry reads back as the families, when no family holds a space. */
  lemma FamiliesRoundTrip(p: ApriltagParams)
    requires p.families != [] && forall i :: 0 <= i < |p.families| ==> ' ' !in p.families[i]
    ensures Lookup(ToDict(p), Families).Some? && Lookup(ToDict(p), Families).value.StrValue?
    ensures Split(Lookup(ToDict(p), Families).value.s, ' ') == p.families
  {
    SplitJoin(p.families, ' ');
    FindAt(Arguments(p), 0);
  }

  /** The apriltag detector's parameters: tag36h11 is the one family, whatever else was passed. */
  function DetectorParams(nthreads: Param<int>, quadDecimate: Param<real>, quadSigma: Param<real>,
                          refineEdges: Param<bool>, decodeSharpening: Param<real>, debug: Param<bool>): (p: ApriltagParams)
    ensures p.families == [DefaultApriltagFamily]
    ensures MakeParams(p.families, nthreads, quadDecimate, quadSigma, refineEdges, decodeSharpening, debug) == Ok(p)
  {
    ApriltagParams([DefaultApriltagFamily], nthreads, quadDecimate, quadSigma, refineEdges, decodeSharpening, debug)
  }

  // ---------------------------------------------------------------------
  // The perimeter filter

  /** _surface_marker_filter: markers at least the minimum perimeter long are kept, in order. */
  function Filter(minPerimeter: int, ms: seq<Marker>): (r: seq<Marker>)
    ensures forall m :: m in r <==> m in ms && minPerimeter as real <= m.perimeter
    ensures |r| <= |ms|
  {
    if ms == [] then []
    else
      var rest := Filter(minPerimeter, ms[1..]);
      assert forall m :: m in ms <==> m == ms[0] || m in ms[1..];
      if minPerimeter as real <= ms[0].perimeter then [ms[0]] + rest else rest
  }

  /** Filtering keeps the order: filtering two runs is filtering each in turn. */
  lemma {:induction false} FilterAppend(minPerimeter: int, a: seq<Marker>, b: seq<Marker>)
    ensures Filter(minPerimeter, a + b) == Filter(minPerimeter, a) + Filter(minPerimeter, b)
  {
    if a == [] {
      assert a + b == b;
    } else {
      assert (a + b)[0] == a[0] && (a + b)[1..] == a[1..] + b;
      FilterAppend(minPerimeter, a[1..], b);
    }
  }

  function FromSquare(d: RawDetection): Marker {
    Marker(Square, d.id, d.perimeter)
  }

  function FromApriltag(d: RawDetection): Marker {
    Marker(ApriltagV3, d.id, d.perimeter)
  }

  function MapSeq(f: RawDetection -> Marker, ds: seq<RawDetection>): (r: seq<Marker>)
    ensures |r| == |ds| && forall i :: 0 <= i < |ds| ==> r[i] == f(ds[i])
  {
    seq(|ds|, i requires 0 <= i < |ds| => f(ds[i]))
  }

  // ---------------------------------------------------------------------
  // The square marker detector

  const DefaultMinPerimeter: int := 60

  /** The arguments detect_markers_robust is called with. */
  datatype RobustArgs = RobustArgs(
    img: GrayImage,
    gridSize: int,
    minMarkerPerimeter: int,
    aperture: int,
    prevMarkers: seq<RawDetection>,
    trueDetectEveryFrame: int,
    invertImage: bool)

  datatype SquareState = SquareState(
    minPerimeter: int,
    inverted: bool,
    modes: set<Mode>,
    previousRaw: seq<RawDetection>,
    previousFrameIndex: int,
    useOnlineMode: bool)

  function Defaulted<T>(p: Param<T>, default: T): (v: T)
    ensures p.Given? ==> v == p.value
    ensures p.Unset? ==> v == default
  {
    if p.Given? then p.value else default
  }

  /** The previous markers handed to the robust detector: offline, a frame not following the last one gets none. */
  function PreviousFor(s: SquareState, frameIndex: int): seq<RawDetection> {
    if !s.useOnlineMode && frameIndex != s.previousFrameIndex + 1 then [] else s.previousRaw
  }

  /**
   * detect_markers_iter of the square detector: nothing happens without
   * the square mode; otherwise the robust detector runs (every third frame
   * fully online, every frame offline) and its raw markers and the frame
   * index are remembered.
   */
  function SquareStep(s: SquareState, img: GrayImage, frameIndex: int, robust: RobustArgs -> seq<RawDetection>): (r: (SquareState, seq<Marker>))
    ensures SquareMarker !in s.modes ==> r == (s, [])
    ensures SquareMarker in s.modes ==>
              r.0 == s.(previousRaw := r.0.previousRaw, previousFrameIndex := frameIndex) &&
              forall m :: m in r.1 ==> m.markerType == Square && s.minPerimeter as real <= m.perimeter
  {
    if SquareMarker !in s.modes then (s, [])
    else
      var every := if s.useOnlineMode then 3 else 1;
      var raw := robust(RobustArgs(img, 5, s.minPerimeter, 9, PreviousFor(s, frameIndex), every, s.inverted));
      (s.(previousRaw := raw, previousFrameIndex := frameIndex), Filter(s.minPerimeter, MapSeq(FromSquare, raw)))
  }

  /** Offline, after a jump in the frame index the markers remembered before do not matter. */
  lemma OfflineJumpForgets(s: SquareState, img: GrayImage, frameIndex: int, robust: RobustArgs -> seq<RawDetection>,
                           other: seq<RawDetection>)
    requires SquareMarker in s.modes && !s.useOnlineMode && frameIndex != s.previousFrameIndex + 1
    ensures SquareStep(s, img, frameIndex, robust) == SquareStep(s.(previousRaw := other), img, frameIndex, robust)
  {
  }

  /** Offline, frames detected in order each see the raw markers of the frame before. */
  lemma ConsecutiveFramesChain(s: SquareState, img1: GrayImage, img2: GrayImage, frameIndex: int,
                               robust: RobustArgs -> seq<RawDetection>)
    requires SquareMarker in s.modes
    ensures var s1 := SquareStep(s, img1, frameIndex, robust).0;
            PreviousFor(s1, frameIndex + 1) == s1.previousRaw &&
            s1.previousRaw == robust(RobustArgs(img1, 5, s.minPerimeter, 9, PreviousFor(s, frameIndex),
                                                if s.useOnlineMode then 3 else 1, s.inverted))
  {
  }

  class SquareDetector {
    var minPerimeter: int
    var inverted: bool
    var modes: set<Mode>
    var previousRaw: seq<RawDetection>
    var previousFrameIndex: int
    var useOnlineMode: bool

    function State(): SquareState
      reads this
    {
      SquareState(minPerimeter, inverted, modes, previousRaw, previousFrameIndex, useOnlineMode)
    }

    /** Defaults: minimum perimeter 60, markers not inverted, offline mode; no previous frame. */
    constructor (modes: set<Mode>, minPerimeter: Param<int>, inverted: Param<bool>, useOnlineMode: Param<bool>)
      ensures State() == SquareState(Defaulted(minPerimeter, DefaultMinPerimeter), Defaulted(inverted, false), modes,
                                     [], -1, Defaulted(useOnlineMode, false))
    {
      this.minPerimeter := Defaulted(minPerimeter, DefaultMinPerimeter);
      this.inverted := Defaulted(inverted, false);
      this.modes := modes;
      previousRaw := [];
      previousFrameIndex := -1;
      this.useOnlineMode := Defaulted(useOnlineMode, false);
    }

    method Detect(img: GrayImage, frameIndex: int, robust: RobustArgs -> seq<RawDetection>) returns (markers: seq<Marker>)
      modifies this`previousRaw, this`previousFrameIndex
      ensures (State(), markers) == SquareStep(old(State()), img, frameIndex, robust)
    {
      if SquareMarker !in modes {
        return [];
      }
      var every: int;
      if useOnlineMode {
        every := 3;
      } else {
        every := 1;
        if frameIndex != previousFrameIndex + 1 {
          previousRaw := [];
        }
      }
      var raw := robust(RobustArgs(img, 5, minPerimeter, 9, previousRaw, every, inverted));
      previousRaw := raw;
      previousFrameIndex := frameIndex;
      markers := Filter(minPerimeter, MapSeq(FromSquare, raw));
    }
  }

  // ---------------------------------------------------------------------
  // The apriltag detector

  /**
   * The apriltag detector's minimum perimeter as written: an omitted
   * argument stays `...`, which is not a number.
   */
  function ApriltagMinPerimeterAsWritten(p: Param<int>): (r: Param<int>)
    ensures r.Unset? <==> p.Unset?
    ensures r.Given? ==> r.value == p.value
  {
    p
  }

  /** The default the square detector uses applies to the apriltag detector too. */
  function ApriltagMinPerimeter(p: Param<int>): (v: int)
    ensures v == Defaulted(p, DefaultMinPerimeter)
  {
    Defaulted(p, DefaultMinPerimeter)
  }

  /** The combined getter: both detectors must agree, else the assertion fails. */
  function CombinedMinPerimeter(squareMin: int, apriltagMin: Param<int>): (r: Result<int, string>)
    ensures r.Ok? <==> apriltagMin == Given(squareMin)
    ensures r.Ok? ==> r.value == squareMin
  {
    if apriltagMin == Given(squareMin) then Ok(squareMin) else Err("AssertionError")
  }

  /** As written, a combined detector built without a minimum perimeter fails its own getter. */
  lemma DefaultMinPerimeterDisagrees()
    ensures CombinedMinPerimeter(Defaulted(Unset, DefaultMinPerimeter), ApriltagMinPerimeterAsWritten(Unset)).Err?
  {
  }

  /** With the shared default both detectors agree on every constructor argument. */
  lemma SharedDefaultAgrees(p: Param<int>)
    ensures CombinedMinPerimeter(Defaulted(p, DefaultMinPerimeter), Given(ApriltagMinPerimeter(p))) == Ok(Defaulted(p, DefaultMinPerimeter))
  {
  }

  class ApriltagDetector {
    var params: ApriltagParams
    var minPerimeter: int
    var modes: set<Mode>

    /** Any families argument is ignored: the detector always looks for tag36h11. */
    constructor (modes: set<Mode>, minPerimeter: Param<int>, families: Param<string>, nthreads: Param<int>,
                 quadDecimate: Param<real>, quadSigma: Param<real>, refineEdges: Param<bool>,
                 decodeSharpening: Param<real>, debug: Param<bool>)
      ensures params == DetectorParams(nthreads, quadDecimate, quadSigma, refineEdges, decodeSharpening, debug)
      ensures params.families == [DefaultApriltagFamily]
      ensures this.minPerimeter == ApriltagMinPerimeter(minPerimeter) && this.modes == modes
    {
      params := DetectorParams(nthreads, quadDecimate, quadSigma, refineEdges, decodeSharpening, debug);
      this.minPerimeter := ApriltagMinPerimeter(minPerimeter);
      this.modes := modes;
    }

    /** The inverted_markers property is always false; its setter does nothing. */
    function InvertedMarkers(): bool {
      false
    }

    /** detect_markers_iter: the detector is the one built from to_dict's keyword arguments. */
    method Detect(img: GrayImage, detector: (seq<(ParamKey, DictValue)>, GrayImage) -> seq<RawDetection>) returns (markers: seq<Marker>)
      ensures ApriltagMarker !in modes ==> markers == []
      ensures ApriltagMarker in modes ==> markers == Filter(minPerimeter, MapSeq(FromApriltag, detector(ToDict(params), img)))
    {
      if ApriltagMarker !in modes {
        return [];
      }
      var raw := detector(ToDict(params), img);
      markers := Filter(minPerimeter, MapSeq(FromApriltag, raw));
    }
  }

  // ---------------------------------------------------------------------
  // The combined detector

  class CombinedDetector {
    const square: SquareDetector
    const apriltag: ApriltagDetector

    /** The two sub-detectors agree on the settings both have. */
    predicate Valid()
      reads this, square, apriltag
    {
      square.minPerimeter == apriltag.minPerimeter && square.modes == apriltag.modes
    }

    constructor (modes: set<Mode>, minPerimeter: Param<int>, inverted: Param<bool>, useOnlineMode: Param<bool>,
                 families: Param<string>, nthreads: Param<int>, quadDecimate: Param<real>, quadSigma: Param<real>,
                 refineEdges: Param<bool>, decodeSharpening: Param<real>, debug: Param<bool>)
      ensures Valid() && fresh(square) && fresh(apriltag)
      ensures square.State() == SquareState(Defaulted(minPerimeter, DefaultMinPerimeter), Defaulted(inverted, false), modes,
                                            [], -1, Defaulted(useOnlineMode, false))
      ensures apriltag.params == DetectorParams(nthreads, quadDecimate, quadSigma, refineEdges, decodeSharpening, debug)
      ensures apriltag.params.families == [DefaultApriltagFamily]
      ensures apriltag.minPerimeter == ApriltagMinPerimeter(minPerimeter) && apriltag.modes == modes
    {
      square := new SquareDetector(modes, minPerimeter, inverted, useOnlineMode);
      apriltag := new ApriltagDetector(modes, minPerimeter, families, nthreads, quadDecimate, quadSigma, refineEdges,
                                       decodeSharpening, debug);
    }

    function InvertedMarkers(): bool
      reads square
    {
      square.inverted
    }

    method SetInvertedMarkers(value: bool)
      modifies square`inverted
      ensures InvertedMarkers() == value
    {
      square.inverted := value;
    }

    /** The marker_min_perimeter getter, with its equality assertion. */
    function MinPerimeter(): (r: Result<int, string>)
      reads square, apriltag
      ensures Valid() ==> r == Ok(square.minPerimeter)
    {
      CombinedMinPerimeter(square.minPerimeter, Given(apriltag.minPerimeter))
    }

    method SetMinPerimeter(value: int)
      requires Valid()
      modifies square`minPerimeter, apriltag`minPerimeter
      ensures Valid() && MinPerimeter() == Ok(value)
    {
      square.minPerimeter := value;
      apriltag.minPerimeter := value;
    }

    /** The marker_detector_modes getter, with its equality assertion. */
    function Modes(): (r: Result<set<Mode>, string>)
      reads square, apriltag
      ensures r.Ok? <==> apriltag.modes == square.modes
      ensures Valid() ==> r == Ok(square.modes)
    {
      if apriltag.modes == square.modes then Ok(apriltag.modes) else Err("AssertionError")
    }

    method SetModes(value: set<Mode>)
      requires Valid()
      modifies square`modes, apriltag`modes
      ensures Valid() && Modes() == Ok(value)
    {
      square.modes := value;
      apriltag.modes := value;
    }

    /** detect_markers_iter: the square detector's markers, then the apriltag detector's. */
    method Detect(img: GrayImage, frameIndex: int, robust: RobustArgs -> seq<RawDetection>,
                  detector: (seq<(ParamKey, DictValue)>, GrayImage) -> seq<RawDetection>) returns (markers: seq<Marker>)
      requires Valid()
      modifies square`previousRaw, square`previousFrameIndex
      ensures Valid()
      ensures var step := SquareStep(old(square.State()), img, frameIndex, robust);
              square.State() == step.0 &&
              markers == step.1 +
                (if ApriltagMarker in apriltag.modes
                 then Filter(apriltag.minPerimeter, MapSeq(FromApriltag, detector(ToDict(apriltag.params), img)))
                 else [])
    {
      var first := square.Detect(img, frameIndex, robust);
      var second := apriltag.Detect(img, detector);
      markers := first + second;
    }
  }
}
