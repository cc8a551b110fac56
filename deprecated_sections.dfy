/**
 * The deprecated section module kept inside the gaze_sections package: its
 * constants, its construct_cache, and the Section object it defines. Its
 * map_in_background is the same generator as the legacy one
 * (LegacySections.MapInBackground).
 */
module DeprecatedSections {
  import opened Wrappers
  import opened GazeData
  import opened LegacySections

  const ImportCalibration: string := "Import calibration"
  const TestCalibration: string := "Test calibration"

  /** Section.types */
  const SectionTypes: seq<string> := [CreateCalibration, ImportCalibration, TestCalibration]

  /** What `next(colors)` may be handed: a plain dict of named colours, or an iterator cycling through a palette. */
  datatype ColorSource =
    | ColorDict(names: seq<string>, values: map<string, Color>)
    | ColorCycle(palette: seq<Color>, drawn: nat)

  /** The module's `colors`: a dict from colour name to RGBA, not an iterator. */
  const Colors: ColorSource := ColorDict(
    ["green", "yellow", "cyan", "orange", "purple", "red"],
    map["green" := Palette[0], "yellow" := Palette[1], "cyan" := Palette[2],
        "orange" := Palette[3], "purple" := Palette[4], "red" := Palette[5]])

  const NotAnIterator: string := "TypeError: 'dict' object is not an iterator"
  const StopIteration: string := "StopIteration"

  /** Python's next(): a dict is not an iterator; a cycle over an empty palette stops at once. */
  function Next(src: ColorSource): (r: Result<(Color, ColorSource), string>)
    ensures r.Ok? <==> src.ColorCycle? && src.palette != []
    ensures src.ColorDict? ==> r == Err(NotAnIterator)
    ensures r.Ok? ==> r.value.0 in src.palette && r.value.1 == src.(drawn := src.drawn + 1)
  {
    match src
    case ColorDict(_, _) => Err(NotAnIterator)
    case ColorCycle(p, d) => if p == [] then Err(StopIteration) else Ok((p[d % |p|], ColorCycle(p, d + 1)))
  }

  /** construct_cache: the dict literal, whose only step that can fail is `next(colors)`. */
  function ConstructCacheFrom(sectionLabel: string, calibRange: (int, int), mapRange: (int, int), colors: ColorSource)
    : (r: Result<(Cache, ColorSource), string>)
    ensures r.Err? <==> Next(colors).Err?
    ensures r.Ok? ==> r.value.0.color == Next(colors).value.0 && r.value.1 == Next(colors).value.1
  {
    match Next(colors)
    case Err(e) => Err(e)
    case Ok((color, rest)) =>
      Ok((Cache(sectionLabel, CreateCalibration, None, calibRange, mapRange, "3d", "circle_marker", "Not mapped",
                color, true, 5.0, 0.0, 0.0), rest))
  }

  /** With the module's colour dict, construct_cache always raises TypeError. */
  lemma ConstructCacheFromColorsRaises(sectionLabel: string, calibRange: (int, int), mapRange: (int, int))
    ensures ConstructCacheFrom(sectionLabel, calibRange, mapRange, Colors) == Err(NotAnIterator)
  {
  }

  /** Given the palette cycle the legacy module uses, it builds exactly the legacy cache and advances the cycle by one. */
  lemma ConstructCacheFromCycle(sectionLabel: string, calibRange: (int, int), mapRange: (int, int), drawn: nat)
    ensures ConstructCacheFrom(sectionLabel, calibRange, mapRange, ColorCycle(Palette, drawn))
         == Ok((ConstructCache(sectionLabel, calibRange, mapRange, drawn), ColorCycle(Palette, drawn + 1)))
  {
  }

  /** The deprecated Section object. */
  class DeprecatedSection {
    var cache: Cache
    var bgTask: Option<Task<TaskResult>>
    var errorLines: Option<seq<Point>>
    var calibration: Option<Mapper>
    var accuracy: string
    var precision: string
    var gazePositions: seq<GazeDatum>

    /** The part of __init__ after the cache is settled. */
    constructor (cache: Cache)
      ensures this.cache == cache && bgTask.None? && errorLines.None? && calibration.None?
      ensures accuracy == NotAvailable && precision == NotAvailable && gazePositions == []
    {
      this.cache := cache;
      bgTask := None;
      errorLines := None;
      calibration := None;
      accuracy := NotAvailable;
      precision := NotAvailable;
      gazePositions := [];
    }
  }

  /**
   * Section(parent, cache, label, calib_range, map_range): a given cache is
   * used as it is; without one, construct_cache is called, which raises
   * with the module's colours.
   */
  method OpenSection(cache: Option<Cache>, sectionLabel: string, calibRange: (int, int), mapRange: (int, int))
    returns (section: DeprecatedSection?, raised: Option<string>)
    ensures raised.None? <==> cache.Some?
    ensures cache.None? ==> section == null && raised == Some(NotAnIterator)
    ensures cache.Some? ==> section != null && fresh(section) && section.cache == cache.value &&
                            section.bgTask.None? && section.calibration.None? && section.gazePositions == []
  {
    if cache.Some? {
      section := new DeprecatedSection(cache.value);
      raised := None;
    } else {
      match ConstructCacheFrom(sectionLabel, calibRange, mapRange, Colors) {
        case Err(e) =>
          section := null;
          raised := Some(e);
        case Ok(_) =>
          assert false;
      }
    }
  }
}
