/**
  `run`: the checks and the choice of area decide whether a run stops or
  which computation it hands over to; the rFRC path and the Shannon path
  then each produce one quality value per slice of the analysed box.
 */
module Pipeline {
  import opened Wrappers
  import opened Geometry
  import opened Extrema
  import opened Validation
  import Sampling
  import Aggregation
  import Shannon

  /**
    The library code the run calls: the voxel values, the tile distributor
    (`distributeSquaresXY` with overlap 0.25), the rFRC scorer with its
    nearest-neighbour search built over a location list, `Util.median`, and
    the focus measures.
   */
  datatype Collaborators = Collaborators(
    vox: (int, int, int) -> real,
    distribute: (Box, int) -> seq<Tile>,
    search: seq<Point> -> (int, int, int) -> real,
    median: seq<real> -> real,
    measures: Shannon.Measures)

  /**
    A run either stops with a reason or yields a curve: slice z and quality
    per entry, the running minimum and maximum of the curve, and the lower and
    upper limits of the quality axis of the plot.
   */
  datatype Outcome =
    | Stopped(reason: Stop)
    | Curve(zs: seq<int>, quality: seq<real>, low: real, high: real, plotLow: real, plotHigh: real)

  /** What ImageJ guarantees of an image, its ROI bounds and an interactive selection. */
  predicate Sane(img: ImageInfo, answers: Answers) {
    img.width >= 0 && img.height >= 0 && img.stackSize >= 0 &&
    (img.roi.Some? ==> img.roi.value.bounds.width >= 0 && img.roi.value.bounds.height >= 0) &&
    (answers.selection.Some? ==> WellFormed(answers.selection.value))
  }

  /** Every box a sane run can hand over to a computation is well formed. */
  lemma PlannedBoxWellFormed(img: ImageInfo, answers: Answers)
    requires Sane(img, answers) && Plan(img, answers).Ok?
    ensures WellFormed(Plan(img, answers).value.interval)
  {
  }

  /** The rFRC locations for a box and the run's parameters. */
  function RFRCLocations(tiles: seq<Tile>, b: Box, zStepSize: int, rFRCDist: int): (locs: seq<Point>)
    requires WellFormed(b) && zStepSize > 0
  {
    Sampling.Locations(tiles, rFRCDist, Sampling.ZCount(rFRCDist, Dim(b, 2) - rFRCDist, zStepSize), zStepSize)
  }

  /**
    The whole plugin run: stop exactly when the plan stops, with its reason;
    otherwise one entry per slice of the planned box in increasing z, holding
    the rFRC median or the chosen Shannon measure of that slice.
   */
  method Run(img: ImageInfo, answers: Answers, env: Collaborators) returns (outcome: Outcome)
    requires Sane(img, answers)
    requires Plan(img, answers).Ok? && Plan(img, answers).value.RFRCJob? ==> answers.zStepSize > 0
    ensures Plan(img, answers).Err? <==> outcome.Stopped?
    ensures Plan(img, answers).Err? ==> outcome.reason == Plan(img, answers).error
    ensures Plan(img, answers).Ok? ==>
      var b := Plan(img, answers).value.interval;
      WellFormed(b) && outcome.Curve? &&
      |outcome.zs| == Dim(b, 2) && |outcome.quality| == Dim(b, 2) &&
      forall k :: 0 <= k < |outcome.zs| ==> outcome.zs[k] == b.lo[2] + k
    ensures Plan(img, answers).Ok? && Plan(img, answers).value.RFRCJob? ==>
      var job := Plan(img, answers).value;
      var b := job.interval;
      var tiles := env.distribute(b, job.fftSize);
      WellFormed(b) && outcome.Curve? &&
      outcome.quality == Aggregation.MedianCurve(tiles,
        env.search(RFRCLocations(tiles, b, job.zStepSize, job.rFRCDist)), env.median, b.lo[2], Dim(b, 2)) &&
      outcome.low == RunningMin(outcome.quality, DoubleMax) &&
      outcome.high == RunningMax(outcome.quality, 0.0) &&
      outcome.plotLow == 0.0 && outcome.plotHigh == outcome.high
    ensures Plan(img, answers).Ok? && Plan(img, answers).value.ShannonJob? ==>
      var b := Plan(img, answers).value.interval;
      WellFormed(b) && outcome.Curve? &&
      outcome.quality == Shannon.ShannonCurve(env.vox, b, Shannon.SelectMeasure(answers.methodChoice), env.measures) &&
      outcome.low == RunningMin(outcome.quality, DoubleMax) &&
      outcome.high == RunningMax(outcome.quality, -DoubleMax) &&
      outcome.plotLow == Min(0.0, outcome.low) && outcome.plotHigh == outcome.high
  {
    var plan := Plan(img, answers);
    if plan.Err? {
      return Stopped(plan.error);
    }
    PlannedBoxWellFormed(img, answers);
    var job := plan.value;
    var b := job.interval;
    match job {
      case RFRCJob(_, fftSize, zStepSize, rFRCDist, _) =>
        var tiles := env.distribute(b, fftSize);
        var locations, xs, ys, low, high := Aggregation.ComputeRFRC(tiles, b, zStepSize, rFRCDist, env.search, env.median);
        outcome := Curve(xs[..], ys[..], low, high, 0.0, high);
      case ShannonJob(_, methodChoice) =>
        var xs, ys, low, high := Shannon.ComputeShannon(env.vox, b, methodChoice, env.measures);
        outcome := Curve(xs[..], ys[..], low, high, Min(0.0, low), high);
    }
  }

  /**
    When the rFRC path starts, its first depth rFRCDist is sampled at every
    tile; with the whole image or a 2D ROI the box starts at slice 0 and has
    one slice per stack slice, so the source's own indexing by z fits.
   */
  lemma RFRCStartsWithFullFirstRow(img: ImageInfo, answers: Answers, tiles: seq<Tile>, i: nat)
    requires Sane(img, answers) && answers.zStepSize > 0
    requires Plan(img, answers).Ok? && Plan(img, answers).value.RFRCJob? && i < |tiles|
    ensures var b := Plan(img, answers).value.interval;
      WellFormed(b) &&
      var locs := RFRCLocations(tiles, b, answers.zStepSize, answers.rFRCDist);
      i < |locs| && locs[i] == Point(tiles[i].x, tiles[i].y, answers.rFRCDist)
    ensures answers.areaChoice == 0 || answers.areaChoice == 1 ==>
      var b := Plan(img, answers).value.interval;
      b.lo[2] == 0 && Dim(b, 2) == img.stackSize
  {
    var b := Plan(img, answers).value.interval;
    PlannedBoxWellFormed(img, answers);
    Sampling.GuardedFirstRow(tiles, Dim(b, 2), answers.rFRCDist, answers.zStepSize, i);
  }
}
