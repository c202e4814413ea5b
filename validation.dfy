/**
  The checks `run` performs before any work starts, the default area offered
  in the parameter dialog, the conversion of the chosen area into a 3D box,
  and the depth guard in front of the rFRC computation.
 */
module Validation {
  import opened Wrappers
  import opened Geometry

  /** ImageJ's image types; only the two colour types matter to the checks. */
  datatype ImageType = Gray8 | Gray16 | Gray32 | Color256 | ColorRGB

  datatype RoiShape = Rectangle | OtherShape

  /** java.awt.Rectangle: the bounds of an ROI. */
  datatype Rect = Rect(x: int, y: int, width: int, height: int)

  datatype Roi = Roi(shape: RoiShape, bounds: Rect)

  /** What `run` reads from the selected ImagePlus. */
  datatype ImageInfo = ImageInfo(
    width: int, height: int, stackSize: int,
    nSlices: int, nFrames: int, nChannels: int,
    kind: ImageType, roi: Option<Roi>)

  /** Why a run stops before producing a curve. */
  datatype Stop =
    | SingleSlice
    | MultipleFrames
    | MultipleChannels
    | NonRectangularRoi
    | NoRoiSelected
    | SelectionCancelled
    | TooFewSlices(depth: int, rFRCDist: int)

  /** The answers given in the dialogs (the numbers already rounded to int). */
  datatype Answers = Answers(
    methodChoice: int, areaChoice: int,
    fftSize: int, zStepSize: int, rFRCDist: int, visualize: bool,
    selection: Option<Box>)

  /** The computation a run hands over to once every check has passed. */
  datatype Job =
    | RFRCJob(interval: Box, fftSize: int, zStepSize: int, rFRCDist: int, visualize: bool)
    | ShannonJob(interval: Box, methodChoice: int)

  predicate IsMultiChannel(img: ImageInfo) {
    img.kind == Color256 || img.kind == ColorRGB || img.nChannels != 1
  }

  /**
    The early aborts of `run`, tried in this order: a single slice, several
    frames, colour or several channels, a non-rectangular ROI. On success the
    result holds the ROI's bounds, if there is an ROI.
   */
  function Validate(img: ImageInfo): (r: Result<Option<Rect>, Stop>)
    ensures r == Err(SingleSlice) <==> img.nSlices == 1
    ensures r == Err(MultipleFrames) <==> img.nSlices != 1 && img.nFrames > 1
    ensures r == Err(MultipleChannels) <==>
      img.nSlices != 1 && img.nFrames <= 1 && IsMultiChannel(img)
    ensures r == Err(NonRectangularRoi) <==>
      img.nSlices != 1 && img.nFrames <= 1 && !IsMultiChannel(img) &&
      img.roi.Some? && img.roi.value.shape != Rectangle
    ensures r.Ok? ==> r.value == (if img.roi.Some? then Some(img.roi.value.bounds) else None)
    ensures r.Err? ==> r.error in {SingleSlice, MultipleFrames, MultipleChannels, NonRectangularRoi}
  {
    if img.nSlices == 1 then Err(SingleSlice)
    else if img.nFrames > 1 then Err(MultipleFrames)
    else if IsMultiChannel(img) then Err(MultipleChannels)
    else if img.roi.Some? && img.roi.value.shape != Rectangle then Err(NonRectangularRoi)
    else if img.roi.None? then Ok(None)
    else Ok(Some(img.roi.value.bounds))
  }

  /**
    The area pre-selected in the parameter dialog, from the remembered choice
    (-1 before the first run): "Entire image" when there is no ROI and the
    remembered choice was unset or the ROI option; the ROI option when there
    is an ROI and nothing was remembered; otherwise the remembered choice.
   */
  function DefaultAreaChoice(previous: int, hasRoi: bool): (c: int)
    ensures !hasRoi && (previous == -1 || previous == 1) ==> c == 0
    ensures hasRoi && previous == -1 ==> c == 1
    ensures !(previous == -1 || (!hasRoi && previous == 1)) ==> c == previous
    ensures -1 <= previous <= 2 ==> 0 <= c <= 2 && (c == 1 ==> hasRoi)
  {
    if !hasRoi then (if previous == -1 || previous == 1 then 0 else previous)
    else (if previous == -1 then 1 else previous)
  }

  /**
    The box analysed for an area choice: 0 is the whole image, 1 the 2D ROI
    over all slices, anything else the interactively selected 3D box. The ROI
    choice without an ROI, and a cancelled selection, stop the run.
   */
  function AnalysisInterval(img: ImageInfo, areaChoice: int, rect: Option<Rect>, selection: Option<Box>)
    : (r: Result<Box, Stop>)
    ensures r == Err(NoRoiSelected) <==> areaChoice == 1 && rect.None?
    ensures r == Err(SelectionCancelled) <==> areaChoice != 0 && areaChoice != 1 && selection.None?
    ensures areaChoice == 0 ==>
      r == Ok(Box([0, 0, 0], [img.width - 1, img.height - 1, img.stackSize - 1]))
    ensures areaChoice == 1 && rect.Some? ==>
      var R := rect.value;
      r == Ok(Box([R.x, R.y, 0], [R.x + R.width - 1, R.y + R.height - 1, img.stackSize - 1]))
    ensures areaChoice != 0 && areaChoice != 1 && selection.Some? ==> r == Ok(selection.value)
    ensures r.Ok? && (selection.Some? ==> |selection.value.lo| == 3 && |selection.value.hi| == 3) ==>
      |r.value.lo| == 3 && |r.value.hi| == 3
  {
    if areaChoice == 1 && rect.None? then Err(NoRoiSelected)
    else if areaChoice == 0 then
      Ok(Box([0, 0, 0], [img.width - 1, img.height - 1, img.stackSize - 1]))
    else if areaChoice == 1 then
      var R := rect.value;
      Ok(Box([R.x, R.y, 0], [R.x + R.width - 1, R.y + R.height - 1, img.stackSize - 1]))
    else if selection.None? then Err(SelectionCancelled)
    else Ok(selection.value)
  }

  /** The depth guard of the rFRC path: the box must have at least 2 * rFRCDist + 1 slices. */
  predicate DeepEnough(b: Box, rFRCDist: int)
    requires |b.lo| == 3 && |b.hi| == 3
  {
    Dim(b, 2) >= 2 * rFRCDist + 1
  }

  /** The whole decision part of `run`: which computation starts, or why the run stops. */
  function Plan(img: ImageInfo, answers: Answers): (r: Result<Job, Stop>)
    requires answers.selection.Some? ==> |answers.selection.value.lo| == 3 && |answers.selection.value.hi| == 3
    ensures Validate(img).Err? ==> r == Err(Validate(img).error)
    ensures r.Ok? ==> |r.value.interval.lo| == 3 && |r.value.interval.hi| == 3
    ensures r.Ok? && r.value.RFRCJob? ==>
      answers.methodChoice == 0 && DeepEnough(r.value.interval, r.value.rFRCDist) &&
      r.value.zStepSize == answers.zStepSize && r.value.rFRCDist == answers.rFRCDist
    ensures r.Ok? && r.value.ShannonJob? ==>
      answers.methodChoice != 0 && r.value.methodChoice == answers.methodChoice
    ensures r.Ok? ==>
      Validate(img).Ok? &&
      AnalysisInterval(img, answers.areaChoice, Validate(img).value, answers.selection) == Ok(r.value.interval)
    ensures r.Err? && r.error.TooFewSlices? ==>
      answers.methodChoice == 0 && r.error.rFRCDist == answers.rFRCDist && r.error.depth < 2 * answers.rFRCDist + 1
    ensures Validate(img).Ok? ==>
      var iv := AnalysisInterval(img, answers.areaChoice, Validate(img).value, answers.selection);
      (iv.Err? ==> r == Err(iv.error)) &&
      (iv.Ok? && answers.methodChoice == 0 && DeepEnough(iv.value, answers.rFRCDist) ==>
        r == Ok(RFRCJob(iv.value, answers.fftSize, answers.zStepSize, answers.rFRCDist, answers.visualize))) &&
      (iv.Ok? && answers.methodChoice == 0 && !DeepEnough(iv.value, answers.rFRCDist) ==>
        r == Err(TooFewSlices(Dim(iv.value, 2), answers.rFRCDist))) &&
      (iv.Ok? && answers.methodChoice != 0 ==> r == Ok(ShannonJob(iv.value, answers.methodChoice)))
  {
    match Validate(img)
    case Err(e) => Err(e)
    case Ok(rect) =>
      match AnalysisInterval(img, answers.areaChoice, rect, answers.selection)
      case Err(e) => Err(e)
      case Ok(box) =>
        if answers.methodChoice == 0 then
          if !DeepEnough(box, answers.rFRCDist) then Err(TooFewSlices(Dim(box, 2), answers.rFRCDist))
          else Ok(RFRCJob(box, answers.fftSize, answers.zStepSize, answers.rFRCDist, answers.visualize))
        else Ok(ShannonJob(box, answers.methodChoice))
  }

  /** The two fixed area choices cover every slice of the stack, starting at z = 0. */
  lemma FixedAreasSpanStack(img: ImageInfo, areaChoice: int, rect: Option<Rect>, selection: Option<Box>)
    requires areaChoice == 0 || (areaChoice == 1 && rect.Some?)
    ensures AnalysisInterval(img, areaChoice, rect, selection).Ok?
    ensures var b := AnalysisInterval(img, areaChoice, rect, selection).value;
      |b.lo| == 3 && |b.hi| == 3 && b.lo[2] == 0 && Dim(b, 2) == img.stackSize
    ensures areaChoice == 0 ==>
      var b := AnalysisInterval(img, areaChoice, rect, selection).value;
      Dim(b, 0) == img.width && Dim(b, 1) == img.height
    ensures areaChoice == 1 ==>
      var b := AnalysisInterval(img, areaChoice, rect, selection).value;
      Dim(b, 0) == rect.value.width && Dim(b, 1) == rect.value.height
  {
  }
}
