/**
 * The metadata marshaler: LibRaw's `libraw_data_t` snapshot turned into a
 * JavaScript value tree.
 *
 * For every `Wrap*` of the binding there are two members here:
 *  - a function `...Value` that is the schema: the exact object the wrapper
 *    emits;
 *  - a method `Wrap...` that builds that object the way the binding does, one
 *    `Set` after another on a fresh object, filling arrays index by index, and
 *    is proved to return the schema's value, with exactly the listed key set.
 * Lemmas beside them state the lengths of the emitted arrays and matrices and
 * which sub-wrapper builds each nested block.
 * Every wrapper takes its structure by value, so the snapshot is never changed.
 */
module WrapTypes {
  import opened Values
  import opened LibRawTypes

  // ---------------------------------------------------------------------------
  // Arrays and matrices
  // ---------------------------------------------------------------------------

  /** `WrapArray(ar, size)`: the first `size` numbers of `ar`, in order. */
  function ArrayValue(ar: seq<Num>, size: nat): (v: Value)
    requires size <= |ar|
    ensures RowOf(v, ar, size)
  {
    Arr(seq(size, i requires 0 <= i < size => Scalar(ar[i])))
  }

  method WrapArray(ar: seq<Num>, size: nat) returns (a: Value)
    requires size <= |ar|
    ensures RowOf(a, ar, size)
    ensures a == ArrayValue(ar, size)
  {
    var cells := new Value[size];
    for i := 0 to size
      invariant forall k :: 0 <= k < i ==> cells[k] == Scalar(ar[k])
    {
      cells[i] := Scalar(ar[i]);
    }
    a := Arr(cells[..]);
  }

  /** A `rows` x `cols` C matrix: one `WrapArray` per row. */
  function MatrixValue(m: seq<seq<Num>>, rows: nat, cols: nat): (v: Value)
    requires IsGrid(m, rows, cols)
    ensures GridOf(v, m, rows, cols)
  {
    Arr(seq(rows, j requires 0 <= j < rows => ArrayValue(m[j], cols)))
  }

  /** The loop `for (j = 0; j < rows; j++) a[j] = WrapArray(env, m[j], cols);`. */
  method WrapRows(m: seq<seq<Num>>, rows: nat, cols: nat) returns (a: Value)
    requires IsGrid(m, rows, cols)
    ensures GridOf(a, m, rows, cols)
    ensures a == MatrixValue(m, rows, cols)
  {
    var cells := new Value[rows];
    for j := 0 to rows
      invariant forall k :: 0 <= k < j ==> cells[k] == ArrayValue(m[k], cols)
    {
      cells[j] := WrapArray(m[j], cols);
    }
    a := Arr(cells[..]);
  }

  // ---------------------------------------------------------------------------
  // Identification and geometry
  // ---------------------------------------------------------------------------

  const IdataKeys: set<string> :=
    {"guard", "make", "model", "software", "dng_version", "is_foveon", "colors",
     "filters", "cdesc", "xmplen"}

  function IdataValue(t: Iparams): Value
  {
    Obj(map[
      "guard" := Str(t.guard),
      "make" := Str(t.make),
      "model" := Str(t.model),
      "software" := Str(t.software),
      "dng_version" := Scalar(t.dng_version),
      "is_foveon" := Scalar(t.is_foveon),
      "colors" := Scalar(t.colors),
      "filters" := Scalar(t.filters),
      "cdesc" := Str(t.cdesc),
      "xmplen" := Int(t.xmplen)])
  }

  method Wrapidata(t: Iparams) returns (o: Value)
    ensures o == IdataValue(t)
    ensures o.Obj? && o.fields.Keys == IdataKeys
  {
    var f: map<string, Value> := map[];
    f := f["guard" := Str(t.guard)];
    f := f["make" := Str(t.make)];
    f := f["model" := Str(t.model)];
    f := f["software" := Str(t.software)];
    f := f["dng_version" := Scalar(t.dng_version)];
    f := f["is_foveon" := Scalar(t.is_foveon)];
    f := f["colors" := Scalar(t.colors)];
    f := f["filters" := Scalar(t.filters)];
    f := f["cdesc" := Str(t.cdesc)];
    f := f["xmplen" := Int(t.xmplen)];
    o := Obj(f);
  }

  const ImageSizesKeys: set<string> :=
    {"raw_height", "raw_width", "height", "width", "top_margin", "left_margin",
     "iheight", "iwidth", "raw_pitch", "pixel_aspect", "flip", "mask"}

  function ImageSizesValue(t: ImageSizes): Value
    requires t.Valid()
  {
    Obj(map[
      "raw_height" := Scalar(t.raw_height),
      "raw_width" := Scalar(t.raw_width),
      "height" := Scalar(t.height),
      "width" := Scalar(t.width),
      "top_margin" := Scalar(t.top_margin),
      "left_margin" := Scalar(t.left_margin),
      "iheight" := Scalar(t.iheight),
      "iwidth" := Scalar(t.iwidth),
      "raw_pitch" := Scalar(t.raw_pitch),
      "pixel_aspect" := Scalar(t.pixel_aspect),
      "flip" := Scalar(t.flip),
      "mask" := MatrixValue(t.mask, 8, 4)])
  }

  method WrapImageSizes(t: ImageSizes) returns (o: Value)
    requires t.Valid()
    ensures o == ImageSizesValue(t)
    ensures o.Obj? && o.fields.Keys == ImageSizesKeys
  {
    var f: map<string, Value> := map[];
    f := f["raw_height" := Scalar(t.raw_height)];
    f := f["raw_width" := Scalar(t.raw_width)];
    f := f["height" := Scalar(t.height)];
    f := f["width" := Scalar(t.width)];
    f := f["top_margin" := Scalar(t.top_margin)];
    f := f["left_margin" := Scalar(t.left_margin)];
    f := f["iheight" := Scalar(t.iheight)];
    f := f["iwidth" := Scalar(t.iwidth)];
    f := f["raw_pitch" := Scalar(t.raw_pitch)];
    f := f["pixel_aspect" := Scalar(t.pixel_aspect)];
    f := f["flip" := Scalar(t.flip)];
    var mask := WrapRows(t.mask, 8, 4);
    f := f["mask" := mask];
    o := Obj(f);
  }

  /** `mask` is emitted as 8 rows of 4 numbers, `mask[j][k]` at `[j][k]`. */
  lemma ImageSizesMask(t: ImageSizes)
    requires t.Valid()
    ensures ImageSizesValue(t).Obj? && "mask" in ImageSizesValue(t).fields
    ensures GridOf(ImageSizesValue(t).fields["mask"], t.mask, 8, 4)
  {
  }

  // ---------------------------------------------------------------------------
  // Lens
  // ---------------------------------------------------------------------------

  const DngLensKeys: set<string> := {"MinFocal", "MaxFocal", "MaxAp4MinFocal", "MaxAp4MaxFocal"}

  function DngLensValue(t: DngLens): Value
  {
    Obj(map[
      "MinFocal" := Scalar(t.MinFocal),
      "MaxFocal" := Scalar(t.MaxFocal),
      "MaxAp4MinFocal" := Scalar(t.MaxAp4MinFocal),
      "MaxAp4MaxFocal" := Scalar(t.MaxAp4MaxFocal)])
  }

  method WrapDngLens(t: DngLens) returns (o: Value)
    ensures o == DngLensValue(t)
    ensures o.Obj? && o.fields.Keys == DngLensKeys
  {
    var f: map<string, Value> := map[];
    f := f["MinFocal" := Scalar(t.MinFocal)];
    f := f["MaxFocal" := Scalar(t.MaxFocal)];
    f := f["MaxAp4MinFocal" := Scalar(t.MaxAp4MinFocal)];
    f := f["MaxAp4MaxFocal" := Scalar(t.MaxAp4MaxFocal)];
    o := Obj(f);
  }

  const MakernotesLensKeys: set<string> :=
    {"LensID", "Lens", "LensFormat", "LensMount", "CamID", "CameraFormat",
     "CameraMount", "body", "FocalType", "LensFeatures_pre", "LensFeatures_suf",
     "MinFocal", "MaxFocal", "MaxAp4MinFocal", "MaxAp4MaxFocal", "MinAp4MinFocal",
     "MinAp4MaxFocal", "MaxAp", "MinAp", "CurFocal", "CurAp", "MaxAp4CurFocal",
     "MinAp4CurFocal", "MinFocusDistance", "FocusRangeIndex", "LensFStops",
     "TeleconverterID", "Teleconverter", "AdapterID", "Adapter", "AttachmentID",
     "Attachment", "FocalLengthIn35mmFormat"}

  /** Note that the key "LensID" is bound to the lens name `Lens`, not to `LensID`. */
  function MakernotesLensValue(t: MakernotesLens): Value
  {
    Obj(map[
      "LensID" := Str(t.Lens),
      "Lens" := Str(t.Lens),
      "LensFormat" := Scalar(t.LensFormat),
      "LensMount" := Scalar(t.LensMount),
      "CamID" := Scalar(t.CamID),
      "CameraFormat" := Scalar(t.CameraFormat),
      "CameraMount" := Scalar(t.CameraMount),
      "body" := Str(t.body),
      "FocalType" := Scalar(t.FocalType),
      "LensFeatures_pre" := Str(t.LensFeatures_pre),
      "LensFeatures_suf" := Str(t.LensFeatures_suf),
      "MinFocal" := Scalar(t.MinFocal),
      "MaxFocal" := Scalar(t.MaxFocal),
      "MaxAp4MinFocal" := Scalar(t.MaxAp4MinFocal),
      "MaxAp4MaxFocal" := Scalar(t.MaxAp4MaxFocal),
      "MinAp4MinFocal" := Scalar(t.MinAp4MinFocal),
      "MinAp4MaxFocal" := Scalar(t.MinAp4MaxFocal),
      "MaxAp" := Scalar(t.MaxAp),
      "MinAp" := Scalar(t.MinAp),
      "CurFocal" := Scalar(t.CurFocal),
      "CurAp" := Scalar(t.CurAp),
      "MaxAp4CurFocal" := Scalar(t.MaxAp4CurFocal),
      "MinAp4CurFocal" := Scalar(t.MinAp4CurFocal),
      "MinFocusDistance" := Scalar(t.MinFocusDistance),
      "FocusRangeIndex" := Scalar(t.FocusRangeIndex),
      "LensFStops" := Scalar(t.LensFStops),
      "TeleconverterID" := Scalar(t.TeleconverterID),
      "Teleconverter" := Str(t.Teleconverter),
      "AdapterID" := Scalar(t.AdapterID),
      "Adapter" := Str(t.Adapter),
      "AttachmentID" := Scalar(t.AttachmentID),
      "Attachment" := Str(t.Attachment),
      "FocalLengthIn35mmFormat" := Scalar(t.FocalLengthIn35mmFormat)])
  }

  method WrapMakernotesLens(t: MakernotesLens) returns (o: Value)
    ensures o == MakernotesLensValue(t)
    ensures o.Obj? && o.fields.Keys == MakernotesLensKeys
  {
    var f: map<string, Value> := map[];
    f := f["LensID" := Str(t.Lens)];
    f := f["Lens" := Str(t.Lens)];
    f := f["LensFormat" := Scalar(t.LensFormat)];
    f := f["LensMount" := Scalar(t.LensMount)];
    f := f["CamID" := Scalar(t.CamID)];
    f := f["CameraFormat" := Scalar(t.CameraFormat)];
    f := f["CameraMount" := Scalar(t.CameraMount)];
    f := f["body" := Str(t.body)];
    f := f["FocalType" := Scalar(t.FocalType)];
    f := f["LensFeatures_pre" := Str(t.LensFeatures_pre)];
    f := f["LensFeatures_suf" := Str(t.LensFeatures_suf)];
    f := f["MinFocal" := Scalar(t.MinFocal)];
    f := f["MaxFocal" := Scalar(t.MaxFocal)];
    f := f["MaxAp4MinFocal" := Scalar(t.MaxAp4MinFocal)];
    f := f["MaxAp4MaxFocal" := Scalar(t.MaxAp4MaxFocal)];
    f := f["MinAp4MinFocal" := Scalar(t.MinAp4MinFocal)];
    f := f["MinAp4MaxFocal" := Scalar(t.MinAp4MaxFocal)];
    f := f["MaxAp" := Scalar(t.MaxAp)];
    f := f["MinAp" := Scalar(t.MinAp)];
    f := f["CurFocal" := Scalar(t.CurFocal)];
    f := f["CurAp" := Scalar(t.CurAp)];
    f := f["MaxAp4CurFocal" := Scalar(t.MaxAp4CurFocal)];
    f := f["MinAp4CurFocal" := Scalar(t.MinAp4CurFocal)];
    f := f["MinFocusDistance" := Scalar(t.MinFocusDistance)];
    f := f["FocusRangeIndex" := Scalar(t.FocusRangeIndex)];
    f := f["LensFStops" := Scalar(t.LensFStops)];
    f := f["TeleconverterID" := Scalar(t.TeleconverterID)];
    f := f["Teleconverter" := Str(t.Teleconverter)];
    f := f["AdapterID" := Scalar(t.AdapterID)];
    f := f["Adapter" := Str(t.Adapter)];
    f := f["AttachmentID" := Scalar(t.AttachmentID)];
    f := f["Attachment" := Str(t.Attachment)];
    f := f["FocalLengthIn35mmFormat" := Scalar(t.FocalLengthIn35mmFormat)];
    o := Obj(f);
  }

  /** Both "LensID" and "Lens" carry the lens name, whatever the numeric `LensID` is. */
  lemma MakernotesLensAliases(t: MakernotesLens)
    ensures MakernotesLensValue(t).fields["LensID"] == Str(t.Lens)
    ensures MakernotesLensValue(t).fields["Lens"] == Str(t.Lens)
    ensures forall id :: MakernotesLensValue(t.(LensID := id)) == MakernotesLensValue(t)
  {
  }

  const LensInfoKeys: set<string> :=
    {"MinFocal", "MaxFocal", "MaxAp4MinFocal", "MaxAp4MaxFocal", "EXIF_MaxAp",
     "LensMake", "Lens", "LensSerial", "InternalLensSerial",
     "FocalLengthIn35mmFormat", "dng", "makernotes"}

  function LensInfoValue(t: LensInfo): Value
  {
    Obj(map[
      "MinFocal" := Scalar(t.MinFocal),
      "MaxFocal" := Scalar(t.MaxFocal),
      "MaxAp4MinFocal" := Scalar(t.MaxAp4MinFocal),
      "MaxAp4MaxFocal" := Scalar(t.MaxAp4MaxFocal),
      "EXIF_MaxAp" := Scalar(t.EXIF_MaxAp),
      "LensMake" := Str(t.LensMake),
      "Lens" := Str(t.Lens),
      "LensSerial" := Str(t.LensSerial),
      "InternalLensSerial" := Str(t.InternalLensSerial),
      "FocalLengthIn35mmFormat" := Scalar(t.FocalLengthIn35mmFormat),
      "dng" := DngLensValue(t.dng),
      "makernotes" := MakernotesLensValue(t.makernotes)])
  }

  method WrapLensInfo(t: LensInfo) returns (o: Value)
    ensures o == LensInfoValue(t)
    ensures o.Obj? && o.fields.Keys == LensInfoKeys
  {
    var f: map<string, Value> := map[];
    f := f["MinFocal" := Scalar(t.MinFocal)];
    f := f["MaxFocal" := Scalar(t.MaxFocal)];
    f := f["MaxAp4MinFocal" := Scalar(t.MaxAp4MinFocal)];
    f := f["MaxAp4MaxFocal" := Scalar(t.MaxAp4MaxFocal)];
    f := f["EXIF_MaxAp" := Scalar(t.EXIF_MaxAp)];
    f := f["LensMake" := Str(t.LensMake)];
    f := f["Lens" := Str(t.Lens)];
    f := f["LensSerial" := Str(t.LensSerial)];
    f := f["InternalLensSerial" := Str(t.InternalLensSerial)];
    f := f["FocalLengthIn35mmFormat" := Scalar(t.FocalLengthIn35mmFormat)];
    var dng := WrapDngLens(t.dng);
    f := f["dng" := dng];
    var makernotes := WrapMakernotesLens(t.makernotes);
    f := f["makernotes" := makernotes];
    o := Obj(f);
  }

  /** The nested lens blocks are built by their own wrappers. */
  lemma LensInfoParts(t: LensInfo)
    ensures LensInfoValue(t).Obj?
    ensures "dng" in LensInfoValue(t).fields && "makernotes" in LensInfoValue(t).fields
    ensures LensInfoValue(t).fields["dng"] == DngLensValue(t.dng)
    ensures LensInfoValue(t).fields["makernotes"] == MakernotesLensValue(t.makernotes)
  {
  }

  // ---------------------------------------------------------------------------
  // Makernotes and shooting info
  // ---------------------------------------------------------------------------

  const NikonMakernotesKeys: set<string> := NikonFocusKeys + NikonFlashKeys

  /** The Nikon keys up to and including `FlashType`. */
  const NikonFocusKeys: set<string> :=
    {"ExposureBracketValue", "ActiveDLighting", "ShootingMode",
     "ImageStabilization", "VibrationReduction", "VRMode", "FocusMode",
     "AFPoint", "AFPointsInFocus", "ContrastDetectAF", "AFAreaMode",
     "PhaseDetectAF", "PrimaryAFPoint", "AFPointsUsed", "AFImageWidth",
     "AFImageHeight", "AFAreaXPposition", "AFAreaYPosition", "AFAreaWidth",
     "AFAreaHeight", "ContrastDetectAFInFocus", "FlashSetting", "FlashType"}

  /** The Nikon keys from `FlashExposureCompensation` on. */
  const NikonFlashKeys: set<string> :=
    {"FlashExposureCompensation", "ExternalFlashExposureComp",
     "FlashExposureBracketValue", "FlashMode", "FlashExposureCompensation2",
     "FlashExposureCompensation3", "FlashExposureCompensation4", "FlashSource",
     "FlashFirmware", "ExternalFlashFlags", "FlashControlCommanderMode",
     "FlashOutputAndCompensation", "FlashFocalLength", "FlashGNDistance",
     "FlashGroupControlMode", "FlashGroupOutputAndCompensation",
     "FlashColorFilter", "NEFCompression", "ExposureMode", "nMEshots",
     "MEgainOn", "ME_WB", "AFFineTune", "AFFineTuneIndex", "AFFineTuneAdj"}

  /**
   * The Nikon block; it is defined by the binding but never reached from `WrapLibRawData`.
   * Its 48 properties are split into two halves joined by `+`; the halves share no key.
   */
  function NikonMakernotesValue(t: NikonMakernotes): Value
    requires t.Valid()
  {
    Obj(NikonFocusFields(t) + NikonFlashFields(t))
  }

  /** The focus and stabilisation half of the Nikon block. */
  function NikonFocusFields(t: NikonMakernotes): map<string, Value>
    requires t.Valid()
  {
    map[
      "ExposureBracketValue" := Scalar(t.ExposureBracketValue),
      "ActiveDLighting" := Scalar(t.ActiveDLighting),
      "ShootingMode" := Scalar(t.ShootingMode),
      "ImageStabilization" := ArrayValue(t.ImageStabilization, 7),
      "VibrationReduction" := Scalar(t.VibrationReduction),
      "VRMode" := Scalar(t.VRMode),
      "FocusMode" := ArrayValue(t.FocusMode, 7),
      "AFPoint" := Scalar(t.AFPoint),
      "AFPointsInFocus" := Scalar(t.AFPointsInFocus),
      "ContrastDetectAF" := Scalar(t.ContrastDetectAF),
      "AFAreaMode" := Scalar(t.AFAreaMode),
      "PhaseDetectAF" := Scalar(t.PhaseDetectAF),
      "PrimaryAFPoint" := Scalar(t.PrimaryAFPoint),
      "AFPointsUsed" := ArrayValue(t.AFPointsUsed, 29),
      "AFImageWidth" := Scalar(t.AFImageWidth),
      "AFImageHeight" := Scalar(t.AFImageHeight),
      "AFAreaXPposition" := Scalar(t.AFAreaXPposition),
      "AFAreaYPosition" := Scalar(t.AFAreaYPosition),
      "AFAreaWidth" := Scalar(t.AFAreaWidth),
      "AFAreaHeight" := Scalar(t.AFAreaHeight),
      "ContrastDetectAFInFocus" := Scalar(t.ContrastDetectAFInFocus),
      "FlashSetting" := Str(t.FlashSetting),
      "FlashType" := Str(t.FlashType)]
  }

  /** The flash and multiple-exposure half of the Nikon block. */
  function NikonFlashFields(t: NikonMakernotes): map<string, Value>
    requires t.Valid()
  {
    map[
      "FlashExposureCompensation" := ArrayValue(t.FlashExposureCompensation, 4),
      "ExternalFlashExposureComp" := ArrayValue(t.ExternalFlashExposureComp, 4),
      "FlashExposureBracketValue" := ArrayValue(t.FlashExposureBracketValue, 4),
      "FlashMode" := Scalar(t.FlashMode),
      "FlashExposureCompensation2" := Scalar(t.FlashExposureCompensation2),
      "FlashExposureCompensation3" := Scalar(t.FlashExposureCompensation3),
      "FlashExposureCompensation4" := Scalar(t.FlashExposureCompensation4),
      "FlashSource" := Scalar(t.FlashSource),
      "FlashFirmware" := ArrayValue(t.FlashFirmware, 2),
      "ExternalFlashFlags" := Scalar(t.ExternalFlashFlags),
      "FlashControlCommanderMode" := Scalar(t.FlashControlCommanderMode),
      "FlashOutputAndCompensation" := Scalar(t.FlashOutputAndCompensation),
      "FlashFocalLength" := Scalar(t.FlashFocalLength),
      "FlashGNDistance" := Scalar(t.FlashGNDistance),
      "FlashGroupControlMode" := ArrayValue(t.FlashGroupControlMode, 4),
      "FlashGroupOutputAndCompensation" := ArrayValue(t.FlashGroupOutputAndCompensation, 4),
      "FlashColorFilter" := Scalar(t.FlashColorFilter),
      "NEFCompression" := Scalar(t.NEFCompression),
      "ExposureMode" := Scalar(t.ExposureMode),
      "nMEshots" := Scalar(t.nMEshots),
      "MEgainOn" := Scalar(t.MEgainOn),
      "ME_WB" := ArrayValue(t.ME_WB, 4),
      "AFFineTune" := Scalar(t.AFFineTune),
      "AFFineTuneIndex" := Scalar(t.AFFineTuneIndex),
      "AFFineTuneAdj" := Scalar(t.AFFineTuneAdj)]
  }

  method WrapNikonMakernotes(t: NikonMakernotes) returns (o: Value)
    requires t.Valid()
    ensures o == NikonMakernotesValue(t)
    ensures o.Obj? && o.fields.Keys == NikonMakernotesKeys
  {
    var f := WrapNikonFocus(t);
    var g := WrapNikonFlash(t);
    o := Obj(f + g);
  }

  /** The first half of `WrapNikonMakernotes`: the shooting and autofocus fields. */
  method WrapNikonFocus(t: NikonMakernotes) returns (f: map<string, Value>)
    requires t.Valid()
    ensures f == NikonFocusFields(t) && f.Keys == NikonFocusKeys
  {
    f := map[];
    var a: Value;
    f := f["ExposureBracketValue" := Scalar(t.ExposureBracketValue)];
    f := f["ActiveDLighting" := Scalar(t.ActiveDLighting)];
    f := f["ShootingMode" := Scalar(t.ShootingMode)];
    a := WrapArray(t.ImageStabilization, 7);
    f := f["ImageStabilization" := a];
    f := f["VibrationReduction" := Scalar(t.VibrationReduction)];
    f := f["VRMode" := Scalar(t.VRMode)];
    a := WrapArray(t.FocusMode, 7);
    f := f["FocusMode" := a];
    f := f["AFPoint" := Scalar(t.AFPoint)];
    f := f["AFPointsInFocus" := Scalar(t.AFPointsInFocus)];
    f := f["ContrastDetectAF" := Scalar(t.ContrastDetectAF)];
    f := f["AFAreaMode" := Scalar(t.AFAreaMode)];
    f := f["PhaseDetectAF" := Scalar(t.PhaseDetectAF)];
    f := f["PrimaryAFPoint" := Scalar(t.PrimaryAFPoint)];
    a := WrapArray(t.AFPointsUsed, 29);
    f := f["AFPointsUsed" := a];
    f := f["AFImageWidth" := Scalar(t.AFImageWidth)];
    f := f["AFImageHeight" := Scalar(t.AFImageHeight)];
    f := f["AFAreaXPposition" := Scalar(t.AFAreaXPposition)];
    f := f["AFAreaYPosition" := Scalar(t.AFAreaYPosition)];
    f := f["AFAreaWidth" := Scalar(t.AFAreaWidth)];
    f := f["AFAreaHeight" := Scalar(t.AFAreaHeight)];
    f := f["ContrastDetectAFInFocus" := Scalar(t.ContrastDetectAFInFocus)];
    f := f["FlashSetting" := Str(t.FlashSetting)];
    f := f["FlashType" := Str(t.FlashType)];
  }

  /** The second half of `WrapNikonMakernotes`: the flash and multiple-exposure fields. */
  method WrapNikonFlash(t: NikonMakernotes) returns (g: map<string, Value>)
    requires t.Valid()
    ensures g == NikonFlashFields(t) && g.Keys == NikonFlashKeys
  {
    g := map[];
    var a: Value;
    a := WrapArray(t.FlashExposureCompensation, 4);
    g := g["FlashExposureCompensation" := a];
    a := WrapArray(t.ExternalFlashExposureComp, 4);
    g := g["ExternalFlashExposureComp" := a];
    a := WrapArray(t.FlashExposureBracketValue, 4);
    g := g["FlashExposureBracketValue" := a];
    g := g["FlashMode" := Scalar(t.FlashMode)];
    g := g["FlashExposureCompensation2" := Scalar(t.FlashExposureCompensation2)];
    g := g["FlashExposureCompensation3" := Scalar(t.FlashExposureCompensation3)];
    g := g["FlashExposureCompensation4" := Scalar(t.FlashExposureCompensation4)];
    g := g["FlashSource" := Scalar(t.FlashSource)];
    a := WrapArray(t.FlashFirmware, 2);
    g := g["FlashFirmware" := a];
    g := g["ExternalFlashFlags" := Scalar(t.ExternalFlashFlags)];
    g := g["FlashControlCommanderMode" := Scalar(t.FlashControlCommanderMode)];
    g := g["FlashOutputAndCompensation" := Scalar(t.FlashOutputAndCompensation)];
    g := g["FlashFocalLength" := Scalar(t.FlashFocalLength)];
    g := g["FlashGNDistance" := Scalar(t.FlashGNDistance)];
    a := WrapArray(t.FlashGroupControlMode, 4);
    g := g["FlashGroupControlMode" := a];
    a := WrapArray(t.FlashGroupOutputAndCompensation, 4);
    g := g["FlashGroupOutputAndCompensation" := a];
    g := g["FlashColorFilter" := Scalar(t.FlashColorFilter)];
    g := g["NEFCompression" := Scalar(t.NEFCompression)];
    g := g["ExposureMode" := Scalar(t.ExposureMode)];
    g := g["nMEshots" := Scalar(t.nMEshots)];
    g := g["MEgainOn" := Scalar(t.MEgainOn)];
    a := WrapArray(t.ME_WB, 4);
    g := g["ME_WB" := a];
    g := g["AFFineTune" := Scalar(t.AFFineTune)];
    g := g["AFFineTuneIndex" := Scalar(t.AFFineTuneIndex)];
    g := g["AFFineTuneAdj" := Scalar(t.AFFineTuneAdj)];
  }

  /** The Nikon image-stabilisation array has the length of the C array it copies. */
  lemma NikonMakernotesShapes(t: NikonMakernotes)
    requires t.Valid()
    ensures var v := NikonMakernotesValue(t);
      && v.Obj?
      && RowOf(v.fields["ImageStabilization"], t.ImageStabilization, 7)
  {
    assert "ImageStabilization" !in NikonFlashFields(t);
    assert NikonFocusFields(t)["ImageStabilization"] == ArrayValue(t.ImageStabilization, 7);
  }

  /** The Nikon flash and multiple-exposure arrays have the lengths of their C arrays. */
  lemma NikonMakernotesFlashShapes(t: NikonMakernotes)
    requires t.Valid()
    ensures var v := NikonMakernotesValue(t);
      && v.Obj?
      && RowOf(v.fields["FlashExposureCompensation"], t.FlashExposureCompensation, 4)
      && RowOf(v.fields["FlashFirmware"], t.FlashFirmware, 2)
      && RowOf(v.fields["ME_WB"], t.ME_WB, 4)
  {
    var f := NikonFlashFields(t);
    assert f["FlashExposureCompensation"] == ArrayValue(t.FlashExposureCompensation, 4);
    assert f["FlashFirmware"] == ArrayValue(t.FlashFirmware, 2);
    assert f["ME_WB"] == ArrayValue(t.ME_WB, 4);
  }

  /** The makernotes object: every vendor block is commented out, so it is `{}`. */
  function MakernotesValue(t: Makernotes): Value
  {
    EmptyObject
  }

  method WrapMakernotes(t: Makernotes) returns (o: Value)
    ensures o == MakernotesValue(t)
    ensures o.Obj? && o.fields.Keys == {}
  {
    var f: map<string, Value> := map[];
    o := Obj(f);
  }

  const ShootingInfoKeys: set<string> :=
    {"DriverMode", "FocusMode", "MeteringMode", "AFPoint", "ExposureMode",
     "ImageStabilization", "BodySerial", "InternalBodySerial"}

  /** Note the key "DriverMode" for the field `DriveMode`. */
  function ShootingInfoValue(t: ShootingInfo): Value
  {
    Obj(map[
      "DriverMode" := Scalar(t.DriveMode),
      "FocusMode" := Scalar(t.FocusMode),
      "MeteringMode" := Scalar(t.MeteringMode),
      "AFPoint" := Scalar(t.AFPoint),
      "ExposureMode" := Scalar(t.ExposureMode),
      "ImageStabilization" := Scalar(t.ImageStabilization),
      "BodySerial" := Str(t.BodySerial),
      "InternalBodySerial" := Str(t.InternalBodySerial)])
  }

  method WrapShootinginfo(t: ShootingInfo) returns (o: Value)
    ensures o == ShootingInfoValue(t)
    ensures o.Obj? && o.fields.Keys == ShootingInfoKeys
  {
    var f: map<string, Value> := map[];
    f := f["DriverMode" := Scalar(t.DriveMode)];
    f := f["FocusMode" := Scalar(t.FocusMode)];
    f := f["MeteringMode" := Scalar(t.MeteringMode)];
    f := f["AFPoint" := Scalar(t.AFPoint)];
    f := f["ExposureMode" := Scalar(t.ExposureMode)];
    f := f["ImageStabilization" := Scalar(t.ImageStabilization)];
    f := f["BodySerial" := Str(t.BodySerial)];
    f := f["InternalBodySerial" := Str(t.InternalBodySerial)];
    o := Obj(f);
  }

  /** The drive mode is emitted under the key "DriverMode", and not under its field name. */
  lemma ShootingInfoDriveMode(t: ShootingInfo)
    ensures var v := ShootingInfoValue(t);
      v.Obj? && v.fields["DriverMode"] == Scalar(t.DriveMode) && "DriveMode" !in v.fields
  {
  }

  // ---------------------------------------------------------------------------
  // Output parameters
  // ---------------------------------------------------------------------------

  /** The keys the output-parameter object is meant to carry (one per emitted field). */
  const OutputParamsKeys: set<string> :=
    {"greybox", "cropbox", "aber", "gamm", "shot_select", "bright", "threshold",
     "half_size", "four_color_rgb", "highlight", "use_auto_wb", "use_camera_wb",
     "use_camera_matrix", "output_color", "output_bps", "output_tiff",
     "user_flip", "user_qual", "user_black", "user_cblack", "user_sat",
     "med_passes", "auto_bright_thr", "adjust_maximum_thr", "no_auto_bright",
     "use_fuji_rotate", "green_matching", "dcb_iterations", "dcb_enhance_fl",
     "fbdd_noiserd", "exp_correc", "exp_shift", "exp_preser", "use_rawspeed",
     "use_dngsdk", "no_auto_scale", "no_interpolation", "raw_processing_options",
     "sony_arw2_posterization_thr", "coolscan_nef_gamma"}

  /** The last four keys, which the binding writes as character constants. */
  const QuotedKeys: seq<string> :=
    ["no_interpolation", "raw_processing_options", "sony_arw2_posterization_thr", "coolscan_nef_gamma"]

  /**
   * The output-parameter object with every field under its own name (the
   * corrected form, used by `WrapLibRawData`).
   */
  function OutputParamsValue(t: OutputParams): Value
    requires t.Valid()
  {
    Obj(OutputParamsNamedFields(t)[
      "no_interpolation" := Scalar(t.no_interpolation)][
      "raw_processing_options" := Scalar(t.raw_processing_options)][
      "sony_arw2_posterization_thr" := Scalar(t.sony_arw2_posterization_thr)][
      "coolscan_nef_gamma" := Scalar(t.coolscan_nef_gamma)])
  }

  /** The fields the binding sets under double-quoted (string) keys. */
  function OutputParamsNamedFields(t: OutputParams): map<string, Value>
    requires t.Valid()
  {
    map[
      "greybox" := ArrayValue(t.greybox, 4),
      "cropbox" := ArrayValue(t.cropbox, 4),
      "aber" := ArrayValue(t.aber, 4),
      "gamm" := ArrayValue(t.gamm, 6),
      "shot_select" := Scalar(t.shot_select),
      "bright" := Scalar(t.bright),
      "threshold" := Scalar(t.threshold),
      "half_size" := Scalar(t.half_size),
      "four_color_rgb" := Scalar(t.four_color_rgb),
      "highlight" := Scalar(t.highlight),
      "use_auto_wb" := Scalar(t.use_auto_wb),
      "use_camera_wb" := Scalar(t.use_camera_wb),
      "use_camera_matrix" := Scalar(t.use_camera_matrix),
      "output_color" := Scalar(t.output_color),
      "output_bps" := Scalar(t.output_bps),
      "output_tiff" := Scalar(t.output_tiff),
      "user_flip" := Scalar(t.user_flip),
      "user_qual" := Scalar(t.user_qual),
      "user_black" := Scalar(t.user_black),
      "user_cblack" := ArrayValue(t.user_cblack, 4),
      "user_sat" := Scalar(t.user_sat),
      "med_passes" := Scalar(t.med_passes),
      "auto_bright_thr" := Scalar(t.auto_bright_thr),
      "adjust_maximum_thr" := Scalar(t.adjust_maximum_thr),
      "no_auto_bright" := Scalar(t.no_auto_bright),
      "use_fuji_rotate" := Scalar(t.use_fuji_rotate),
      "green_matching" := Scalar(t.green_matching),
      "dcb_iterations" := Scalar(t.dcb_iterations),
      "dcb_enhance_fl" := Scalar(t.dcb_enhance_fl),
      "fbdd_noiserd" := Scalar(t.fbdd_noiserd),
      "exp_correc" := Scalar(t.exp_correc),
      "exp_shift" := Scalar(t.exp_shift),
      "exp_preser" := Scalar(t.exp_preser),
      "use_rawspeed" := Scalar(t.use_rawspeed),
      "use_dngsdk" := Scalar(t.use_dngsdk),
      "no_auto_scale" := Scalar(t.no_auto_scale)]
  }

  /**
   * The value GCC gives a multi-character constant such as 'no_interpolation',
   * converted to `uint32_t`: each character is shifted in eight bits at a time
   * and the result truncated to 32 bits, so only the last four characters count.
   */
  function MultiCharIndex(s: string): (n: nat)
    ensures n < 0x1_0000_0000
  {
    if |s| == 0 then 0
    else (MultiCharIndex(s[..|s| - 1]) * 256 + (s[|s| - 1] as int) % 256) % 0x1_0000_0000
  }

  /** The property name JavaScript gives array index `n`: its decimal digits. */
  function IndexKey(n: nat): (s: string)
    ensures |s| > 0
    ensures forall i :: 0 <= i < |s| ==> '0' <= s[i] <= '9'
  {
    var d := ['0' + ((n % 10) as char)];
    if n < 10 then d else IndexKey(n / 10) + d
  }

  /**
   * The output-parameter object as the binding writes it: the four single-quoted
   * keys are `int` character constants, so `Object::Set(uint32_t, ...)` stores
   * those fields under numeric index keys.
   */
  function OutputParamsValueAsWritten(t: OutputParams): (r: Value)
    requires t.Valid()
    ensures r.Obj? && OutputParamsNamedFields(t).Keys <= r.fields.Keys
  {
    Obj(QuotedFieldsAt(OutputParamsNamedFields(t), t,
      IndexKey(MultiCharIndex("no_interpolation")),
      IndexKey(MultiCharIndex("raw_processing_options")),
      IndexKey(MultiCharIndex("sony_arw2_posterization_thr")),
      IndexKey(MultiCharIndex("coolscan_nef_gamma"))))
  }

  /** `fields` with the four single-quoted fields added under the keys `k1` to `k4`. */
  function QuotedFieldsAt(fields: map<string, Value>, t: OutputParams, k1: string, k2: string, k3: string, k4: string)
    : (r: map<string, Value>)
    ensures fields.Keys <= r.Keys
  {
    fields[k1 := Scalar(t.no_interpolation)][k2 := Scalar(t.raw_processing_options)][
      k3 := Scalar(t.sony_arw2_posterization_thr)][k4 := Scalar(t.coolscan_nef_gamma)]
  }

  /** With four distinct keys, no field overwrites another. */
  lemma QuotedFieldsAtDistinct(fields: map<string, Value>, t: OutputParams, k1: string, k2: string, k3: string, k4: string)
    requires k1 != k2 && k1 != k3 && k1 != k4 && k2 != k3 && k2 != k4 && k3 != k4
    ensures QuotedFieldsAt(fields, t, k1, k2, k3, k4)[k1] == Scalar(t.no_interpolation)
    ensures QuotedFieldsAt(fields, t, k1, k2, k3, k4)[k2] == Scalar(t.raw_processing_options)
    ensures QuotedFieldsAt(fields, t, k1, k2, k3, k4)[k3] == Scalar(t.sony_arw2_posterization_thr)
    ensures QuotedFieldsAt(fields, t, k1, k2, k3, k4)[k4] == Scalar(t.coolscan_nef_gamma)
  {
  }

  /** A name that does not start with a digit is never an array index key. */
  lemma NameIsNotIndexKey(k: string, n: nat)
    requires |k| > 0 && !('0' <= k[0] <= '9')
    ensures k != IndexKey(n)
  {
  }

  /** None of the four single-quoted names is among the double-quoted keys. */
  lemma OutputParamsQuotedNotNamed(t: OutputParams, k: string)
    requires t.Valid()
    requires k in QuotedKeys
    ensures k !in OutputParamsNamedFields(t)
  {
  }

  /** As written, none of the four single-quoted names is a key of the object. */
  lemma OutputParamsAsWrittenLosesKey(t: OutputParams, k: string)
    requires t.Valid()
    requires k in QuotedKeys
    ensures k !in OutputParamsValueAsWritten(t).fields
  {
    OutputParamsQuotedNotNamed(t, k);
    assert |k| > 0 && !('0' <= k[0] <= '9');
    NameIsNotIndexKey(k, MultiCharIndex("no_interpolation"));
    NameIsNotIndexKey(k, MultiCharIndex("raw_processing_options"));
    NameIsNotIndexKey(k, MultiCharIndex("sony_arw2_posterization_thr"));
    NameIsNotIndexKey(k, MultiCharIndex("coolscan_nef_gamma"));
  }

  /** A constant of four characters does not wrap: its value is the four bytes, big-endian. */
  lemma MultiCharIndexFour(s: string)
    requires |s| == 4
    ensures MultiCharIndex(s) == (s[0] as int % 256) * 0x100_0000 + (s[1] as int % 256) * 0x1_0000
                                 + (s[2] as int % 256) * 0x100 + s[3] as int % 256
  {
    var a, b, c, d := s[0] as int % 256, s[1] as int % 256, s[2] as int % 256, s[3] as int % 256;
    assert s[..1][..0] == [];
    assert MultiCharIndex(s[..1]) == a;
    assert s[..2][..1] == s[..1];
    assert MultiCharIndex(s[..2]) == a * 0x100 + b;
    assert s[..3][..2] == s[..2];
    assert MultiCharIndex(s[..3]) == a * 0x1_0000 + b * 0x100 + c;
    assert s[..4] == s;
  }

  /** With five or more characters, the first one is shifted out of the 32 bits. */
  lemma {:induction false} MultiCharIndexDropFirst(s: string)
    requires |s| >= 5
    ensures MultiCharIndex(s) == MultiCharIndex(s[1..])
    decreases |s|
  {
    var p := s[..|s| - 1];
    assert s[1..][..|s| - 2] == p[1..];
    if |s| == 5 {
      MultiCharIndexFour(p);
      MultiCharIndexFour(s[1..]);
    } else {
      MultiCharIndexDropFirst(p);
    }
  }

  /** A constant ending in four given characters has their value. */
  lemma MultiCharIndexSuffix(p: string, t: string)
    requires |t| == 4
    ensures MultiCharIndex(p + t) == MultiCharIndex(t)
  {
    MultiCharIndexLastFour(p + t);
    assert (p + t)[|p|..] == t;
  }

  /** Only the last four characters of a multi-character constant count. */
  lemma {:induction false} MultiCharIndexLastFour(s: string)
    requires |s| >= 4
    ensures MultiCharIndex(s) == MultiCharIndex(s[|s| - 4..])
    decreases |s|
  {
    if |s| > 4 {
      MultiCharIndexDropFirst(s);
      MultiCharIndexLastFour(s[1..]);
      assert s[1..][|s| - 5..] == s[|s| - 4..];
    }
  }

  /** "tion" is the big-endian value of its four characters. */
  lemma NoInterpolationTail()
    ensures MultiCharIndex("tion") == 1953066862
  {
    MultiCharIndexFour("tion");
    assert 't' as int == 116 && 'i' as int == 105 && 'o' as int == 111 && 'n' as int == 110;
  }

  /** "no_interpolation" counts as its last four characters, "tion". */
  lemma NoInterpolationIndex()
    ensures MultiCharIndex("no_interpolation") == 1953066862
  {
    MultiCharIndexSuffix("no_interpola", "tion");
    assert "no_interpola" + "tion" == "no_interpolation";
    NoInterpolationTail();
  }

  /** "ions" is the big-endian value of its four characters. */
  lemma RawProcessingOptionsTail()
    ensures MultiCharIndex("ions") == 1768910451
  {
    MultiCharIndexFour("ions");
    assert 'i' as int == 105 && 'o' as int == 111 && 'n' as int == 110 && 's' as int == 115;
  }

  /** "raw_processing_options" counts as its last four characters, "ions". */
  lemma RawProcessingOptionsIndex()
    ensures MultiCharIndex("raw_processing_options") == 1768910451
  {
    MultiCharIndexSuffix("raw_processing_opt", "ions");
    assert "raw_processing_opt" + "ions" == "raw_processing_options";
    RawProcessingOptionsTail();
  }

  /** "_thr" is the big-endian value of its four characters. */
  lemma SonyArw2PosterizationThrTail()
    ensures MultiCharIndex("_thr") == 1601464434
  {
    MultiCharIndexFour("_thr");
    assert '_' as int == 95 && 't' as int == 116 && 'h' as int == 104 && 'r' as int == 114;
  }

  /** "sony_arw2_posterization_thr" counts as its last four characters, "_thr". */
  lemma SonyArw2PosterizationThrIndex()
    ensures MultiCharIndex("sony_arw2_posterization_thr") == 1601464434
  {
    MultiCharIndexSuffix("sony_arw2_posterization", "_thr");
    assert "sony_arw2_posterization" + "_thr" == "sony_arw2_posterization_thr";
    SonyArw2PosterizationThrTail();
  }

  /** "amma" is the big-endian value of its four characters. */
  lemma CoolscanNefGammaTail()
    ensures MultiCharIndex("amma") == 1634561377
  {
    MultiCharIndexFour("amma");
    assert 'a' as int == 97 && 'm' as int == 109 && 'm' as int == 109 && 'a' as int == 97;
  }

  /** "coolscan_nef_gamma" counts as its last four characters, "amma". */
  lemma CoolscanNefGammaIndex()
    ensures MultiCharIndex("coolscan_nef_gamma") == 1634561377
  {
    MultiCharIndexSuffix("coolscan_nef_g", "amma");
    assert "coolscan_nef_g" + "amma" == "coolscan_nef_gamma";
    CoolscanNefGammaTail();
  }

  /** Different indices have different property names. */
  lemma {:induction false} IndexKeyInjective(a: nat, b: nat)
    ensures IndexKey(a) == IndexKey(b) ==> a == b
  {
    if IndexKey(a) == IndexKey(b) {
      var ka, kb := IndexKey(a), IndexKey(b);
      assert ka[|ka| - 1] == '0' + ((a % 10) as char);
      assert kb[|kb| - 1] == '0' + ((b % 10) as char);
      if a >= 10 && b >= 10 {
        assert ka[..|ka| - 1] == IndexKey(a / 10);
        assert kb[..|kb| - 1] == IndexKey(b / 10);
        IndexKeyInjective(a / 10, b / 10);
      }
    }
  }
  /**
   * As written, each of the four single-quoted fields is stored under the
   * decimal key of its character constant, and no two of them collide.
   */
  lemma OutputParamsAsWrittenIndexKeys(t: OutputParams)
    requires t.Valid()
    ensures IndexKey(1953066862) in OutputParamsValueAsWritten(t).fields
    ensures IndexKey(1768910451) in OutputParamsValueAsWritten(t).fields
    ensures IndexKey(1601464434) in OutputParamsValueAsWritten(t).fields
    ensures IndexKey(1634561377) in OutputParamsValueAsWritten(t).fields
    ensures OutputParamsValueAsWritten(t).fields[IndexKey(1953066862)] == Scalar(t.no_interpolation)
    ensures OutputParamsValueAsWritten(t).fields[IndexKey(1768910451)] == Scalar(t.raw_processing_options)
    ensures OutputParamsValueAsWritten(t).fields[IndexKey(1601464434)] == Scalar(t.sony_arw2_posterization_thr)
    ensures OutputParamsValueAsWritten(t).fields[IndexKey(1634561377)] == Scalar(t.coolscan_nef_gamma)
  {
    NoInterpolationIndex();
    RawProcessingOptionsIndex();
    SonyArw2PosterizationThrIndex();
    CoolscanNefGammaIndex();
    var k1, k2, k3, k4 := IndexKey(1953066862), IndexKey(1768910451), IndexKey(1601464434), IndexKey(1634561377);
    IndexKeyInjective(1953066862, 1768910451);
    IndexKeyInjective(1953066862, 1601464434);
    IndexKeyInjective(1953066862, 1634561377);
    IndexKeyInjective(1768910451, 1601464434);
    IndexKeyInjective(1768910451, 1634561377);
    IndexKeyInjective(1601464434, 1634561377);
    QuotedFieldsAtDistinct(OutputParamsNamedFields(t), t, k1, k2, k3, k4);
  }

  /** The corrected `WrapOutputParams`: every field under its own name. */
  method WrapOutputParams(t: OutputParams) returns (o: Value)
    requires t.Valid()
    ensures o == OutputParamsValue(t)
    ensures o.Obj? && o.fields.Keys == OutputParamsKeys
  {
    var f: map<string, Value> := map[];
    var a: Value;
    a := WrapArray(t.greybox, 4);
    f := f["greybox" := a];
    a := WrapArray(t.cropbox, 4);
    f := f["cropbox" := a];
    a := WrapArray(t.aber, 4);
    f := f["aber" := a];
    a := WrapArray(t.gamm, 6);
    f := f["gamm" := a];
    f := f["shot_select" := Scalar(t.shot_select)];
    f := f["bright" := Scalar(t.bright)];
    f := f["threshold" := Scalar(t.threshold)];
    f := f["half_size" := Scalar(t.half_size)];
    f := f["four_color_rgb" := Scalar(t.four_color_rgb)];
    f := f["highlight" := Scalar(t.highlight)];
    f := f["use_auto_wb" := Scalar(t.use_auto_wb)];
    f := f["use_camera_wb" := Scalar(t.use_camera_wb)];
    f := f["use_camera_matrix" := Scalar(t.use_camera_matrix)];
    f := f["output_color" := Scalar(t.output_color)];
    f := f["output_bps" := Scalar(t.output_bps)];
    f := f["output_tiff" := Scalar(t.output_tiff)];
    f := f["user_flip" := Scalar(t.user_flip)];
    f := f["user_qual" := Scalar(t.user_qual)];
    f := f["user_black" := Scalar(t.user_black)];
    a := WrapArray(t.user_cblack, 4);
    f := f["user_cblack" := a];
    f := f["user_sat" := Scalar(t.user_sat)];
    f := f["med_passes" := Scalar(t.med_passes)];
    f := f["auto_bright_thr" := Scalar(t.auto_bright_thr)];
    f := f["adjust_maximum_thr" := Scalar(t.adjust_maximum_thr)];
    f := f["no_auto_bright" := Scalar(t.no_auto_bright)];
    f := f["use_fuji_rotate" := Scalar(t.use_fuji_rotate)];
    f := f["green_matching" := Scalar(t.green_matching)];
    f := f["dcb_iterations" := Scalar(t.dcb_iterations)];
    f := f["dcb_enhance_fl" := Scalar(t.dcb_enhance_fl)];
    f := f["fbdd_noiserd" := Scalar(t.fbdd_noiserd)];
    f := f["exp_correc" := Scalar(t.exp_correc)];
    f := f["exp_shift" := Scalar(t.exp_shift)];
    f := f["exp_preser" := Scalar(t.exp_preser)];
    f := f["use_rawspeed" := Scalar(t.use_rawspeed)];
    f := f["use_dngsdk" := Scalar(t.use_dngsdk)];
    f := f["no_auto_scale" := Scalar(t.no_auto_scale)];
    f := f["no_interpolation" := Scalar(t.no_interpolation)];
    f := f["raw_processing_options" := Scalar(t.raw_processing_options)];
    f := f["sony_arw2_posterization_thr" := Scalar(t.sony_arw2_posterization_thr)];
    f := f["coolscan_nef_gamma" := Scalar(t.coolscan_nef_gamma)];
    o := Obj(f);
  }

  /** The output-parameter arrays have the lengths of the C arrays they copy. */
  lemma OutputParamsShapes(t: OutputParams)
    requires t.Valid()
    ensures var v := OutputParamsValue(t);
      && v.Obj?
      && RowOf(v.fields["greybox"], t.greybox, 4)
      && RowOf(v.fields["cropbox"], t.cropbox, 4)
      && RowOf(v.fields["aber"], t.aber, 4)
      && RowOf(v.fields["gamm"], t.gamm, 6)
      && RowOf(v.fields["user_cblack"], t.user_cblack, 4)
  {
    assert OutputParamsValue(t).fields["greybox"] == ArrayValue(t.greybox, 4);
    assert OutputParamsValue(t).fields["cropbox"] == ArrayValue(t.cropbox, 4);
    assert OutputParamsValue(t).fields["aber"] == ArrayValue(t.aber, 4);
    assert OutputParamsValue(t).fields["gamm"] == ArrayValue(t.gamm, 6);
    assert OutputParamsValue(t).fields["user_cblack"] == ArrayValue(t.user_cblack, 4);
  }

  /** The four fields that the binding names with character literals, under their own names. */
  lemma OutputParamsQuotedFields(t: OutputParams)
    requires t.Valid()
    ensures var v := OutputParamsValue(t);
      && v.Obj?
      && v.fields["no_interpolation"] == Scalar(t.no_interpolation)
      && v.fields["raw_processing_options"] == Scalar(t.raw_processing_options)
      && v.fields["sony_arw2_posterization_thr"] == Scalar(t.sony_arw2_posterization_thr)
      && v.fields["coolscan_nef_gamma"] == Scalar(t.coolscan_nef_gamma)
  {
  }

  const InternalOutputParamsKeys: set<string> :=
    {"mix_green", "raw_color", "zero_is_bad", "shrink", "fuji_width"}

  function InternalOutputParamsValue(t: InternalOutputParams): Value
  {
    Obj(map[
      "mix_green" := Scalar(t.mix_green),
      "raw_color" := Scalar(t.raw_color),
      "zero_is_bad" := Scalar(t.zero_is_bad),
      "shrink" := Scalar(t.shrink),
      "fuji_width" := Scalar(t.fuji_width)])
  }

  method WrapInternalOutputParams(t: InternalOutputParams) returns (o: Value)
    ensures o == InternalOutputParamsValue(t)
    ensures o.Obj? && o.fields.Keys == InternalOutputParamsKeys
  {
    var f: map<string, Value> := map[];
    f := f["mix_green" := Scalar(t.mix_green)];
    f := f["raw_color" := Scalar(t.raw_color)];
    f := f["zero_is_bad" := Scalar(t.zero_is_bad)];
    f := f["shrink" := Scalar(t.shrink)];
    f := f["fuji_width" := Scalar(t.fuji_width)];
    o := Obj(f);
  }

  // ---------------------------------------------------------------------------
  // Colour data and its DNG / Phase One sub-blocks
  // ---------------------------------------------------------------------------

  function P1ColorValue(t: P1Color): Value
    requires t.Valid()
  {
    Obj(map["romm_cam" := ArrayValue(t.romm_cam, 9)])
  }

  method WrapP1Color(t: P1Color) returns (o: Value)
    requires t.Valid()
    ensures o == P1ColorValue(t)
    ensures o.Obj? && o.fields.Keys == {"romm_cam"}
  {
    var f: map<string, Value> := map[];
    var romm := WrapArray(t.romm_cam, 9);
    f := f["romm_cam" := romm];
    o := Obj(f);
  }

  lemma P1ColorShape(t: P1Color)
    requires t.Valid()
    ensures P1ColorValue(t).Obj? && RowOf(P1ColorValue(t).fields["romm_cam"], t.romm_cam, 9)
  {
  }

  const DngLevelsKeys: set<string> :=
    {"parsedfields", "dng_black", "dng_whitelevel", "default_crop",
     "preview_colorspace", "analogbalance"}

  function DngLevelsValue(t: DngLevels): Value
    requires t.Valid()
  {
    Obj(map[
      "parsedfields" := Scalar(t.parsedfields),
      "dng_black" := Scalar(t.dng_black),
      "dng_whitelevel" := ArrayValue(t.dng_whitelevel, 4),
      "default_crop" := ArrayValue(t.default_crop, 4),
      "preview_colorspace" := Scalar(t.preview_colorspace),
      "analogbalance" := ArrayValue(t.analogbalance, 4)])
  }

  method WrapDngLevels(t: DngLevels) returns (o: Value)
    requires t.Valid()
    ensures o == DngLevelsValue(t)
    ensures o.Obj? && o.fields.Keys == DngLevelsKeys
  {
    var f: map<string, Value> := map[];
    var a: Value;
    f := f["parsedfields" := Scalar(t.parsedfields)];
    f := f["dng_black" := Scalar(t.dng_black)];
    a := WrapArray(t.dng_whitelevel, 4);
    f := f["dng_whitelevel" := a];
    a := WrapArray(t.default_crop, 4);
    f := f["default_crop" := a];
    f := f["preview_colorspace" := Scalar(t.preview_colorspace)];
    a := WrapArray(t.analogbalance, 4);
    f := f["analogbalance" := a];
    o := Obj(f);
  }

  lemma DngLevelsShapes(t: DngLevels)
    requires t.Valid()
    ensures var v := DngLevelsValue(t);
      && v.Obj?
      && RowOf(v.fields["dng_whitelevel"], t.dng_whitelevel, 4)
      && RowOf(v.fields["default_crop"], t.default_crop, 4)
      && RowOf(v.fields["analogbalance"], t.analogbalance, 4)
  {
  }

  const DngColorKeys: set<string> :=
    {"parsedfields", "illuminant", "calibration", "colormatrix", "forwardmatrix"}

  function DngColorValue(t: DngColor): Value
    requires t.Valid()
  {
    Obj(map[
      "parsedfields" := Scalar(t.parsedfields),
      "illuminant" := Scalar(t.illuminant),
      "calibration" := MatrixValue(t.calibration, 4, 4),
      "colormatrix" := MatrixValue(t.colormatrix, 4, 3),
      "forwardmatrix" := MatrixValue(t.forwardmatrix, 3, 4)])
  }

  method WrapDngColor(t: DngColor) returns (o: Value)
    requires t.Valid()
    ensures o == DngColorValue(t)
    ensures o.Obj? && o.fields.Keys == DngColorKeys
  {
    var f: map<string, Value> := map[];
    f := f["parsedfields" := Scalar(t.parsedfields)];
    f := f["illuminant" := Scalar(t.illuminant)];
    var calibration := WrapRows(t.calibration, 4, 4);
    f := f["calibration" := calibration];
    var colormatrix := WrapRows(t.colormatrix, 4, 3);
    f := f["colormatrix" := colormatrix];
    var forwardmatrix := WrapRows(t.forwardmatrix, 3, 4);
    f := f["forwardmatrix" := forwardmatrix];
    o := Obj(f);
  }

  /** The two `dng_color` blocks, as an array of their objects. */
  function DngColorsValue(cs: seq<DngColor>): Value
    requires |cs| == 2 && cs[0].Valid() && cs[1].Valid()
  {
    Arr(seq(2, i requires 0 <= i < 2 => DngColorValue(cs[i])))
  }

  method WrapDngColors(cs: seq<DngColor>) returns (v: Value)
    requires |cs| == 2 && cs[0].Valid() && cs[1].Valid()
    ensures v == DngColorsValue(cs)
    ensures v == Arr([DngColorValue(cs[0]), DngColorValue(cs[1])])
  {
    var elems := new Value[2];
    for i := 0 to 2
      invariant forall k :: 0 <= k < i ==> elems[k] == DngColorValue(cs[k])
    {
      elems[i] := WrapDngColor(cs[i]);
    }
    v := Arr(elems[..]);
  }

  /** The two `P1_color` blocks, as an array of their objects. */
  function P1ColorsValue(cs: seq<P1Color>): Value
    requires |cs| == 2 && cs[0].Valid() && cs[1].Valid()
  {
    Arr(seq(2, i requires 0 <= i < 2 => P1ColorValue(cs[i])))
  }

  method WrapP1Colors(cs: seq<P1Color>) returns (v: Value)
    requires |cs| == 2 && cs[0].Valid() && cs[1].Valid()
    ensures v == P1ColorsValue(cs)
    ensures v == Arr([P1ColorValue(cs[0]), P1ColorValue(cs[1])])
  {
    var elems := new Value[2];
    for i := 0 to 2
      invariant forall k :: 0 <= k < i ==> elems[k] == P1ColorValue(cs[k])
    {
      elems[i] := WrapP1Color(cs[i]);
    }
    v := Arr(elems[..]);
  }

  /** The DNG colour matrices: `calibration` 4x4, `colormatrix` 4x3, `forwardmatrix` 3x4. */
  lemma DngColorShapes(t: DngColor)
    requires t.Valid()
    ensures var v := DngColorValue(t);
      && v.Obj?
      && GridOf(v.fields["calibration"], t.calibration, 4, 4)
      && GridOf(v.fields["colormatrix"], t.colormatrix, 4, 3)
      && GridOf(v.fields["forwardmatrix"], t.forwardmatrix, 3, 4)
  {
  }

  const Ph1Keys: set<string> :=
    {"format", "key_off", "tag_21a", "t_black", "split_col", "black_col",
     "split_row", "black_row", "tag_210"}

  function Ph1Value(t: Ph1): Value
  {
    Obj(map[
      "format" := Scalar(t.format),
      "key_off" := Scalar(t.key_off),
      "tag_21a" := Scalar(t.tag_21a),
      "t_black" := Scalar(t.t_black),
      "split_col" := Scalar(t.split_col),
      "black_col" := Scalar(t.black_col),
      "split_row" := Scalar(t.split_row),
      "black_row" := Scalar(t.black_row),
      "tag_210" := Scalar(t.tag_210)])
  }

  method WrapPh1(t: Ph1) returns (o: Value)
    ensures o == Ph1Value(t)
    ensures o.Obj? && o.fields.Keys == Ph1Keys
  {
    var f: map<string, Value> := map[];
    f := f["format" := Scalar(t.format)];
    f := f["key_off" := Scalar(t.key_off)];
    f := f["tag_21a" := Scalar(t.tag_21a)];
    f := f["t_black" := Scalar(t.t_black)];
    f := f["split_col" := Scalar(t.split_col)];
    f := f["black_col" := Scalar(t.black_col)];
    f := f["split_row" := Scalar(t.split_row)];
    f := f["black_row" := Scalar(t.black_row)];
    f := f["tag_210" := Scalar(t.tag_210)];
    o := Obj(f);
  }

  const ColordataKeys: set<string> :=
    {"black", "data_maximum", "maximum", "linear_max", "fmaximum", "fnorm",
     "white", "cam_mul", "pre_mul", "cmatrix", "ccm", "rgb_cam", "cam_xyz",
     "phase_one_data", "flash_used", "canon_ev", "model2", "UniqueCameraModel",
     "LocalizedCameraModel", "profile_length", "black_stat", "dng_color",
     "dng_levels", "WB_Coeffs", "WBCT_Coeffs", "P1_color"}

  function ColordataValue(t: Colordata): Value
    requires t.Valid()
  {
    Obj(map[
      "black" := Scalar(t.black),
      "data_maximum" := Scalar(t.data_maximum),
      "maximum" := Scalar(t.maximum),
      "linear_max" := ArrayValue(t.linear_max, 4),
      "fmaximum" := Scalar(t.fmaximum),
      "fnorm" := Scalar(t.fnorm),
      "white" := MatrixValue(t.white, 8, 8),
      "cam_mul" := ArrayValue(t.cam_mul, 4),
      "pre_mul" := ArrayValue(t.pre_mul, 4),
      "cmatrix" := MatrixValue(t.cmatrix, 3, 4),
      "ccm" := MatrixValue(t.ccm, 3, 4),
      "rgb_cam" := MatrixValue(t.rgb_cam, 3, 4),
      "cam_xyz" := MatrixValue(t.cam_xyz, 4, 3),
      "phase_one_data" := Ph1Value(t.phase_one_data),
      "flash_used" := Scalar(t.flash_used),
      "canon_ev" := Scalar(t.canon_ev),
      "model2" := Str(t.model2),
      "UniqueCameraModel" := Str(t.UniqueCameraModel),
      "LocalizedCameraModel" := Str(t.LocalizedCameraModel),
      "profile_length" := Scalar(t.profile_length),
      "black_stat" := ArrayValue(t.black_stat, 8),
      "dng_color" := DngColorsValue(t.dng_color),
      "dng_levels" := DngLevelsValue(t.dng_levels),
      "WB_Coeffs" := MatrixValue(t.WB_Coeffs, 256, 4),
      "WBCT_Coeffs" := MatrixValue(t.WBCT_Coeffs, 64, 5),
      "P1_color" := P1ColorsValue(t.P1_color)])
  }

  /** The matrices of the colour object have the extents of the C matrices they copy. */
  lemma ColordataShapes(t: Colordata)
    requires t.Valid()
    ensures var f := ColordataValue(t).fields;
      && GridOf(f["white"], t.white, 8, 8)
      && GridOf(f["cmatrix"], t.cmatrix, 3, 4)
      && GridOf(f["ccm"], t.ccm, 3, 4)
      && GridOf(f["rgb_cam"], t.rgb_cam, 3, 4)
      && GridOf(f["cam_xyz"], t.cam_xyz, 4, 3)
      && GridOf(f["WB_Coeffs"], t.WB_Coeffs, 256, 4)
      && GridOf(f["WBCT_Coeffs"], t.WBCT_Coeffs, 64, 5)
  {
  }

  /** The one-dimensional arrays of the colour object have the lengths of their C arrays. */
  lemma ColordataRows(t: Colordata)
    requires t.Valid()
    ensures var f := ColordataValue(t).fields;
      && RowOf(f["cam_mul"], t.cam_mul, 4) && RowOf(f["pre_mul"], t.pre_mul, 4)
      && RowOf(f["linear_max"], t.linear_max, 4) && RowOf(f["black_stat"], t.black_stat, 8)
  {
  }

  /** `dng_color` and `P1_color` are two-element arrays of the per-block objects. */
  lemma ColordataBlocks(t: Colordata)
    requires t.Valid()
    ensures var f := ColordataValue(t).fields;
      && f["dng_color"] == Arr([DngColorValue(t.dng_color[0]), DngColorValue(t.dng_color[1])])
      && f["P1_color"] == Arr([P1ColorValue(t.P1_color[0]), P1ColorValue(t.P1_color[1])])
      && f["phase_one_data"] == Ph1Value(t.phase_one_data)
      && f["dng_levels"] == DngLevelsValue(t.dng_levels)
  {
    var f := ColordataValue(t).fields;
    assert f["dng_color"].elems == [DngColorValue(t.dng_color[0]), DngColorValue(t.dng_color[1])];
    assert f["P1_color"].elems == [P1ColorValue(t.P1_color[0]), P1ColorValue(t.P1_color[1])];
  }

  /** The colour object carries exactly the listed keys. */
  lemma ColordataKeySet(t: Colordata)
    requires t.Valid()
    ensures ColordataValue(t).Obj? && ColordataValue(t).fields.Keys == ColordataKeys
  {
  }

  method WrapColordata(t: Colordata) returns (o: Value)
    requires t.Valid()
    ensures o == ColordataValue(t)
  {
    var f: map<string, Value> := map[];
    var a: Value;
    f := f["black" := Scalar(t.black)];
    f := f["data_maximum" := Scalar(t.data_maximum)];
    f := f["maximum" := Scalar(t.maximum)];
    a := WrapArray(t.linear_max, 4);
    f := f["linear_max" := a];
    f := f["fmaximum" := Scalar(t.fmaximum)];
    f := f["fnorm" := Scalar(t.fnorm)];
    a := WrapRows(t.white, 8, 8);
    f := f["white" := a];
    a := WrapArray(t.cam_mul, 4);
    f := f["cam_mul" := a];
    a := WrapArray(t.pre_mul, 4);
    f := f["pre_mul" := a];
    a := WrapRows(t.cmatrix, 3, 4);
    f := f["cmatrix" := a];
    a := WrapRows(t.ccm, 3, 4);
    f := f["ccm" := a];
    a := WrapRows(t.rgb_cam, 3, 4);
    f := f["rgb_cam" := a];
    a := WrapRows(t.cam_xyz, 4, 3);
    f := f["cam_xyz" := a];
    a := WrapPh1(t.phase_one_data);
    f := f["phase_one_data" := a];
    f := f["flash_used" := Scalar(t.flash_used)];
    f := f["canon_ev" := Scalar(t.canon_ev)];
    f := f["model2" := Str(t.model2)];
    f := f["UniqueCameraModel" := Str(t.UniqueCameraModel)];
    f := f["LocalizedCameraModel" := Str(t.LocalizedCameraModel)];
    f := f["profile_length" := Scalar(t.profile_length)];
    a := WrapArray(t.black_stat, 8);
    f := f["black_stat" := a];
    a := WrapDngColors(t.dng_color);
    f := f["dng_color" := a];
    a := WrapDngLevels(t.dng_levels);
    f := f["dng_levels" := a];
    a := WrapRows(t.WB_Coeffs, 256, 4);
    f := f["WB_Coeffs" := a];
    a := WrapRows(t.WBCT_Coeffs, 64, 5);
    f := f["WBCT_Coeffs" := a];
    a := WrapP1Colors(t.P1_color);
    f := f["P1_color" := a];
    o := Obj(f);
  }

  // ---------------------------------------------------------------------------
  // GPS, other, raw data and thumbnail
  // ---------------------------------------------------------------------------

  const GpsInfoKeys: set<string> :=
    {"latitude", "longtitude", "gpstimestamp", "altitude", "altref", "latref",
     "longref", "gpsstatus", "gpsparsed"}

  function GpsInfoValue(t: GpsInfo): Value
    requires t.Valid()
  {
    Obj(map[
      "latitude" := ArrayValue(t.latitude, 3),
      "longtitude" := ArrayValue(t.longtitude, 3),
      "gpstimestamp" := ArrayValue(t.gpstimestamp, 3),
      "altitude" := Scalar(t.altitude),
      "altref" := Scalar(t.altref),
      "latref" := Scalar(t.latref),
      "longref" := Scalar(t.longref),
      "gpsstatus" := Scalar(t.gpsstatus),
      "gpsparsed" := Scalar(t.gpsparsed)])
  }

  method WrapGpsInfo(t: GpsInfo) returns (o: Value)
    requires t.Valid()
    ensures o == GpsInfoValue(t)
    ensures o.Obj? && o.fields.Keys == GpsInfoKeys
  {
    var f: map<string, Value> := map[];
    var a: Value;
    a := WrapArray(t.latitude, 3);
    f := f["latitude" := a];
    a := WrapArray(t.longtitude, 3);
    f := f["longtitude" := a];
    a := WrapArray(t.gpstimestamp, 3);
    f := f["gpstimestamp" := a];
    f := f["altitude" := Scalar(t.altitude)];
    f := f["altref" := Scalar(t.altref)];
    f := f["latref" := Scalar(t.latref)];
    f := f["longref" := Scalar(t.longref)];
    f := f["gpsstatus" := Scalar(t.gpsstatus)];
    f := f["gpsparsed" := Scalar(t.gpsparsed)];
    o := Obj(f);
  }

  lemma GpsInfoShapes(t: GpsInfo)
    requires t.Valid()
    ensures var v := GpsInfoValue(t);
      && v.Obj?
      && RowOf(v.fields["latitude"], t.latitude, 3)
      && RowOf(v.fields["longtitude"], t.longtitude, 3)
      && RowOf(v.fields["gpstimestamp"], t.gpstimestamp, 3)
  {
  }

  const ImgotherKeys: set<string> :=
    {"iso_speed", "shutter", "aperture", "focal_len", "timestamp", "shot_order",
     "gpsdata", "parsed_gps", "desc", "artist"}

  function ImgotherValue(t: Imgother): Value
    requires t.Valid()
  {
    Obj(map[
      "iso_speed" := Scalar(t.iso_speed),
      "shutter" := Scalar(t.shutter),
      "aperture" := Scalar(t.aperture),
      "focal_len" := Scalar(t.focal_len),
      "timestamp" := Scalar(t.timestamp),
      "shot_order" := Scalar(t.shot_order),
      "gpsdata" := ArrayValue(t.gpsdata, 32),
      "parsed_gps" := GpsInfoValue(t.parsed_gps),
      "desc" := Str(t.desc),
      "artist" := Str(t.artist)])
  }

  /** `gpsdata` has 32 entries and each coordinate of `parsed_gps` has three. */
  lemma ImgotherGpsShapes(t: Imgother)
    requires t.Valid()
    ensures var f := ImgotherValue(t).fields;
      && f["gpsdata"].Arr? && |f["gpsdata"].elems| == 32
      && var g := f["parsed_gps"].fields;
      && f["parsed_gps"].Obj?
      && |g["latitude"].elems| == 3 && |g["longtitude"].elems| == 3 && |g["gpstimestamp"].elems| == 3
  {
  }

  method WrapImgother(t: Imgother) returns (o: Value)
    requires t.Valid()
    ensures o == ImgotherValue(t)
    ensures o.Obj? && o.fields.Keys == ImgotherKeys
  {
    var f: map<string, Value> := map[];
    f := f["iso_speed" := Scalar(t.iso_speed)];
    f := f["shutter" := Scalar(t.shutter)];
    f := f["aperture" := Scalar(t.aperture)];
    f := f["focal_len" := Scalar(t.focal_len)];
    f := f["timestamp" := Scalar(t.timestamp)];
    f := f["shot_order" := Scalar(t.shot_order)];
    var gpsdata := WrapArray(t.gpsdata, 32);
    f := f["gpsdata" := gpsdata];
    var parsedGps := WrapGpsInfo(t.parsed_gps);
    f := f["parsed_gps" := parsedGps];
    f := f["desc" := Str(t.desc)];
    f := f["artist" := Str(t.artist)];
    o := Obj(f);
  }

  const RawdataKeys: set<string> := {"iparams", "sizes", "ioparams", "color"}

  /** The raw-stage block; defined by the binding but never reached from `WrapLibRawData`. */
  function RawdataValue(t: Rawdata): Value
    requires t.Valid()
  {
    Obj(map[
      "iparams" := IdataValue(t.iparams),
      "sizes" := ImageSizesValue(t.sizes),
      "ioparams" := InternalOutputParamsValue(t.ioparams),
      "color" := ColordataValue(t.color)])
  }

  method WrapRawdata(t: Rawdata) returns (o: Value)
    requires t.Valid()
    ensures o == RawdataValue(t)
    ensures o.Obj? && o.fields.Keys == RawdataKeys
  {
    var f: map<string, Value> := map[];
    var a: Value;
    a := Wrapidata(t.iparams);
    f := f["iparams" := a];
    a := WrapImageSizes(t.sizes);
    f := f["sizes" := a];
    a := WrapInternalOutputParams(t.ioparams);
    f := f["ioparams" := a];
    a := WrapColordata(t.color);
    f := f["color" := a];
    o := Obj(f);
  }

  /** The raw-stage block is made of the four sub-wrappers' objects. */
  lemma RawdataParts(t: Rawdata)
    requires t.Valid()
    ensures var v := RawdataValue(t);
      && v.Obj?
      && v.fields["iparams"] == IdataValue(t.iparams)
      && v.fields["sizes"] == ImageSizesValue(t.sizes)
      && v.fields["ioparams"] == InternalOutputParamsValue(t.ioparams)
      && v.fields["color"] == ColordataValue(t.color)
  {
  }

  const ThumbnailKeys: set<string> := {"twidth", "theight", "tlength", "tcolors"}

  /** The thumbnail descriptor; neither `tformat` nor the `thumb` bytes are emitted. */
  function ThumbnailValue(t: Thumbnail): Value
  {
    Obj(map[
      "twidth" := Scalar(t.twidth),
      "theight" := Scalar(t.theight),
      "tlength" := Int(t.tlength),
      "tcolors" := Scalar(t.tcolors)])
  }

  method WrapThumbnail(t: Thumbnail) returns (o: Value)
    ensures o == ThumbnailValue(t)
    ensures o.Obj? && o.fields.Keys == ThumbnailKeys
  {
    var f: map<string, Value> := map[];
    f := f["twidth" := Scalar(t.twidth)];
    f := f["theight" := Scalar(t.theight)];
    f := f["tlength" := Int(t.tlength)];
    f := f["tcolors" := Scalar(t.tcolors)];
    o := Obj(f);
  }

  /** The thumbnail descriptor carries the byte length under "tlength" and no format or bytes. */
  lemma ThumbnailLength(t: Thumbnail)
    ensures var v := ThumbnailValue(t);
      v.Obj? && v.fields["tlength"] == Int(t.tlength) && "tformat" !in v.fields && "thumb" !in v.fields
  {
  }

  // ---------------------------------------------------------------------------
  // The aggregate
  // ---------------------------------------------------------------------------

  const LibRawDataKeys: set<string> :=
    {"color", "sizes", "idata", "lens", "makernotes", "shootinginfo", "params",
     "progress_flags", "process_warnings", "other", "thumbnail"}

  /** The metadata object assembled from its eleven already-marshaled parts. */
  function LibRawDataObject(
    color: Value, sizes: Value, idata: Value, lens: Value, makernotes: Value,
    shootinginfo: Value, params: Value, progressFlags: Num, processWarnings: Num,
    other: Value, thumbnail: Value): Value
  {
    Obj(map[
      "color" := color,
      "sizes" := sizes,
      "idata" := idata,
      "lens" := lens,
      "makernotes" := makernotes,
      "shootinginfo" := shootinginfo,
      "params" := params,
      "progress_flags" := Scalar(progressFlags),
      "process_warnings" := Scalar(processWarnings),
      "other" := other,
      "thumbnail" := thumbnail])
  }

  /** The metadata object has exactly the eleven listed keys. */
  lemma LibRawDataObjectKeys(
    color: Value, sizes: Value, idata: Value, lens: Value, makernotes: Value,
    shootinginfo: Value, params: Value, progressFlags: Num, processWarnings: Num,
    other: Value, thumbnail: Value)
    ensures var v := LibRawDataObject(color, sizes, idata, lens, makernotes, shootinginfo,
                                      params, progressFlags, processWarnings, other, thumbnail);
      v.Obj? && v.fields.Keys == LibRawDataKeys
  {
  }

  /** Each part lands under its own key. */
  lemma LibRawDataObjectShape(
    color: Value, sizes: Value, idata: Value, lens: Value, makernotes: Value,
    shootinginfo: Value, params: Value, progressFlags: Num, processWarnings: Num,
    other: Value, thumbnail: Value)
    ensures var v := LibRawDataObject(color, sizes, idata, lens, makernotes, shootinginfo,
                                      params, progressFlags, processWarnings, other, thumbnail);
      && v.Obj?
      && v.fields["color"] == color && v.fields["sizes"] == sizes
      && v.fields["idata"] == idata && v.fields["lens"] == lens
      && v.fields["makernotes"] == makernotes && v.fields["shootinginfo"] == shootinginfo
      && v.fields["params"] == params
      && v.fields["progress_flags"] == Scalar(progressFlags)
      && v.fields["process_warnings"] == Scalar(processWarnings)
      && v.fields["other"] == other && v.fields["thumbnail"] == thumbnail
  {
    LibRawDataObjectFirstParts(color, sizes, idata, lens, makernotes, shootinginfo,
                               params, progressFlags, processWarnings, other, thumbnail);
    LibRawDataObjectLastParts(color, sizes, idata, lens, makernotes, shootinginfo,
                              params, progressFlags, processWarnings, other, thumbnail);
  }

  /** The first six parts of the metadata object, each under its own key. */
  lemma LibRawDataObjectFirstParts(
    color: Value, sizes: Value, idata: Value, lens: Value, makernotes: Value,
    shootinginfo: Value, params: Value, progressFlags: Num, processWarnings: Num,
    other: Value, thumbnail: Value)
    ensures var v := LibRawDataObject(color, sizes, idata, lens, makernotes, shootinginfo,
                                      params, progressFlags, processWarnings, other, thumbnail);
      && v.Obj?
      && v.fields["color"] == color && v.fields["sizes"] == sizes
      && v.fields["idata"] == idata && v.fields["lens"] == lens
      && v.fields["makernotes"] == makernotes && v.fields["shootinginfo"] == shootinginfo
  {
  }

  /** The last five parts of the metadata object, each under its own key. */
  lemma LibRawDataObjectLastParts(
    color: Value, sizes: Value, idata: Value, lens: Value, makernotes: Value,
    shootinginfo: Value, params: Value, progressFlags: Num, processWarnings: Num,
    other: Value, thumbnail: Value)
    ensures var v := LibRawDataObject(color, sizes, idata, lens, makernotes, shootinginfo,
                                      params, progressFlags, processWarnings, other, thumbnail);
      && v.Obj?
      && v.fields["params"] == params
      && v.fields["progress_flags"] == Scalar(progressFlags)
      && v.fields["process_warnings"] == Scalar(processWarnings)
      && v.fields["other"] == other && v.fields["thumbnail"] == thumbnail
  {
  }

  /** The metadata tree: one key per sub-record, each built by its own wrapper. */
  function LibRawDataValue(d: LibRawData): Value
    requires d.Valid()
  {
    LibRawDataObject(
      ColordataValue(d.color), ImageSizesValue(d.sizes), IdataValue(d.idata),
      LensInfoValue(d.lens), MakernotesValue(d.makernotes),
      ShootingInfoValue(d.shootinginfo), OutputParamsValue(d.params),
      d.progress_flags, d.process_warnings, ImgotherValue(d.other),
      ThumbnailValue(d.thumbnail))
  }

  /**
   * The metadata tree as the binding writes it: the same as `LibRawDataValue`
   * except that "params" holds the output-parameter object with its four
   * single-quoted fields under index keys.
   */
  function LibRawDataValueAsWritten(d: LibRawData): Value
    requires d.Valid()
  {
    LibRawDataObject(
      ColordataValue(d.color), ImageSizesValue(d.sizes), IdataValue(d.idata),
      LensInfoValue(d.lens), MakernotesValue(d.makernotes),
      ShootingInfoValue(d.shootinginfo), OutputParamsValueAsWritten(d.params),
      d.progress_flags, d.process_warnings, ImgotherValue(d.other),
      ThumbnailValue(d.thumbnail))
  }

  /** The tree as written and the corrected tree differ in the "params" entry alone. */
  lemma LibRawDataAsWrittenDiffersInParams(d: LibRawData)
    requires d.Valid()
    ensures LibRawDataValue(d).Obj? && LibRawDataValueAsWritten(d).Obj?
    ensures LibRawDataValueAsWritten(d).fields
         == LibRawDataValue(d).fields["params" := OutputParamsValueAsWritten(d.params)]
  {
    LibRawDataObjectOtherParams(
      ColordataValue(d.color), ImageSizesValue(d.sizes), IdataValue(d.idata),
      LensInfoValue(d.lens), MakernotesValue(d.makernotes), ShootingInfoValue(d.shootinginfo),
      OutputParamsValue(d.params), OutputParamsValueAsWritten(d.params),
      d.progress_flags, d.process_warnings, ImgotherValue(d.other), ThumbnailValue(d.thumbnail));
  }

  /** Replacing the "params" part changes that entry of the metadata object and no other. */
  lemma LibRawDataObjectOtherParams(
    color: Value, sizes: Value, idata: Value, lens: Value, makernotes: Value,
    shootinginfo: Value, params: Value, params': Value, progressFlags: Num, processWarnings: Num,
    other: Value, thumbnail: Value)
    ensures LibRawDataObject(color, sizes, idata, lens, makernotes, shootinginfo,
                             params', progressFlags, processWarnings, other, thumbnail).fields
         == LibRawDataObject(color, sizes, idata, lens, makernotes, shootinginfo,
                             params, progressFlags, processWarnings, other, thumbnail).fields["params" := params']
  {
  }

  /**
   * The metadata tree depends only on the marshaled parts of the snapshot:
   * the `thumb` and `xmpdata` pointers, the raw-stage block and the vendor
   * makernotes do not influence it.
   */
  lemma LibRawDataIgnoresUnmarshaled(d: LibRawData, e: LibRawData)
    requires d.Valid() && e.Valid()
    requires d.(thumbnail := e.thumbnail, idata := e.idata, rawdata := e.rawdata, makernotes := e.makernotes) == e
    requires d.thumbnail.(thumb := e.thumbnail.thumb) == e.thumbnail
    requires d.idata.(xmpdata := e.idata.xmpdata) == e.idata
    ensures LibRawDataValue(d) == LibRawDataValue(e)
  {
  }

  method WrapLibRawData(d: LibRawData) returns (o: Value)
    requires d.Valid()
    ensures o == LibRawDataValue(d)
    ensures o.Obj? && o.fields.Keys == LibRawDataKeys
  {
    var f: map<string, Value> := map[];
    var a: Value;
    a := WrapColordata(d.color);
    f := f["color" := a];
    a := WrapImageSizes(d.sizes);
    f := f["sizes" := a];
    a := Wrapidata(d.idata);
    f := f["idata" := a];
    a := WrapLensInfo(d.lens);
    f := f["lens" := a];
    a := WrapMakernotes(d.makernotes);
    f := f["makernotes" := a];
    a := WrapShootinginfo(d.shootinginfo);
    f := f["shootinginfo" := a];
    a := WrapOutputParams(d.params);
    f := f["params" := a];
    f := f["progress_flags" := Scalar(d.progress_flags)];
    f := f["process_warnings" := Scalar(d.process_warnings)];
    a := WrapImgother(d.other);
    f := f["other" := a];
    a := WrapThumbnail(d.thumbnail);
    f := f["thumbnail" := a];
    o := Obj(f);
    LibRawDataObjectKeys(
      ColordataValue(d.color), ImageSizesValue(d.sizes), IdataValue(d.idata),
      LensInfoValue(d.lens), MakernotesValue(d.makernotes),
      ShootingInfoValue(d.shootinginfo), OutputParamsValue(d.params),
      d.progress_flags, d.process_warnings, ImgotherValue(d.other),
      ThumbnailValue(d.thumbnail));
  }

  /** Each key of the metadata tree holds the object its named sub-wrapper builds. */
  lemma LibRawDataParts(d: LibRawData)
    requires d.Valid()
    ensures var v := LibRawDataValue(d);
      && v.Obj?
      && v.fields["color"] == ColordataValue(d.color)
      && v.fields["sizes"] == ImageSizesValue(d.sizes)
      && v.fields["idata"] == IdataValue(d.idata)
      && v.fields["lens"] == LensInfoValue(d.lens)
      && v.fields["makernotes"] == MakernotesValue(d.makernotes)
      && v.fields["shootinginfo"] == ShootingInfoValue(d.shootinginfo)
      && v.fields["params"] == OutputParamsValue(d.params)
      && v.fields["progress_flags"] == Scalar(d.progress_flags)
      && v.fields["process_warnings"] == Scalar(d.process_warnings)
      && v.fields["other"] == ImgotherValue(d.other)
      && v.fields["thumbnail"] == ThumbnailValue(d.thumbnail)
  {
    LibRawDataObjectShape(
      ColordataValue(d.color), ImageSizesValue(d.sizes), IdataValue(d.idata),
      LensInfoValue(d.lens), MakernotesValue(d.makernotes),
      ShootingInfoValue(d.shootinginfo), OutputParamsValue(d.params),
      d.progress_flags, d.process_warnings, ImgotherValue(d.other),
      ThumbnailValue(d.thumbnail));
  }
}
