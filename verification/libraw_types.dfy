/**
 * LibRaw's `libraw_data_t` and the sub-structures the marshaler reads, as values.
 *
 * Field names are LibRaw's. A field of type `Num` is any integer or floating
 * point member; `string` is a C character array; a `seq<Num>` or
 * `seq<seq<Num>>` is a fixed-size C array whose extent the record's `Valid`
 * predicate states. Fields the marshaler never emits are kept only where their
 * absence from the output is worth seeing (`LensID`, `FocalUnits`, `curve`,
 * `profile`, `tformat`, `ExposureProgram`, `user_mul`, `max_raw_memory_mb`).
 */
module LibRawTypes {
  import opened Values

  /** `libraw_iparams_t`: camera identification. */
  datatype Iparams = Iparams(
    guard: string, make: string, model: string, software: string,
    dng_version: Num, is_foveon: Num, colors: Num, filters: Num,
    cdesc: string,
    xmplen: nat,          // length of the XMP block `xmpdata` points at
    xmpdata: Ptr)

  /** `libraw_image_sizes_t`: geometry; `mask` is `int mask[8][4]`. */
  datatype ImageSizes = ImageSizes(
    raw_height: Num, raw_width: Num, height: Num, width: Num,
    top_margin: Num, left_margin: Num, iheight: Num, iwidth: Num,
    raw_pitch: Num, pixel_aspect: Num, flip: Num,
    mask: seq<seq<Num>>)
  {
    predicate Valid() { IsGrid(mask, 8, 4) }
  }

  /** `libraw_dnglens_t`. */
  datatype DngLens = DngLens(MinFocal: Num, MaxFocal: Num, MaxAp4MinFocal: Num, MaxAp4MaxFocal: Num)

  /** `libraw_makernotes_lens_t`. */
  datatype MakernotesLens = MakernotesLens(
    LensID: Num, Lens: string, LensFormat: Num, LensMount: Num,
    CamID: Num, CameraFormat: Num, CameraMount: Num, body: string,
    FocalType: Num, LensFeatures_pre: string, LensFeatures_suf: string,
    MinFocal: Num, MaxFocal: Num, MaxAp4MinFocal: Num, MaxAp4MaxFocal: Num,
    MinAp4MinFocal: Num, MinAp4MaxFocal: Num, MaxAp: Num, MinAp: Num,
    CurFocal: Num, CurAp: Num, MaxAp4CurFocal: Num, MinAp4CurFocal: Num,
    MinFocusDistance: Num, FocusRangeIndex: Num, LensFStops: Num,
    TeleconverterID: Num, Teleconverter: string,
    AdapterID: Num, Adapter: string,
    AttachmentID: Num, Attachment: string,
    FocalUnits: Num, FocalLengthIn35mmFormat: Num)

  /** `libraw_lensinfo_t` with its DNG and makernote sub-blocks. */
  datatype LensInfo = LensInfo(
    MinFocal: Num, MaxFocal: Num, MaxAp4MinFocal: Num, MaxAp4MaxFocal: Num,
    EXIF_MaxAp: Num, LensMake: string, Lens: string, LensSerial: string,
    InternalLensSerial: string, FocalLengthIn35mmFormat: Num,
    dng: DngLens, makernotes: MakernotesLens)

  /** `libraw_nikon_makernotes_t`; array lengths are stated by `Valid`. */
  datatype NikonMakernotes = NikonMakernotes(
    ExposureBracketValue: Num, ActiveDLighting: Num, ShootingMode: Num,
    ImageStabilization: seq<Num>, VibrationReduction: Num, VRMode: Num,
    FocusMode: seq<Num>, AFPoint: Num, AFPointsInFocus: Num,
    ContrastDetectAF: Num, AFAreaMode: Num, PhaseDetectAF: Num,
    PrimaryAFPoint: Num, AFPointsUsed: seq<Num>,
    AFImageWidth: Num, AFImageHeight: Num, AFAreaXPposition: Num,
    AFAreaYPosition: Num, AFAreaWidth: Num, AFAreaHeight: Num,
    ContrastDetectAFInFocus: Num, FlashSetting: string, FlashType: string,
    FlashExposureCompensation: seq<Num>, ExternalFlashExposureComp: seq<Num>,
    FlashExposureBracketValue: seq<Num>, FlashMode: Num,
    FlashExposureCompensation2: Num, FlashExposureCompensation3: Num,
    FlashExposureCompensation4: Num, FlashSource: Num, FlashFirmware: seq<Num>,
    ExternalFlashFlags: Num, FlashControlCommanderMode: Num,
    FlashOutputAndCompensation: Num, FlashFocalLength: Num, FlashGNDistance: Num,
    FlashGroupControlMode: seq<Num>, FlashGroupOutputAndCompensation: seq<Num>,
    FlashColorFilter: Num, NEFCompression: Num, ExposureMode: Num,
    ExposureProgram: Num, nMEshots: Num, MEgainOn: Num, ME_WB: seq<Num>,
    AFFineTune: Num, AFFineTuneIndex: Num, AFFineTuneAdj: Num)
  {
    predicate Valid() {
      && |ImageStabilization| == 7 && |FocusMode| == 7 && |AFPointsUsed| == 29
      && |FlashExposureCompensation| == 4 && |ExternalFlashExposureComp| == 4
      && |FlashExposureBracketValue| == 4 && |FlashFirmware| == 2
      && |FlashGroupControlMode| == 4 && |FlashGroupOutputAndCompensation| == 4
      && |ME_WB| == 4
    }
  }

  /** `libraw_makernotes_t`, reduced to the one vendor block the source names. */
  datatype Makernotes = Makernotes(nikon: NikonMakernotes)

  /** `libraw_shootinginfo_t`. */
  datatype ShootingInfo = ShootingInfo(
    DriveMode: Num, FocusMode: Num, MeteringMode: Num, AFPoint: Num,
    ExposureMode: Num, ExposureProgram: Num, ImageStabilization: Num,
    BodySerial: string, InternalBodySerial: string)

  /** `libraw_output_params_t`: the decode options. */
  datatype OutputParams = OutputParams(
    greybox: seq<Num>, cropbox: seq<Num>, aber: seq<Num>, gamm: seq<Num>,
    user_mul: seq<Num>, shot_select: Num, bright: Num, threshold: Num,
    half_size: Num, four_color_rgb: Num, highlight: Num, use_auto_wb: Num,
    use_camera_wb: Num, use_camera_matrix: Num, output_color: Num,
    output_bps: Num, output_tiff: Num, user_flip: Num, user_qual: Num,
    user_black: Num, user_cblack: seq<Num>, user_sat: Num, med_passes: Num,
    auto_bright_thr: Num, adjust_maximum_thr: Num, no_auto_bright: Num,
    use_fuji_rotate: Num, green_matching: Num, dcb_iterations: Num,
    dcb_enhance_fl: Num, fbdd_noiserd: Num, exp_correc: Num, exp_shift: Num,
    exp_preser: Num, use_rawspeed: Num, use_dngsdk: Num, no_auto_scale: Num,
    no_interpolation: Num, raw_processing_options: Num, max_raw_memory_mb: Num,
    sony_arw2_posterization_thr: Num, coolscan_nef_gamma: Num)
  {
    predicate Valid() {
      |greybox| == 4 && |cropbox| == 4 && |aber| == 4 && |gamm| == 6 && |user_cblack| == 4
    }
  }

  /** `libraw_internal_output_params_t`. */
  datatype InternalOutputParams = InternalOutputParams(
    mix_green: Num, raw_color: Num, zero_is_bad: Num, shrink: Num, fuji_width: Num)

  /** `libraw_P1_color_t`: `float romm_cam[9]`. */
  datatype P1Color = P1Color(romm_cam: seq<Num>)
  {
    predicate Valid() { |romm_cam| == 9 }
  }

  /** `libraw_dng_levels_t`. */
  datatype DngLevels = DngLevels(
    parsedfields: Num, dng_black: Num, dng_whitelevel: seq<Num>,
    default_crop: seq<Num>, preview_colorspace: Num, analogbalance: seq<Num>)
  {
    predicate Valid() { |dng_whitelevel| == 4 && |default_crop| == 4 && |analogbalance| == 4 }
  }

  /** `libraw_dng_color_t`: per-illuminant matrices. */
  datatype DngColor = DngColor(
    parsedfields: Num, illuminant: Num,
    calibration: seq<seq<Num>>, colormatrix: seq<seq<Num>>, forwardmatrix: seq<seq<Num>>)
  {
    predicate Valid() {
      IsGrid(calibration, 4, 4) && IsGrid(colormatrix, 4, 3) && IsGrid(forwardmatrix, 3, 4)
    }
  }

  /** `ph1_t`: Phase One specific values. */
  datatype Ph1 = Ph1(
    format: Num, key_off: Num, tag_21a: Num, t_black: Num, split_col: Num,
    black_col: Num, split_row: Num, black_row: Num, tag_210: Num)

  /** `libraw_colordata_t`. */
  datatype Colordata = Colordata(
    curve: seq<Num>, black: Num, data_maximum: Num, maximum: Num,
    linear_max: seq<Num>, fmaximum: Num, fnorm: Num, white: seq<seq<Num>>,
    cam_mul: seq<Num>, pre_mul: seq<Num>, cmatrix: seq<seq<Num>>,
    ccm: seq<seq<Num>>, rgb_cam: seq<seq<Num>>, cam_xyz: seq<seq<Num>>,
    phase_one_data: Ph1, flash_used: Num, canon_ev: Num, model2: string,
    UniqueCameraModel: string, LocalizedCameraModel: string,
    profile: Ptr, profile_length: Num, black_stat: seq<Num>,
    dng_color: seq<DngColor>, dng_levels: DngLevels,
    WB_Coeffs: seq<seq<Num>>, WBCT_Coeffs: seq<seq<Num>>, P1_color: seq<P1Color>)
  {
    predicate Valid() {
      && |linear_max| == 4 && IsGrid(white, 8, 8)
      && |cam_mul| == 4 && |pre_mul| == 4
      && IsGrid(cmatrix, 3, 4) && IsGrid(ccm, 3, 4) && IsGrid(rgb_cam, 3, 4)
      && IsGrid(cam_xyz, 4, 3) && |black_stat| == 8
      && |dng_color| == 2 && dng_color[0].Valid() && dng_color[1].Valid()
      && dng_levels.Valid()
      && IsGrid(WB_Coeffs, 256, 4) && IsGrid(WBCT_Coeffs, 64, 5)
      && |P1_color| == 2 && P1_color[0].Valid() && P1_color[1].Valid()
    }
  }

  /** `libraw_gps_info_t`; the three coordinates are `float[3]`. */
  datatype GpsInfo = GpsInfo(
    latitude: seq<Num>, longtitude: seq<Num>, gpstimestamp: seq<Num>,
    altitude: Num, altref: Num, latref: Num, longref: Num, gpsstatus: Num, gpsparsed: Num)
  {
    predicate Valid() { |latitude| == 3 && |longtitude| == 3 && |gpstimestamp| == 3 }
  }

  /** `libraw_imgother_t`; `gpsdata` is `unsigned gpsdata[32]`. */
  datatype Imgother = Imgother(
    iso_speed: Num, shutter: Num, aperture: Num, focal_len: Num,
    timestamp: Num, shot_order: Num, gpsdata: seq<Num>, parsed_gps: GpsInfo,
    desc: string, artist: string)
  {
    predicate Valid() { |gpsdata| == 32 && parsed_gps.Valid() }
  }

  /** `libraw_thumbnail_t`: descriptor plus the `thumb` pointer of `tlength` bytes. */
  datatype Thumbnail = Thumbnail(
    tformat: Num, twidth: Num, theight: Num, tlength: nat, tcolors: Num, thumb: Ptr)

  /** `libraw_rawdata_t`, reduced to the blocks the source marshals. */
  datatype Rawdata = Rawdata(
    iparams: Iparams, sizes: ImageSizes, ioparams: InternalOutputParams, color: Colordata)
  {
    predicate Valid() { sizes.Valid() && color.Valid() }
  }

  /** `libraw_data_t`, the engine's `imgdata`. */
  datatype LibRawData = LibRawData(
    sizes: ImageSizes, idata: Iparams, lens: LensInfo, makernotes: Makernotes,
    shootinginfo: ShootingInfo, params: OutputParams,
    progress_flags: Num, process_warnings: Num,
    color: Colordata, other: Imgother, thumbnail: Thumbnail, rawdata: Rawdata)
  {
    /** The fixed C array extents of every marshaled block. */
    predicate Valid() {
      sizes.Valid() && params.Valid() && color.Valid() && other.Valid()
    }
  }

  /** A pointer/length pair can be read: a non-null block holds at least `len` bytes. */
  predicate Readable(p: Ptr, len: nat) {
    p.Block? ==> len <= |p.mem|
  }

  /** The thumbnail and XMP pointer/length pairs of a snapshot can be read. */
  predicate BuffersReadable(d: LibRawData) {
    Readable(d.thumbnail.thumb, d.thumbnail.tlength) && Readable(d.idata.xmpdata, d.idata.xmplen)
  }
}
