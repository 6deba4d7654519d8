# libraw.js binding core, modelled in Dafny

libraw.js is a Node.js native addon over the LibRaw raw-image library. This
project models the C++ layer between JavaScript and LibRaw. It has three
parts:

- **The metadata marshaler** (`src/wraptypes.cpp`). It turns LibRaw's
  `libraw_data_t` snapshot into a JavaScript value tree: objects keyed by
  string, ordered arrays, numbers, strings.
- **The one-shot entry point `processRawImage`** (`src/async_libraw_wrapper.cpp`).
  It reads the caller's options. It opens the buffer in a fresh LibRaw
  processor, extracts the thumbnail bytes and/or the metadata tree, then
  recycles and deletes the processor.
- **The `LibRawWrapper` class** (`src/libraw_wrapper.cpp`). Its constructor
  dispatches on the argument shape: a path, a buffer with a size, or a
  TypeError. Its methods return the thumbnail, the XMP block and the
  metadata tree of the processor they own. Its destructor deletes the
  processor.

Files:

| file | module | contents |
|---|---|---|
| `values.dfy` | `Values` | the produced `Value` tree, the argument type `JsValue`, the N-API environment `Env` (its pending exception), pointers to memory blocks |
| `libraw_types.dfy` | `LibRawTypes` | one datatype per LibRaw structure the binding reads. Each has a `Valid()` predicate stating the C extents of its fixed-size arrays. |
| `libraw_engine.dfy` | `LibRawEngine` | the LibRaw processor as a class. It holds `imgdata`, a deleted flag and a ghost log of the calls made on it. What the engine computes is the `Decoder` parameter. |
| `wraptypes.dfy` | `WrapTypes` | each `Wrap*` has two members. `XValue` is a function: the exact object emitted. `WrapX` is a method that builds it `Set` by `Set`, or index by index for arrays. Lemmas state array lengths, matrix extents, key sets and which sub-wrapper builds each nested block. |
| `async_libraw_wrapper.dfy` | `AsyncLibRawWrapper` | `ProcessOption`, `Process` and the specification of its result |
| `libraw_wrapper.dfy` | `LibRawBinding` | the constructor's dispatch rule and the `LibRawWrapper` class |

Every number the binding copies without using it is a value of the
abstract type `Values.Num`. The lengths the binding also uses to size buffers
(`tlength`, `xmplen`) are `nat`s. The binding puts both into the tree as
JavaScript numbers, that is, doubles.

## Model

| member | source | states |
|---|---|---|
| Values.Env.Throw | src/libraw_wrapper.cpp:29 | after a throw, the environment's pending exception is the thrown error |
| WrapTypes.ArrayValue | src/wraptypes.cpp:23-32 | `WrapArray(ar, size)` is an array of exactly `size` elements; element `i` is `ar[i]`, in order |
| WrapTypes.WrapArray | src/wraptypes.cpp:23-32 | the index-by-index loop yields an array of `size` elements holding `ar[0..size)` in order, which is `ArrayValue` |
| WrapTypes.MatrixValue | src/wraptypes.cpp:49-53 | a C matrix becomes `rows` arrays of `cols` elements, with `m[j][k]` at `[j][k]` |
| WrapTypes.WrapRows | src/wraptypes.cpp:49-52 | the row loop yields a `rows` x `cols` grid with `m[j][k]` at `[j][k]`, which is `MatrixValue` |
| WrapTypes.Wrapidata | src/wraptypes.cpp:5-21 | the identification object is built field by field; its key set is exactly the ten listed keys |
| WrapTypes.WrapImageSizes | src/wraptypes.cpp:34-57 | the geometry object is built field by field; its key set is exactly the listed keys |
| WrapTypes.ImageSizesMask | src/wraptypes.cpp:49-53 | `mask` is emitted as 8 rows of 4 numbers, with `mask[j][k]` at `[j][k]` |
| WrapTypes.WrapDngLens | src/wraptypes.cpp:59-69 | the DNG lens object has exactly its four keys |
| WrapTypes.WrapMakernotesLens | src/wraptypes.cpp:71-111 | the maker-notes lens object has exactly the listed keys; the commented-out `FocalUnits` is not among them |
| WrapTypes.MakernotesLensAliases | src/wraptypes.cpp:75-76 | "LensID" and "Lens" both hold the lens name `t.Lens`; the numeric `LensID` field never influences the object |
| WrapTypes.WrapLensInfo | src/wraptypes.cpp:113-131 | the lens object has exactly its twelve keys |
| WrapTypes.LensInfoParts | src/wraptypes.cpp:127-128 | "dng" and "makernotes" hold the objects built by `WrapDngLens` and `WrapMakernotesLens` |
| WrapTypes.WrapNikonMakernotes | src/wraptypes.cpp:133-198 | the Nikon object has exactly the 48 listed keys |
| WrapTypes.NikonMakernotesShapes | src/wraptypes.cpp:140 | "ImageStabilization" holds the 7 numbers of the C array, in order |
| WrapTypes.NikonMakernotesFlashShapes | src/wraptypes.cpp:160-182 | the flash-compensation, flash-firmware and ME_WB arrays hold 4, 2 and 4 numbers of their C arrays, in order |
| WrapTypes.WrapMakernotes | src/wraptypes.cpp:200-207 | the maker-notes object has no key, whatever the input |
| WrapTypes.WrapShootinginfo | src/wraptypes.cpp:209-224 | the shooting-info object has exactly the listed keys |
| WrapTypes.ShootingInfoDriveMode | src/wraptypes.cpp:213 | the drive mode appears under "DriverMode" and never under "DriveMode" |
| WrapTypes.MultiCharIndexFour | src/wraptypes.cpp:270-274 | a four-character constant is its four character codes as a big-endian 32-bit number |
| WrapTypes.MultiCharIndexDropFirst | src/wraptypes.cpp:270-274 | with five or more characters, the first character is shifted out and does not change the value |
| WrapTypes.MultiCharIndexLastFour | src/wraptypes.cpp:270-274 | only the last four characters of a multi-character constant determine its `uint32_t` value |
| WrapTypes.NoInterpolationIndex | src/wraptypes.cpp:270 | `'no_interpolation'` has the value of `'tion'`, 1953066862 |
| WrapTypes.RawProcessingOptionsIndex | src/wraptypes.cpp:271 | `'raw_processing_options'` has the value of `'ions'`, 1768910451 |
| WrapTypes.SonyArw2PosterizationThrIndex | src/wraptypes.cpp:273 | `'sony_arw2_posterization_thr'` has the value of `'_thr'`, 1601464434 |
| WrapTypes.CoolscanNefGammaIndex | src/wraptypes.cpp:274 | `'coolscan_nef_gamma'` has the value of `'amma'`, 1634561377 |
| WrapTypes.IndexKey | src/wraptypes.cpp:270-274 | the property name of an array index is a non-empty string of decimal digits |
| WrapTypes.IndexKeyInjective | src/wraptypes.cpp:270-274 | different indices have different property names |
| WrapTypes.OutputParamsValueAsWritten | src/wraptypes.cpp:226-278 | the output-parameter object as written keeps every double-quoted key |
| WrapTypes.OutputParamsAsWrittenLosesKey | src/wraptypes.cpp:270-274 | as written, none of the four single-quoted names is a key of the output-parameter object |
| WrapTypes.OutputParamsAsWrittenIndexKeys | src/wraptypes.cpp:270-274 | as written, the four fields sit under the keys "1953066862", "1768910451", "1601464434" and "1634561377", each holding its own value |
| WrapTypes.WrapOutputParams | src/wraptypes.cpp:226-278 | the corrected output-parameter object has exactly the listed keys, including the four fields under their own names |
| WrapTypes.OutputParamsShapes | src/wraptypes.cpp:230-253 | `greybox`, `cropbox`, `aber`, `gamm` and `user_cblack` hold 4, 4, 4, 6 and 4 numbers of their C arrays, in order |
| WrapTypes.OutputParamsQuotedFields | src/wraptypes.cpp:270-274 | in the corrected object each of the four fields is under its own name and holds its own value |
| WrapTypes.WrapInternalOutputParams | src/wraptypes.cpp:280-291 | the internal-parameter object has exactly its five keys |
| WrapTypes.WrapP1Color | src/wraptypes.cpp:293-300 | the Phase One colour object has the single key "romm_cam" |
| WrapTypes.P1ColorShape | src/wraptypes.cpp:297 | "romm_cam" holds the 9 numbers of the C array, in order |
| WrapTypes.WrapDngLevels | src/wraptypes.cpp:302-319 | the DNG levels object has exactly the listed keys; the commented-out fields are not among them |
| WrapTypes.DngLevelsShapes | src/wraptypes.cpp:310-313 | `dng_whitelevel`, `default_crop` and `analogbalance` hold 4 numbers each, in order |
| WrapTypes.WrapDngColor | src/wraptypes.cpp:321-347 | the DNG colour object has exactly its five keys |
| WrapTypes.DngColorShapes | src/wraptypes.cpp:327-344 | `calibration` is 4x4, `colormatrix` is 4x3 and `forwardmatrix` is 3x4, entry for entry |
| WrapTypes.WrapDngColors | src/wraptypes.cpp:418-423 | the `dng_color` loop yields a 2-element array of the two per-block objects, in order |
| WrapTypes.WrapP1Colors | src/wraptypes.cpp:437-442 | the `P1_color` loop yields a 2-element array of the two per-block objects, in order |
| WrapTypes.WrapPh1 | src/wraptypes.cpp:349-364 | the Phase One object has exactly its nine keys |
| WrapTypes.WrapColordata | src/wraptypes.cpp:366-449 | the colour object built `Set` by `Set` and loop by loop is `ColordataValue` |
| WrapTypes.ColordataKeySet | src/wraptypes.cpp:366-449 | the colour object has exactly the listed keys; `curve`, the vendor blocks and `profile` are not among them |
| WrapTypes.ColordataShapes | src/wraptypes.cpp:377-436 | `white` is 8x8; `cmatrix`, `ccm` and `rgb_cam` are 3x4; `cam_xyz` is 4x3; `WB_Coeffs` is 256x4; `WBCT_Coeffs` is 64x5; each entry for entry |
| WrapTypes.ColordataRows | src/wraptypes.cpp:374-417 | `linear_max`, `cam_mul` and `pre_mul` hold 4 numbers and `black_stat` 8, in order |
| WrapTypes.ColordataBlocks | src/wraptypes.cpp:409-442 | `dng_color` and `P1_color` have exactly 2 entries, built by `WrapDngColor` and `WrapP1Color`; `phase_one_data` and `dng_levels` are built by their own wrappers |
| WrapTypes.WrapGpsInfo | src/wraptypes.cpp:451-466 | the GPS object has exactly its nine keys |
| WrapTypes.GpsInfoShapes | src/wraptypes.cpp:455-457 | `latitude`, `longtitude` and `gpstimestamp` hold 3 numbers each, in order |
| WrapTypes.WrapImgother | src/wraptypes.cpp:468-485 | the "other" object has exactly the listed keys |
| WrapTypes.ImgotherGpsShapes | src/wraptypes.cpp:478-479 | `gpsdata` has 32 elements; `parsed_gps` holds 3-element `latitude`, `longtitude` and `gpstimestamp` |
| WrapTypes.WrapRawdata | src/wraptypes.cpp:487-499 | the raw-stage object has exactly its four keys |
| WrapTypes.RawdataParts | src/wraptypes.cpp:493-496 | "iparams", "sizes", "ioparams" and "color" are built by their own sub-wrappers |
| WrapTypes.WrapThumbnail | src/wraptypes.cpp:501-512 | the thumbnail descriptor has exactly its four keys |
| WrapTypes.ThumbnailLength | src/wraptypes.cpp:505-508 | "tlength" holds the byte length; neither the format nor the bytes are emitted |
| WrapTypes.LibRawDataObjectKeys | src/wraptypes.cpp:514-530 | the metadata object has exactly the eleven keys `color` ... `thumbnail` |
| WrapTypes.LibRawDataObjectShape | src/wraptypes.cpp:516-527 | each of the eleven parts lands under its own key |
| WrapTypes.LibRawDataIgnoresUnmarshaled | src/wraptypes.cpp:514-530 | the metadata tree does not depend on the `thumb` and `xmpdata` pointers, the raw-stage block or the vendor maker notes |
| WrapTypes.WrapLibRawData | src/wraptypes.cpp:514-530 | the metadata tree built from a copy of the snapshot is `LibRawDataValue`, with exactly the eleven keys |
| WrapTypes.LibRawDataParts | src/wraptypes.cpp:517-527 | each key holds the object built by the named sub-wrapper from the matching field |
| WrapTypes.LibRawDataAsWrittenDiffersInParams | src/wraptypes.cpp:514-530 | the metadata tree as written equals the corrected tree except under "params", which holds the as-written output-parameter object |
| LibRawEngine.LibRaw.constructor | src/async_libraw_wrapper.cpp:64 | a fresh processor is in the engine's initial state, undeleted, with no call made |
| LibRawEngine.LibRaw.OpenFile | src/libraw_wrapper.cpp:48 | `open_file` moves the snapshot as the engine dictates and logs the call |
| LibRawEngine.LibRaw.OpenBuffer | src/async_libraw_wrapper.cpp:65 | `open_buffer` on the whole buffer moves the snapshot as the engine dictates and logs the call |
| LibRawEngine.LibRaw.UnpackThumb | src/async_libraw_wrapper.cpp:69 | `unpack_thumb` moves the snapshot as the engine dictates and logs the call |
| LibRawEngine.LibRaw.Recycle | src/async_libraw_wrapper.cpp:80 | `recycle` resets the snapshot as the engine dictates and logs the call |
| LibRawEngine.LibRaw.Delete | src/async_libraw_wrapper.cpp:81 | after `delete` the processor is marked deleted, and may not be used or deleted again |
| AsyncLibRawWrapper.ProcessOption | src/async_libraw_wrapper.cpp:28-39 | for any options value: the stored boolean if the options are an object holding a boolean under the key; otherwise (undefined, null, a primitive, a missing key or a non-boolean) the default |
| AsyncLibRawWrapper.ProcessOptionDependsOnDefault | src/async_libraw_wrapper.cpp:30-38 | the default changes the answer if and only if no boolean is stored under the key |
| AsyncLibRawWrapper.ProcessFlagsDefaultOn | src/async_libraw_wrapper.cpp:58-59 | each extraction flag is off if and only if the caller stored `false` under its key |
| AsyncLibRawWrapper.ProcessedData | src/async_libraw_wrapper.cpp:64-70 | the snapshot `Process` reads is well formed: its arrays have their C extents and its pointers address their announced lengths |
| AsyncLibRawWrapper.ProcessCallsOrder | src/async_libraw_wrapper.cpp:64-81 | the processor is opened first and unpacked only when the thumbnail is wanted; it is recycled, then deleted exactly once, last |
| AsyncLibRawWrapper.ResultObject | src/async_libraw_wrapper.cpp:62-83 | the result has "thumbnail_buffer" and "metadata" each exactly when that part was extracted, holding it, and no other key |
| AsyncLibRawWrapper.MarshalsMeans | src/async_libraw_wrapper.cpp:74-78 | a tree that marshals a snapshot is that snapshot's metadata tree |
| AsyncLibRawWrapper.MarshalsTree | src/async_libraw_wrapper.cpp:74-78 | a snapshot's metadata tree marshals it |
| AsyncLibRawWrapper.Process | src/async_libraw_wrapper.cpp:41-84 | an undefined or null buffer throws its error and returns undefined with no processor made. Otherwise the result has "thumbnail_buffer" iff the thumbnail flag, holding `tlength` bytes read after `unpack_thumb`. It has "metadata" iff the metadata flag, holding the tree of the post-unpack snapshot. There is no other key. The processor was opened, unpacked if asked, recycled and deleted. |
| AsyncLibRawWrapper.ProcessBuffer | src/async_libraw_wrapper.cpp:62-83 | for a present buffer: the result object and the processor's call log, as for `Process` |
| AsyncLibRawWrapper.OpenAndUnpack | src/async_libraw_wrapper.cpp:62-72 | a fresh processor is opened on the whole buffer and unpacked iff the thumbnail is wanted; the thumbnail part is the first `tlength` bytes `thumb` points at |
| AsyncLibRawWrapper.Marshal | src/async_libraw_wrapper.cpp:74-78 | the metadata part is present iff wanted, and it is the marshaled tree of the current snapshot |
| AsyncLibRawWrapper.Release | src/async_libraw_wrapper.cpp:80-81 | the processor is recycled and then deleted |
| LibRawBinding.ConstructorDispatch | src/libraw_wrapper.cpp:24-60 | a path is opened iff the first argument is a string on which a `std::fstream` in its default read/write mode is `good()`; a string on which it is not good gives the TypeError "File does not exist". A buffer is opened iff the first argument is a buffer and the second a number. Every other shape is a TypeError, with the message of the first check that fails. |
| LibRawBinding.PointerBuffer | src/libraw_wrapper.cpp:67-77 | a non-null pointer gives a buffer of exactly `len` bytes taken from the block it points at; a null pointer gives `{}` |
| LibRawBinding.NewProcessorOnFile | src/libraw_wrapper.cpp:47-48 | a fresh processor whose only call is `open_file(path)` |
| LibRawBinding.NewProcessorOnBuffer | src/libraw_wrapper.cpp:52-54 | a fresh processor whose only call is `open_buffer` on the whole buffer |
| LibRawBinding.LibRawWrapper.constructor | src/libraw_wrapper.cpp:24-60 | a rejected shape throws its TypeError and leaves the processor unassigned. A path or a buffer gives a fresh processor whose only call is the matching `open_*`, with no exception pending. |
| LibRawBinding.LibRawWrapper.GetThumbnail | src/libraw_wrapper.cpp:62-78 | `unpack_thumb` is always called first; the result is `tlength` bytes of the unpacked thumbnail, or `{}` when `thumb` is null |
| LibRawBinding.LibRawWrapper.GetXmpData | src/libraw_wrapper.cpp:80-95 | `xmplen` bytes of the XMP block, or `{}` when `xmpdata` is null; the processor is not changed |
| LibRawBinding.LibRawWrapper.GetMetadata | src/libraw_wrapper.cpp:97-101 | the metadata tree of the processor's snapshot, with exactly the eleven keys; the processor is not changed |
| LibRawBinding.LibRawWrapper.Destroy | src/libraw_wrapper.cpp:103-106 | the processor is deleted; its snapshot is unchanged and its log ends with the deletion |

## Left out

- The LibRaw engine's own behaviour (decoding, `open_*`, `unpack_thumb`, `recycle`) is foreign code. It is the `Decoder` parameter. All the model assumes is that it keeps snapshots well formed: arrays have their C extents, and the `thumb` and `xmpdata` pointers address the lengths announced beside them.
- Floating-point and integer field values are the abstract `Num`. Each becomes a JavaScript double, and that conversion (rounding of 64-bit integers, float widening) is not modelled.
- C character arrays (`make`, `model`, `Lens`, ...) are modelled as their text up to the first NUL, a `string` copied verbatim. `Napi::String::New` decodes the bytes as UTF-8; that decoding, and an array with no NUL terminator (read past its end), are not modelled.
- N-API registration (`LibRawWrapper::Init`, `AsyncLibRawWrapper::Init`), handle scopes, and the `Napi::Object`/`Napi::Buffer` plumbing are left out. `src/libraw.ts` and its promise wrapping are not part of this model.
- Buffer ownership is left out. `Napi::Buffer::New` over engine memory aliases memory that `recycle` and `delete` free later. The model copies the bytes at the moment the buffer is made.
- The test `std::fstream f(path); f.good()` is I/O. It is the `opensForUpdate` parameter of the constructor: whether a stream opened on the path in the default `in|out` mode is good. That fails for a missing file and also for an existing file that cannot be opened for writing; the model leaves which files those are to the parameter.
- The order of an object's properties is left out. Objects are maps, so only key sets and values are modelled.
- Commented-out fields (`curve`, the vendor maker-note blocks, `profile`, `output_profile` and the others) are not emitted, and are not modelled.
- WrapTypes.WrapLibRawData: its "params" entry is the corrected output-parameter object, with the four fields of `src/wraptypes.cpp:270-274` under their own names. The tree the source emits is `LibRawDataValueAsWritten`, whose "params" stores them under index keys instead (see Findings).
- WrapTypes.LibRawDataParts: states that "params" holds the corrected object; as written it holds `OutputParamsValueAsWritten`.
- LibRawBinding.LibRawWrapper.GetMetadata: returns the tree with the corrected "params" object, not the as-written one.
- AsyncLibRawWrapper.Process: its "metadata" entry is the tree with the corrected "params" object, not the as-written one.
- AsyncLibRawWrapper.ProcessBuffer: as for `Process`, "metadata" holds the corrected "params" object.
- AsyncLibRawWrapper.Marshal: marshals the tree with the corrected "params" object, not the as-written one.
- `WrapNikonMakernotes` and `WrapRawdata` are modelled, but `WrapLibRawData` never reaches them.
- AsyncLibRawWrapper.Process: requires the buffer argument to be a buffer, undefined or null. The model takes the cast `As<Napi::Buffer<char>>()` as unchecked, so the undefined and null guards of `src/async_libraw_wrapper.cpp:46-55` are reached as written; what N-API does when casting other values, or these two, is not modelled. The options argument may be any value.
- AsyncLibRawWrapper.Process: requires `thumb` to be non-null when the thumbnail is wanted. The source builds the buffer without a null check, and what N-API does with a null pointer is not modelled.
- LibRawBinding.LibRawWrapper.GetThumbnail, GetXmpData, GetMetadata and Destroy require the processor to be assigned. On the constructor's error paths `processor_` is never assigned, yet these methods dereference it (`src/libraw_wrapper.cpp:66`, `84`, `99`, `105`). The model makes it a nullable field and leaves calls on an unassigned processor out.
- `Process` is split into `ProcessBuffer`, `OpenAndUnpack`, `Marshal` and `Release`. The calls and their order are those of the source, and `ResultObject` assembles the `Set`s on `result`. The split only keeps each proof small.
- The statuses returned by `open_*` and `unpack_thumb` are discarded by the source, and by the model.
- The ghost `engine` out-parameter of `Process` exposes the processor so that its call log can be stated. The processor is not reachable from JavaScript.

## Findings

| source | as written | input that shows it | evidently intended | confidence | as-written member | corrected member |
|---|---|---|---|---|---|---|
| src/wraptypes.cpp:270-274 | The four keys `'no_interpolation'`, `'raw_processing_options'`, `'sony_arw2_posterization_thr'` and `'coolscan_nef_gamma'` are single-quoted multi-character constants. They have type `int`, so `Object::Set(uint32_t, ...)` stores the fields under numeric index keys: with GCC, the last four characters as a 32-bit number. | any `libraw_output_params_t`: the "no_interpolation" key is absent, and its value sits under the key "1953066862" | double-quoted string keys, so each field is stored under its own name | not executed | WrapTypes.OutputParamsAsWrittenLosesKey | WrapTypes.WrapOutputParams |
