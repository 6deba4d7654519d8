/**
 * `LibRawWrapper`: the JavaScript class that owns one LibRaw processor.
 *
 * Its constructor opens the processor on a file path or on a buffer,
 * according to the shape of its arguments; `getThumbnail`, `getXmp` and
 * `getMetadata` read the processor's snapshot; the destructor deletes the
 * processor. The processor pointer is a nullable field: every error path of
 * the constructor returns without assigning it, and the readers and the
 * destructor demand that it was assigned.
 */
module LibRawBinding {
  import opened Values
  import opened LibRawTypes
  import opened WrapTypes
  import opened LibRawEngine

  /** What the constructor does with its arguments. */
  datatype Dispatch =
    | Reject(error: JsError)           // a TypeError is thrown, no processor is made
    | FromPath(path: string)           // `open_file(path)` on a fresh processor
    | FromBuffer(data: seq<byte>)      // `open_buffer` on the whole buffer

  /**
   * The constructor's decision, for the arguments `info` and the file-system
   * test `opensForUpdate`: whether a `std::fstream` opened on the path in its
   * default read/write mode is `good()`. A path is opened exactly when the
   * first argument is a string on which that stream is good (an existing but
   * read-only file fails it, and is reported as "File does not exist"); a
   * buffer exactly when the first argument is a buffer and
   * the second a number; everything else is a TypeError, whose message
   * depends on the first check that fails.
   */
  function ConstructorDispatch(info: seq<JsValue>, opensForUpdate: string -> bool): (r: Dispatch)
    ensures r.FromPath? <==> |info| >= 1 && info[0].JsString? && opensForUpdate(info[0].s)
    ensures r.FromPath? ==> r.path == info[0].s
    ensures r.FromBuffer? <==> |info| >= 2 && info[0].JsBuffer? && info[1].JsNumber?
    ensures r.FromBuffer? ==> r.data == info[0].data
    ensures r.Reject? ==> r.error.TypeError?
    ensures |info| == 0 ==> r == Reject(TypeError("Expected path to image"))
    ensures |info| >= 2 && !info[0].JsString? && !info[0].JsBuffer? ==>
      r == Reject(TypeError("Expected path to image or buffer with size"))
    ensures |info| >= 1 && info[0].JsString? && !opensForUpdate(info[0].s) ==>
      r == Reject(TypeError("File does not exist"))
    ensures |info| == 1 && !info[0].JsString? ==>
      r == Reject(TypeError("LibRaw constructor did not receive required parameters."))
    ensures |info| >= 2 && info[0].JsBuffer? && !info[1].JsNumber? ==>
      r == Reject(TypeError("LibRaw constructor did not receive required parameters."))
  {
    if |info| < 1 then
      Reject(TypeError("Expected path to image"))
    else if !info[0].JsString? && (!info[0].JsBuffer? && |info| > 1) then
      Reject(TypeError("Expected path to image or buffer with size"))
    else if info[0].JsString? then
      if opensForUpdate(info[0].s) then FromPath(info[0].s) else Reject(TypeError("File does not exist"))
    else if info[0].JsBuffer? && Arg(info, 1).JsNumber? then
      FromBuffer(info[0].data)
    else
      Reject(TypeError("LibRaw constructor did not receive required parameters."))
  }

  /**
   * `Napi::Buffer::New(env, p, len)` guarded by `if (p)`: a buffer of the
   * first `len` bytes `p` points at, or the empty object `{}` for a null
   * pointer.
   */
  function PointerBuffer(p: Ptr, len: nat): (r: Value)
    requires Readable(p, len)
    ensures r.Buf? <==> p.Block?
    ensures r.Buf? ==> |r.bytes| == len && r.bytes <= p.mem
    ensures !r.Buf? ==> r == EmptyObject
  {
    if p.Block? then Buf(p.mem[..len]) else EmptyObject
  }

  /** `new LibRaw()` followed by `open_file(path)`, whose status is discarded. */
  method NewProcessorOnFile(path: string, decoder: Decoder) returns (lr: LibRaw)
    requires decoder.Sound()
    ensures fresh(lr) && lr.Valid() && !lr.deleted && lr.decoder == decoder
    ensures lr.calls == [OpenedFile(path)]
    ensures lr.imgdata == decoder.openFile(path, decoder.initial).data
  {
    lr := new LibRaw(decoder);
    var _ := lr.OpenFile(path);
  }

  /** `new LibRaw()` followed by `open_buffer` on the whole buffer, whose status is discarded. */
  method NewProcessorOnBuffer(data: seq<byte>, decoder: Decoder) returns (lr: LibRaw)
    requires decoder.Sound()
    ensures fresh(lr) && lr.Valid() && !lr.deleted && lr.decoder == decoder
    ensures lr.calls == [OpenedBuffer(data)]
    ensures lr.imgdata == decoder.openBuffer(data, decoder.initial).data
  {
    lr := new LibRaw(decoder);
    var _ := lr.OpenBuffer(data);
  }

  class LibRawWrapper {
    /** `processor_`; null until a constructor branch assigns it. */
    var processor: LibRaw?

    /** The processor was assigned and has not been deleted. */
    ghost predicate Ready()
      reads this, processor
    {
      processor != null && processor.Valid() && !processor.deleted
    }

    /**
     * `new LibRawWrapper(...info)`. A rejected argument shape throws its
     * TypeError and leaves `processor` unassigned; an accepted one makes a
     * fresh processor whose only call so far is the matching `open_*`, with
     * the status it returns discarded.
     */
    constructor (env: Env, info: seq<JsValue>, opensForUpdate: string -> bool, decoder: Decoder)
      requires decoder.Sound()
      modifies env
      ensures ConstructorDispatch(info, opensForUpdate).Reject? ==>
        && processor == null
        && env.pending == Some(ConstructorDispatch(info, opensForUpdate).error)
      ensures ConstructorDispatch(info, opensForUpdate).FromPath? ==>
        var path := ConstructorDispatch(info, opensForUpdate).path;
        && Ready() && fresh(processor) && processor.decoder == decoder
        && processor.calls == [OpenedFile(path)]
        && processor.imgdata == decoder.openFile(path, decoder.initial).data
        && env.pending == old(env.pending)
      ensures ConstructorDispatch(info, opensForUpdate).FromBuffer? ==>
        var data := ConstructorDispatch(info, opensForUpdate).data;
        && Ready() && fresh(processor) && processor.decoder == decoder
        && processor.calls == [OpenedBuffer(data)]
        && processor.imgdata == decoder.openBuffer(data, decoder.initial).data
        && env.pending == old(env.pending)
    {
      if |info| < 1 {
        env.Throw(TypeError("Expected path to image"));
        processor := null;
      } else if !info[0].JsString? && (!info[0].JsBuffer? && |info| > 1) {
        env.Throw(TypeError("Expected path to image or buffer with size"));
        processor := null;
      } else if info[0].JsString? {
        var path := info[0].s;
        if !opensForUpdate(path) {
          env.Throw(TypeError("File does not exist"));
          processor := null;
        } else {
          var lr := NewProcessorOnFile(path, decoder);
          processor := lr;
        }
      } else if info[0].JsBuffer? && Arg(info, 1).JsNumber? {
        var lr := NewProcessorOnBuffer(info[0].data, decoder);
        processor := lr;
      } else {
        env.Throw(TypeError("LibRaw constructor did not receive required parameters."));
        processor := null;
      }
    }

    /**
     * `getThumbnail()`: always runs `unpack_thumb` first, then returns the
     * `tlength` bytes of the unpacked thumbnail, or `{}` if `thumb` is null.
     */
    method GetThumbnail() returns (r: Value)
      requires Ready()
      modifies processor
      ensures Ready()
      ensures processor.calls == old(processor.calls) + [UnpackedThumb]
      ensures processor.imgdata == processor.decoder.unpackThumb(old(processor.imgdata)).data
      ensures r == PointerBuffer(processor.imgdata.thumbnail.thumb, processor.imgdata.thumbnail.tlength)
    {
      var _ := processor.UnpackThumb();
      r := PointerBuffer(processor.imgdata.thumbnail.thumb, processor.imgdata.thumbnail.tlength);
    }

    /**
     * `getXmp()`: the `xmplen` bytes of the XMP block, or `{}` if `xmpdata`
     * is null; the processor is only read.
     */
    method GetXmpData() returns (r: Value)
      requires Ready()
      ensures r == PointerBuffer(processor.imgdata.idata.xmpdata, processor.imgdata.idata.xmplen)
    {
      var xmp := processor.imgdata.idata.xmpdata;
      r := PointerBuffer(xmp, processor.imgdata.idata.xmplen);
    }

    /** `getMetadata()`: the marshaled tree of a copy of the snapshot; the processor is only read. */
    method GetMetadata() returns (v: Value)
      requires Ready()
      ensures v == LibRawDataValue(processor.imgdata)
      ensures v.Obj? && v.fields.Keys == LibRawDataKeys
    {
      var data := processor.imgdata;
      v := WrapLibRawData(data);
    }

    /** `~LibRawWrapper()`: deletes the processor, which must have been assigned and not yet deleted. */
    method Destroy()
      requires Ready()
      modifies processor
      ensures processor.Valid() && processor.deleted
      ensures processor.imgdata == old(processor.imgdata)
      ensures processor.calls == old(processor.calls) + [Deleted]
    {
      processor.Delete();
    }
  }
}
