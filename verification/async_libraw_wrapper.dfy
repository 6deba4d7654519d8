/**
 * `processRawImage`: the one-shot entry point. It opens a buffer in a fresh
 * LibRaw processor, extracts the thumbnail and the metadata tree as the
 * caller's options ask, then recycles and deletes the processor.
 */
module AsyncLibRawWrapper {
  import opened Values
  import opened LibRawTypes
  import opened WrapTypes
  import opened LibRawEngine

  /**
   * `ProcessOption(options, key, defaultValue)`: the caller's boolean for `key`,
   * or the default when there are no options, no such key, or a stored value
   * that is not a boolean. `options` may be any value: undefined and null are
   * tested first, and `Has` finds no property on a number, string, boolean
   * or buffer.
   */
  function ProcessOption(options: JsValue, key: string, defaultValue: bool): (r: bool)
    ensures (options.JsObject? && key in options.props && options.props[key].JsBool?) ==> r == options.props[key].b
    ensures !(options.JsObject? && key in options.props && options.props[key].JsBool?) ==> r == defaultValue
  {
    if !options.JsObject? || key !in options.props || !options.props[key].JsBool? then
      defaultValue
    else
      options.props[key].b
  }

  /** The default only matters when the option is not set to a boolean. */
  lemma ProcessOptionDependsOnDefault(options: JsValue, key: string)
    ensures ProcessOption(options, key, true) != ProcessOption(options, key, false)
        <==> !(options.JsObject? && key in options.props && options.props[key].JsBool?)
  {
  }

  /** Both extraction flags are on unless the caller turns them off. */
  lemma ProcessFlagsDefaultOn(options: JsValue)
    ensures !ProcessOption(options, "shouldExtractThumbnail", true)
        <==> options.JsObject? && "shouldExtractThumbnail" in options.props && options.props["shouldExtractThumbnail"] == JsBool(false)
    ensures !ProcessOption(options, "shouldExtractMetadata", true)
        <==> options.JsObject? && "shouldExtractMetadata" in options.props && options.props["shouldExtractMetadata"] == JsBool(false)
  {
  }

  const ThumbnailOption := "shouldExtractThumbnail"
  const MetadataOption := "shouldExtractMetadata"

  /**
   * The snapshot after `open_buffer` and, when the thumbnail is asked for,
   * `unpack_thumb`; a sound engine only produces well-formed snapshots.
   */
  function ProcessedData(decoder: Decoder, bytes: seq<byte>, unpack: bool): (d: LibRawData)
    requires decoder.Sound()
    ensures Good(d)
  {
    var afterOpen := decoder.openBuffer(bytes, decoder.initial).data;
    if unpack then decoder.unpackThumb(afterOpen).data else afterOpen
  }

  /** The calls `Process` makes on its processor, in order. */
  function ProcessCalls(bytes: seq<byte>, unpack: bool): (calls: seq<Call>)
  {
    (if unpack then [OpenedBuffer(bytes), UnpackedThumb] else [OpenedBuffer(bytes)]) + [Recycled, Deleted]
  }

  /** The call log: opened first, unpacked only if asked, recycled and then deleted exactly once, last. */
  lemma ProcessCallsOrder(bytes: seq<byte>, unpack: bool)
    ensures var c := ProcessCalls(bytes, unpack);
      && c[0] == OpenedBuffer(bytes)
      && (UnpackedThumb in c <==> unpack)
      && c[|c| - 2] == Recycled && c[|c| - 1] == Deleted
      && Deleted !in c[..|c| - 1] && Recycled !in c[..|c| - 2]
  {
    var c := ProcessCalls(bytes, unpack);
    if unpack {
      assert c == [OpenedBuffer(bytes), UnpackedThumb, Recycled, Deleted];
      assert c[..|c| - 1] == [OpenedBuffer(bytes), UnpackedThumb, Recycled];
      assert c[..|c| - 2] == [OpenedBuffer(bytes), UnpackedThumb];
    } else {
      assert c == [OpenedBuffer(bytes), Recycled, Deleted];
      assert c[..|c| - 1] == [OpenedBuffer(bytes), Recycled];
      assert c[..|c| - 2] == [OpenedBuffer(bytes)];
    }
  }

  /**
   * The object `Process` resolves with: the thumbnail bytes under
   * "thumbnail_buffer" and the metadata tree under "metadata", each present
   * exactly when it was extracted, and no other property.
   */
  function ResultObject(thumbnail: Option<Value>, metadata: Option<Value>): (r: Value)
    ensures r.Obj? && r.fields.Keys <= {"thumbnail_buffer", "metadata"}
    ensures "thumbnail_buffer" in r.fields <==> thumbnail.Some?
    ensures "metadata" in r.fields <==> metadata.Some?
    ensures thumbnail.Some? ==> r.fields["thumbnail_buffer"] == thumbnail.value
    ensures metadata.Some? ==> r.fields["metadata"] == metadata.value
  {
    var withThumbnail: map<string, Value> :=
      if thumbnail.Some? then map["thumbnail_buffer" := thumbnail.value] else map[];
    Obj(if metadata.Some? then withThumbnail["metadata" := metadata.value] else withThumbnail)
  }

  /**
   * `v` is the marshaled tree of the snapshot `d`, that is `LibRawDataValue(d)`
   * (`MarshalsMeans`). It is phrased over the snapshots equal to `d` so that
   * the tree is only expanded where a proof instantiates it.
   */
  ghost predicate Marshals(d: LibRawData, v: Value) {
    forall e: LibRawData {:trigger LibRawDataValue(e)} | e == d && e.Valid() :: v == LibRawDataValue(e)
  }

  /** A tree that `Marshals` a snapshot is its marshaled tree. */
  lemma MarshalsMeans(d: LibRawData, v: Value)
    requires d.Valid() && Marshals(d, v)
    ensures v == LibRawDataValue(d)
  {
  }

  /** The marshaled tree of a snapshot `Marshals` it. */
  lemma MarshalsTree(d: LibRawData)
    requires d.Valid()
    ensures Marshals(d, LibRawDataValue(d))
  {
  }

  /**
   * `r` is the object `Process` returns when its processor's snapshot is `d`:
   * "thumbnail_buffer" exactly when the thumbnail is asked for, holding the
   * first `tlength` bytes `thumb` points at; "metadata" exactly when the
   * metadata is asked for, holding the marshaled snapshot; nothing else.
   */
  ghost predicate IsProcessResult(r: Value, d: LibRawData, thumb: bool, meta: bool)
    requires Good(d)
    requires thumb ==> d.thumbnail.thumb.Block?
  {
    && r.Obj? && r.fields.Keys <= {"thumbnail_buffer", "metadata"}
    && ("thumbnail_buffer" in r.fields <==> thumb)
    && (thumb ==> r.fields["thumbnail_buffer"] == Buf(d.thumbnail.thumb.mem[..d.thumbnail.tlength]))
    && ("metadata" in r.fields <==> meta)
    && (meta ==> Marshals(d, r.fields["metadata"]))
  }

  /**
   * `Process(info)`: `info[0]` is the image buffer and `info[1]` the options.
   * An undefined or null buffer throws and returns `undefined` before any
   * processor exists. Otherwise a fresh processor is opened on the whole
   * buffer, unpacked if the thumbnail is wanted, snapshotted, recycled and
   * deleted; `engine` is that processor.
   */
  method Process(env: Env, info: seq<JsValue>, decoder: Decoder) returns (result: Value, ghost engine: LibRaw?)
    requires decoder.Sound()
    requires Arg(info, 0).JsUndefined? || Arg(info, 0).JsNull? || Arg(info, 0).JsBuffer?
    requires Arg(info, 0).JsBuffer? && ProcessOption(Arg(info, 1), ThumbnailOption, true)
          ==> ProcessedData(decoder, Arg(info, 0).data, true).thumbnail.thumb.Block?
    modifies env
    ensures Arg(info, 0).JsUndefined? ==>
      && result == Undefined && engine == null
      && env.pending == Some(Error("Buffer for LibRaw processor cannot be undefined"))
    ensures Arg(info, 0).JsNull? ==>
      && result == Undefined && engine == null
      && env.pending == Some(Error("Buffer for LibRaw processor cannot be null"))
    ensures Arg(info, 0).JsBuffer? ==>
      var bytes := Arg(info, 0).data;
      var thumb := ProcessOption(Arg(info, 1), ThumbnailOption, true);
      var meta := ProcessOption(Arg(info, 1), MetadataOption, true);
      && engine != null && fresh(engine) && engine.Valid() && engine.deleted
      && engine.calls == ProcessCalls(bytes, thumb)
      && env.pending == old(env.pending)
      && IsProcessResult(result, ProcessedData(decoder, bytes, thumb), thumb, meta)
  {
    var buf := Arg(info, 0);
    if buf.JsUndefined? {
      env.Throw(Error("Buffer for LibRaw processor cannot be undefined"));
      return Undefined, null;
    }
    if buf.JsNull? {
      env.Throw(Error("Buffer for LibRaw processor cannot be null"));
      return Undefined, null;
    }

    var options := Arg(info, 1);
    var shouldExtractThumbnail := ProcessOption(options, ThumbnailOption, true);
    var shouldExtractMetadata := ProcessOption(options, MetadataOption, true);
    result, engine := ProcessBuffer(buf.data, shouldExtractThumbnail, shouldExtractMetadata, decoder);
  }

  /**
   * The body of `Process` once the buffer is known to be present: the
   * thumbnail is read after `unpack_thumb`, the metadata snapshot is taken
   * after the unpack, and the processor is recycled and deleted last.
   */
  method ProcessBuffer(bytes: seq<byte>, shouldExtractThumbnail: bool, shouldExtractMetadata: bool, decoder: Decoder)
    returns (result: Value, ghost engine: LibRaw)
    requires decoder.Sound()
    requires shouldExtractThumbnail ==> ProcessedData(decoder, bytes, true).thumbnail.thumb.Block?
    ensures fresh(engine) && engine.Valid() && engine.deleted
    ensures engine.calls == ProcessCalls(bytes, shouldExtractThumbnail)
    ensures IsProcessResult(result, ProcessedData(decoder, bytes, shouldExtractThumbnail), shouldExtractThumbnail, shouldExtractMetadata)
  {
    var lr, thumbnail := OpenAndUnpack(bytes, shouldExtractThumbnail, decoder);
    var metadata := Marshal(lr, shouldExtractMetadata);
    Release(lr);
    result, engine := ResultObject(thumbnail, metadata), lr;
  }

  /**
   * Lines 62-72 of `Process`: `new LibRaw()`, `open_buffer` on the whole
   * buffer and, if the thumbnail is wanted, `unpack_thumb` and the
   * "thumbnail_buffer" value.
   */
  method OpenAndUnpack(bytes: seq<byte>, shouldExtractThumbnail: bool, decoder: Decoder)
    returns (lr: LibRaw, thumbnail: Option<Value>)
    requires decoder.Sound()
    requires shouldExtractThumbnail ==> ProcessedData(decoder, bytes, true).thumbnail.thumb.Block?
    ensures fresh(lr) && lr.Valid() && !lr.deleted && lr.decoder == decoder
    ensures lr.imgdata == ProcessedData(decoder, bytes, shouldExtractThumbnail)
    ensures lr.calls == (if shouldExtractThumbnail then [OpenedBuffer(bytes), UnpackedThumb] else [OpenedBuffer(bytes)])
    ensures thumbnail.Some? <==> shouldExtractThumbnail
    ensures shouldExtractThumbnail ==>
      thumbnail.value == Buf(lr.imgdata.thumbnail.thumb.mem[..lr.imgdata.thumbnail.tlength])
  {
    thumbnail := None;
    lr := new LibRaw(decoder);
    var _ := lr.OpenBuffer(bytes);
    if shouldExtractThumbnail {
      var _ := lr.UnpackThumb();
      var data := lr.imgdata;
      thumbnail := Some(Buf(data.thumbnail.thumb.mem[..data.thumbnail.tlength]));
    }
  }

  /** Lines 74-78 of `Process`: the "metadata" value, if wanted, from the snapshot as it stands. */
  method Marshal(lr: LibRaw, shouldExtractMetadata: bool) returns (metadata: Option<Value>)
    requires lr.Valid()
    ensures metadata.Some? <==> shouldExtractMetadata
    ensures shouldExtractMetadata ==> Marshals(lr.imgdata, metadata.value)
  {
    metadata := None;
    if shouldExtractMetadata {
      var data := lr.imgdata;
      var tree := WrapLibRawData(data);
      metadata := Some(tree);
    }
  }

  /** Lines 80-81 of `Process`: `recycle()`, then `delete`. */
  method Release(lr: LibRaw)
    requires lr.Valid() && !lr.deleted
    modifies lr
    ensures lr.Valid() && lr.deleted
    ensures lr.calls == old(lr.calls) + [Recycled, Deleted]
  {
    lr.Recycle();
    lr.Delete();
  }
}
