/**
 * The LibRaw processor as the binding sees it.
 *
 * LibRaw itself is a foreign C++ library: the binding only constructs a
 * `LibRaw` object, calls `open_file`, `open_buffer`, `unpack_thumb` and
 * `recycle` on it, reads its public `imgdata` snapshot and deletes it. What
 * those calls compute is not visible here, so it is a parameter of the model:
 * a `Decoder` value whose functions say how each call transforms `imgdata`.
 * The object keeps a ghost log of the calls made on it, so that the binding's
 * call order can be stated.
 */
module LibRawEngine {
  import opened Values
  import opened LibRawTypes

  /** The result of an engine call: LibRaw's status code and the new `imgdata`. */
  datatype Outcome = Outcome(status: int, data: LibRawData)

  /** The engine's behaviour, as seen through `imgdata`. */
  datatype Decoder = Decoder(
    initial: LibRawData,                                // `imgdata` of a fresh `LibRaw()`
    openFile: (string, LibRawData) -> Outcome,
    openBuffer: (seq<byte>, LibRawData) -> Outcome,
    unpackThumb: LibRawData -> Outcome,
    recycle: LibRawData -> LibRawData)
  {
    /**
     * Every snapshot the engine can be in is well formed: its fixed-size arrays
     * have their C extents and its `thumb` and `xmpdata` pointers address at
     * least the number of bytes their length fields announce.
     */
    ghost predicate Sound() {
      && Good(initial)
      && (forall p, d :: Good(d) ==> Good(openFile(p, d).data))
      && (forall b, d :: Good(d) ==> Good(openBuffer(b, d).data))
      && (forall d :: Good(d) ==> Good(unpackThumb(d).data))
      && (forall d :: Good(d) ==> Good(recycle(d)))
    }
  }

  predicate Good(d: LibRawData) {
    d.Valid() && BuffersReadable(d)
  }

  /** One call made on a `LibRaw` object. */
  datatype Call = OpenedFile(path: string) | OpenedBuffer(bytes: seq<byte>) | UnpackedThumb | Recycled | Deleted

  class LibRaw {
    const decoder: Decoder
    var imgdata: LibRawData
    var deleted: bool
    ghost var calls: seq<Call>

    ghost predicate Valid()
      reads this
    {
      decoder.Sound() && Good(imgdata) && (deleted <==> Deleted in calls)
    }

    /** `new LibRaw()`. */
    constructor (decoder: Decoder)
      requires decoder.Sound()
      ensures Valid() && !deleted
      ensures this.decoder == decoder && imgdata == decoder.initial && calls == []
    {
      this.decoder := decoder;
      imgdata := decoder.initial;
      deleted := false;
      calls := [];
    }

    /** `open_file(path)`. */
    method OpenFile(path: string) returns (status: int)
      requires Valid() && !deleted
      modifies this
      ensures Valid() && !deleted
      ensures Outcome(status, imgdata) == decoder.openFile(path, old(imgdata))
      ensures calls == old(calls) + [OpenedFile(path)]
    {
      var r := decoder.openFile(path, imgdata);
      status, imgdata := r.status, r.data;
      calls := calls + [OpenedFile(path)];
    }

    /** `open_buffer(data, length)`, given the whole buffer. */
    method OpenBuffer(bytes: seq<byte>) returns (status: int)
      requires Valid() && !deleted
      modifies this
      ensures Valid() && !deleted
      ensures Outcome(status, imgdata) == decoder.openBuffer(bytes, old(imgdata))
      ensures calls == old(calls) + [OpenedBuffer(bytes)]
    {
      var r := decoder.openBuffer(bytes, imgdata);
      status, imgdata := r.status, r.data;
      calls := calls + [OpenedBuffer(bytes)];
    }

    /** `unpack_thumb()`. */
    method UnpackThumb() returns (status: int)
      requires Valid() && !deleted
      modifies this
      ensures Valid() && !deleted
      ensures Outcome(status, imgdata) == decoder.unpackThumb(old(imgdata))
      ensures calls == old(calls) + [UnpackedThumb]
    {
      var r := decoder.unpackThumb(imgdata);
      status, imgdata := r.status, r.data;
      calls := calls + [UnpackedThumb];
    }

    /** `recycle()`: frees the decoded data and resets the snapshot. */
    method Recycle()
      requires Valid() && !deleted
      modifies this
      ensures Valid() && !deleted
      ensures imgdata == decoder.recycle(old(imgdata))
      ensures calls == old(calls) + [Recycled]
    {
      imgdata := decoder.recycle(imgdata);
      calls := calls + [Recycled];
    }

    /** `delete`: the object may not be used, nor deleted, again. */
    method Delete()
      requires Valid() && !deleted
      modifies this
      ensures Valid() && deleted
      ensures imgdata == old(imgdata)
      ensures calls == old(calls) + [Deleted]
    {
      deleted := true;
      calls := calls + [Deleted];
    }
  }
}
