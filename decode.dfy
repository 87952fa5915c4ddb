/**
 * The decoders raster_load_from_file, raster_load_from_memory and
 * raster_info_from_file, with mk_load_result
 * (native/src/raster_ffi.c:29-131): resolve the channel count, copy the
 * codec's pixels once into a host byte array of length
 * width * height * channels, and release the codec's buffer.
 */
module Decode {
  import opened Common
  import opened Memory

  /**
   * The channel count a decode reports: the requested count when one is
   * requested (non-zero), otherwise the file's own count.
   */
  function ResolveChannels(requested: uint8, native: nat): (c: nat)
    ensures requested > 0 ==> c == requested as nat
    ensures requested == 0 ==> c == native
  {
    if requested > 0 then requested as nat else native
  }

  /** Byte length of a tightly packed 8-bit image. */
  function PixelBytes(width: nat, height: nat, channels: nat): nat
  {
    width * height * channels
  }

  /**
   * What the stb decoder makes of one input: a failure with the codec's
   * reason, or the image's width, height, its native channel count, and the
   * pixels it produced.
   */
  datatype DecodeOutcome =
    | DecodeFailed(reason: string)
    | Decoded(width: nat, height: nat, nativeChannels: nat, pixels: seq<uint8>)

  /**
   * The decoder's own promise, called with req_comp `reqComp`: the buffer
   * holds width * height * n bytes, where n is req_comp when non-zero and the
   * native count otherwise.
   */
  predicate DecoderContract(reqComp: uint8, o: DecodeOutcome)
  {
    o.Decoded? ==> |o.pixels| == PixelBytes(o.width, o.height, if reqComp != 0 then reqComp as nat else o.nativeChannels)
  }

  /** A decoded image handed to the host: (pixels, (width, (height, channels))). */
  datatype Loaded = Loaded(pixels: array<uint8>, width: nat, height: nat, channels: nat)

  /** Header fields reported by info_from_file: (width, (height, channels)). */
  datatype Info = Info(width: nat, height: nat, channels: nat)

  /** What stbi_info finds in a file's header. */
  datatype InfoOutcome = InfoFailed(reason: string) | InfoRead(width: nat, height: nat, channels: nat)

  /** "Failed to <verb> '<path>': <reason>", without the 512-byte limit. */
  function FileFailure(verb: string, path: string, reason: string): (msg: string)
    ensures |msg| == |"Failed to "| + |verb| + |" '"| + |path| + |"': "| + |reason|
    ensures msg[..|"Failed to "|] == "Failed to "
    ensures msg[|msg| - |reason|..] == reason
  {
    "Failed to " + verb + " '" + path + "': " + reason
  }

  /**
   * stbi_load / stbi_load_from_memory: on success a fresh codec-owned buffer
   * holding the decoded pixels, with the width, height and native channel
   * count; on failure null.
   */
  method StbiLoad(heap: Heap, reqComp: uint8, outcome: DecodeOutcome)
    returns (data: array?<uint8>, width: nat, height: nat, channels: nat)
    requires DecoderContract(reqComp, outcome)
    modifies heap
    ensures data == null <==> outcome.DecodeFailed?
    ensures data == null ==> heap.live == old(heap.live)
    ensures data != null ==>
      && fresh(data) && data[..] == outcome.pixels
      && width == outcome.width && height == outcome.height && channels == outcome.nativeChannels
      && heap.live == old(heap.live) + {data}
  {
    if outcome.DecodeFailed? {
      return null, 0, 0, 0;
    }
    data := heap.Alloc(|outcome.pixels|);
    CopyIn(heap, data, 0, outcome.pixels);
    width, height, channels := outcome.width, outcome.height, outcome.nativeChannels;
  }

  /**
   * mk_load_result: copy width * height * channels bytes of the codec's
   * buffer into a fresh host array, then release the codec's buffer.
   */
  method MakeLoadResult(heap: Heap, data: array<uint8>, width: nat, height: nat, channels: nat)
    returns (r: Loaded)
    requires data in heap.live
    requires data.Length == PixelBytes(width, height, channels)
    modifies heap
    ensures fresh(r.pixels) && r.pixels[..] == data[..]
    ensures r.pixels.Length == PixelBytes(r.width, r.height, r.channels)
    ensures r.width == width && r.height == height && r.channels == channels
    ensures heap.live == old(heap.live) - {data} + {r.pixels}
  {
    var size := width * height * channels;
    var arr := heap.Alloc(size);
    Memcpy(heap, arr, 0, data, size);
    assert data[..size] == data[..];
    heap.Free(data);
    r := Loaded(arr, width, height, channels);
  }

  /**
   * raster_load_from_memory. Success exactly when the codec decodes; the
   * reported channels are the resolved ones and the host array holds the
   * codec's pixels, width * height * channels bytes of them. The codec's
   * buffer is released, so the host array is the only block the call leaves
   * live. On failure the message is the codec's reason and nothing is left
   * live.
   */
  method LoadFromMemory(heap: Heap, requestedChannels: uint8, outcome: DecodeOutcome)
    returns (r: Result<Loaded>)
    requires DecoderContract(requestedChannels, outcome)
    modifies heap
    ensures r.Ok? <==> outcome.Decoded?
    ensures r.Err? ==> r.msg == outcome.reason && heap.live == old(heap.live)
    ensures r.Ok? ==>
      && r.value.width == outcome.width && r.value.height == outcome.height
      && r.value.channels == ResolveChannels(requestedChannels, outcome.nativeChannels)
      && r.value.pixels.Length == PixelBytes(r.value.width, r.value.height, r.value.channels)
      && fresh(r.value.pixels) && r.value.pixels[..] == outcome.pixels
      && heap.live == old(heap.live) + {r.value.pixels}
  {
    var data, width, height, channels :=
      StbiLoad(heap, if requestedChannels > 0 then requestedChannels else 0, outcome);
    if data == null {
      return Err(outcome.reason);
    }
    var actualChannels := ResolveChannels(requestedChannels, channels);
    var loaded := MakeLoadResult(heap, data, width, height, actualChannels);
    return Ok(loaded);
  }

  /**
   * raster_load_from_file: as LoadFromMemory, except that the failure
   * message names the path: "Failed to load '<path>': <reason>".
   */
  method LoadFromFile(heap: Heap, path: string, requestedChannels: uint8, outcome: DecodeOutcome)
    returns (r: Result<Loaded>)
    requires DecoderContract(requestedChannels, outcome)
    modifies heap
    ensures r.Ok? <==> outcome.Decoded?
    ensures r.Err? ==> r.msg == FileFailure("load", path, outcome.reason) && heap.live == old(heap.live)
    ensures r.Ok? ==>
      && r.value.width == outcome.width && r.value.height == outcome.height
      && r.value.channels == ResolveChannels(requestedChannels, outcome.nativeChannels)
      && r.value.pixels.Length == PixelBytes(r.value.width, r.value.height, r.value.channels)
      && fresh(r.value.pixels) && r.value.pixels[..] == outcome.pixels
      && heap.live == old(heap.live) + {r.value.pixels}
  {
    var data, width, height, channels :=
      StbiLoad(heap, if requestedChannels > 0 then requestedChannels else 0, outcome);
    if data == null {
      return Err(FileFailure("load", path, outcome.reason));
    }
    var actualChannels := ResolveChannels(requestedChannels, channels);
    var loaded := MakeLoadResult(heap, data, width, height, actualChannels);
    return Ok(loaded);
  }

  /**
   * raster_info_from_file: the header's width, height and channel count, or
   * "Failed to get info for '<path>': <reason>". Nothing is allocated.
   */
  function InfoFromFile(path: string, outcome: InfoOutcome): (r: Result<Info>)
    ensures r.Ok? <==> outcome.InfoRead?
    ensures r.Ok? ==> r.value == Info(outcome.width, outcome.height, outcome.channels)
    ensures r.Err? ==> r.msg == FileFailure("get info for", path, outcome.reason)
  {
    match outcome
    case InfoFailed(reason) => Err(FileFailure("get info for", path, reason))
    case InfoRead(w, h, c) => Ok(Info(w, h, c))
  }
}
