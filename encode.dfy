/**
 * The in-memory encoders raster_encode_png and raster_encode_jpeg
 * (native/src/raster_ffi.c:207-253): run the codec against a fresh write
 * context, then either copy the sink's bytes into a host byte array of exact
 * length or report the encoder's fixed error message; the sink buffer is
 * released on both paths.
 */
module Encode {
  import opened Common
  import opened Memory
  import opened WriteSink

  const EncodePngFailure: string := "Failed to encode PNG"
  const EncodeJpegFailure: string := "Failed to encode JPEG"

  /**
   * What the stb `_to_func` encoder does for one image: the chunks it passes
   * to the write callback, in order, and the status it returns. The image,
   * its stride (width * channels) and the JPEG quality only reach the
   * encoder, so they are summed up by this value.
   */
  datatype CodecRun = CodecRun(succeeded: bool, chunks: seq<seq<uint8>>)

  /**
   * stbi_write_png_to_func / stbi_write_jpg_to_func: call the write callback
   * on `ctx` once per chunk, then return the codec's status.
   */
  method WriteToFunc(heap: Heap, ctx: WriteContext, run: CodecRun) returns (result: bool)
    requires ctx.Valid(heap) && ctx.State() == Empty
    modifies heap, ctx, ctx.buffer
    ensures ctx.Valid(heap)
    ensures ctx.State() == AppendAll(Empty, run.chunks)
    ensures ctx.State().contents == Concat(run.chunks)
    ensures ctx.buffer == null || ctx.buffer == old(ctx.buffer) || fresh(ctx.buffer)
    ensures heap.live - ctx.Owned() == old(heap.live - ctx.Owned())
    ensures result == run.succeeded
  {
    var i := 0;
    while i < |run.chunks|
      invariant 0 <= i <= |run.chunks|
      invariant ctx.Valid(heap)
      invariant ctx.State() == AppendAll(Empty, run.chunks[..i])
      invariant ctx.State().contents == Concat(run.chunks[..i])
      invariant ctx.buffer == null || ctx.buffer == old(ctx.buffer) || fresh(ctx.buffer)
      invariant heap.live - ctx.Owned() == old(heap.live - ctx.Owned())
      modifies heap, ctx, ctx.buffer
    {
      AppendAllSnoc(Empty, run.chunks[..i], run.chunks[i]);
      ConcatSnoc(run.chunks[..i], run.chunks[i]);
      assert run.chunks[..i + 1] == run.chunks[..i] + [run.chunks[i]];
      ctx.Append(heap, run.chunks[i]);
      i := i + 1;
    }
    assert run.chunks[..i] == run.chunks;
    result := run.succeeded;
  }

  /**
   * The shared body of the two in-memory encoders. It succeeds exactly when
   * the codec reports success AND wrote at least one byte (a codec that
   * succeeds having written nothing leaves the buffer NULL, which is an
   * error); the result is then a fresh host array holding exactly the bytes
   * the codec wrote, and it is the only block still live from this call.
   */
  method EncodeToMemory(heap: Heap, run: CodecRun, failure: string) returns (r: Result<array<uint8>>)
    modifies heap
    ensures r.Ok? <==> run.succeeded && Concat(run.chunks) != []
    ensures r.Ok? ==> fresh(r.value) && r.value[..] == Concat(run.chunks)
    ensures r.Ok? ==> heap.live == old(heap.live) + {r.value}
    ensures r.Err? ==> r.msg == failure && heap.live == old(heap.live)
  {
    var ctx := new WriteContext();
    var result := WriteToFunc(heap, ctx, run);
    EmptySinkAfterAppends(run.chunks);
    assert ctx.buffer != null ==> ctx.buffer !in old(heap.live);
    assert heap.live - ctx.Owned() == old(heap.live);
    assert heap.live == old(heap.live) + ctx.Owned();
    if !result || ctx.buffer == null {
      if ctx.buffer != null {
        heap.Free(ctx.buffer);
      }
      return Err(failure);
    }
    var arr := heap.Alloc(ctx.size);
    Memcpy(heap, arr, 0, ctx.buffer, ctx.size);
    heap.Free(ctx.buffer);
    return Ok(arr);
  }

  /** raster_encode_png: the PNG codec run through the sink. */
  method EncodePng(heap: Heap, run: CodecRun) returns (r: Result<array<uint8>>)
    modifies heap
    ensures r.Ok? <==> run.succeeded && Concat(run.chunks) != []
    ensures r.Ok? ==> fresh(r.value) && r.value[..] == Concat(run.chunks)
    ensures r.Ok? ==> heap.live == old(heap.live) + {r.value}
    ensures r.Err? ==> r.msg == EncodePngFailure && heap.live == old(heap.live)
  {
    r := EncodeToMemory(heap, run, EncodePngFailure);
  }

  /** raster_encode_jpeg: the JPEG codec run through the sink. */
  method EncodeJpeg(heap: Heap, run: CodecRun) returns (r: Result<array<uint8>>)
    modifies heap
    ensures r.Ok? <==> run.succeeded && Concat(run.chunks) != []
    ensures r.Ok? ==> fresh(r.value) && r.value[..] == Concat(run.chunks)
    ensures r.Ok? ==> heap.live == old(heap.live) + {r.value}
    ensures r.Err? ==> r.msg == EncodeJpegFailure && heap.live == old(heap.live)
  {
    r := EncodeToMemory(heap, run, EncodeJpegFailure);
  }
}
