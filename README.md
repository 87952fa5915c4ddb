# Raster FFI boundary layer, modelled in Dafny

The raster library gives a host language image decoding, encoding and
resizing by wrapping the stb single-file codecs behind a C ABI
(`native/src/raster_ffi.c`). The codecs themselves are foreign code; what the
C file adds is the boundary logic around them, and that is what this project
models and proves:

- **The growable in-memory write sink** (`WriteContext` and `write_callback`):
  the callback appends bytes in place; when they do not fit it grows the
  capacity from 4096 (the first time) or from twice the old capacity, doubling
  until the bytes fit. Modelled as the class
  `WriteSink.WriteContext` with the source's three fields, proved against a
  value-level description (`SinkState`, `Appended`, `AppendAll`) whose
  properties are proved as lemmas: contents are the old bytes followed by the
  new ones, the capacity always covers the size, it is 0 or 4096·2^k, and no
  buffer exists until a byte has been written.
- **Decoding** (`raster_load_from_file`, `raster_load_from_memory`,
  `mk_load_result`, `raster_info_from_file`): channel resolution (a requested
  count of 0 means the file's own count), the byte length
  width·height·channels, one copy into a host array, and the release of the
  codec's buffer.
- **In-memory encoding** (`raster_encode_png`, `raster_encode_jpeg`): the
  codec writes through the sink; the call succeeds exactly when the codec
  succeeds and wrote at least one byte, and then returns exactly those bytes.
- **Resizing** (`raster_resize`): the channel-count to pixel-layout mapping
  with its error branch, and the speculative destination that is released on
  both failure paths.
- **Ownership.** `Memory.Heap` keeps a ghost set `live` of the blocks
  allocated and not yet released, for native blocks (malloc/realloc/free and
  the codecs' buffers) and host byte arrays alike. `Free` requires its block
  to be live, so nothing is released twice, and every copy requires the
  blocks it reads and writes to be live, so nothing is used after release.
  Every entry point ends with `live` as it found it on an error path, and
  with exactly the returned host array added on success.

The stb codecs and the resampler are parameters: `Decode.DecodeOutcome`,
`Decode.InfoOutcome`, `Encode.CodecRun` (the chunks the encoder passes to the
callback, in order, and its status) and an `Option` of resampled pixels. Small
methods (`StbiLoad`, `WriteToFunc`, `ResizeLinear`) play each codec's part of
the protocol from that parameter: they allocate, call the callback, or fill the
destination, as the real codec would. The image data, stride and JPEG quality
reach only the codec, so the entry points do not take them.

Modules: `Common` (bytes, `Result`, `Option`, `Concat`), `Memory` (the heap
and `memcpy`), `WriteSink`, `Decode`, `Encode`, `Resize`.

## Model

| member | source | states |
|---|---|---|
| WriteSink.WriteContext.constructor | native/src/raster_ffi.c:215 | A new context is `{NULL, 0, 0}`: no buffer, size 0, capacity 0. |
| WriteSink.WriteContext.Append | native/src/raster_ffi.c:194-205 | After a callback with `data`, size grows by the length of `data`, the buffer's first `size` bytes are the old contents followed by `data`, the new state is `Appended(old state, data)`, the context's invariant (size ≤ capacity, buffer exists iff capacity > 0 iff size > 0, capacity 0 or grown) still holds; when the bytes already fit, neither buffer nor capacity changes; no heap block other than the context's own is touched. |
| WriteSink.WriteContext.Reserve | native/src/raster_ffi.c:197-201 | When the bytes do not fit, the context gets a fresh live buffer of capacity `Grow(first step, needed)`, keeps the bytes written so far and its size, and releases only its own old buffer. |
| WriteSink.FirstGrowth | native/src/raster_ffi.c:198 | The first growth step always increases the capacity and keeps it of the form 4096·2^k (4096 from 0, double otherwise). |
| WriteSink.NextCapacity | native/src/raster_ffi.c:198-199 | The doubling loop ends at `Grow(4096 or 2·capacity, needed)`, the least doubling of the starting capacity that covers `needed`. |
| WriteSink.Grow | native/src/raster_ffi.c:198-199 | Growth ends at a capacity ≥ `needed` and ≥ the start, below `2·needed` unless no doubling happened, and stays of the form 4096·2^k. |
| WriteSink.Appended | native/src/raster_ffi.c:196-204 | One append: contents become old contents + data; capacity is unchanged when the bytes fit; otherwise it covers the new size and is the first step (4096, or double) or below twice the size; the sink invariant is preserved. |
| WriteSink.AppendAllSnoc | native/src/raster_ffi.c:194-205 | A run of callbacks followed by one more is that run, then one `Appended`. |
| WriteSink.AppendAllContents | native/src/raster_ffi.c:203-204 | After any run of callbacks the sink holds the old bytes followed by every chunk in order. |
| WriteSink.AppendAllKeepsInvariant | native/src/raster_ffi.c:196-204 | Every run of callbacks preserves size ≤ capacity, capacity 0 or grown, and capacity 0 iff empty. |
| WriteSink.EmptySinkAfterAppends | native/src/raster_ffi.c:196-204 | From `{NULL, 0, 0}`, any run of callbacks leaves contents equal to the chunks concatenated, capacity ≥ size, capacity 0 exactly when no byte was written, and otherwise capacity = 4096·2^k for some k. |
| WriteSink.GrownCapacityIsPowerMultiple | native/src/raster_ffi.c:198-199 | Every capacity reachable by growth is 4096·2^k. |
| WriteSink.PowerMultipleIsGrownCapacity | native/src/raster_ffi.c:198-199 | Every 4096·2^k is reachable by growth (converse of the above). |
| Memory.Heap.Realloc | native/src/raster_ffi.c:200 | `realloc` gives a fresh block of the new size whose prefix is the old block, releases the old block, and from NULL is a plain allocation. |
| Memory.Heap.Alloc | native/src/raster_ffi.c:224 | An allocation is a fresh block of the requested length, and it is the only block added to `live`. |
| Memory.Memcpy | native/src/raster_ffi.c:35 | `memcpy(dst + offset, src, n)` between heap blocks: both blocks must be live and distinct, so a copy from or into a released block is refused; the destination becomes its old prefix up to `offset`, then the source's first `n` bytes, then its old suffix, and the source is unchanged. The same copy stands for lines 225 and 249 and for the copy inside `realloc`. |
| Memory.CopyIn | native/src/raster_ffi.c:203 | `memcpy(dst + offset, data, size)` from memory the heap does not track (the codec's chunk): the destination must be live, and becomes its old prefix, then the bytes, then its old suffix; a NULL destination is allowed only for an empty copy at offset 0 (an empty callback while the context has no buffer). The codec's and the resampler's own writes into a block use it too. |
| Memory.Heap.Free | native/src/raster_ffi.c:220 | Only a live block can be released, and releasing removes exactly it. |
| Encode.WriteToFunc | native/src/raster_ffi.c:216-218 | The codec's callbacks leave the context in state `AppendAll(empty, chunks)` with its invariant, its bytes are the chunks concatenated in order, touching no other live block, and the status is the codec's. |
| Encode.EncodeToMemory | native/src/raster_ffi.c:215-228 | Success exactly when the codec succeeds and wrote a byte; the result is then a fresh host array equal to the bytes written (length = sink size) and the only block added to `live`; on failure the message is the fixed one and `live` is unchanged (sink freed). |
| Encode.EncodePng | native/src/raster_ffi.c:207-229 | As above, with "Failed to encode PNG". |
| Encode.EncodeJpeg | native/src/raster_ffi.c:231-253 | As above, with "Failed to encode JPEG". |
| Decode.ResolveChannels | native/src/raster_ffi.c:90 | Reported channels are the requested count when it is > 0, and the file's native count when it is 0. |
| Decode.FileFailure | native/src/raster_ffi.c:86 | File error messages start with "Failed to " and end with the codec's reason. |
| Decode.StbiLoad | native/src/raster_ffi.c:82-83 | The decoder returns null exactly on failure; otherwise a fresh live buffer holding its pixels, with width, height and native channels. |
| Decode.MakeLoadResult | native/src/raster_ffi.c:30-38 | The host array is a fresh copy of the codec buffer of length width·height·channels, and the codec buffer is released: `live` loses it and gains the host array. |
| Decode.LoadFromMemory | native/src/raster_ffi.c:95-114 | Success exactly when the codec decodes; then channels are resolved from the request, the host array holds the codec's pixels, its length is width·height·channels against the reported channels, and it is the only block added to `live`; on failure the message is the codec's reason and `live` is unchanged. |
| Decode.LoadFromFile | native/src/raster_ffi.c:74-93 | As LoadFromMemory, with the failure message "Failed to load '<path>': <reason>". |
| Decode.InfoFromFile | native/src/raster_ffi.c:116-131 | Success exactly when the header is read, with its width, height and channels; otherwise "Failed to get info for '<path>': <reason>". |
| Resize.LayoutChannels | native/src/raster_ffi.c:275-278 | Every layout has between 1 and 4 channels. |
| Resize.LayoutFor | native/src/raster_ffi.c:273-282 | A layout exists exactly for channel counts 1 to 4 and has that many channels; any other count gives "Invalid channel count for resize". |
| Resize.LayoutRoundTrip | native/src/raster_ffi.c:274-278 | Mapping a layout to its channel count and back gives the layout, and only its own count maps to it. |
| Resize.ResizeLinear | native/src/raster_ffi.c:284-288 | The resampler writes into a live destination of exactly dst_w·dst_h·(the layout's channel count) bytes, so it can only be called with the layout `LayoutFor` picked for `channels`; it succeeds exactly when it has pixels, and then fills the destination in place with them. |
| Resize.Resize | native/src/raster_ffi.c:259-296 | The destination of dst_w·dst_h·channels bytes is returned, filled, exactly when channels is 1 to 4 and the resampler succeeds, and is then the only block added to `live`; otherwise it is released and the message is "Invalid channel count for resize" or "Resize operation failed" accordingly. |

## Left out

- The stb codecs and resampler (`stbi_load*`, `stbi_info`, `stbi_write_*`, `stbi_write_*_to_func`, `stbir_resize_uint8_linear`): foreign code; they are parameters describing their outcome, so format round trips, JPEG error bounds and resize identity are not stated.
- The file writers `raster_write_png`, `raster_write_jpeg`, `raster_write_bmp`: their only logic is the stride width·channels and a fixed error message around a file-system call.
- Host object construction (the nested pairs of `mk_load_result`/`mk_info_result`, boxing, IO result wrappers): a `Result` datatype and records stand for them.
- Decode.FileFailure: does not model the 512-byte `snprintf` truncation of file error messages, because it depends only on the C buffer size and not on the boundary's logic.
- The thread-local failure reason of the codec: the reason is part of the outcome parameter.
- WriteSink.WriteContext.Append: does not model a failing `realloc` (the source does not check it) or `size_t` overflow of the doubling; allocation is assumed to succeed and sizes are unbounded.
- Decode.LoadFromMemory: does not model the `(int)` cast of the input length or overflow of width·height·channels; sizes are unbounded naturals.
- Decode.LoadFromFile: does not model overflow of the `size_t` product width·height·channels in `mk_load_result`; sizes are unbounded naturals.
- Decode.MakeLoadResult: does not model overflow of the `size_t` product width·height·channels or the `uint32` casts of the dimensions; sizes are unbounded naturals.
- Resize.Resize: does not model the `size_t` wrap of dst_w·dst_h·channels or the `(int)` casts of the source and destination dimensions passed to the resampler; sizes are unbounded naturals, so a destination the source would size modulo 2^64 is promised at its full length.
- Memory.Heap.Realloc: always yields a new block, where `realloc` may extend in place; only ownership and contents are modelled.
- Agreement between `raster_info_from_file` and `raster_load_from_file` on the same file depends on the codec reading the same header both times, which is outside this model.
