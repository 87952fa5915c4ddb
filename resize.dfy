/**
 * raster_resize (native/src/raster_ffi.c:259-296): allocate the host
 * destination array up front, map the channel count to the resampler's pixel
 * layout, run the resampler into the destination, and release the
 * destination on either failure.
 */
module Resize {
  import opened Common
  import opened Memory

  const InvalidChannelsFailure: string := "Invalid channel count for resize"
  const ResizeFailure: string := "Resize operation failed"

  /** The resampler's pixel layouts the layer uses. */
  datatype Layout = OneChannel | TwoChannel | Rgb | Rgba

  /** Samples per pixel of a layout. */
  function LayoutChannels(layout: Layout): (n: uint8)
    ensures 1 <= n <= 4
  {
    match layout
    case OneChannel => 1
    case TwoChannel => 2
    case Rgb => 3
    case Rgba => 4
  }

  /**
   * The `switch (channels)` of raster_resize: 1, 2, 3 and 4 pick the gray,
   * gray+alpha, RGB and RGBA layouts; every other count is refused with the
   * fixed message. The layout picked has exactly the requested channel count.
   */
  function LayoutFor(channels: uint8): (r: Result<Layout>)
    ensures r.Ok? <==> 1 <= channels <= 4
    ensures r.Ok? ==> LayoutChannels(r.value) == channels
    ensures r.Err? ==> r.msg == InvalidChannelsFailure
  {
    match channels
    case 1 => Ok(OneChannel)
    case 2 => Ok(TwoChannel)
    case 3 => Ok(Rgb)
    case 4 => Ok(Rgba)
    case _ => Err(InvalidChannelsFailure)
  }

  /** Every layout is picked by its own channel count, and by no other. */
  lemma LayoutRoundTrip(layout: Layout, channels: uint8)
    ensures LayoutFor(LayoutChannels(layout)) == Ok(layout)
    ensures LayoutFor(channels) == Ok(layout) ==> channels == LayoutChannels(layout)
  {
  }

  /**
   * stbir_resize_uint8_linear with a caller-supplied destination of
   * dstWidth * dstHeight pixels of `layout`: either it fails (`resampled` is
   * None), or it fills the destination in place with the resampled pixels,
   * as many bytes as the layout's channel count gives. The source image and
   * its dimensions only reach the resampler, so they are summed up by
   * `resampled`.
   */
  method ResizeLinear(heap: Heap, dst: array<uint8>, dstWidth: nat, dstHeight: nat, layout: Layout,
                      resampled: Option<seq<uint8>>) returns (ok: bool)
    requires dst in heap.live
    requires dst.Length == dstWidth * dstHeight * LayoutChannels(layout) as nat
    requires resampled.Some? ==> |resampled.value| == dstWidth * dstHeight * LayoutChannels(layout) as nat
    modifies dst
    ensures ok <==> resampled.Some?
    ensures ok ==> dst[..] == resampled.value
  {
    if resampled.None? {
      return false;
    }
    CopyIn(heap, dst, 0, resampled.value);
    return true;
  }

  /**
   * raster_resize. The destination has dstWidth * dstHeight * channels bytes
   * and is allocated before anything is checked. It is returned, filled by
   * the resampler, exactly when the channel count names a layout and the
   * resampler succeeds; otherwise it is released and the error says which
   * check failed. Either way no other block is left live.
   */
  method Resize(heap: Heap, dstWidth: nat, dstHeight: nat, channels: uint8, resampled: Option<seq<uint8>>)
    returns (r: Result<array<uint8>>)
    requires resampled.Some? ==> |resampled.value| == dstWidth * dstHeight * channels as nat
    modifies heap
    ensures r.Ok? <==> 1 <= channels <= 4 && resampled.Some?
    ensures r.Ok? ==>
      && fresh(r.value) && r.value.Length == dstWidth * dstHeight * channels as nat
      && r.value[..] == resampled.value
      && heap.live == old(heap.live) + {r.value}
    ensures r.Err? ==> heap.live == old(heap.live)
    ensures r.Err? ==> r.msg == if 1 <= channels <= 4 then ResizeFailure else InvalidChannelsFailure
  {
    var dstSize := dstWidth * dstHeight * channels as nat;
    var dst := heap.Alloc(dstSize);
    var layout := LayoutFor(channels);
    if layout.Err? {
      heap.Free(dst);
      return Err(layout.msg);
    }
    var ok := ResizeLinear(heap, dst, dstWidth, dstHeight, layout.value, resampled);
    if !ok {
      heap.Free(dst);
      return Err(ResizeFailure);
    }
    return Ok(dst);
  }
}
