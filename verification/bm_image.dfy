/** bmcv::bmimage_from_avframe (bmutility_image.h): check that a decoded
    frame is NV12 with its planes present, then describe the device image
    built over those planes. The bm_image_create and bm_image_attach calls
    become the image value the conversion returns. */
module BmImage {
  import opened CInt
  import opened Wrappers

  /** AV_PIX_FMT_NV12 in libavutil's AVPixelFormat. */
  const PixFmtNv12: int := 23

  /** AV_NUM_DATA_POINTERS: the length of AVFrame's data and linesize arrays. */
  const NumDataPointers: nat := 8

  /** The channel_layout value the decoder uses to flag compressed NV12. */
  const CompressedLayout: int := 101

  datatype RawFrame = RawFrame(
    format: int, channelLayout: int, height: int, width: int,
    linesize: seq<int>, data: seq<int>)

  /** The AVFrame fields the conversion reads; a data pointer is an address,
      0 for null. */
  type AvFrame = f: RawFrame | |f.linesize| == NumDataPointers && |f.data| == NumDataPointers
    witness RawFrame(0, 0, 0, 0, [0, 0, 0, 0, 0, 0, 0, 0], [0, 0, 0, 0, 0, 0, 0, 0])

  /** bm_status_t results of the conversion. */
  datatype Status = Success | ErrParam | NotSupported

  datatype ImageFormat = FormatNv12 | FormatCompressed

  /** bm_mem_from_device(address, size). */
  datatype Plane = Plane(addr: int, size: int)

  /** A bm_image as created and attached: geometry, format, the strides
      given at creation ([] for the defaults) and the attached planes. */
  datatype Image = Image(height: int, width: int, format: ImageFormat, strides: seq<int>, planes: seq<Plane>)

  /** What a call leaves behind: its status, the image attached to `out`
      (None: `out` untouched) and the local image the compressed branch
      builds and does not hand back. */
  datatype Conversion = Conversion(status: Status, out: Option<Image>, local: Option<Image>)

  predicate IsCompressed(f: AvFrame) {
    f.channelLayout == CompressedLayout
  }

  /** The data and linesize slots each layout needs. */
  function RequiredSlots(compressed: bool): (slots: set<nat>)
    ensures forall k :: k in slots ==> 4 <= k < NumDataPointers
    ensures 4 in slots && 5 in slots
    ensures 6 in slots <==> compressed
    ensures 7 in slots <==> compressed
  {
    if compressed then {4, 5, 6, 7} else {4, 5}
  }

  /** A frame the sanity check accepts: non-zero geometry and, in every
      required slot, a non-zero line size and a non-null pointer. */
  predicate Sane(f: AvFrame) {
    && f.height != 0 && f.width != 0
    && forall k :: k in RequiredSlots(IsCompressed(f)) ==> f.linesize[k] != 0 && f.data[k] != 0
  }

  /** bmimage_from_avframe. */
  function FromAvFrame(f: AvFrame): (c: Conversion)
    ensures c.status == NotSupported <==> f.format != PixFmtNv12
    ensures c.status == ErrParam <==> f.format == PixFmtNv12 && !Sane(f)
    ensures c.status == Success <==> f.format == PixFmtNv12 && Sane(f)
    ensures c.status != Success ==> c.out == None && c.local == None
    ensures IsCompressed(f) ==> c.out == None
    ensures !IsCompressed(f) ==> c.local == None
    ensures c.status == Success && !IsCompressed(f) ==>
      c.out == Some(Image(f.height, f.width, FormatNv12, [f.linesize[4], f.linesize[5]],
                          [Plane(f.data[4], f.height * f.linesize[4]), Plane(f.data[5], f.height * f.linesize[5])]))
    ensures c.status == Success && IsCompressed(f) ==>
      c.local == Some(Image(f.height, f.width, FormatCompressed, [],
                            [Plane(f.data[6], f.height * f.linesize[4]),
                             Plane(f.data[4], Div(f.height, 2) * f.linesize[5]),
                             Plane(f.data[7], f.linesize[6]),
                             Plane(f.data[5], f.linesize[7])]))
  {
    if f.format != PixFmtNv12 then Conversion(NotSupported, None, None)
    else if f.channelLayout == CompressedLayout then
      if f.height == 0 || f.width == 0
         || f.linesize[4] == 0 || f.linesize[5] == 0 || f.linesize[6] == 0 || f.linesize[7] == 0
         || f.data[4] == 0 || f.data[5] == 0 || f.data[6] == 0 || f.data[7] == 0
      then Conversion(ErrParam, None, None)
      else
        var h := f.height;
        var planes := [
          Plane(f.data[6], h * f.linesize[4]),
          Plane(f.data[4], Div(h, 2) * f.linesize[5]),
          Plane(f.data[7], f.linesize[6]),
          Plane(f.data[5], f.linesize[7])];
        Conversion(Success, None, Some(Image(h, f.width, FormatCompressed, [], planes)))
    else
      if f.height == 0 || f.width == 0
         || f.linesize[4] == 0 || f.linesize[5] == 0
         || f.data[4] == 0 || f.data[5] == 0
      then Conversion(ErrParam, None, None)
      else
        var stride := [f.linesize[4], f.linesize[5]];
        var planes := [Plane(f.data[4], f.height * stride[0]), Plane(f.data[5], f.height * stride[1])];
        Conversion(Success, Some(Image(f.height, f.width, FormatNv12, stride, planes)), None)
  }

  /** Slots 6 and 7 play no part for an uncompressed frame: changing them
      changes nothing in the result. */
  lemma UncompressedIgnoresUpperSlots(f: AvFrame, g: AvFrame)
    requires !IsCompressed(f) && !IsCompressed(g)
    requires f.format == g.format && f.height == g.height && f.width == g.width
    requires f.linesize[..6] == g.linesize[..6] && f.data[..6] == g.data[..6]
    ensures FromAvFrame(f) == FromAvFrame(g)
  {
    assert f.linesize[4] == f.linesize[..6][4] && f.linesize[5] == f.linesize[..6][5];
    assert f.data[4] == f.data[..6][4] && f.data[5] == f.data[..6][5];
  }

  /** A compressed frame missing any of its four planes is refused. */
  lemma CompressedNeedsAllFourSlots(f: AvFrame, k: nat)
    requires f.format == PixFmtNv12 && IsCompressed(f) && 4 <= k < NumDataPointers
    requires f.linesize[k] == 0 || f.data[k] == 0
    ensures FromAvFrame(f).status == ErrParam
  {
    assert k in RequiredSlots(true);
  }

  /** The uncompressed image spans the frame: the luma and chroma planes each
      hold `height` rows of their stride, in the first two slots' memory. */
  lemma UncompressedPlanesFollowStrides(f: AvFrame)
    requires FromAvFrame(f).status == Success && !IsCompressed(f)
    ensures var img := FromAvFrame(f).out.value;
      && |img.planes| == |img.strides| == 2
      && forall k :: 0 <= k < 2 ==>
           img.planes[k].addr == f.data[4 + k] && img.planes[k].size == img.height * img.strides[k]
  {
  }
}
