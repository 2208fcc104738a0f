/**
 * The per-stream tables the drivers fill in: pixel format, image encoding and
 * byte step set at initialisation, and the geometry, enables and frame ids
 * read as parameters, IR2's geometry tied to depth's.
 */
module Streams {
  import opened Wrappers
  import opened Constants

  /** librealsense pixel formats the drivers choose; `FormatAny` is the unset entry. */
  datatype Format = FormatAny | RGB8 | Z16 | Y8 | RAW8

  /** ROS image encodings the drivers choose; `NoEncoding` is the unset entry. */
  datatype Encoding = NoEncoding | Rgb8Encoding | Type16UC1 | Type8UC1

  /** Bytes one pixel of the format occupies. */
  function FormatBytes(f: Format): nat {
    match f
    case FormatAny => 0
    case RGB8 => 3
    case Z16 => 2
    case Y8 => 1
    case RAW8 => 1
  }

  /** Bytes one pixel of the encoding occupies: channels times bytes per channel. */
  function EncodingBytes(e: Encoding): nat {
    match e
    case NoEncoding => 0
    case Rgb8Encoding => 3 * 1
    case Type16UC1 => 1 * 2
    case Type8UC1 => 1 * 1
  }

  /** What initialisation sets for one stream. */
  datatype Layout = Layout(format: Format, encoding: Encoding, step: int)

  /** A layout whose byte step matches both its format and its encoding. */
  predicate Consistent(l: Layout) {
    l.format != FormatAny && l.step == FormatBytes(l.format) && l.step == EncodingBytes(l.encoding)
  }

  /** The R200 layout table: every stream but the fisheye gets an entry. */
  function R200Layout(k: StreamKind): (r: Option<Layout>)
    ensures r.Some? <==> k != Fisheye
    ensures r.Some? ==> Consistent(r.value)
  {
    match k
    case Color => Some(Layout(RGB8, Rgb8Encoding, 3))
    case Depth => Some(Layout(Z16, Type16UC1, 2))
    case Infrared => Some(Layout(Y8, Type8UC1, 1))
    case Infrared2 => Some(Layout(Y8, Type8UC1, 1))
    case Fisheye => None
  }

  /** The ZR300 layout table: the R200's plus the fisheye, so every stream gets an entry. */
  function ZR300Layout(k: StreamKind): (r: Option<Layout>)
    ensures r.Some? && Consistent(r.value)
    ensures k != Fisheye ==> r == R200Layout(k)
  {
    if k == Fisheye then Some(Layout(RAW8, Type8UC1, 1)) else R200Layout(k)
  }

  /** Colour is three bytes of RGB8, depth two of Z16, both infrared streams one of Y8, the fisheye one of RAW8. */
  lemma LayoutSteps()
    ensures R200Layout(Color) == Some(Layout(RGB8, Rgb8Encoding, 3))
    ensures R200Layout(Depth) == Some(Layout(Z16, Type16UC1, 2))
    ensures R200Layout(Infrared) == R200Layout(Infrared2) == Some(Layout(Y8, Type8UC1, 1))
    ensures ZR300Layout(Fisheye) == Some(Layout(RAW8, Type8UC1, 1))
  {
  }

  /**
   * The driver's per-stream arrays, one entry per stream, indexed by
   * `StreamIndex`.
   */
  class StreamTable {
    const width: array<int>
    const height: array<int>
    const fps: array<int>
    const stepSize: array<int>
    const format: array<Format>
    const encoding: array<Encoding>
    const enabled: array<bool>
    const frameId: array<string>
    const opticalFrameId: array<string>

    ghost predicate Valid() {
      && width.Length == StreamCount && height.Length == StreamCount && fps.Length == StreamCount
      && stepSize.Length == StreamCount && format.Length == StreamCount && encoding.Length == StreamCount
      && enabled.Length == StreamCount && frameId.Length == StreamCount && opticalFrameId.Length == StreamCount
      && width != height && width != fps && width != stepSize
      && height != fps && height != stepSize && fps != stepSize
      && frameId != opticalFrameId
    }

    /** A table with every entry unset. */
    constructor ()
      ensures Valid()
      ensures fresh(width) && fresh(height) && fresh(fps) && fresh(stepSize) && fresh(format)
      ensures fresh(encoding) && fresh(enabled) && fresh(frameId) && fresh(opticalFrameId)
      ensures forall i :: 0 <= i < StreamCount ==>
        && width[i] == 0 && height[i] == 0 && fps[i] == 0 && stepSize[i] == 0
        && format[i] == FormatAny && encoding[i] == NoEncoding && !enabled[i]
        && frameId[i] == "" && opticalFrameId[i] == ""
    {
      width := new int[StreamCount](_ => 0);
      height := new int[StreamCount](_ => 0);
      fps := new int[StreamCount](_ => 0);
      stepSize := new int[StreamCount](_ => 0);
      format := new Format[StreamCount](_ => FormatAny);
      encoding := new Encoding[StreamCount](_ => NoEncoding);
      enabled := new bool[StreamCount](_ => false);
      frameId := new string[StreamCount](_ => "");
      opticalFrameId := new string[StreamCount](_ => "");
    }

    /** The layout entry of stream `k`. */
    function LayoutOf(k: StreamKind): Layout
      requires Valid()
      reads format, encoding, stepSize
    {
      var i := StreamIndex(k);
      Layout(format[i], encoding[i], stepSize[i])
    }

    /** Sets the format, encoding and byte step of stream `k`. */
    method SetLayout(k: StreamKind, l: Layout)
      requires Valid()
      modifies format, encoding, stepSize
      ensures LayoutOf(k) == l
      ensures forall j :: j != k ==> LayoutOf(j) == old(LayoutOf(j))
    {
      var i := StreamIndex(k);
      format[i] := l.format;
      encoding[i] := l.encoding;
      stepSize[i] := l.step;
      forall j | j != k ensures LayoutOf(j) == old(LayoutOf(j)) {
        StreamIndexBijective(j, k);
      }
    }

    /** R200 initialisation: colour, depth, infrared and IR2 get their entries; the fisheye keeps its own. */
    method R200OnInit()
      requires Valid()
      modifies format, encoding, stepSize
      ensures forall k :: R200Layout(k).Some? ==> LayoutOf(k) == R200Layout(k).value
      ensures LayoutOf(Fisheye) == old(LayoutOf(Fisheye))
    {
      SetLayout(Color, Layout(RGB8, Rgb8Encoding, 3));
      SetLayout(Depth, Layout(Z16, Type16UC1, 2));
      SetLayout(Infrared, Layout(Y8, Type8UC1, 1));
      SetLayout(Infrared2, Layout(Y8, Type8UC1, 1));
    }

    /** The ZR300's own initialisation step, before the R200's: the fisheye entry. */
    method ZR300FisheyeLayout()
      requires Valid()
      modifies format, encoding, stepSize
      ensures LayoutOf(Fisheye) == ZR300Layout(Fisheye).value
      ensures forall k :: k != Fisheye ==> LayoutOf(k) == old(LayoutOf(k))
    {
      SetLayout(Fisheye, Layout(RAW8, Type8UC1, 1));
    }

    /**
     * The R200's own parameters: the IR2 frame ids and enable (each the
     * parameter when given, the default otherwise), then IR2's width, height
     * and frame rate copied from depth's, whatever was configured for IR2.
     */
    method R200GetParameters(ir2FrameId: Option<string>, ir2OpticalFrameId: Option<string>, enableIr2: Option<bool>)
      requires Valid()
      modifies width, height, fps, enabled, frameId, opticalFrameId
      ensures var ir2 := StreamIndex(Infrared2); var depth := StreamIndex(Depth);
        && width[ir2] == width[depth] == old(width[depth])
        && height[ir2] == height[depth] == old(height[depth])
        && fps[ir2] == fps[depth] == old(fps[depth])
        && frameId[ir2] == ir2FrameId.GetOr(DefaultIr2FrameId)
        && opticalFrameId[ir2] == ir2OpticalFrameId.GetOr(DefaultIr2OpticalFrameId)
        && enabled[ir2] == enableIr2.GetOr(EnableIr2)
      ensures forall i :: 0 <= i < StreamCount && i != StreamIndex(Infrared2) ==>
        && width[i] == old(width[i]) && height[i] == old(height[i]) && fps[i] == old(fps[i])
        && enabled[i] == old(enabled[i])
        && frameId[i] == old(frameId[i]) && opticalFrameId[i] == old(opticalFrameId[i])
    {
      var ir2 := StreamIndex(Infrared2);
      var depth := StreamIndex(Depth);
      frameId[ir2] := ir2FrameId.GetOr(DefaultIr2FrameId);
      opticalFrameId[ir2] := ir2OpticalFrameId.GetOr(DefaultIr2OpticalFrameId);
      enabled[ir2] := enableIr2.GetOr(EnableIr2);
      width[ir2] := width[depth];
      height[ir2] := height[depth];
      fps[ir2] := fps[depth];
    }
  }
}
