/** Validation of submitted frames and removal of ROS row padding. */
module RawFrames {
  import opened Bytes
  import FrameQueue

  const MAX_FRAME_BYTES: nat := 32 * 1024 * 1024
  const MAX_FRAME_PIXELS: nat := 16 * 1024 * 1024

  datatype RawFrame = RawFrame(data: bytes, width: int, height: int, encoding: string)

  datatype PackError =
    | UnknownEncoding | EncodingMismatch | DimensionMismatch | NotPositive | StepTooSmall | DataTooShort

  datatype Packed = Accepted(frame: RawFrame) | Rejected(error: PackError)

  /** Bytes in a pixel of a known encoding, else 0. */
  function PixelBytes(encoding: string): nat {
    if encoding == "rgb8" || encoding == "bgr8" then 3
    else if encoding == "rgba8" || encoding == "bgra8" then 4
    else if encoding == "mono8" then 1
    else 0
  }

  // ---------- What packing means ----------

  /** The byte in column `c` of row `r`, rows being `stride` bytes apart. */
  function Sample(data: bytes, stride: nat, r: nat, c: nat): byte
    requires r * stride + c < |data|
  {
    data[r * stride + c]
  }

  lemma InRow(r: nat, rows: nat, stride: nat, c: nat, width: nat)
    requires r < rows && c < width <= stride
    ensures r * stride + c < rows * stride
    ensures r * stride + c + (rows - 1 - r) * stride == (rows - 1) * stride + c
  {
    assert (r + 1) * stride <= rows * stride by {
      assert rows * stride == (r + 1) * stride + (rows - (r + 1)) * stride;
    }
  }

  lemma SampleInBounds(out: bytes, data: bytes, rows: nat, width: nat, step: nat, r: nat, c: nat)
    requires width <= step && |out| == rows * width && |data| >= rows * step && r < rows && c < width
    ensures r * width + c < |out| && r * step + c < |data|
  {
    InRow(r, rows, width, c, width);
    InRow(r, rows, step, c, width);
  }

  /** `out` holds the first `width` bytes of each of the rows of `data`, and nothing else. */
  ghost predicate Unpadded(out: bytes, data: bytes, rows: nat, width: nat, step: nat)
    requires width <= step && |data| >= rows * step
  {
    && |out| == rows * width
    && forall r: nat, c: nat | r < rows && c < width ::
         SampleInBounds(out, data, rows, width, step, r, c);
         Sample(out, width, r, c) == Sample(data, step, r, c)
  }

  /** The pixels determine the packed bytes. */
  lemma UnpaddedIsUnique(a: bytes, b: bytes, data: bytes, data': bytes, rows: nat, width: nat, step: nat)
    requires 0 < width <= step && |data| >= rows * step && |data'| >= rows * step
    requires Unpadded(a, data, rows, width, step) && Unpadded(b, data', rows, width, step)
    requires SamePixels(data, data', rows, width, step)
    ensures a == b
  {
    forall k | 0 <= k < |a| ensures a[k] == b[k] {
      var r, c := k / width, k % width;
      assert k == r * width + c;
      RowOf(k, rows, width);
      SampleInBounds(a, data, rows, width, step, r, c);
      SampleInBounds(b, data', rows, width, step, r, c);
      assert Sample(a, width, r, c) == Sample(data, step, r, c) == Sample(data', step, r, c) == Sample(b, width, r, c);
    }
  }

  lemma MulMonotone(a: nat, b: nat, n: nat)
    requires a <= b
    ensures a * n <= b * n
  {
  }

  lemma RowOf(k: nat, rows: nat, width: nat)
    requires width > 0 && k < rows * width
    ensures k / width < rows
  {
    assert (k / width) * width <= k;
    if rows <= k / width { MulMonotone(rows, k / width, width); }
  }

  /** Equal in every pixel byte, padding aside. */
  ghost predicate SamePixels(data: bytes, data': bytes, rows: nat, width: nat, step: nat)
    requires width <= step && |data| >= rows * step && |data'| >= rows * step
  {
    forall r: nat, c: nat | r < rows && c < width ::
      InRow(r, rows, step, c, width);
      Sample(data, step, r, c) == Sample(data', step, r, c)
  }

  // ---------- Packing ----------

  lemma LastRow(rows: nat, step: nat)
    requires rows > 0
    ensures (rows - 1) * step + step == rows * step
  {
  }

  /** The join of the leading `width` bytes of each row. */
  function JoinRows(data: bytes, rows: nat, width: nat, step: nat): bytes
    requires width <= step && |data| >= rows * step
  {
    if rows == 0 then []
    else
      LastRow(rows, step);
      JoinRows(data, rows - 1, width, step) + data[(rows - 1) * step..(rows - 1) * step + width]
  }

  lemma {:induction false} JoinRowsUnpads(data: bytes, rows: nat, width: nat, step: nat)
    requires width <= step && |data| >= rows * step
    ensures Unpadded(JoinRows(data, rows, width, step), data, rows, width, step)
  {
    if rows > 0 {
      LastRow(rows, step);
      JoinRowsUnpads(data, rows - 1, width, step);
      OneMoreRow(JoinRows(data, rows - 1, width, step), data, rows, width, step);
    }
  }

  lemma OneMoreRow(before: bytes, data: bytes, rows: nat, width: nat, step: nat)
    requires width <= step && rows > 0 && |data| >= rows * step == (rows - 1) * step + step
    requires Unpadded(before, data, rows - 1, width, step)
    ensures Unpadded(before + data[(rows - 1) * step..(rows - 1) * step + width], data, rows, width, step)
  {
    var out := before + data[(rows - 1) * step..(rows - 1) * step + width];
    LastRow(rows, width);
    assert |out| == rows * width;
    forall r: nat, c: nat | r < rows && c < width
      ensures r * width + c < |out| && r * step + c < |data|
      ensures Sample(out, width, r, c) == Sample(data, step, r, c)
    {
      OneMoreSample(before, data, rows, width, step, r, c);
    }
  }

  lemma OneMoreSample(before: bytes, data: bytes, rows: nat, width: nat, step: nat, r: nat, c: nat)
    requires width <= step && rows > 0 && |data| >= rows * step == (rows - 1) * step + step
    requires Unpadded(before, data, rows - 1, width, step) && r < rows && c < width
    ensures var out := before + data[(rows - 1) * step..(rows - 1) * step + width];
            && r * width + c < |out| && r * step + c < |data|
            && Sample(out, width, r, c) == Sample(data, step, r, c)
  {
    if r < rows - 1 { EarlierRow(before, data, rows, width, step, r, c); }
    else { AddedRow(before, data, (rows - 1) * step, width, r, step, c); }
  }

  lemma EarlierRow(before: bytes, data: bytes, rows: nat, width: nat, step: nat, r: nat, c: nat)
    requires width <= step && rows > 0 && |data| >= rows * step == (rows - 1) * step + step
    requires Unpadded(before, data, rows - 1, width, step) && r < rows - 1 && c < width
    ensures r * width + c < |before| && r * step + c < |data|
    ensures before[r * width + c] == data[r * step + c]
  {
    SampleInBounds(before, data, rows - 1, width, step, r, c);
    assert Sample(before, width, r, c) == Sample(data, step, r, c);
  }

  lemma AddedRow(before: bytes, data: bytes, start: nat, width: nat, r: nat, step: nat, c: nat)
    requires |before| == r * width && start == r * step && start + width <= |data| && c < width
    ensures (before + data[start..start + width])[r * width + c] == data[r * step + c]
  {
  }

  /** Rows without padding need no join: the leading bytes meet the same specification. */
  lemma ContiguousUnpads(data: bytes, rows: nat, width: nat)
    requires |data| >= rows * width
    ensures Unpadded(data[..rows * width], data, rows, width, width)
  {
    var out := data[..rows * width];
    forall r: nat, c: nat | r < rows && c < width
      ensures r * width + c < |out| && r * width + c < |data|
      ensures Sample(out, width, r, c) == Sample(data, width, r, c)
    {
      SampleInBounds(out, data, rows, width, width, r, c);
    }
  }

  /** Check an image against the fixed source contract and remove its row padding. */
  function PackRawFrame(data: bytes, width: int, height: int, step: int, encoding: string,
                        expectedWidth: int, expectedHeight: int, expectedEncoding: string): Packed
  {
    var pixel := PixelBytes(encoding);
    if pixel == 0 || PixelBytes(expectedEncoding) == 0 then Rejected(UnknownEncoding)
    else if encoding != expectedEncoding then Rejected(EncodingMismatch)
    else if width != expectedWidth || height != expectedHeight then Rejected(DimensionMismatch)
    else if width < 1 || height < 1 then Rejected(NotPositive)
    else
      var rowBytes := width * pixel;
      if step < rowBytes then Rejected(StepTooSmall)
      else if |data| < step * height then Rejected(DataTooShort)
      else
        PackedSize(width, height, pixel);
        var packed := if step == rowBytes then data[..width * height * pixel]
                      else JoinRows(data, height, rowBytes, step);
        Accepted(RawFrame(packed, width, height, encoding))
  }

  lemma PackedSize(width: nat, height: nat, pixel: nat)
    ensures width * height * pixel == height * (width * pixel) == (width * pixel) * height
  {
    assert width * height * pixel == height * (width * pixel);
  }

  /** An accepted frame holds exactly the pixel bytes of its rows; both branches agree. */
  lemma PackingRemovesPadding(data: bytes, width: int, height: int, step: int, encoding: string,
                              expectedWidth: int, expectedHeight: int, expectedEncoding: string)
    requires PackRawFrame(data, width, height, step, encoding,
                          expectedWidth, expectedHeight, expectedEncoding).Accepted?
    ensures var frame := PackRawFrame(data, width, height, step, encoding,
                                      expectedWidth, expectedHeight, expectedEncoding).frame;
            var row := width * PixelBytes(encoding);
            && width > 0 && height > 0 && 0 < row <= step && |data| >= height * step
            && Unpadded(frame.data, data, height, row, step)
            && |frame.data| == width * height * PixelBytes(encoding)
            && frame == RawFrame(frame.data, expectedWidth, expectedHeight, expectedEncoding)
  {
    var row := width * PixelBytes(encoding);
    PackedSize(width, height, PixelBytes(encoding));
    if step == row { ContiguousUnpads(data, height, row); } else { JoinRowsUnpads(data, height, row, step); }
  }

  /** An image is accepted, padded or not, exactly when it has the known encoding and the size
      that are expected, and its data holds that many rows, each with all of its pixels. */
  lemma CompleteImagesAreAccepted(data: bytes, width: int, height: int, step: int, encoding: string,
                                  expectedWidth: int, expectedHeight: int, expectedEncoding: string)
    ensures PackRawFrame(data, width, height, step, encoding,
                         expectedWidth, expectedHeight, expectedEncoding).Accepted?
       <==> && encoding in {"rgb8", "bgr8", "rgba8", "bgra8", "mono8"} && encoding == expectedEncoding
            && 0 < width == expectedWidth && 0 < height == expectedHeight
            && width * PixelBytes(encoding) <= step
            && forall r: nat {:trigger RowEnd(r, step)} :: r < height ==> RowEnd(r, step) <= |data|
  {
    if 0 < height {
      assert RowEnd(height - 1, step) == height * step;
      if 0 < step && height * step <= |data| {
        forall r: nat | r < height ensures RowEnd(r, step) <= |data| { MulMonotone(r + 1, height, step); }
      }
    }
  }

  /** Where row `r` ends, padding included. */
  function RowEnd(r: nat, step: int): int {
    (r + 1) * step
  }

  /** The packed frame does not depend on padding bytes or on what follows the last row. */
  lemma PaddingIsIrrelevant(data: bytes, data': bytes, width: int, height: int, step: int, encoding: string,
                            expectedWidth: int, expectedHeight: int, expectedEncoding: string)
    requires var p := PackRawFrame(data, width, height, step, encoding,
                                   expectedWidth, expectedHeight, expectedEncoding);
             p.Accepted? && |data'| >= height * step
             && SamePixels(data, data', height, width * PixelBytes(encoding), step)
    ensures PackRawFrame(data, width, height, step, encoding, expectedWidth, expectedHeight, expectedEncoding)
         == PackRawFrame(data', width, height, step, encoding, expectedWidth, expectedHeight, expectedEncoding)
  {
    var p := PackRawFrame(data, width, height, step, encoding, expectedWidth, expectedHeight, expectedEncoding);
    var q := PackRawFrame(data', width, height, step, encoding, expectedWidth, expectedHeight, expectedEncoding);
    PackingRemovesPadding(data, width, height, step, encoding, expectedWidth, expectedHeight, expectedEncoding);
    PackingRemovesPadding(data', width, height, step, encoding, expectedWidth, expectedHeight, expectedEncoding);
    UnpaddedIsUnique(p.frame.data, q.frame.data, data, data', height, width * PixelBytes(encoding), step);
  }

  // ---------- The byte budget ----------

  /** The geometry that settings validation lets through. */
  predicate ValidGeometry(width: int, height: int) {
    width >= 16 && height >= 16 && width * height <= MAX_FRAME_PIXELS
  }

  datatype Submission = Queued(data: bytes) | Refused

  /** The raw submission path up to the queue. */
  function SubmitRaw(data: bytes, width: int, height: int, step: int, encoding: string,
                     expectedWidth: int, expectedHeight: int, expectedEncoding: string): Submission
  {
    if |data| > MAX_FRAME_PIXELS * 4 then Refused
    else
      match PackRawFrame(data, width, height, step, encoding, expectedWidth, expectedHeight, expectedEncoding)
      case Accepted(frame) => Queued(frame.data)
      case Rejected(_) => Refused
  }

  /** The dimensions an image library reads from a JPEG, if it is one. */
  datatype JpegGeometry = NotJpeg | Jpeg(width: int, height: int)

  /** The compressed submission path up to the queue, for a message format that names JPEG. */
  function SubmitCompressed(data: bytes, geometry: JpegGeometry, expectedWidth: int, expectedHeight: int): Submission {
    if |data| > MAX_FRAME_BYTES then Refused
    else if |data| < 4 || data[0] != 0xFF || data[1] != 0xD8 then Refused
    else if data[|data|-2] != 0xFF || data[|data|-1] != 0xD9 then Refused
    else
      match geometry
      case NotJpeg => Refused
      case Jpeg(width, height) =>
        if width < 1 || height < 1 || width * height > MAX_FRAME_PIXELS
           || width != expectedWidth || height != expectedHeight then Refused
        else Queued(data)
  }

  /** The validated input settings of a source. */
  datatype Format = Format(compressed: bool, width: int, height: int, encoding: string)

  predicate ValidFormat(f: Format) {
    ValidGeometry(f.width, f.height)
  }

  /** A published message; `named` says that the format of a compressed one names JPEG. */
  datatype Message =
    | RawMessage(data: bytes, width: int, height: int, step: int, encoding: string)
    | CompressedMessage(data: bytes, geometry: JpegGeometry, named: bool)

  function Submitted(f: Format, m: Message): Submission {
    match m
    case RawMessage(data, width, height, step, encoding) =>
      if f.compressed then Refused else SubmitRaw(data, width, height, step, encoding, f.width, f.height, f.encoding)
    case CompressedMessage(data, geometry, named) =>
      if !f.compressed || !named then Refused else SubmitCompressed(data, geometry, f.width, f.height)
  }

  lemma SubmittedFits(f: Format, m: Message)
    requires ValidFormat(f) && Submitted(f, m).Queued?
    ensures 0 < |Submitted(f, m).data| <= FrameQueue.MAX_QUEUED_BYTES
  {
    match m
    case RawMessage(data, width, height, step, encoding) =>
      QueuedFramesFitBudget(data, width, height, step, encoding, NotJpeg, f.width, f.height, f.encoding);
    case CompressedMessage(data, geometry, _) =>
      QueuedFramesFitBudget(data, 0, 0, 0, "", geometry, f.width, f.height, f.encoding);
  }

  /** Every frame that reaches a queue is non-empty and within the queue's byte bound. */
  lemma QueuedFramesFitBudget(data: bytes, width: int, height: int, step: int, encoding: string, geometry: JpegGeometry,
                              expectedWidth: int, expectedHeight: int, expectedEncoding: string)
    requires ValidGeometry(expectedWidth, expectedHeight)
    ensures var raw := SubmitRaw(data, width, height, step, encoding, expectedWidth, expectedHeight, expectedEncoding);
            raw.Queued? ==> 0 < |raw.data| <= FrameQueue.MAX_QUEUED_BYTES
    ensures var jpeg := SubmitCompressed(data, geometry, expectedWidth, expectedHeight);
            jpeg.Queued? ==> 0 < |jpeg.data| <= FrameQueue.MAX_QUEUED_BYTES
  {
    var raw := SubmitRaw(data, width, height, step, encoding, expectedWidth, expectedHeight, expectedEncoding);
    if raw.Queued? {
      PackingRemovesPadding(data, width, height, step, encoding, expectedWidth, expectedHeight, expectedEncoding);
      var pixels, pixel := width * height, PixelBytes(encoding);
      assert 0 < pixels * pixel <= pixels * 4;
    }
  }
}
