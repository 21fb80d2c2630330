/** Face preprocessing: the crop is resized to 224 x 224 and every channel
    value is passed through `convertScaleAbs(alpha = 1.2, beta = 15)`, that
    is `saturate(round(|1.2 p + 15|))`. On a byte `p` the value
    `1.2 p + 15 = (6 p + 75) / 5` is positive and its fractional part is a
    multiple of 1/5, so rounding never meets a half and the whole map is
    `min(255, (6 p + 2) div 5 + 15)` in integer arithmetic. */
module Preprocess {

  type Byte = b: int | 0 <= b <= 255

  /** Side of the square image the classifier is given. */
  const FaceSize: nat := 224

  /** Colour channels per pixel. */
  const Channels: nat := 3

  /** An image as rows, columns and its channel values in row-major order. */
  datatype Image = Image(rows: nat, cols: nat, data: seq<Byte>)

  predicate Shaped(img: Image) {
    |img.data| == img.rows * img.cols * Channels
  }

  /** OpenCV's `saturate_cast<uchar>`. */
  function Saturate(n: int): Byte {
    if n < 0 then 0 else if n > 255 then 255 else n
  }

  lemma RoundScaled(p: Byte)
    ensures (1.2 * p as real + 15.0 + 0.5).Floor == (6 * p + 2) / 5 + 15
  {
  }

  /** The brightness and contrast map on one channel value: the byte nearest
      to `1.2 p + 15`, saturated at 255. */
  function Brightness(p: Byte): (q: Byte)
    ensures q == Saturate((1.2 * p as real + 15.0 + 0.5).Floor)
    ensures 15 <= q
  {
    RoundScaled(p);
    var n := (6 * p + 2) / 5 + 15;
    if n > 255 then 255 else n
  }

  /** The map keeps the order of channel values. */
  lemma BrightnessMonotone(p: Byte, q: Byte)
    requires p <= q
    ensures Brightness(p) <= Brightness(q)
  {
  }

  /** Black becomes 15, and exactly the values from 200 up saturate. */
  lemma BrightnessEnds(p: Byte)
    ensures Brightness(0) == 15
    ensures Brightness(p) == 255 <==> p >= 200
  {
  }

  /** `preprocess_face`: the resized crop with every channel value mapped.
      The resampling itself is OpenCV's and is supplied as `resized`, the
      224 x 224 image `cv2.resize` makes of `crop`. */
  function PreprocessFace(crop: Image, resized: Image): (out: Image)
    requires Shaped(crop) && crop.rows > 0 && crop.cols > 0
    requires Shaped(resized) && resized.rows == FaceSize && resized.cols == FaceSize
    ensures Shaped(out) && out.rows == FaceSize && out.cols == FaceSize
    ensures forall i :: 0 <= i < |out.data| ==> 15 <= out.data[i]
    ensures forall i :: 0 <= i < |out.data| ==>
              out.data[i] == Saturate((1.2 * resized.data[i] as real + 15.0 + 0.5).Floor)
    ensures forall i, j ::
              0 <= i < |out.data| && 0 <= j < |out.data| && resized.data[i] <= resized.data[j] ==>
              out.data[i] <= out.data[j]
  {
    var data := seq(|resized.data|, i requires 0 <= i < |resized.data| => Brightness(resized.data[i]));
    Image(FaceSize, FaceSize, data)
  }
}
