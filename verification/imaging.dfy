/**
 * The surface of the camera library that the capture worker touches, reduced to
 * what the worker's logic depends on: which frame a picture is, how it has been
 * rotated, and the correlation scores of a template over it.
 */
module Imaging {

  /** A captured picture: the position of its reading in the device's stream and
      the rotations applied to it since capture, in order. */
  datatype Frame = Frame(index: nat, rotations: seq<real>)

  /** imutils.rotate by `angle` degrees; a rotation by 0 degrees leaves the picture as it is. */
  function Rotate(f: Frame, angle: real): (r: Frame)
    ensures r.index == f.index
    ensures f.rotations <= r.rotations
    ensures angle == 0.0 ==> r == f
    ensures angle != 0.0 ==> r.rotations == f.rotations + [angle]
  {
    if angle == 0.0 then f else f.(rotations := f.rotations + [angle])
  }

  /** A template is named by the path of its image file. */
  type Template = string

  /** cv2.matchTemplate with TM_CCOEFF_NORMED: the normalised correlation map of a
      template over a grayscale frame, in row-major order. */
  type Correlator = (Frame, Template) -> seq<real>
}
