/** The renderer's configuration constants (defaultvalues.h). */
module DefaultValues {
  import opened Geometry

  /** The value of M_PI as written in <cmath>. */
  const PI: real := 3.14159265358979323846

  /** Size of the widget, and so of the image, in pixels. */
  const WIDTH: nat := 1024
  const HEIGHT: nat := 720

  /** Field of view, in radians. */
  const FOV: real := PI / 2.3

  /** Deepest recursion level of the full renderer and of the preview. */
  const DEPTH: nat := 3
  const WF_MODE_DEPTH: nat := 3

  /** Bias against self-intersection, and slack of the clipping box. */
  const OFFSET: real := 0.001

  /** Colour of a ray that hits nothing. */
  const BACKGROUND: Point3 := [0.1, 0.8, 0.8]
  const SCENE_COLOR: Point3 := [0.2, 0.2, 0.2]

  /** The "room": the axis-aligned box that clips every plane. */
  const ZN: real := -10.0 + OFFSET
  const ZF: real := -30.0 - OFFSET
  const SCENE_Y_BOTTOM: real := -4.0 - OFFSET
  const SCENE_HEIGHT: real := 12.0 + 2.0 * OFFSET
  const SCENE_X_LEFT: real := -10.0 - OFFSET
  const SCENE_WIDTH: real := 20.0 + 2.0 * OFFSET
}
