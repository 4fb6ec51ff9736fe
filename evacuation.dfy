/**
 The planar pose type the coordination core works on. Its declaration lives in a
 header of the evacuation package that is not part of this model; only the
 members the coordination code reads (the position's x and y, and the heading)
 are kept.
 */
module Evacuation {

  /** A position in the plane, in metres. */
  datatype Point = Point(x: real, y: real)

  /** A robot pose: a position and a heading `th`. */
  datatype Pose = Pose(position: Point, th: real)
}
