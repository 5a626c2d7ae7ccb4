/** The GLFW input codes the callbacks compare against, with GLFW's values. */
module Glfw {
  const MouseButtonLeft: int := 0
  const MouseButtonRight: int := 1
  const MouseButtonMiddle: int := 2

  const Release: int := 0
  const Press: int := 1
  const Repeat: int := 2
}
