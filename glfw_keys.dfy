/** Key codes and key actions of the GLFW windowing library, as the input code
    uses them. The numeric values are GLFW's own (glfw3.h). A key state is the
    set of key codes that are currently down: asking "is key K pressed" is
    `K in pressed`. */
module GlfwKeys {

  // Key actions delivered to a key callback.
  const PRESS: int := 1

  // Printable keys.
  const KEY_A: int := 65
  const KEY_D: int := 68
  const KEY_S: int := 83
  const KEY_W: int := 87
  const KEY_GRAVE_ACCENT: int := 96

  // Function keys.
  const KEY_ESCAPE: int := 256
  const KEY_RIGHT: int := 262
  const KEY_LEFT: int := 263
  const KEY_DOWN: int := 264
  const KEY_UP: int := 265
  const KEY_LEFT_SHIFT: int := 340
}
