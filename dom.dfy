/** The browser measurements the components read, as plain values. */
module Dom {

  /** A `getBoundingClientRect()` result. */
  datatype Rect = Rect(left: real, top: real, width: real, height: real)

  /** A canvas element's drawing size (`canvas.width`, `canvas.height`). */
  datatype Canvas = Canvas(width: real, height: real)
}
