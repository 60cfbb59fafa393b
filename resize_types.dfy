// The two small enumerations of the library: the resize strategy and the
// single exception `resizeTo` can throw, with the result type that carries it.
module ResizeTypes {

  /** Strategy for keeping the original aspect ratio while resizing. */
  datatype ImageResizeType =
    | Fit   // letterbox: the whole image is visible, empty bands pad the canvas
    | Fill  // crop: the canvas is covered, the overflow is cut off

  /** Errors the resize operations can throw. */
  datatype ResizeException = BitmapContextCreateFail

  /** A value, or the exception that was thrown instead of returning one. */
  datatype Result<+T> = Success(value: T) | Failure(error: ResizeException)
}
