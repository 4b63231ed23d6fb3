/** Shared value types: optional values, the errors fiberview.py raises, and colours. */
module Base {

  datatype Option<T> = None | Some(value: T)

  /** The exceptions raised on the paths of the modelled code. */
  datatype Error =
    | CombiViewOverflow  // RuntimeError: more than two files without --multiview
    | InvalidSlot        // RuntimeError from transform_multiview
    | InvalidCameraSpec  // RuntimeError from transform_camera
    | SpecNotString      // TypeError from transform_camera
    | NoRenderers        // IndexError on renderers[0] in main
    | TooManyRenderers   // ValueError from create_scene
    | UnboundReader      // UnboundLocalError in create_actor (as written)

  datatype Result<T> = Success(value: T) | Failure(error: Error)

  /** The outcome of a call that returns nothing but may raise. */
  datatype Outcome = Pass | Fail(error: Error)

  /** An RGB triple as handed to the rendering library. */
  datatype Rgb = Rgb(r: real, g: real, b: real)
}
