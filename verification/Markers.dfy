/** The acknowledgement bands the scene draws for the inputs it received. */
module Markers {
  datatype Marker = KeyboardMarker | PointerMarker | ScrollMarker | DragMarker
}
