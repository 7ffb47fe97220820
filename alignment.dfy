/**
 * Compose's `Alignment` constants for placing content inside a box: the nine
 * combinations of a vertical edge (top, center, bottom) and a horizontal one
 * (start, center, end).
 */
module Alignments {

  datatype Alignment =
    | TopStart | TopCenter | TopEnd
    | CenterStart | Center | CenterEnd
    | BottomStart | BottomCenter | BottomEnd
}
