/**
 * The local player as the client systems see it: the sprite position
 * (centre-anchored) and the dash-prediction flag. Sprite creation and
 * drawing are not modelled.
 */
module ClientPlayer {

  class Player {
    var x: real
    var y: real
    var isDashingPrediction: bool

    /** A new player sprite is placed at the server's spawn coordinates. */
    constructor (x0: real, y0: real)
      ensures x == x0 && y == y0 && !isDashingPrediction
    {
      x, y := x0, y0;
      isDashingPrediction := false;
    }

    /** `syncPosition(x, y)`: snap to the authoritative position. */
    method SyncPosition(nx: real, ny: real)
      modifies this
      ensures x == nx && y == ny && isDashingPrediction == old(isDashingPrediction)
    {
      x, y := nx, ny;
    }
  }
}
