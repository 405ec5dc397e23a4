/** Sprites of the strategic map, as far as the map screen's dispatcher can see them. */
module Sprites {

  /** Identity of a sprite. Java compares sprites by reference; here two sprites are the
      same sprite exactly when their identities are equal. */
  datatype SpriteId =
    | ContinueSprite          // the click-to-continue control owned by the SpiesCaptured overlay
    | MapSprite(handle: nat)  // every other sprite: star system, fleet, flight path, fixed control

  /** What the visibility rule reads from a FlightPathSprite. */
  datatype FlightPath = FlightPath(
    id: SpriteId,
    ship: SpriteId,
    destination: SpriteId,
    isPlayer: bool,
    aggressiveToPlayer: bool)

  /** A sprite offered for drawing: a flight path, or any other kind of sprite. */
  datatype Drawable = Plain(sprite: SpriteId) | Path(path: FlightPath)
}
