/**
 * The tuning constants of the game. The module that defines them in the
 * program is not part of this model, so they are a record the simulation
 * takes as a parameter, with the positivity every caller may rely on.
 */
module Config {
  datatype Constants = Constants(
    gravity: real,       // downward acceleration, pixels per second squared
    moveSpeed: real,     // horizontal player speed, pixels per second
    jumpSpeed: real,     // upward speed given by a jump, pixels per second
    coyoteTime: real,    // grace period after leaving the ground, seconds
    tileSize: int,       // side of one grid cell, pixels
    screenWidth: int,    // viewport size, pixels
    screenHeight: int)
  {
    predicate Valid() {
      0.0 < gravity && 0.0 < moveSpeed && 0.0 < jumpSpeed && 0.0 < coyoteTime &&
      0 < tileSize && 0 < screenWidth && 0 < screenHeight
    }
  }
}
