/**
 * The four facing directions shared by the player, its sprite and the
 * velocity classifier of the collision geometry.
 */
module Directions {

  datatype Direction = Up | Down | Left | Right
}
