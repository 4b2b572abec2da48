/**
 * Light sources (game/Light.cs). The C# base class and its three subclasses
 * only copy their constructor arguments, so they become one datatype with a
 * variant per class; fields a constructor does not set keep the base-class
 * defaults.
 */
module Lights {
  import opened Numerics

  datatype Light =
    | BaseLight(position: Vec3, color: Vec3, intensity: real)
    | PointLight(position: Vec3, color: Vec3, intensity: real)
    | DirectionalLight(position: Vec3, color: Vec3, intensity: real, direction: Vec3)
    | SpotLight(position: Vec3, color: Vec3, intensity: real, direction: Vec3,
                cutoff: real, outerCutoff: real)

  const WhiteLight: Vec3 := Vec3(1.0, 1.0, 1.0)

  /** `new Light()`: at the origin, white, intensity 1. */
  function NewLight(): (l: Light)
    ensures l.BaseLight? && l.position == Zero3 && l.color == WhiteLight && l.intensity == 1.0
  {
    BaseLight(Zero3, WhiteLight, 1.0)
  }

  /** `new PointLight(position, color, intensity)`. */
  function NewPointLight(position: Vec3, color: Vec3, intensity: real): (l: Light)
    ensures l.PointLight?
    ensures l.position == position && l.color == color && l.intensity == intensity
  {
    PointLight(position, color, intensity)
  }

  /** `new DirectionalLight(direction, color, intensity)`: the position stays at the origin. */
  function NewDirectionalLight(direction: Vec3, color: Vec3, intensity: real): (l: Light)
    ensures l.DirectionalLight? && l.position == Zero3
    ensures l.direction == direction && l.color == color && l.intensity == intensity
  {
    DirectionalLight(NewLight().position, color, intensity, direction)
  }

  /** `new SpotLight(...)`: all six arguments land in their fields. */
  function NewSpotLight(position: Vec3, direction: Vec3, color: Vec3, intensity: real,
                        cutoff: real, outerCutoff: real): (l: Light)
    ensures l.SpotLight?
    ensures l.position == position && l.direction == direction && l.color == color
    ensures l.intensity == intensity && l.cutoff == cutoff && l.outerCutoff == outerCutoff
  {
    SpotLight(position, color, intensity, direction, cutoff, outerCutoff)
  }
}
