/** MeasurementUtil.java: conversion between screen pixels and world metres. */
module MeasurementUtil {
  import opened Vecs

  /** Pixels per metre, the single constant shared by every conversion site. */
  const PPM: real := 128.0

  /** `pixelToMeters(float)`: a length in pixels expressed in metres. */
  function PixelToMeters(value: real): (m: real)
    ensures m * PPM == value
  {
    value / PPM
  }

  /** `metersToPixel(float)`: a length in metres expressed in pixels. */
  function MetersToPixel(value: real): (p: real)
    ensures p / PPM == value
  {
    value * PPM
  }

  /** `pixelToMeters(Vec2)`: converts each component independently. */
  function PixelToMetersVec(v: Vec2): (m: Vec2)
    ensures m.x * PPM == v.x && m.y * PPM == v.y
  {
    Vec2(PixelToMeters(v.x), PixelToMeters(v.y))
  }

  /** `metersToPixels(Vec2)`: converts each component independently. */
  function MetersToPixels(v: Vec2): (p: Vec2)
    ensures p.x / PPM == v.x && p.y / PPM == v.y
  {
    Vec2(MetersToPixel(v.x), MetersToPixel(v.y))
  }

  /** Over the reals the two scalar conversions are mutually inverse. */
  lemma ScalarRoundTrips(v: real)
    ensures MetersToPixel(PixelToMeters(v)) == v
    ensures PixelToMeters(MetersToPixel(v)) == v
  {
  }

  /** The vector conversions are mutually inverse too. */
  lemma VectorRoundTrips(v: Vec2)
    ensures MetersToPixels(PixelToMetersVec(v)) == v
    ensures PixelToMetersVec(MetersToPixels(v)) == v
  {
  }
}
