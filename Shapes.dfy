/** The geometry of the two box shapes: Box.createShape and InsetBox.createShape. */
module Shapes {
  import opened JavaLang
  import opened Vecs
  import opened MeasurementUtil
  import opened Backend

  /** Box.createShape: a polygon box whose extents are the width and height converted to metres. */
  function BoxShape(width: real, height: real): (s: Shape)
    ensures s.AsBox?
    ensures MetersToPixel(s.hx) == width && MetersToPixel(s.hy) == height
  {
    AsBox(PixelToMeters(width), PixelToMeters(height))
  }

  /** InsetBox.createShape: a chain through the four corners given by the edge coordinates
      (pixels, not converted), closed by repeating the first corner; the count passed is the
      number of vertices. */
  function InsetChain(left: real, top: real, right: real, bottom: real): (s: Shape)
    ensures s.Chain?
    ensures s.count == |s.vertices| == 5
    ensures s.vertices == [Vec2(left, top), Vec2(right, top), Vec2(right, bottom),
                           Vec2(left, bottom), Vec2(left, top)]
    ensures s.vertices[0] == s.vertices[4]
  {
    var entries := [left, top, right, top, right, bottom, left, bottom, left, top];
    PairUpAt(entries);
    match Pairs(entries)
    case Ok(vertices) => Chain(vertices, |vertices|)
    case Err(_) => assert false; Chain([], 0)
  }

  /** InsetBox passes vec2Array ten entries, an even number, so it never throws there. */
  lemma InsetChainNeverThrows(left: real, top: real, right: real, bottom: real)
    ensures Pairs([left, top, right, top, right, bottom, left, bottom, left, top]).Ok?
  {
  }
}
