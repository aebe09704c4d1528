/**
 * Generator4: a galaxy, a plane or two offset blobs, relaxed pair by pair;
 * a galaxy is then compressed towards its centre with the fixed cubic
 * profile (scale 0.5 + 0.5 * min(1, r / R)^3).
 */
module Generator4 {
  import opened Wrappers
  import opened Geometry
  import opened Numerics
  import opened Randomness
  import opened Spacing
  import opened Compression
  import opened Fields
  import opened Text

  class Generator4 {
    var starCount: nat
    var minDistance: real
    var maxDistance: real
    var meanDistance: real
    var variance: real
    var thickness: real
    var mode: MapMode
    /** The star list every generation step appends to or rewrites. */
    var stars: seq<Point3>
    const rng: Random
    const math: MathLib

    /** The defaults: 80 stars, distances 2 to 8 around 4, variance 0.3, thickness 3, plane mode. */
    constructor (rng: Random, math: MathLib)
      ensures starCount == 80 && minDistance == 2.0 && maxDistance == 8.0 && meanDistance == 4.0
      ensures variance == 0.3 && thickness == 3.0 && mode == Plane && stars == []
      ensures this.rng == rng && this.math == math
    {
      starCount := 80;
      minDistance := 2.0;
      maxDistance := 8.0;
      meanDistance := 4.0;
      variance := 0.3;
      thickness := 3.0;
      mode := Plane;
      stars := [];
      this.rng := rng;
      this.math := math;
    }

    function Spacing(): SpacingParams
      reads this`minDistance, this`maxDistance, this`meanDistance, this`variance
    {
      SpacingParams(minDistance, maxDistance, meanDistance, variance)
    }

    /**
     * Generate: the list cleared, then filled by the mode, and the file name.
     * The list holds StarCount stars afterwards (Fields.MapFieldLength).
     */
    method Generate(name: string, number: Option<int>) returns (filePath: string)
      requires MapField(mode, [], starCount, Spacing(), thickness, Cubic, rng.source, rng.next, math).Some?
      modifies this`stars, rng
      ensures MapField(mode, [], starCount, Spacing(), thickness, Cubic, rng.source, old(rng.next), math)
              == Some(stars)
      ensures rng.next == old(rng.next) + MapDraws(mode, 0, starCount)
      ensures filePath == FileName(name, starCount, number)
    {
      stars := [];
      stars := GenerateMapField(mode, stars, rng, starCount, Spacing(), thickness, Cubic, math);
      filePath := FileName(name, starCount, number);
    }
  }
}
