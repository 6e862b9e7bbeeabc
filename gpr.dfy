/** Simulated ground-penetrating-radar readings around the user, and their map colours. */
module Gpr {

  datatype LatLng = LatLng(lat: real, lng: real)

  /** One reading of the grid: where it is and how dense the ground is there. */
  datatype GprPoint = GprPoint(lat: real, lng: real, density: real)

  /** The grid has GridSize rows and GridSize columns. */
  const GridSize: nat := 10

  /** Degrees between neighbouring grid points. */
  const Step: real := 0.001

  /** `Math.max(0, Math.min(1, v))`. */
  function Clamp01(v: real): (r: real)
    ensures 0.0 <= r <= 1.0
    ensures 0.0 <= v <= 1.0 ==> r == v
    ensures v < 0.0 ==> r == 0.0
    ensures v > 1.0 ==> r == 1.0
  {
    if v < 0.0 then 0.0 else if v > 1.0 then 1.0 else v
  }

  /** `0.5 + depth * 0.1`: deeper scans read denser ground. */
  function BaseDensity(depth: real): real { 0.5 + depth * 0.1 }

  /** `(Math.random() - 0.5) * 0.3` for the sample `r`. */
  function Noise(r: real): real { (r - 0.5) * 0.3 }

  /** The density of one reading: base plus noise, clamped to [0, 1]. */
  function Density(depth: real, r: real): (d: real)
    ensures 0.0 <= d <= 1.0
    ensures 0.0 <= BaseDensity(depth) + Noise(r) <= 1.0 ==> d == BaseDensity(depth) + Noise(r)
  {
    Clamp01(BaseDensity(depth) + Noise(r))
  }

  /** `(i - 5) * 0.001`: the offset of row or column `i` from the user. */
  function Offset(i: int): (o: real)
    ensures 0 <= i < GridSize ==> -0.005 <= o <= 0.004
  {
    (i - 5) as real * Step
  }

  /** The reading at row `i`, column `j`, for noise sample `r`. */
  function GridPoint(origin: LatLng, depth: real, i: int, j: int, r: real): (p: GprPoint)
    ensures 0 <= i < GridSize ==> origin.lat - 0.005 <= p.lat <= origin.lat + 0.004
    ensures 0 <= j < GridSize ==> origin.lng - 0.005 <= p.lng <= origin.lng + 0.004
    ensures 0.0 <= p.density <= 1.0
  {
    GprPoint(origin.lat + Offset(i), origin.lng + Offset(j), Density(depth, r))
  }

  /** Distinct rows and columns of the grid are distinct places. */
  lemma GridPointsDistinct(origin: LatLng, depth: real, i: int, j: int, i': int, j': int, r: real, r': real)
    requires (i, j) != (i', j')
    ensures GridPoint(origin, depth, i, j, r) != GridPoint(origin, depth, i', j', r')
  {
  }

  const Light: string := "#87CEEB"
  const Medium: string := "#FF6347"
  const Dark: string := "#000000"

  /** `getDensityColor`: a three-band step function of the density. */
  function DensityColor(density: real): (c: string)
    ensures c == Light <==> density < 0.3
    ensures c == Medium <==> 0.3 <= density < 0.7
    ensures c == Dark <==> 0.7 <= density
  {
    if density < 0.3 then Light else if density < 0.7 then Medium else Dark
  }

  /** Band index of a colour, lightest first. */
  function Band(c: string): nat { if c == Light then 0 else if c == Medium then 1 else 2 }

  /** Denser ground never gets a lighter colour. */
  lemma DensityColorMonotone(d: real, d': real)
    requires d <= d'
    ensures Band(DensityColor(d)) <= Band(DensityColor(d'))
  {
  }
}
