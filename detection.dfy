/** One tick of the simulated AI detector: whether a detection fires and what it carries.
    Every `Math.random()` call of the source is an injected sample. */
module Detection {
  import opened Wrappers

  /** The artifact labels `getRandomArtifact` picks from. */
  const Artifacts: seq<string> :=
    ["🏺 Pottery", "💰 Coin", "🏛️ Structure", "⚱️ Burial", "🔧 Tool", "💍 Jewelry", "📜 Inscription"]

  /** A detection fires when the first sample is strictly above this. */
  const Threshold: real := 0.8

  /** Width and height of every detection box, as a fraction of the viewport. */
  const BoxSize: real := 0.2

  /** `HTMLMediaElement.readyState` value HAVE_ENOUGH_DATA: the only state in which a scan runs. */
  const HaveEnoughData: int := 4

  /** A value `Math.random()` can return. */
  predicate IsSample(r: real) { 0.0 <= r < 1.0 }

  /** The samples one detection attempt draws, in the order the source draws them:
      the firing test, then the artifact pick, the confidence, x and y. */
  datatype Samples = Samples(probability: real, artifact: real, confidence: real, x: real, y: real)

  predicate AllSamples(s: Samples)
  {
    IsSample(s.probability) && IsSample(s.artifact) && IsSample(s.confidence) && IsSample(s.x) && IsSample(s.y)
  }

  /** A detection box: label, confidence, top-left corner and size, all normalised to the viewport. */
  datatype Detection = Detection(kind: string, confidence: real, x: real, y: real, width: real, height: real)

  /** The ranges every synthesised detection stays in. */
  predicate InRange(d: Detection)
  {
    && d.kind in Artifacts
    && 0.7 <= d.confidence < 1.0
    && 0.1 <= d.x < 0.9
    && 0.1 <= d.y < 0.9
    && d.width == BoxSize && d.height == BoxSize
  }

  /** `Math.floor(r * artifacts.length)`. */
  function ArtifactIndex(r: real): (k: int)
    requires IsSample(r)
    ensures 0 <= k < |Artifacts|
  {
    (r * |Artifacts| as real).Floor
  }

  /** `getRandomArtifact`: always one of the seven labels. */
  function RandomArtifact(r: real): (name: string)
    requires IsSample(r)
    ensures name in Artifacts
  {
    Artifacts[ArtifactIndex(r)]
  }

  /** Every label can be drawn: the sample k/7 picks the k-th one. */
  lemma EveryArtifactReachable(k: nat)
    requires k < |Artifacts|
    ensures IsSample(k as real / |Artifacts| as real)
    ensures RandomArtifact(k as real / |Artifacts| as real) == Artifacts[k]
  {
  }

  /** `Math.random() * 0.3 + 0.7`. */
  function Confidence(r: real): (c: real)
    requires IsSample(r)
    ensures 0.7 <= c < 1.0
  {
    r * 0.3 + 0.7
  }

  /** `Math.random() * 0.8 + 0.1`, used for both x and y. */
  function Coordinate(r: real): (c: real)
    requires IsSample(r)
    ensures 0.1 <= c < 0.9
  {
    r * 0.8 + 0.1
  }

  /** The confidence range is covered exactly: each value in [0.7, 1.0) comes from one sample. */
  lemma ConfidenceOnto(c: real)
    requires 0.7 <= c < 1.0
    ensures IsSample((c - 0.7) / 0.3) && Confidence((c - 0.7) / 0.3) == c
    ensures forall r :: IsSample(r) && Confidence(r) == c ==> r == (c - 0.7) / 0.3
  {
  }

  /** The coordinate range is covered exactly: each value in [0.1, 0.9) comes from one sample. */
  lemma CoordinateOnto(c: real)
    requires 0.1 <= c < 0.9
    ensures IsSample((c - 0.1) / 0.8) && Coordinate((c - 0.1) / 0.8) == c
    ensures forall r :: IsSample(r) && Coordinate(r) == c ==> r == (c - 0.1) / 0.8
  {
  }

  /** `performAIDetection` without its side effects: a detection exactly when the first sample
      exceeds the threshold, and then one whose attributes are in range. */
  function Detect(s: Samples): (r: Option<Detection>)
    requires AllSamples(s)
    ensures r.Some? <==> s.probability > Threshold
    ensures r.Some? ==> InRange(r.value)
  {
    if s.probability > Threshold then
      Some(Detection(RandomArtifact(s.artifact), Confidence(s.confidence),
                     Coordinate(s.x), Coordinate(s.y), BoxSize, BoxSize))
    else
      None
  }

  /** What one tick of the scan loop detects: nothing unless the video is ready. */
  function Tick(readyState: int, s: Samples): (r: Option<Detection>)
    requires AllSamples(s)
    ensures r.Some? <==> readyState == HaveEnoughData && s.probability > Threshold
    ensures r.Some? ==> InRange(r.value)
  {
    if readyState == HaveEnoughData then Detect(s) else None
  }
}
