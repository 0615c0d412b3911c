/**
 * How the handler of server/routes/analysis.js configures the browsing
 * session: the bounded random delay, the random viewport and the request
 * filter. `Math.random()` is a parameter: a real number in [0, 1).
 */
module SessionConfig {

  /** `Math.floor(random * (max - min + 1)) + min`. */
  function RandomInt(min: int, max: int, random: real): (r: int)
    requires min <= max
    requires 0.0 <= random < 1.0
    ensures min <= r <= max
  {
    var span := (max - min + 1) as real;
    assert 0.0 <= random * span < span by {
      assert random * span < 1.0 * span;
    }
    (random * span).Floor + min
  }

  /** Every value of the range is drawn for some random number. */
  lemma RandomIntCovers(min: int, max: int, v: int)
    requires min <= v <= max
    ensures exists random: real :: 0.0 <= random < 1.0 && RandomInt(min, max, random) == v
  {
    var span := (max - min + 1) as real;
    var random := (v - min) as real / span;
    assert random * span == (v - min) as real;
    assert RandomInt(min, max, random) == v;
  }

  /** The bounds of `randomDelay` when called without arguments. */
  const DelayMinMs := 200
  const DelayMaxMs := 1200

  /** The pause `randomDelay()` waits for, in milliseconds. */
  function RandomDelayMs(random: real): (ms: int)
    requires 0.0 <= random < 1.0
    ensures DelayMinMs <= ms <= DelayMaxMs
  {
    RandomInt(DelayMinMs, DelayMaxMs, random)
  }

  datatype Viewport = Viewport(width: int, height: int, deviceScaleFactor: int)

  /** The viewport chosen from two random numbers, one per dimension. */
  function RandomViewport(randomWidth: real, randomHeight: real): (v: Viewport)
    requires 0.0 <= randomWidth < 1.0 && 0.0 <= randomHeight < 1.0
    ensures 1200 <= v.width <= 1920 && 700 <= v.height <= 1080
    ensures v.deviceScaleFactor == 1
  {
    Viewport(RandomInt(1200, 1920, randomWidth), RandomInt(700, 1080, randomHeight), 1)
  }

  /** Every viewport in the bounds can be chosen. */
  lemma RandomViewportCovers(width: int, height: int)
    requires 1200 <= width <= 1920 && 700 <= height <= 1080
    ensures exists rw: real, rh: real :: 0.0 <= rw < 1.0 && 0.0 <= rh < 1.0 && RandomViewport(rw, rh) == Viewport(width, height, 1)
  {
    RandomIntCovers(1200, 1920, width);
    RandomIntCovers(700, 1080, height);
    var rw: real :| 0.0 <= rw < 1.0 && RandomInt(1200, 1920, rw) == width;
    var rh: real :| 0.0 <= rh < 1.0 && RandomInt(700, 1080, rh) == height;
    assert RandomViewport(rw, rh) == Viewport(width, height, 1);
  }

  datatype RequestDecision = Abort | Continue

  /** The resource types whose requests are aborted before they are sent. */
  const BlockedResourceTypes: seq<string> := ["image", "stylesheet", "font"]

  /** The request-interception rule. */
  function InterceptRequest(resourceType: string): (d: RequestDecision)
    ensures d == Abort <==> resourceType == "image" || resourceType == "stylesheet" || resourceType == "font"
  {
    if resourceType in BlockedResourceTypes then Abort else Continue
  }
}
