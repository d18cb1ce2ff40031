/**
 * The particle background of script.js: how many particles init() creates
 * (lines 64-71) for the canvas that setupCanvas() sized (lines 27-30), and
 * the re-initialisation on every window resize (lines 113-116).
 */
module Particles {
  import Config

  /** A particle; its random position, speed, size and colour are not modelled. */
  datatype Particle = Particle

  /** ceil(area / density), as the least count whose particles cover `area`. */
  function CeilDiv(area: nat, density: nat): (n: nat)
    requires density > 0
    ensures n * density >= area
    ensures n > 0 ==> (n - 1) * density < area
  {
    (area + density - 1) / density
  }

  /** The two facts of CeilDiv's contract pin the count down uniquely. */
  lemma CeilDivUnique(area: nat, density: nat, n: nat)
    requires density > 0
    requires n * density >= area
    requires n > 0 ==> (n - 1) * density < area
    ensures n == CeilDiv(area, density)
  {
    var c := CeilDiv(area, density);
    if n < c {
      MulMonotone(n, c - 1, density);
    } else if c < n {
      MulMonotone(c, n - 1, density);
    }
  }

  lemma MulMonotone(a: nat, b: nat, d: nat)
    requires a <= b
    ensures a * d <= b * d
  {
  }

  /** The loop test `i < (w * h) / density`, in exact arithmetic, is `i * density < w * h`. */
  lemma GuardIsIntegerTest(i: nat, area: nat, density: nat)
    requires density > 0
    ensures (i as real) < (area as real) / (density as real) <==> i * density < area
  {
  }

  /**
   * init(): a fresh array filled by `for (i = 0; i < (w*h)/density; i++)`;
   * it holds ceil(w*h/density) particles.
   */
  method NewParticles(width: nat, height: nat, density: nat) returns (ps: seq<Particle>)
    requires density > 0
    ensures |ps| == CeilDiv(width * height, density)
  {
    var area := width * height;
    ps := [];
    var i: nat := 0;
    GuardIsIntegerTest(i, area, density);
    while (i as real) < (area as real) / (density as real)
      invariant |ps| == i
      invariant i > 0 ==> (i - 1) * density < area
      decreases area - i * density
    {
      GuardIsIntegerTest(i, area, density);
      ps := ps + [Particle];
      i := i + 1;
      GuardIsIntegerTest(i, area, density);
    }
    GuardIsIntegerTest(i, area, density);
    CeilDivUnique(area, density, i);
  }

  /** The number of particles init() creates for a canvas of this size. */
  function ParticleCount(width: nat, height: nat): nat
  {
    CeilDiv(width * height, Config.ParticleDensity)
  }

  /** A 1920x1080 canvas gets 231 particles; an empty one gets none. */
  lemma ParticleCountExamples()
    ensures ParticleCount(1920, 1080) == 231
    ensures ParticleCount(0, 1080) == 0
    ensures ParticleCount(1, 1) == 1
  {
  }

  /** A larger canvas never gets fewer particles. */
  lemma ParticleCountMonotone(w: nat, h: nat, w': nat, h': nat)
    requires w <= w' && h <= h'
    ensures ParticleCount(w, h) <= ParticleCount(w', h')
  {
  }

  /**
   * The canvas and the particles of initParticles(); the canvas size and
   * particlesArray are the state its closures share.
   */
  class ParticleField {
    var width: nat    // canvas.width
    var height: nat   // canvas.height
    var particles: seq<Particle>  // particlesArray

    /** initParticles(): size the canvas to the window, then init(). */
    constructor (innerWidth: nat, innerHeight: nat)
      ensures width == innerWidth && height == innerHeight
      ensures |particles| == ParticleCount(innerWidth, innerHeight)
    {
      var ps := NewParticles(innerWidth, innerHeight, Config.ParticleDensity);
      width, height, particles := innerWidth, innerHeight, ps;
    }

    /** setupCanvas(): the canvas takes the window's inner size; the particles stay. */
    method SetupCanvas(innerWidth: nat, innerHeight: nat)
      modifies this
      ensures width == innerWidth && height == innerHeight
      ensures particles == old(particles)
    {
      width, height := innerWidth, innerHeight;
    }

    /** init(): the old particles are dropped and a fresh set sized to the canvas replaces them. */
    method Init()
      modifies this
      ensures width == old(width) && height == old(height)
      ensures |particles| == ParticleCount(width, height)
    {
      particles := NewParticles(width, height, Config.ParticleDensity);
    }

    /** The resize listener: setupCanvas(); init(). */
    method OnResize(innerWidth: nat, innerHeight: nat)
      modifies this
      ensures width == innerWidth && height == innerHeight
      ensures |particles| == ParticleCount(innerWidth, innerHeight)
    {
      SetupCanvas(innerWidth, innerHeight);
      Init();
    }
  }
}
