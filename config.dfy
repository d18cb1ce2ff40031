/** The global CONFIG object of script.js (lines 2-11). */
module Config {
  import opened Wrappers

  /** CONFIG.particles.density: canvas pixels per particle. */
  const ParticleDensity: nat := 9000

  /**
   * CONFIG.SIZE_THRESHOLD is read by the size-delta poll but never defined
   * in CONFIG, so it evaluates to `undefined`.
   */
  const SizeThreshold: Option<int> := None
}
