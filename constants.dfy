/** The fixed numbers of the forging simulation (constants.ts). */
module Constants {
  /** Side of the square lattice. */
  const GRID_SIZE: int := 24
  /** Number of sites of the lattice, GRID_SIZE * GRID_SIZE. */
  const SITE_COUNT: int := 576
  /** Particles ("shards") drawn for each lattice site. */
  const SHARDS_PER_SITE: int := 4
  /** Size of the shard population, SITE_COUNT * SHARDS_PER_SITE. */
  const TOTAL_INSTANCES: int := 2304

  /** The golden ratio (1 + sqrt 5) / 2, as the nearest double the source computes. */
  const PHI: real := 1.618033988749895
  /** Jitter above which the lattice is heating. */
  const JITTER_THRESHOLD: real := 50.0

  /** PHYSICS_CONFIG.alpha0 and PHYSICS_CONFIG.delta of the scaling law. */
  const ALPHA0: real := 1.0
  const DELTA: real := 2.5

  /** Math.PI. */
  const PI: real := 3.141592653589793
}
