/** The records shared by the engine and its views (types.ts). */
module Types {
  /** SimulationState.viewMode: 'NORMAL' | 'COMPARISON' | '4D'. */
  datatype ViewMode = NORMAL | COMPARISON | FOUR_D

  /**
   * One lattice site. id, x and y are whole numbers in the source and are
   * kept as integers; ipr is the participation ratio and lyapunov the
   * localization length xi.
   */
  datatype LatticeSite = LatticeSite(
    id: int,
    x: int,
    y: int,
    v: real,
    amplitude: real,
    phase: real,
    ipr: real,
    lyapunov: real,
    isRandom: bool)

  /** The part of the application state that the engine reads or writes. */
  datatype SimulationState = SimulationState(
    U: real,
    V0: real,
    jitter: real,
    omega: real,
    isRadiationBurst: bool,
    isBooting: bool,
    bootProgress: real,
    isAutoProcess: bool,
    missionStep: string,
    viewMode: ViewMode,
    chronosValue: real,
    materialPhase: int,
    sievingWaveProgress: real,
    avalancheWaveProgress: real,
    flareExcitation: real)
}
