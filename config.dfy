/** Constants of config.py that the optimisation core uses. */
module Config {
  /** Capacity (routes or buses) assumed for a depot with no stated capacity. */
  const CapacidadPatioDefault: int := 15

  /** Average peak-hour speed in km/h, used to turn distances into minutes. */
  const VelocidadPromedio: real := 20.0
}
