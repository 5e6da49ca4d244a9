/** Construction options of the loop and their defaults. */
module Config {
  import opened Wrappers

  /**
   * Sampling options. `sampleDuration` is in milliseconds; zero is JavaScript-falsy
   * and switches duration-based window closing off.
   */
  datatype Performances = Performances(enabled: bool, samplesCount: nat, sampleDuration: real)

  /** Resolved options: the target rate and the sampling options. */
  datatype Options = Options(fps: real, performances: Performances)

  /** What a caller passes to the constructor: each top-level property may be absent. */
  datatype UserOptions = UserOptions(fps: Option<real>, performances: Option<Performances>)

  const DefaultPerformances: Performances := Performances(true, 200, 4000.0)

  const DefaultOptions: Options := Options(60.0, DefaultPerformances)

  /**
   * `Object.assign(defaults, options)`: a shallow merge, so each top-level property the
   * caller gives replaces the default one wholesale and every absent one keeps its default.
   */
  function Resolve(user: UserOptions): (o: Options)
    ensures user.fps.Some? ==> o.fps == user.fps.value
    ensures user.fps.None? ==> o.fps == DefaultOptions.fps
    ensures user.performances.Some? ==> o.performances == user.performances.value
    ensures user.performances.None? ==> o.performances == DefaultPerformances
  {
    Options(user.fps.GetOr(DefaultOptions.fps), user.performances.GetOr(DefaultPerformances))
  }
}
