/** A small world, for inputs on which a property fails. */
module Samples {
  import opened Options
  import opened Routing

  const SAMPLE_ENDPOINT := Endpoint(7, 9, "model", 1, 3, 60, None)

  /** Every group holds one endpoint that always times out; clients stay connected, and there
      are no backup groups. */
  function SampleEnv(): Env {
    Env(gid => Selected(RouteResult([SAMPLE_ENDPOINT], [])),
        (gid, pos, attempt) => ChatFails(Error(Timeout, "", false)),
        (gid, pos, attempt) => Stream([], Raises(Error(Timeout, "", false))),
        (gid, k) => Connected, (gid, k) => Connected, map[])
  }
}
