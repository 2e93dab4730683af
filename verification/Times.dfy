/** Clock readings and durations are nanoseconds. */
module Times {

  const SECOND: nat := 1_000_000_000
}
