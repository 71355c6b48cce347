/** The one configuration rule that is logic rather than environment loading:
    the number of chunks to fetch is clamped to [5, 20] (config.py). */
module Config {
  import opened Wrappers

  /** Value used when the TOP_K variable is not set. */
  const DEFAULT_TOP_K: int := 15

  /** `min(20, max(5, int(os.getenv("TOP_K", "15"))))`, with the already
      parsed environment value. */
  function TopK(env: Option<int>): (k: int)
    ensures 5 <= k <= 20
    ensures env.None? ==> k == DEFAULT_TOP_K
    ensures env.Some? && 5 <= env.value <= 20 ==> k == env.value
    ensures env.Some? && env.value < 5 ==> k == 5
    ensures env.Some? && env.value > 20 ==> k == 20
  {
    var v := if env.None? then DEFAULT_TOP_K else env.value;
    var lower := if v < 5 then 5 else v;
    if lower > 20 then 20 else lower
  }
}
