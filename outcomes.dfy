/** Optional values and the two ways graph generation can fail. */
module Outcomes {

  datatype Option<T> = None | Some(value: T)

  /**
   * EmptyRange: `random.randint(0, -1)` on an empty linking pool.
   * SampleLargerThanPopulation: `random.sample` asked for more users than the pool holds.
   */
  datatype GenError = EmptyRange | SampleLargerThanPopulation

  datatype Result<T> = Success(value: T) | Failure(error: GenError)
}
