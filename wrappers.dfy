/** Optional values and the outcome of an operation that can throw. */
module Wrappers {

  datatype Option<+T> = None | Some(value: T)

  /** The TypeErrors the modelled helpers of server.js can raise. */
  datatype Failure =
    | EmptySheet        // `sheetData[0]` is undefined, so `labels.slice(1)` throws
    | MissingChartType  // `chartType` is undefined, so `chartType.toLowerCase()` throws
    | ChartTypeNotText  // `chartType` is not a string (a field sent twice is an array), so it has no `toLowerCase`

  datatype Result<+T> = Ok(value: T) | Err(error: Failure)
}
