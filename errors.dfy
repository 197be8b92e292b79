/** The exceptions the core raises, one constructor per distinct cause.
    The comment beside each names the Python exception class the source raises. */
module Errors {
  import opened Json

  /** Why one of the two upstream fetches failed. */
  datatype Upstream =
    | TransportError                 // requests exception, HTTP status, or json decoding
    | MalformedEnvelope              // top-level key missing ('ListAirQualityByDistrictService' / 'response')
    | ResultCode(code: Scalar)       // status code other than the success sentinel
    | NoData                         // 'row', 'body' or 'items' missing
    | NoRows                         // air-quality 'row' is an empty list (IndexError)
    | NoItems                        // weather item list missing or empty
    | BadValue                       // float() or pd.to_datetime of a field failed
    | BaseDateOutOfRange             // `now - timedelta(days=1)` overflowed (OverflowError)

  datatype Error =
    | UnknownSite(code: string)                            // ValueError
    | ModelFileMissing(file: string)                       // FileNotFoundError
    | DatabaseMissing                                      // FileNotFoundError
    | TableMissing(table: string)                          // pandas DatabaseError
    | EmptyTable(table: string)                            // ValueError
    | ColumnsMissing(columns: seq<string>)                 // KeyError
    | ScalerMissing(key: string)                           // KeyError
    | CoercionFailed(column: string)                       // ValueError from astype(int)
    | AirQualityFailed(reason: Upstream)                   // RuntimeError
    | WeatherFailed(reason: Upstream)                      // RuntimeError or OverflowError
    | UnsupportedBackend(backend: string, available: seq<string>)  // ValueError
    | BackendNotInstalled(library: string)                 // ImportError
    | BadModelArguments(keys: set<string>)                 // TypeError from the ** expansion
    | ExtraParamsNotMapping                                // TypeError: `extra_params` is not a dict
    | SplitFailed(samples: nat)                            // ValueError from train_test_split
    | NonNumericLabel                                      // ValueError from the metric functions
    | MissingApiKey(variable: string)                      // ValueError from MLConfig.validate
}
