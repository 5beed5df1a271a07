/**
 * The value types shared by every adapter: the configuration map, the
 * response envelope and its metadata.
 */
module AdapterTypes {
  import opened Wrappers
  import opened PyValues

  /** `AdapterConfig`: a string-keyed dictionary, fixed once an adapter is built. */
  type Config = map<string, Value>

  /**
   * `AdapterMetadata`, abstracted to the emitting adapter's class name and the
   * `additional_data` passed to the metadata builder (`None` when the caller
   * passes none). The timestamp and duration are clock readings and are not
   * modelled.
   */
  datatype Metadata = Metadata(source: string, additionalData: Option<map<string, Value>>)

  /** `AdapterResponse`: the uniform result of every `execute`. */
  datatype Response = Response(
    success: bool,
    data: Option<Value>,
    error: Option<string>,
    metadata: Option<Metadata>)

  /** The envelope invariant: a success carries data and no error, a failure an error and no data. */
  predicate WellFormed(r: Response)
  {
    && (r.success ==> r.data.Some? && r.error.None?)
    && (!r.success ==> r.data.None? && r.error.Some?)
  }

  /** A successful response around `data`. */
  function Succeeded(data: Value, metadata: Option<Metadata>): (r: Response)
    ensures WellFormed(r) && r.success && r.data == Some(data) && r.metadata == metadata
  {
    Response(true, Some(data), None, metadata)
  }

  /** A failed response reporting `str(e)` of the exception that was caught. */
  function Failed(e: PyException, metadata: Option<Metadata>): (r: Response)
    ensures WellFormed(r) && !r.success && r.error == Some(ExceptionText(e)) && r.metadata == metadata
  {
    Response(false, None, Some(ExceptionText(e)), metadata)
  }
}
