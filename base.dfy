/** Values shared by every part of the model: the result wrappers, the values
    that exiftool's JSON output can hold, and the faults the daemon's own code
    can raise while looking at them. */
module Base {

  datatype Option<+T> = None | Some(value: T)

  datatype Result<+T, +E> = Ok(value: T) | Err(error: E)

  /** One value of exiftool's JSON record: either a string or a number.
      Numbers are kept exact (JSON `0` and `0.0` are both `Number(0.0)`, as
      Python's `0 == 0.0` makes them indistinguishable to the daemon). */
  datatype TagValue = Text(text: string) | Number(number: real)

  /** The record that `exiftool -j` returns for one file, keyed by tag name. */
  type Metadata = map<string, TagValue>

  /** Exceptions raised by the daemon's own Python code (not by external tools). */
  datatype Fault =
    | MissingKey(key: string)   // KeyError on `image_metadata[key]`
    | NotAString(key: string)   // TypeError from `re.match` on a non-string value
}
