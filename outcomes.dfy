/** Optional values, results and the faults the extensions let escape to the host. */
module Outcomes {

  /** A value that may be missing: the model of a .NET `null` reference. */
  datatype Option<+T> = None | Some(value: T)

  /** What escapes to the host when an operation throws instead of returning. */
  datatype Fault =
    | XmlError                 // XmlDocument.LoadXml rejected the text
    | DuplicateKey(key: string) // Dictionary.Add was given a key it already holds
    | ArgumentOutOfRange       // String.Substring was given a start beyond the end
    | EmptyOldValue            // String.Replace was given an empty string to replace
    | NullReference            // a foreach over a null array

  datatype Result<+T> = Ok(value: T) | Err(fault: Fault)
}
