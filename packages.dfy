/** The result of a pop (RealTimeBufferPackage.cs). */
module Packages {
  import opened Wrappers

  /** ERealTimeBufferStatus; the spelling `Cancalled` is the library's own. */
  datatype Status = NotComplete | Complete | Cancalled | TimeOut | Error

  /**
   * A package: the popped value, when there is one, and a status. A package
   * built from a status alone leaves `Package` at its default, here `None`.
   */
  datatype Package<T> = Package(package: Option<T>, status: Status)
}
