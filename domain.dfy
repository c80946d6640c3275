/** The records the client receives from the gateway. */
module Domain {
  import opened Wrappers

  /** One alert. `level`, `relatedService`, `category` and `impact` may be absent on the wire. */
  datatype Alert = Alert(
    id: int,
    level: Option<string>,
    message: string,
    timestamp: string,
    relatedService: Option<string>,
    read: bool,
    category: Option<string>,
    impact: Option<string>)

  /** One row of the log table. */
  datatype LogEntry = LogEntry(id: int, serviceName: string, level: string, message: string, timestamp: string)
}
