/** Optional values and the results of calls that can fail. */
module Wrappers {
  datatype Option<+T> = None | Some(value: T)

  /** Why a call was refused or failed. Each constructor is one of the sentinel errors the
  services compare against; messages are not modelled. */
  datatype Error =
    // zones and records
    | ZoneNotFound | Duplicate | InvalidKind | InvalidInput | Rejected | TemplateNotFound
    | RecordNotFound | RecordConflict
    // validation
    | BadName | BadRecord | BadMasters
    // the authoritative server
    | ServerNotFound | ServerConflict | Unprocessable | Unavailable
    // the row store
    | RowNotFound | RowConflict | StoreDown
    // the IPAM sync
    | Skipped | Malformed | IpamDown | SaveState
    // challenges
    | InvalidChallenge | NoTenantZone | Precondition

  datatype Result<+T> = Ok(value: T) | Err(error: Error)
}
