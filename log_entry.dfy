/**
 * The record the gateway builds for each proxied call and hands to its log
 * sink. Its fields follow the onl.gcm LogEntry entity; the database id, which
 * the persistence layer assigns, is not part of this model.
 */
module LogEntries {
  import opened Http

  class LogEntry {
    /** Creation time (`new Date()` when the entry is built). */
    const date: int
    var remoteHost: Option<string>
    var remoteApplication: Option<string>
    var requestUrl: Option<string>
    var applicationUrl: Option<string>
    var cached: bool
    var responseStatus: Option<string>
    var errorMessage: Option<string>
    var duration: int
    var requestClientVersion: Option<string>
    var clientVersion: Option<string>

    /** The no-argument constructor: every field null, false or zero, the date set to `now`. */
    constructor (now: int)
      ensures date == now
      ensures remoteHost == None && remoteApplication == None
      ensures requestUrl == None && applicationUrl == None
      ensures !cached && responseStatus == None && errorMessage == None && duration == 0
      ensures requestClientVersion == None && clientVersion == None
    {
      date := now;
      remoteHost, remoteApplication := None, None;
      requestUrl, applicationUrl := None, None;
      cached, responseStatus, errorMessage, duration := false, None, None, 0;
      requestClientVersion, clientVersion := None, None;
    }
  }
}
