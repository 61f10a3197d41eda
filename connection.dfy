/**
 * ConnectionState and URL, shared by the transport, the orchestrator, the
 * offline queue and the view models. The enum itself is not among the
 * modelled files; its four cases are the ones every `switch` over it
 * names (Sources/AppShortcuts.swift:128-136).
 */
module Connection {

  datatype ConnectionState = Disconnected | Connecting | Connected | Error(message: string) {
    /** `isConnected`: true for `.connected` only. */
    predicate IsConnected() {
      Connected?
    }
  }

  /** A parsed `URL`. `URL(string:)` itself is Foundation's and is a parameter wherever it is used. */
  datatype Url = Url(text: string)
}
