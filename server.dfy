/** Start-up configuration of the host-info server. */
module Server {

  const DefaultPort := "8080"

  /** The port to listen on from the value of the PORT variable (Go's
      os.Getenv gives "" when it is unset): a non-empty value is used as it
      is, and only an empty one falls back to the default. */
  function ListenPort(portVar: string): (port: string)
    ensures port != ""
    ensures portVar != "" ==> port == portVar
    ensures portVar == "" ==> port == DefaultPort
  {
    if portVar == "" then DefaultPort else portVar
  }
}
