/** Values shared by the daemon, the network helper and the browser bridge. */
module Types {

  datatype Option<+T> = None | Some(value: T)

  datatype Result<+T, +E> = Ok(value: T) | Err(error: E)

  datatype EgressMode = Direct | Tor | Warp | WireGuard | Proxy

  datatype SessionPhase = Idle | Starting | Active | Burning | Failed

  datatype StreamProfile = FullHd30 | Hd15 | Sd10

  datatype Url = Url(scheme: string, host: Option<string>, rest: string)

  /** What a controller can ask of the page it looks at; only a visit carries a URL. */
  datatype Navigation = Visit(url: Url) | Back | Forward | Reload | StopLoading

  datatype AppError =
    | Unauthorized
    | InvalidCsrf
    | InvalidPairing
    | LeaseConflict
    | SessionNotActive
    | InvalidTransition
    | NotFound
    | NavigationBlocked
    | InvalidRequest
    | ServiceUnavailable
    | Internal
}
