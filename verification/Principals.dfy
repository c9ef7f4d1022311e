/** Identities that approve, issue, hold and use authority. */
module Principals {
  import opened Wrappers

  datatype PrincipalType = Human | Service | Agent

  datatype Principal = Principal(id: string, kind: PrincipalType, displayName: Option<string>)
}
