/** The permission modes, as the executors consume them. */
module Permissions {
  datatype SessionMode = RequestDefault | RequestAuto | RequestBypass

  datatype PermissionMode = Default | AcceptEdits | DontAsk | Plan | Auto | BypassPermissions

  datatype Resolution = Resolution(requested: SessionMode, effective: PermissionMode) {
    predicate SuppressesPrompts() {
      requested == RequestAuto || effective == Auto
    }
  }
}
