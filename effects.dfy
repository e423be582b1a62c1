/** Observable effects of the screens, recorded in order in a ghost trace:
    notifications, navigation, blocking prompts and remote calls. */
module Effects {
  import opened Types

  datatype ToastKind = Success | Warning | Error

  datatype Event =
    | Toast(kind: ToastKind, message: string)
    | Push(path: string)
    | Prompt(message: string)
    | Remote(call: Call)
    | ClearFileInput
    | ScheduleReload

  /** True when the trace holds no remote call. */
  predicate NoRemote(events: seq<Event>)
  {
    forall i :: 0 <= i < |events| ==> !events[i].Remote?
  }

  const LoginPath := "/login"
  const LoginRequired := "É preciso logar para acessar essa página"
}
