/** The toast notifications the pages raise, and what a submission ends with. */
module Notices {
  import opened Wrappers

  datatype Toast = SuccessToast(message: string) | ErrorToast(message: string)

  /** How a submission settles: a toast and, possibly, a navigation. */
  datatype Settled = Settled(toast: Toast, navigateTo: Option<string>)
}
