/** The toast notifications pages raise, as returned values. */
module Toasts {

  /** A toast's title and description; `destructive` is the error variant. */
  datatype Toast = Toast(title: string, description: string, destructive: bool)
}
