/** Values shared by the reminder application's components. */
module Types {

  /** A value that may be absent: JavaScript's `null` for identities and handles. */
  datatype Option<+T> = None | Some(value: T)

  /** The identity provider's user id (`user.uid`). */
  type Uid = string

  /** The store-assigned id of a reminder document (`doc.id`). */
  type DocId = string

  /** The opaque handle returned by a phone-number sign-in request and used to
      confirm the one-time code (`confirmationResult`). */
  datatype ConfirmationResult = ConfirmationResult(token: string)

  /** The browser's notification permission (`Notification.permission` and the
      answer of `Notification.requestPermission()`). */
  datatype Permission = Default | Granted | Denied
}
