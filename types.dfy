/**
 * The shapes shared by the components: the user profile returned by the backend, the
 * outcome of a network request as each client library reports it, and the toast notices
 * the handlers raise.
 */
module Types {
  import opened Wrappers

  /**
   * The profile the backend returns from verify, login and update. The optional fields are
   * the ones the client reads with `?.` or guards for absence; `id` is the field the delete
   * request puts in its path and `isTestUser` the account-mode flag.
   */
  datatype User = User(
    id: Option<string>,
    name: string,
    email: string,
    discordWebhook: string,
    notificationChannel: Option<string>,
    notificationValue: Option<string>,
    notificationStatus: Option<string>,
    isTestUser: Option<bool>)

  /** JavaScript truthiness of an optional string: present and not empty. */
  predicate Truthy(s: Option<string>) {
    s.Some? && s.value != ""
  }

  /** `a || b` on optional strings: `a` when it is truthy, otherwise `b`. */
  function OrElse(a: Option<string>, b: Option<string>): (r: Option<string>)
    ensures Truthy(a) ==> r == a
    ensures !Truthy(a) ==> r == b
  {
    if Truthy(a) then a else b
  }

  /** The string values of the `NotificationChannel` and `NotificationStatus` enumerations the
      components use; the module that defines them is not part of this model. */
  datatype EnumValues = EnumValues(
    whatsapp: string,
    statusAll: string,
    applied: string,
    interviewScheduled: string,
    offer: string,
    rejected: string)

  /** How `fetch` ends: a response with `ok` set and its body, a non-ok response with the
      `message` of its error body (empty when the body has none), or a thrown error. */
  datatype FetchResult<+T> = Ok(body: T) | NotOk(message: string) | Threw(reason: string)

  /** How an axios request ends: resolved with its data, or rejected with the server's
      `response.data.message` when there is one and the error's own `message`. */
  datatype AxiosResult<+T> = Resolved(data: T) | Rejected(serverMessage: Option<string>, message: string)

  /** `error.response?.data?.message || error.message`. */
  function RejectionText(serverMessage: Option<string>, message: string): (text: string)
    ensures Truthy(serverMessage) ==> text == serverMessage.value
    ensures !Truthy(serverMessage) ==> text == message
  {
    OrElse(serverMessage, Some(message)).value
  }

  /** A toast raised with `toast.error` or `toast.success`. */
  datatype Notice = ErrorToast(text: string) | SuccessToast(text: string)
}
