/**
 * What the registration and post-submission forms show as their error:
 * nothing, a translation key (`t.<key>`), or the message of a thrown `Error`.
 */
module Forms {

  datatype Notice = NoNotice | Translated(key: string) | ErrorText(message: string)

  /** What a failed request throws: an `Error` with its message, or some other value. */
  datatype Thrown = ThrownError(message: string) | ThrownValue

  /** `err instanceof Error ? err.message : t.<fallbackKey>`. */
  function CaughtNotice(err: Thrown, fallbackKey: string): (n: Notice)
    ensures err.ThrownError? ==> n == ErrorText(err.message)
    ensures err.ThrownValue? ==> n == Translated(fallbackKey)
  {
    match err
    case ThrownError(m) => ErrorText(m)
    case ThrownValue => Translated(fallbackKey)
  }
}
