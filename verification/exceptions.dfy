/** The errors the library raises synchronously, and the messages they carry. */
module Exceptions {

  datatype Error =
    /** A required argument was null, undefined or empty. */
    | ArgumentNullException(parameter: string)
    /** An invalid value, reported with a free-form message. */
    | GenericException(message: string)
    /** A plain `Error` built by the library itself. */
    | PlainError(message: string)

  const ArgumentNullPrefix := "ArgumentNullException: "
  const ArgumentNullSuffix := " is null or empty"

  function Message(e: Error): string {
    match e
    case ArgumentNullException(p) => ArgumentNullPrefix + p + ArgumentNullSuffix
    case GenericException(m) => m
    case PlainError(m) => m
  }

  /** The message of an ArgumentNullException names its parameter: two such
      messages are equal only when they name the same parameter. */
  lemma ArgumentNullMessageNamesParameter(p: string, q: string)
    requires Message(ArgumentNullException(p)) == Message(ArgumentNullException(q))
    ensures p == q
  {
    var mp, mq := Message(ArgumentNullException(p)), Message(ArgumentNullException(q));
    var n := |ArgumentNullPrefix|;
    assert |p| == |q|;
    assert mp[n..n + |p|] == p;
    assert mq[n..n + |q|] == q;
  }
}
