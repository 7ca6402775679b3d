/** The message src/components/LoginPage.js and src/components/RegisterPage.js
    show when their request fails. Both pages write out the same if-chain and
    differ only in the message used when the error carries nothing else. */
module AuthErrors {
  import opened Api

  const NetworkError := "Cannot connect to server. Please check if the API is running."

  /** `data.message`, then the network text for `ERR_NETWORK`, then
      `Error: {message}`, then `fallback`. */
  function FailureMessage(e: HttpError, fallback: string): (m: string)
    ensures ServerMessage(e) != "" ==> m == ServerMessage(e)
    ensures ServerMessage(e) == "" && e.code == "ERR_NETWORK" ==> m == NetworkError
    ensures ServerMessage(e) == "" && e.code != "ERR_NETWORK" && e.message != "" ==> m == "Error: " + e.message
    ensures ServerMessage(e) == "" && e.code != "ERR_NETWORK" && e.message == "" ==> m == fallback
  {
    if ServerMessage(e) != "" then ServerMessage(e)
    else if e.code == "ERR_NETWORK" then NetworkError
    else if e.message != "" then "Error: " + e.message
    else fallback
  }

  /** The page's own default shows exactly when the error carries no server
      message, is not a network failure and has no message of its own. */
  lemma FallbackOnlyWhenSilent(e: HttpError, fallback: string, other: string)
    requires fallback != other
    ensures FailureMessage(e, fallback) != FailureMessage(e, other)
        <==> ServerMessage(e) == "" && e.code != "ERR_NETWORK" && e.message == ""
  {
  }
}
