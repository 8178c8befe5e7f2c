/** The client's three constant tables and the lookups built on them:
    the error table consulted before every decode, and the two status
    tables used only by the explicit status translators. */
module Tables {
  import opened Wrappers

  /** Known error tokens of the service and their descriptions. A body
      counts as an error only when it equals a key exactly. */
  const Errors: map<string, string> := map[
    "NO_NUMBERS" := "There are no free numbers for receiving SMS from the current service",
    "NO_BALANCE" := "Not enough funds",
    "BAD_ACTION" := "Invalid action (action parameter)",
    "BAD_SERVICE" := "Incorrect service name (service parameter)",
    "BAD_KEY" := "Invalid API access key",
    "ERROR_SQL" := "One of the parameters has an invalid value.",
    "SQL_ERROR" := "One of the parameters has an invalid value.",
    "NO_ACTIVATION" := "The specified activation id does not exist",
    "BAD_STATUS" := "Attempt to establish a non-existent status",
    "STATUS_CANCEL" := "Current activation canceled and no longer available",
    "BANNED" := "Account is blocked",
    "NO_CONNECTION" := "No connection to servers sms-activate",
    "ACCOUNT_INACTIVE" := "No numbers available",
    "NO_ID_RENT" := "Rent id not specified",
    "INVALID_PHONE" := "The number was not rented by you (wrong rental id)",
    "STATUS_FINISH" := "Rent paid and completed",
    "INCORECT_STATUS" := "Missing or incorrect status",
    "CANT_CANCEL" := "Unable to cancel the lease (more than 20 minutes have passed)",
    "ALREADY_FINISH" := "The lease has already been completed",
    "ALREADY_CANCEL" := "The lease has already been canceled",
    "WRONG_OPERATOR" := "Lease Transfer Operator is not MTT",
    "NO_YULA_MAIL" := "To buy a number from the mail group holding, you must have at least 500 rubles on your account",
    "WHATSAPP_NOT_AVAILABLE" := "No WhatsApp numbers available",
    "NOT_INCOMING" := "Activation is not call-verified activation",
    "INVALID_ACTIVATION_ID" := "Invalid activation id",
    "WRONG_ADDITIONAL_SERVICE" := "Invalid additional service (only services for forwarding are allowed)",
    "WRONG_ACTIVATION_ID" := "Invalid parental activation ID",
    "WRONG_SECURITY" := "An error occurred when trying to transfer an activation ID without forwarding, or a completed / inactive activation",
    "REPEAT_ADDITIONAL_SERVICE" := "The error occurs when you try to order the purchased service again",
    "NO_KEY" := "API key missing",
    "OPERATORS_NOT_FOUND" := " Operators not found"
  ]

  /** Activation status codes. The resend key carries a trailing space. */
  const Codes: map<string, string> := map[
    "STATUS_WAIT_CODE" := "Waiting for sms",
    "STATUS_WAIT_RETRY" := "Past Inappropriate Code - Waiting for Code Refinement",
    "STATUS_WAIT_RESEND " := "Waiting for re-sending SMS",
    "STATUS_CANCEL" := "Activation canceled",
    "STATUS_OK" := "Code received",
    "FULL_SMS" := "Full text received"
  ]

  /** Rental status codes. */
  const RentCodes: map<string, string> := map[
    "STATUS_WAIT_CODE" := "Waiting for the first SMS",
    "STATUS_FINISH" := "Rent paid and completed",
    "STATUS_CANCEL" := "Rent canceled with a refund"
  ]

  /** `dict.get` on a string table. */
  function Lookup(table: map<string, string>, key: string): (r: Option<string>)
    ensures r.Some? <==> key in table
    ensures r.Some? ==> r.value == table[key]
  {
    if key in table then Some(table[key]) else None
  }

  /** `get_error`: the description of an error token, `None` for any other text. */
  function GetError(body: string): (r: Option<string>)
    ensures r.Some? <==> body in Errors
    ensures r.Some? ==> r.value == Errors[body]
  {
    Lookup(Errors, body)
  }

  /** `check_error`: whether the body is a known error token. No description
      in the table is `None`, so this is exactly key membership. */
  function CheckError(body: string): (r: bool)
    ensures r <==> body in Errors
  {
    GetError(body) != None
  }

  /** The reply of `activationStatus`: `{"status": ..., "message": ...}`. */
  datatype StatusReply = StatusReply(status: string, message: Option<string>)

  /** `activationStatus`: echoes the code and looks up its description. */
  function ActivationStatus(status: string): (r: StatusReply)
    ensures r.status == status
    ensures r.message.Some? <==> status in Codes
    ensures r.message.Some? ==> r.message.value == Codes[status]
  {
    StatusReply(status, Lookup(Codes, status))
  }

  /** `rentStatus`: the description of a rental code, `None` when unknown. */
  function RentStatus(status: string): (r: Option<string>)
    ensures r.Some? <==> status in RentCodes
    ensures r.Some? ==> r.value == RentCodes[status]
  {
    Lookup(RentCodes, status)
  }

  /** No error token is empty and none contains a colon, so neither an
      empty body nor a colon-delimited reply is ever taken for an error. */
  lemma ErrorTokensAreColonFree(k: string)
    requires k in Errors
    ensures k != "" && ':' !in k
  {
    ErrorTokenListed(k);
    ListedTokenIsColonFree(k);
  }

  /** The keys of `Errors` in three groups, in the order of the table. The
      grouping exists only to split the colon-freeness proof into three
      small ones; `ErrorTokenListed` ties it back to `Errors`. */
  const ErrorTokens: set<string> := ErrorTokens1 + ErrorTokens2 + ErrorTokens3

  const ErrorTokens1: set<string> := {
    "NO_NUMBERS", "NO_BALANCE", "BAD_ACTION", "BAD_SERVICE", "BAD_KEY", "ERROR_SQL",
    "SQL_ERROR", "NO_ACTIVATION", "BAD_STATUS", "STATUS_CANCEL", "BANNED"
  }

  const ErrorTokens2: set<string> := {
    "NO_CONNECTION", "ACCOUNT_INACTIVE", "NO_ID_RENT", "INVALID_PHONE", "STATUS_FINISH",
    "INCORECT_STATUS", "CANT_CANCEL", "ALREADY_FINISH", "ALREADY_CANCEL", "WRONG_OPERATOR"
  }

  const ErrorTokens3: set<string> := {
    "NO_YULA_MAIL", "WHATSAPP_NOT_AVAILABLE", "NOT_INCOMING",
    "INVALID_ACTIVATION_ID", "WRONG_ADDITIONAL_SERVICE", "WRONG_ACTIVATION_ID",
    "WRONG_SECURITY", "REPEAT_ADDITIONAL_SERVICE", "NO_KEY", "OPERATORS_NOT_FOUND"
  }

  lemma ErrorTokenListed(k: string)
    requires k in Errors
    ensures k in ErrorTokens
  {
  }

  lemma ListedTokenIsColonFree(k: string)
    requires k in ErrorTokens
    ensures k != "" && ':' !in k
  {
    if k in ErrorTokens1 {
      ErrorTokens1AreColonFree(k);
    } else if k in ErrorTokens2 {
      ErrorTokens2AreColonFree(k);
    } else {
      ErrorTokens3AreColonFree(k);
    }
  }

  lemma ErrorTokens1AreColonFree(k: string)
    requires k in ErrorTokens1
    ensures k != "" && ':' !in k
  {
  }

  lemma ErrorTokens2AreColonFree(k: string)
    requires k in ErrorTokens2
    ensures k != "" && ':' !in k
  {
  }

  lemma ErrorTokens3AreColonFree(k: string)
    requires k in ErrorTokens3
    ensures k != "" && ':' !in k
  {
  }

  /** The resend code is only recognised with its trailing space; the code
      as the service spells it has no description. */
  lemma ResendNeedsTrailingSpace()
    ensures ActivationStatus("STATUS_WAIT_RESEND").message == None
    ensures ActivationStatus("STATUS_WAIT_RESEND ").message == Some("Waiting for re-sending SMS")
  {
  }

  /** The table entries the activation and rental translators are known by. */
  lemma StatusExamples()
    ensures ActivationStatus("STATUS_OK") == StatusReply("STATUS_OK", Some("Code received"))
    ensures RentStatus("STATUS_FINISH") == Some("Rent paid and completed")
    ensures RentStatus("STATUS_OK") == None
  {
  }
}
