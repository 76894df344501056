/**
 * The value objects of a gateway response that the transaction body embeds.
 * Their classes (Status, ConsumerMessage, Services, the parameter bags,
 * RequestErrors and StatusCodesHelper) are not part of this model: each is
 * represented only by what the transaction body reads from it.
 */
module ResponseCommon {
  import opened Wrappers

  /** The status block of a response; the body classifies it by `code` alone. */
  datatype Status = Status(
    code: int,
    subCode: Option<string>,
    description: Option<string>,
    dateTime: Option<string>)

  /**
   * The status-code classification. Its code table is not part of this model,
   * so each of its seven predicates is left open: any total predicate on codes.
   */
  datatype StatusCodesHelper = StatusCodesHelper(
    isSuccessful: int -> bool,
    isPending: int -> bool,
    isFailed: int -> bool,
    isCancelled: int -> bool,
    isRejected: int -> bool,
    isPermanentStatus: int -> bool,
    isTemporaryStatus: int -> bool)

  /** The message meant for the paying consumer. */
  datatype ConsumerMessage = ConsumerMessage(text: Option<string>, culture: Option<string>)

  /** One service of the response: its name and its name/value parameters, in order. */
  datatype Service = Service(name: string, parameters: seq<(string, string)>)

  /** The services of a response, in the order the gateway sent them. */
  type Services = seq<Service>

  /** Custom or additional parameters: unique names mapped to values. */
  type Parameters = map<string, string>

  /**
   * The request errors of a response, represented only by the answer its own
   * `hasErrors()` gives.
   */
  datatype RequestErrors = RequestErrors(reportsErrors: bool)
}
