/**
 * The body of a transaction response: a read-only snapshot of one gateway
 * transaction, filled once from the decoded response and never changed.
 * Every query of the PHP class reads the snapshot; none assigns a property,
 * so the class becomes a datatype and each query a function of it.
 */
module TransactionBody {
  import opened Wrappers
  import opened ResponseCommon

  /** The required follow-up action: its type and, for a redirect, the URL. */
  datatype RequiredAction = RequiredAction(actionType: string, redirectUrl: Option<string>)

  /** What PHP raises when a method is called on `null`: the method's name. */
  datatype Fault = CallOnNull(methodName: string)

  /**
   * The response body. A property the gateway omitted is `None`; the status
   * block is always present.
   */
  datatype Body = Body(
    key: Option<string>,
    invoice: Option<string>,
    order: Option<string>,
    serviceCode: Option<string>,
    status: Status,
    isTest: Option<bool>,
    currency: Option<string>,
    amountDebit: Option<real>,
    amountCredit: Option<real>,
    transactionType: Option<string>,
    requiredAction: Option<RequiredAction>,
    mutationType: Option<string>,
    consumerMessage: Option<ConsumerMessage>,
    issuingCountry: Option<string>,
    startRecurrent: Option<bool>,
    recurring: Option<bool>,
    customerName: Option<string>,
    payerHash: Option<string>,
    services: Option<Services>,
    customParameters: Option<Parameters>,
    additionalParameters: Option<Parameters>,
    requestErrors: Option<RequestErrors>,
    paymentKey: Option<string>,
    isCancelable: Option<bool>)

  /** The body of a response in which the gateway sent nothing but its status. */
  function EmptyResponse(status: Status): Body
  {
    Body(None, None, None, None, status, None, None, None, None, None, None, None,
         None, None, None, None, None, None, None, None, None, None, None, None)
  }

  // ----- Plain getters: each hands back one stored property -----

  function TransactionKey(b: Body): Option<string> { b.key }
  function InvoiceNumber(b: Body): Option<string> { b.invoice }
  function OrderNumber(b: Body): Option<string> { b.order }
  function ServiceCode(b: Body): Option<string> { b.serviceCode }
  function IsInTestMode(b: Body): Option<bool> { b.isTest }
  function Currency(b: Body): Option<string> { b.currency }
  function AmountDebit(b: Body): Option<real> { b.amountDebit }
  function AmountCredit(b: Body): Option<real> { b.amountCredit }
  function TransactionType(b: Body): Option<string> { b.transactionType }
  function RequiredActionObject(b: Body): Option<RequiredAction> { b.requiredAction }
  function MutationType(b: Body): Option<string> { b.mutationType }
  function IssuingCountry(b: Body): Option<string> { b.issuingCountry }
  function StartRecurrent(b: Body): Option<bool> { b.startRecurrent }
  function Recurring(b: Body): Option<bool> { b.recurring }
  function IsCancelable(b: Body): Option<bool> { b.isCancelable }

  /** The status code the status trait reads from the embedded status block. */
  function StatusCode(b: Body): int { b.status.code }

  /** Reading a snapshot back through its getters yields exactly what was stored. */
  lemma GettersReturnStoredFields(b: Body)
    ensures TransactionKey(b) == b.key && InvoiceNumber(b) == b.invoice
    ensures OrderNumber(b) == b.order && ServiceCode(b) == b.serviceCode
    ensures IsInTestMode(b) == b.isTest && Currency(b) == b.currency
    ensures AmountDebit(b) == b.amountDebit && AmountCredit(b) == b.amountCredit
    ensures TransactionType(b) == b.transactionType && MutationType(b) == b.mutationType
    ensures RequiredActionObject(b) == b.requiredAction
    ensures IssuingCountry(b) == b.issuingCountry
    ensures StartRecurrent(b) == b.startRecurrent && Recurring(b) == b.recurring
    ensures IsCancelable(b) == b.isCancelable
  {
  }

  // ----- The amount -----

  /** PHP truthiness of an amount: `null` and zero are false, any other number true. */
  predicate Truthy(amount: Option<real>)
  {
    amount.Some? && amount.value != 0.0
  }

  /**
   * The amount of the transaction: the debit amount when it is truthy,
   * otherwise the credit amount, which may itself be absent or zero.
   */
  function Amount(b: Body): (r: Option<real>)
    ensures Truthy(AmountDebit(b)) ==> r == AmountDebit(b)
    ensures !Truthy(AmountDebit(b)) ==> r == AmountCredit(b)
    ensures Truthy(r) <==> Truthy(AmountDebit(b)) || Truthy(AmountCredit(b))
  {
    var amount := AmountCredit(b);
    if Truthy(AmountDebit(b)) then AmountDebit(b) else amount
  }

  /** With two non-zero amounts the debit is reported and the credit never is, unless they coincide. */
  lemma DebitTakesPrecedence(b: Body)
    requires Truthy(b.amountDebit) && Truthy(b.amountCredit)
    ensures Amount(b) == b.amountDebit
    ensures Amount(b) == b.amountCredit ==> b.amountCredit == b.amountDebit
  {
  }

  /**
   * A debit that is present but zero does not count: such a body can report
   * no amount at all.
   */
  lemma ZeroDebitCanLeaveNoAmount()
    ensures exists b: Body :: b.amountDebit == Some(0.0) && Amount(b) == None
  {
    var b := EmptyResponse(Status(0, None, None, None)).(amountDebit := Some(0.0));
    assert Amount(b) == None;
  }

  // ----- The required action -----

  /** A response asks for a follow-up action exactly when it carries one. */
  function HasRequiredAction(b: Body): (r: bool)
    ensures r <==> RequiredActionObject(b) != None
  {
    b.requiredAction != None
  }

  /**
   * The type of the required action. Without one, the PHP code calls
   * `getType()` on `null` and raises.
   */
  function RequiredActionType(b: Body): (r: Result<string, Fault>)
    ensures r.Success? <==> HasRequiredAction(b)
    ensures r.Success? ==> r.value == RequiredActionObject(b).value.actionType
    ensures r.Failure? ==> r.error == CallOnNull("getType")
  {
    match b.requiredAction
    case None => Failure(CallOnNull("getType"))
    case Some(action) => Success(action.actionType)
  }

  /**
   * The redirect URL of the required action, which the action itself may
   * leave `null`. Without a required action the PHP code raises.
   */
  function RedirectUrl(b: Body): (r: Result<Option<string>, Fault>)
    ensures r.Success? <==> HasRequiredAction(b)
    ensures r.Success? ==> r.value == RequiredActionObject(b).value.redirectUrl
    ensures r.Failure? ==> r.error == CallOnNull("getRedirectUrl")
  {
    match b.requiredAction
    case None => Failure(CallOnNull("getRedirectUrl"))
    case Some(action) => Success(action.redirectUrl)
  }

  /**
   * The redirect check as written: compares the required action's type with
   * `typeRedirect`, the value of the redirect-type constant, and raises when
   * there is no required action.
   */
  function IsRedirectActionAsWritten(b: Body, typeRedirect: string): (r: Result<bool, Fault>)
    ensures r.Success? <==> RequiredActionType(b).Success?
    ensures r.Success? ==> (r.value <==> RequiredActionType(b).value == typeRedirect)
    ensures r.Failure? ==> r.error == RequiredActionType(b).error
  {
    match b.requiredAction
    case None => Failure(CallOnNull("getType"))
    case Some(action) => Success(action.actionType == typeRedirect)
  }

  /**
   * The redirect check as intended: the consumer must be redirected exactly
   * when the response carries a required action of the redirect type. It
   * agrees with the check as written wherever that one returns.
   */
  function IsRedirectAction(b: Body, typeRedirect: string): (r: bool)
    ensures r ==> HasRequiredAction(b)
    ensures r <==> RequiredActionType(b) == Success(typeRedirect)
    ensures IsRedirectActionAsWritten(b, typeRedirect).Success? ==>
              r == IsRedirectActionAsWritten(b, typeRedirect).value
  {
    b.requiredAction.Some? && b.requiredAction.value.actionType == typeRedirect
  }

  /**
   * A response without a required action makes the check as written raise,
   * where the consumer evidently need not be redirected.
   */
  lemma RedirectCheckWithoutAction(b: Body, typeRedirect: string)
    requires !HasRequiredAction(b)
    ensures IsRedirectActionAsWritten(b, typeRedirect) == Failure(CallOnNull("getType"))
    ensures !IsRedirectAction(b, typeRedirect)
    ensures RedirectUrl(b).Failure?
  {
  }

  // ----- Request errors -----

  /**
   * A response has errors only when it carries request errors, and then
   * exactly when those report errors themselves.
   */
  function HasErrors(b: Body): (r: bool)
    ensures b.requestErrors == None ==> !r
    ensures b.requestErrors != None ==> (r <==> b.requestErrors.value.reportsErrors)
  {
    b.requestErrors != None && b.requestErrors.value.reportsErrors
  }

  // ----- Status classification, delegated to the helper -----

  function IsSuccessful(b: Body, h: StatusCodesHelper): bool { h.isSuccessful(StatusCode(b)) }
  function IsPending(b: Body, h: StatusCodesHelper): bool { h.isPending(StatusCode(b)) }
  function IsFailed(b: Body, h: StatusCodesHelper): bool { h.isFailed(StatusCode(b)) }
  function IsCancelled(b: Body, h: StatusCodesHelper): bool { h.isCancelled(StatusCode(b)) }
  function IsRejected(b: Body, h: StatusCodesHelper): bool { h.isRejected(StatusCode(b)) }
  function HasPermanentStatus(b: Body, h: StatusCodesHelper): bool { h.isPermanentStatus(StatusCode(b)) }
  function HasTemporaryStatus(b: Body, h: StatusCodesHelper): bool { h.isTemporaryStatus(StatusCode(b)) }

  /** Two bodies with the same status code are classified alike, whatever else differs. */
  lemma StatusQueriesDependOnlyOnCode(a: Body, b: Body, h: StatusCodesHelper)
    requires StatusCode(a) == StatusCode(b)
    ensures IsSuccessful(a, h) == IsSuccessful(b, h) && IsPending(a, h) == IsPending(b, h)
    ensures IsFailed(a, h) == IsFailed(b, h) && IsCancelled(a, h) == IsCancelled(b, h)
    ensures IsRejected(a, h) == IsRejected(b, h)
    ensures HasPermanentStatus(a, h) == HasPermanentStatus(b, h)
    ensures HasTemporaryStatus(a, h) == HasTemporaryStatus(b, h)
  {
  }

  /**
   * Status semantics live in the helper alone: two helpers that agree on a
   * body's code classify that body alike.
   */
  lemma StatusQueriesFollowHelper(b: Body, h1: StatusCodesHelper, h2: StatusCodesHelper)
    requires h1.isSuccessful(StatusCode(b)) == h2.isSuccessful(StatusCode(b))
    requires h1.isPending(StatusCode(b)) == h2.isPending(StatusCode(b))
    requires h1.isFailed(StatusCode(b)) == h2.isFailed(StatusCode(b))
    requires h1.isCancelled(StatusCode(b)) == h2.isCancelled(StatusCode(b))
    requires h1.isRejected(StatusCode(b)) == h2.isRejected(StatusCode(b))
    requires h1.isPermanentStatus(StatusCode(b)) == h2.isPermanentStatus(StatusCode(b))
    requires h1.isTemporaryStatus(StatusCode(b)) == h2.isTemporaryStatus(StatusCode(b))
    ensures IsSuccessful(b, h1) == IsSuccessful(b, h2) && IsPending(b, h1) == IsPending(b, h2)
    ensures IsFailed(b, h1) == IsFailed(b, h2) && IsCancelled(b, h1) == IsCancelled(b, h2)
    ensures IsRejected(b, h1) == IsRejected(b, h2)
    ensures HasPermanentStatus(b, h1) == HasPermanentStatus(b, h2)
    ensures HasTemporaryStatus(b, h1) == HasTemporaryStatus(b, h2)
  {
  }

  /**
   * The status, the required action and the errors are independent: for any
   * code the helper calls pending, a body with that code can at once ask for
   * a redirect to any URL and report no errors.
   */
  lemma PendingRedirectResponse(h: StatusCodesHelper, typeRedirect: string, code: int, url: string)
    requires h.isPending(code)
    ensures exists b: Body ::
              && IsPending(b, h)
              && IsRedirectAction(b, typeRedirect)
              && RedirectUrl(b) == Success(Some(url))
              && !HasErrors(b)
  {
    var b := EmptyResponse(Status(code, None, None, None))
               .(requiredAction := Some(RequiredAction(typeRedirect, Some(url))));
    assert IsPending(b, h) && IsRedirectAction(b, typeRedirect);
    assert RedirectUrl(b) == Success(Some(url)) && !HasErrors(b);
  }
}
