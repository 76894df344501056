# Buckaroo transaction response body, in Dafny

This project models the body of a transaction response of the Buckaroo
payment-gateway client (`SeBuDesign\Buckaroo`): the read-only snapshot of one
transaction that the SOAP layer fills from the gateway's answer. The snapshot
holds the transaction key, invoice and order numbers, service code, test flag,
currency, debit and credit amounts, transaction and mutation type, issuing
country, recurring flags, customer name, payer hash, payment key and
cancelable flag. It also embeds the status block, an optional required action,
services, a consumer message, custom and additional parameters and optional
request errors.

The PHP class never assigns a property after hydration, and every query is a
single expression over the properties. So `Body` is a Dafny `datatype`, and
each query is a function of it (`transaction_body.dfy`, module
`TransactionBody`). A property the gateway omitted, which PHP leaves `null`,
is `None`.

The derived queries are:

- `Amount`: the debit amount when it is truthy in PHP's sense (present and
  non-zero), otherwise the credit amount, which may itself be absent.
- `HasRequiredAction` and `HasErrors`: presence tests. `HasErrors` asks the
  embedded request errors only when they are present.
- `RequiredActionType`, `RedirectUrl` and the redirect check read the
  embedded required action. The PHP code calls the required action's getters
  without a null check, so on a response without one PHP raises an `Error`.
  The model returns `Failure(CallOnNull(<method>))` there instead of
  requiring callers to avoid it.
- The seven status queries (`IsSuccessful`, `IsPending`, `IsFailed`,
  `IsCancelled`, `IsRejected`, `HasPermanentStatus`, `HasTemporaryStatus`)
  apply the status-code helper to the body's status code and nothing else.

Collaborators whose code is not part of this model are parameters
(`response_common.dfy`, module `ResponseCommon`):

- `StatusCodesHelper` is a record of seven arbitrary predicates on codes.
- The value of the redirect-type constant of the required-action class is the
  parameter `typeRedirect`.
- The request errors are represented only by the answer their own
  `hasErrors()` gives.

`wrappers.dfy` holds the `Option` and `Result` datatypes.

## Model

| member | source | states |
|---|---|---|
| `TransactionBody.GettersReturnStoredFields` | src/Soap/Types/Responses/Transaction/Body.php:186-394 | every plain getter (key, invoice, order, service code, test flag, currency, both amounts, transaction type, required-action object, mutation type, issuing country, both recurring flags, cancelable flag) returns its stored property unchanged |
| `TransactionBody.Amount` | src/Soap/Types/Responses/Transaction/Body.php:246-254 | a truthy debit is returned; otherwise the credit is returned as stored (possibly absent or zero); the result is truthy exactly when the debit or the credit is |
| `TransactionBody.DebitTakesPrecedence` | src/Soap/Types/Responses/Transaction/Body.php:248-251 | with a non-zero debit and a non-zero credit the debit is returned, and the credit only when it equals the debit |
| `TransactionBody.ZeroDebitCanLeaveNoAmount` | src/Soap/Types/Responses/Transaction/Body.php:248-253 | a present but zero debit is skipped: some body with debit 0 reports no amount at all |
| `TransactionBody.HasRequiredAction` | src/Soap/Types/Responses/Transaction/Body.php:291-294 | true exactly when the required-action object is present |
| `TransactionBody.RequiredActionType` | src/Soap/Types/Responses/Transaction/Body.php:311-314 | succeeds exactly when a required action is present, with that action's type; otherwise fails with a call of `getType` on null |
| `TransactionBody.IsRedirectActionAsWritten` | src/Soap/Types/Responses/Transaction/Body.php:321-324 | succeeds exactly when the action type can be read, and is then true iff that type equals the redirect-type constant; fails with the same fault as reading the type otherwise |
| `TransactionBody.IsRedirectAction` | src/Soap/Types/Responses/Transaction/Body.php:321-324 | true iff the action type reads successfully as the redirect-type constant; implies a required action is present; agrees with the check as written wherever that one returns |
| `TransactionBody.RedirectCheckWithoutAction` | src/Soap/Types/Responses/Transaction/Body.php:321-334 | without a required action the check as written and the redirect URL both fail, while the intended check is false |
| `TransactionBody.RedirectUrl` | src/Soap/Types/Responses/Transaction/Body.php:331-334 | succeeds exactly when a required action is present, with that action's own (possibly absent) URL; otherwise fails with a call of `getRedirectUrl` on null |
| `TransactionBody.HasErrors` | src/Soap/Types/Responses/Transaction/Body.php:381-384 | false when the request errors are absent; when present, equal to their own `hasErrors()` |
| `TransactionBody.StatusQueriesDependOnlyOnCode` | src/Soap/Types/Responses/Transaction/Body.php:401-464 | two bodies with the same status code get the same answer from all seven status queries, whatever else differs |
| `TransactionBody.StatusQueriesFollowHelper` | src/Soap/Types/Responses/Transaction/Body.php:401-464 | two helpers that agree on a body's status code give that body the same answer from all seven status queries: the classification lives in the helper alone |
| `TransactionBody.PendingRedirectResponse` | src/Soap/Types/Responses/Transaction/Body.php:321-334 | for any code the helper calls pending and any URL, some body is at once pending, a redirect to that URL and free of errors |

## Findings

| source | as written | input that shows it | evidently intended | confidence | as-written member | corrected member |
|---|---|---|---|---|---|---|
| src/Soap/Types/Responses/Transaction/Body.php:321-324 | `isRedirectAction()` calls `getType()` on the required-action object without a null check, so PHP raises an `Error` | a response whose body carries no required action | `false`: a response without a required action asks for no redirect, as the method's `bool` return type says | medium (callers may be expected to test `hasRequiredAction()` first); not executed | `TransactionBody.IsRedirectActionAsWritten` | `TransactionBody.IsRedirectAction` |

## Left out

- The hydration of the properties from the SOAP response: it happens outside
  `Body.php`. `EmptyResponse` only builds a body whose optional properties
  are all absent.
- The code table of `StatusCodesHelper`: it is not part of this model, so its
  seven predicates are parameters. Nothing is claimed about which codes are
  successful, pending and so on, or about the categories being disjoint.
- `getStatusCode()` comes from the status trait, which is not part of this
  model. It is taken to read the code of the embedded status block. The status
  block is taken to be always present, so a response without one is not
  modelled.
- The required-action and request-errors classes are not part of this model.
  The required action is taken to return its stored type and URL. The request
  errors are represented only by their own `hasErrors()` answer.
- The value of the redirect-type constant is not part of this model. It is the
  parameter `typeRedirect`.
- The consumer-message and services traits are not part of this model. Their
  value objects are carried as data and nothing queries them. The customer
  name, payer hash, payment key and the two parameter bags have no getter in
  `Body.php` and are carried as data too.
- Amounts are exact reals, not IEEE doubles. PHP's truthiness is modelled as
  "present and not 0". NaN, negative zero and string-typed amounts are not
  represented.
- That no query changes the body needs no statement: every query is a function
  of an immutable value.
- The request builder, request signing, key loading and the SOAP transport
  are not part of this model.
