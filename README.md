# IOU ledger and create-IOU route, in Dafny

This project models the two pieces of the Pi IOU app that carry rules.

The first is the home page's ledger (`app/page.tsx`). It holds:
- a list of IOUs, the selected IOU and the view;
- the creation form, the payment messages and the payment timeline;
- the handlers that create, accept, reject and settle an IOU;
- the callbacks the Pi payment flow invokes once a settlement has started.

The second is the `POST /api/ious/create` handler (`app/api/ious/create/route.ts`). It turns an untyped JSON body into either a 400 response or the row to insert. It then turns the database's answer into a 500 or the success response.

Files:
- `js.dfy` (module `Js`) holds the JavaScript built-ins the core relies on: `String.prototype.trim` with ECMAScript's white-space set, and the decimal printing of `Date.now()` inside a template literal.
- `ious.dfy` (module `Ious`) holds the `Iou` record and the status graph. It also has the conditions under which the page shows the accept, reject and pay buttons, and the pure list rewrites (`map` over the list, `find`, the prepend). It ends with the replay theorem that paid and cancelled IOUs never change, the creation of a new IOU, and the payment memo.
- `page.dfy` (module `Page`) holds two classes:
  - `Home` holds the component's state variables as fields. Each handler is a method that updates only the fields the handler sets.
  - `PaymentFlow` is the closure `handleSettleIou` builds: the IOU, the memo, the payment identifier the callbacks have seen, and the page they update.
- `route.dfy` (module `CreateRoute`) holds:
  - a JSON value type, and `Number()` on JSON values (including arrays and objects), shown to agree with JavaScript's definition through the value's string form;
  - the sanitiser, the response, and the lemmas about which bodies are accepted and what row they produce.

The button conditions of the page are preconditions of the methods:
- Accept and reject need a card showing them, for a pending incoming IOU (`app/page.tsx:376`), or the detail panel of a pending selected IOU (`app/page.tsx:640`).
- Pay needs the selected IOU to be pending or accepted, and the button must not be disabled by a payment being started (`app/page.tsx:658-662`).

The handlers do not check the status themselves. The model follows the code here, and two consequences are proved rather than hidden:
- `Ious.CompletionAfterRejection`: the completion callback marks the IOU paid whatever its status is by then. A rejection that lands between pressing pay and the completion turns a cancelled IOU into a paid one, stamped both cancelled and paid.
- `Ious.RepeatedCompletionRestamps`: a paid IOU is stamped paid again when a second completion arrives for it, from a second press of pay made after `createTestPayment` has returned, which enables the button again (`app/page.tsx:343`), and before the first completion has arrived, or from a repeated callback.
- `Ious.TerminalIsFinal` counts each press of pay as a payment that completes once, right after the press, while the IOU is still pending or accepted; the two lemmas above show what happens outside that assumption.
- `Ious.TerminalIsFinal` needs distinct ids. Ids are `iou-${Date.now()}`, so two IOUs created in the same millisecond share an id, and `map` rewrites both. Creations with fresh ids keep ids distinct (`Ious.IouIdInjective`).

Inputs are parameters, not computed:
- timestamps (`new Date().toISOString()`, `Date.now()`);
- the parsed form amount (`Number(formAmount)`, a `Num`: finite with a real value, or not finite);
- the outcomes of the Pi SDK, of the mock payment server and of the database;
- JavaScript's string-to-number parsing (`parse`) and number-to-string printing (`show`).

## Model

| member | source | states |
|---|---|---|
| Js.Trim | app/page.tsx:201 | `trim()` gives the empty string exactly when the input is all ECMAScript white space; otherwise the result starts and ends with a character that is not white space |
| Js.TrimStartCuts | app/page.tsx:209 | cutting leading white space keeps a suffix; everything cut is white space; what is left does not start with white space |
| Js.TrimEndCuts | app/page.tsx:209 | cutting trailing white space keeps a prefix; everything cut is white space; what is left does not end with white space |
| Js.TrimIsSlice | app/page.tsx:209 | what `trim()` keeps is a contiguous slice of the input |
| Js.TrimOfTrimmed | app/api/ious/create/route.ts:29 | a string with no white space at either end is its own trim |
| Js.TrimIdempotent | app/api/ious/create/route.ts:42 | trimming twice is trimming once |
| Js.Decimal | app/page.tsx:207 | `${Date.now()}` prints only digits, never the empty string, with no leading zero unless the number is 0 |
| Js.DecimalRoundTrip | app/page.tsx:207 | reading back the printed digits gives the number |
| Js.DecimalInjective | app/page.tsx:207 | different numbers print differently |
| Ious.IsTerminal | app/page.tsx:640-658 | paid and cancelled are exactly the statuses with no button move out of them |
| Ious.Transition | app/page.tsx:640-658 | every button move changes the status, never back to pending, and starts from pending or accepted |
| Ious.OfferedOnCard | app/page.tsx:376 | a card offers accept and reject only for an IOU the detail panel would offer them for |
| Ious.CanAcceptOrReject | app/page.tsx:640 | the detail panel offers accept and reject exactly when both moves are in the status graph |
| Ious.CanSettle | app/page.tsx:658 | the detail panel offers pay exactly when the move to paid is in the status graph |
| Ious.Apply | app/page.tsx:227-303 | a handler's object spread never changes id, amount, counterparty, note, due date, direction or creation time; accept gives accepted, stamps `acceptedAt` with the time and clears `cancelledAt`; reject gives cancelled and stamps `cancelledAt`; the completion gives paid and stamps `paidAt`; every other stamp is kept; a move whose button is shown follows the status graph and keeps the stamps consistent with the status |
| Ious.Rewrite | app/page.tsx:228-239 | the `map` rewrite keeps length and order, moves every IOU with the id, and leaves every other IOU identical |
| Ious.Find | app/page.tsx:135 | `find` is absent exactly when no IOU has the id, and otherwise returns the first IOU of the list with that id |
| Ious.FindDistinct | app/page.tsx:135 | in a list without repeated ids, `find` by an IOU's id returns that IOU |
| Ious.FindAfterRewrite | app/page.tsx:135 | after a rewrite, `find` sees the moved IOU under the rewritten id and the old IOU under every other id |
| Ious.RewriteUnknownId | app/page.tsx:242-253 | accepting, rejecting or paying an id no IOU has leaves the list unchanged |
| Ious.GuardedMoveFollowsGraph | app/page.tsx:640-661 | on a list with distinct ids, a move whose button is shown changes only along the status graph, keeps ids distinct and keeps stamps consistent |
| Ious.PrependKeepsConsistent | app/page.tsx:217 | prepending an IOU with a new id and consistent stamps keeps ids distinct and stamps consistent |
| Ious.StepKeepsTerminal | app/page.tsx:217-304 | one creation with a fresh id, or one press of a shown button, keeps ids distinct and leaves a paid or cancelled IOU as it was |
| Ious.TerminalIsFinal | app/page.tsx:640-658 | no sequence of fresh creations and button presses changes a paid or cancelled IOU |
| Ious.CompletionAfterRejection | app/page.tsx:294-303 | a completion after a rejection moves cancelled to paid, outside the status graph, and leaves the IOU stamped both cancelled and paid |
| Ious.RepeatedCompletionRestamps | app/page.tsx:294-303 | a second completion for an IOU that is already paid stamps it paid again with the later time |
| Ious.IouIdInjective | app/page.tsx:207 | IOUs created at different milliseconds get different ids |
| Ious.IouId | app/page.tsx:207 | a new id is "iou-" followed by digits that read back as the creation millisecond |
| Ious.OptionalNote | app/page.tsx:210 | the note is absent exactly when it is all white space, and otherwise is its trim, which is non-empty and trimmed |
| Ious.NewIou | app/page.tsx:206-215 | a created IOU has the id `iou-<stamp>`, the amount and creation time given, a pending status, an outgoing direction, no accepted/paid/cancelled stamp, the trim of the counterparty (non-empty), the note rule, and a due date absent exactly when the field is empty and otherwise the field as typed |
| Ious.CreateAccepted | app/page.tsx:201 | the form is accepted exactly when the amount is finite and above zero and the counterparty's trim is not empty |
| Ious.MemoParts | app/page.tsx:271 | the memo is "Pagamento IOU per ", then the counterparty, then ": " and the note exactly when the note is present and non-empty |
| Ious.Memo | app/page.tsx:271 | the memo's length is the prefix, the counterparty, and two more than the note only when the note is present and non-empty |
| Ious.Placeholders | app/page.tsx:43-75 | the initial list has three IOUs, the first with id "iou-1", with distinct ids and consistent stamps |
| Page.Home.constructor | app/page.tsx:87-107 | the page starts with the sample IOUs, the first selected, the home view, an empty form, no session and no payment, and a consistent list |
| Page.Home.SelectedIou | app/page.tsx:135 | the selected IOU is an IOU of the list with the selected id, and is absent exactly when no id is selected or no IOU has it |
| Page.Home.AnswerOffered | app/page.tsx:376-390 | accept and reject are on screen for an id only when some IOU with that id is pending |
| Page.Home.PayOffered | app/page.tsx:658-662 | pay is enabled for an IOU only when it is in the list, the move to paid is in the status graph, and no payment is being started |
| Page.Home.EditForm | app/page.tsx:531-562 | an input's `onChange` sets exactly its own form field |
| Page.Home.OpenDetail | app/page.tsx:368-371 | "Apri dettaglio" selects the card's IOU and shows the detail view |
| Page.Home.SignIn | app/page.tsx:168-195 | sign-in clears the message; it keeps the session when the server verified it, and otherwise drops it and records the error message |
| Page.Home.CreateIou | app/page.tsx:197-225 | an amount that is not finite or not above zero, or a blank counterparty, only sets the "Compila…" message; otherwise the list becomes `[newIou] + old`, the new id is selected, the view is detail, the form is emptied and the "IOU creata…" message is set; a fresh id keeps the list consistent |
| Page.Home.AcceptIou | app/page.tsx:227-240 | the list becomes the accept rewrite of the old one (accepted, `acceptedAt = now`, `cancelledAt` cleared) and nothing else changes; on a consistent list only pending IOUs move, to accepted, and the list stays consistent |
| Page.Home.RejectIou | app/page.tsx:242-254 | the list becomes the reject rewrite of the old one (cancelled, `cancelledAt = now`, `acceptedAt` kept) and nothing else changes; on a consistent list only pending IOUs move, to cancelled, and the list stays consistent |
| Page.Home.MoveKeepsConsistent | app/page.tsx:376-390 | accepting or rejecting an id whose buttons are shown, on a consistent list, moves only along the status graph and keeps the list consistent |
| Page.Home.SettleIou | app/page.tsx:256-345 | the message, error, timeline and active payment are cleared and the list is never changed; without a session it stops with the sign-in message; otherwise a payment flow for the IOU with its memo is started, and the message, active payment and timeline follow what the provider and the mock server answered, with loading off at the end |
| Page.PaymentFlow.constructor | app/page.tsx:269-271 | a new flow holds the IOU, its memo and no payment identifier yet |
| Page.PaymentFlow.OnReadyForServerApproval | app/page.tsx:274-285 | the approval callback makes the payment active and sets the approval or error message; the list is not touched |
| Page.PaymentFlow.OnReadyForServerCompletion | app/page.tsx:286-308 | the completion callback makes the payment active; only when the mock server completes it is every IOU with the settled id marked paid with `paidAt = now`; when that IOU is still pending or accepted, the list stays consistent |
| Page.PaymentFlow.OnCancel | app/page.tsx:309-318 | the cancel callback sets only the cancellation message, naming the payment when known, and its sync's timeline entry |
| Page.PaymentFlow.OnError | app/page.tsx:319-322 | the error callback sets only the error message, naming the payment when known |
| CreateRoute.ToNumber | app/api/ious/create/route.ts:31 | `Number(amount)` throws exactly when an object reached through arrays has its own `toString` key |
| CreateRoute.JoinAll | app/api/ious/create/route.ts:31 | `join` throws exactly when one of the element conversions throws |
| CreateRoute.ElementStringThrows | app/api/ious/create/route.ts:31 | an element's string conversion throws exactly when `ToNumber`'s throw condition holds |
| CreateRoute.ArrayNumberIsParsedString | app/api/ious/create/route.ts:31 | for an array whose Numbers read back from their string forms, the shortcut `ToNumber` equals JavaScript's definition: convert the array to its string, then parse that string |
| CreateRoute.NumberSyntaxSatisfiable | app/api/ious/create/route.ts:31 | the assumptions on string-to-number parsing are met by a concrete conversion, under which `[7]` converts to 7 |
| CreateRoute.PiUidValue | app/api/ious/create/route.ts:29 | `pi_uid` is the trim of the string sent, and "" for any other value; it is non-empty exactly when a string that is not all white space was sent |
| CreateRoute.DirectionValue | app/api/ious/create/route.ts:30 | `direction` is kept exactly when it is the string "incoming" or "outgoing", and is "" otherwise |
| CreateRoute.CounterpartyValue | app/api/ious/create/route.ts:42 | a string counterparty becomes its trim, a missing one null, any other value passes through unchanged |
| CreateRoute.NoteValue | app/api/ious/create/route.ts:44 | a string note becomes its trim, or null when it is all white space; a missing one is null; any other value passes through unchanged |
| CreateRoute.DueDateValue | app/api/ious/create/route.ts:45 | `due_date` is kept, untrimmed, exactly when it is a string that is not all white space; otherwise it is null |
| CreateRoute.Sanitize | app/api/ious/create/route.ts:18-46 | a body that is not JSON is a 400 "Invalid JSON payload."; every 400 carries one of the two messages; a row has a non-empty trimmed `pi_uid`, one of the two directions and a pending status |
| CreateRoute.SanitizeOutcomes | app/api/ious/create/route.ts:26-35 | the uncaught error happens exactly when a sent amount's conversion throws; a row is produced exactly when `pi_uid`, direction and a finite amount are given, whatever the amount's sign and the counterparty; anything else is a 400 |
| CreateRoute.InsertedRow | app/api/ious/create/route.ts:39-46 | the row's fields are the trimmed `pi_uid`, the direction as sent, the finite amount, the counterparty, note and due-date rules, and "pending" |
| CreateRoute.RowBody | app/api/ious/create/route.ts:39-46 | the row as a body has exactly the seven keys of the insert |
| CreateRoute.FieldRulesStable | app/api/ious/create/route.ts:29-45 | the `pi_uid`, counterparty, note and due-date rules each give their own output back when applied to it |
| CreateRoute.ResanitizeRow | app/api/ious/create/route.ts:29-46 | sanitising is idempotent: a built row, posted again, builds the same row |
| CreateRoute.RouteLaxerThanForm | app/api/ious/create/route.ts:33 | a zero amount with no counterparty is inserted by the route but refused by the page's form |
| CreateRoute.Post | app/api/ious/create/route.ts:15-57 | the response is the uncaught error, a 400 with the sanitiser's message, a 500 with the database's message, or the stored row; the database answer is used only for a sanitised row |
| CreateRoute.InvalidJsonIs400 | app/api/ious/create/route.ts:20-24 | a body that is not JSON gets a 400 "Invalid JSON payload." whatever the database would say |

## Left out

- Rendering: the JSX, styling, status and direction labels, `formatDate` and the scroll effect are presentation only. The navigation buttons that only set the view ("Crea una IOU", "Vedi le mie IOU", "Crea", "Apri selezionata") are also left out. The render conditions that gate handlers are kept as preconditions.
- Pi SDK detection, initialisation, authentication and payment creation are foreign browser calls. Their outcomes are inputs (`SignInOutcome`, `Creation`), and so are the mock payment server's answers (`SyncOutcome`).
- `handleSignIn`'s `piStatus` text, `serverUser`, `isAuthLoading` and the incomplete-payment callback's message are not part of this model. Only `authResult`, `authError` and `paymentStatus` are.
- Async interleaving is not modelled. `Page.Home.SettleIou` runs the payment creation and the initial sync to their end. The provider's callbacks are separate methods of `PaymentFlow` that may be called in any order afterwards, but not inside the `createTestPayment` await. Messages set and then overwritten before an `await` ends are not visible in the contracts.
- Page.Home.SettleIou: the model does not capture the window in which `isPaymentLoading` is true. The method starts with it false and ends with it false.
- Number and string parsing: `Number(formAmount)` is the input `amount`. The route's string-to-number parsing and number printing are the parameters `parse` and `show`. Amounts are reals; IEEE-754 rounding is not modelled.
- Js.Decimal: only integers below 10^21 print as plain digits in JavaScript. `Date.now()` stays far below that, so exponent notation is not modelled.
- The route's Supabase client, the insert itself, `console.log` and the start-up check of the environment variables are left out. The database's answer is the input `InsertResult`. The columns the database adds to the stored row are not modelled.
- OnReadyForServerApproval and OnReadyForServerCompletion take the payment identifier as always given; the fallback `pendingPayment?.identifier ?? paymentIdentifier` to the identifier seen earlier is not modelled, because the same callbacks then read `pendingPayment.identifier` without that fallback for their messages and syncs.
- Strings are sequences of Unicode characters, not of UTF-16 code units: a lone surrogate that a JSON `pi_uid`, `counterparty` or `note` may carry cannot be written, and lengths of characters outside the Basic Multilingual Plane differ.
- JSON objects are maps, so a key repeated in the request text keeps only its last value. That is also what `JSON.parse` does.
- The list rendering for duplicate ids, the commitments pages, the layout and the build scripts are outside the core.
