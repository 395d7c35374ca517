// The state of the home page component and its handlers: the list of IOUs,
// the selection, the view, the creation form and the payment messages, with
// the create, accept, reject and settle handlers and the callbacks that the
// payment provider invokes once a settlement has started.

module Page {
  import opened Js
  import opened Ious

  datatype View = HomeView | CreateView | ListView | DetailView

  /** The four inputs of the creation form. */
  datatype FormField = AmountField | CounterpartyField | NoteField | DueDateField

  /** What `syncMockPayment` ends with: the mock payment server answered,
      reporting a payment status or not, or the request failed, the response
      carrying an `error` text or not. */
  datatype SyncOutcome = Synced(serverStatus: Option<string>) | SyncFailed(error: Option<string>)

  /** What the provider's `createTestPayment` resolves to: a payment, with or
      without an identifier, or a thrown error with its message. */
  datatype Creation = Created(identifier: Option<string>) | CreationFailed(message: string)

  /** What the Pi sign-in ends with: a session the server verified, or the
      message of the error thrown along the way. */
  datatype SignInOutcome = Verified | SignInFailed(message: string)

  const IncompleteFormMessage: string := "Compila importo e controparte per creare la IOU."
  const CreatedMessage: string := "IOU creata. Nessun Pi mosso finch\U{E9} non paghi."
  const SignInFirstMessage: string := "Accedi con Pi prima di pagare la IOU."
  const DefaultSyncError: string := "Richiesta al server non riuscita."

  /** A JavaScript string used as a condition: only the empty string is falsy. */
  predicate Truthy(s: Option<string>)
  {
    s.Some? && s.value != ""
  }

  /** The message of the error `syncMockPayment` throws: the response's
      `error`, or a fixed text when it has none. */
  function SyncErrorMessage(error: Option<string>): string
  {
    match error
    case Some(e) => e
    case None => DefaultSyncError
  }

  /** The timeline entry `syncMockPayment` appends: one, when the server
      answered with a non-empty payment status. */
  function SyncLog(outcome: SyncOutcome): seq<string>
  {
    if outcome.Synced? && Truthy(outcome.serverStatus) then ["Server: " + outcome.serverStatus.value] else []
  }

  class Home {
    var ious: seq<Iou>
    var selectedIouId: Option<string>
    var view: View
    var formAmount: string
    var formCounterparty: string
    var formNote: string
    var formDueDate: string
    var paymentStatus: Option<string>
    var authResult: bool
    var authError: Option<string>
    var activePaymentId: Option<string>
    var mockPaymentLog: seq<string>
    var isPaymentLoading: bool

    /** The list keeps its ids distinct and every IOU's stamps agree with its
        status. */
    ghost predicate Consistent()
      reads this
    {
      DistinctIds(ious) && AllStamped(ious)
    }

    /** `selectedIou`: the first IOU whose id is the selected one. */
    function SelectedIou(): (r: Option<Iou>)
      reads this
      ensures r.Some? ==> selectedIouId == Some(r.value.id) && r.value in ious
      ensures r.None? <==> selectedIouId.None? || forall i :: 0 <= i < |ious| ==> ious[i].id != selectedIouId.value
    {
      match selectedIouId
      case Some(id) => Find(ious, id)
      case None => None
    }

    /** The accept and reject buttons for `id` are on screen: on the card of a
        pending incoming IOU with that id (the list is always rendered), or in
        the detail panel of the selected IOU when it is pending. */
    predicate AnswerOffered(id: string)
      reads this
      ensures AnswerOffered(id) ==> exists i :: 0 <= i < |ious| && ious[i].id == id && CanAcceptOrReject(ious[i])
    {
      || (exists i :: 0 <= i < |ious| && ious[i].id == id && OfferedOnCard(ious[i]))
      || (SelectedIou().Some? && SelectedIou().value.id == id && CanAcceptOrReject(SelectedIou().value))
    }

    /** The pay button is on screen and enabled for `iou`: it is the selected
        IOU, it is accepted or pending, and no payment is being started. */
    predicate PayOffered(iou: Iou)
      reads this
      ensures PayOffered(iou) ==>
        && (exists i :: 0 <= i < |ious| && ious[i] == iou)
        && Transition(iou.status, Paid) && !isPaymentLoading
    {
      SelectedIou() == Some(iou) && CanSettle(iou) && !isPaymentLoading
    }

    /** The initial state: the sample IOUs, the first one selected, the home
        view, an empty form, no session and no payment. */
    constructor (dueDate1: string, created1: string, created2: string, accepted2: string,
                 created3: string, accepted3: string, paid3: string)
      ensures ious == Placeholders(dueDate1, created1, created2, accepted2, created3, accepted3, paid3)
      ensures selectedIouId == Some("iou-1") && view == HomeView
      ensures formAmount == formCounterparty == formNote == formDueDate == ""
      ensures paymentStatus == None && !authResult && authError == None
      ensures activePaymentId == None && mockPaymentLog == [] && !isPaymentLoading
      ensures Consistent()
    {
      var initial := Placeholders(dueDate1, created1, created2, accepted2, created3, accepted3, paid3);
      ious := initial;
      selectedIouId := Some(initial[0].id);
      view := HomeView;
      formAmount, formCounterparty, formNote, formDueDate := "", "", "", "";
      paymentStatus := None;
      authResult := false;
      authError := None;
      activePaymentId := None;
      mockPaymentLog := [];
      isPaymentLoading := false;
    }

    /** The `onChange` handler of one input of the creation form. */
    method EditForm(field: FormField, value: string)
      modifies this`formAmount, this`formCounterparty, this`formNote, this`formDueDate
      ensures formAmount == if field == AmountField then value else old(formAmount)
      ensures formCounterparty == if field == CounterpartyField then value else old(formCounterparty)
      ensures formNote == if field == NoteField then value else old(formNote)
      ensures formDueDate == if field == DueDateField then value else old(formDueDate)
    {
      match field
      case AmountField => formAmount := value;
      case CounterpartyField => formCounterparty := value;
      case NoteField => formNote := value;
      case DueDateField => formDueDate := value;
    }

    /** The "Apri dettaglio" button of the card of an IOU in the list. */
    method OpenDetail(id: string)
      requires exists i :: 0 <= i < |ious| && ious[i].id == id
      modifies this`selectedIouId, this`view
      ensures selectedIouId == Some(id) && view == DetailView
      ensures SelectedIou().Some? && SelectedIou().value.id == id
    {
      selectedIouId := Some(id);
      view := DetailView;
    }

    /** The state effects of the Pi sign-in: messages are cleared, then the
        session is kept when the server verified it, and dropped with its
        error message otherwise. */
    method SignIn(outcome: SignInOutcome)
      modifies this`paymentStatus, this`authResult, this`authError
      ensures paymentStatus == None
      ensures authResult <==> outcome.Verified?
      ensures authError == if outcome.Verified? then None else Some(outcome.message)
    {
      authError := None;
      paymentStatus := None;
      match outcome
      case Verified =>
        authResult := true;
      case SignInFailed(message) =>
        authError := Some(message);
        authResult := false;
    }

    /** `handleCreateIou`. `amount` is `Number(formAmount)`, `stamp` is
        `Date.now()` and `now` the ISO form of the current time. A form with
        an amount that is not finite or not above zero, or with a blank
        counterparty, only sets a message; otherwise the new pending IOU goes
        in front of the list, is selected and shown, and the form is
        emptied. */
    method CreateIou(amount: Num, stamp: nat, now: string)
      modifies this`ious, this`selectedIouId, this`view, this`paymentStatus
      modifies this`formAmount, this`formCounterparty, this`formNote, this`formDueDate
      ensures !CreateAccepted(amount, old(formCounterparty)) ==>
        && paymentStatus == Some(IncompleteFormMessage)
        && ious == old(ious) && selectedIouId == old(selectedIouId) && view == old(view)
        && formAmount == old(formAmount) && formCounterparty == old(formCounterparty)
        && formNote == old(formNote) && formDueDate == old(formDueDate)
      ensures CreateAccepted(amount, old(formCounterparty)) ==>
        && ious == [NewIou(amount.value, old(formCounterparty), old(formNote), old(formDueDate), stamp, now)] + old(ious)
        && selectedIouId == Some(IouId(stamp)) && view == DetailView
        && formAmount == formCounterparty == formNote == formDueDate == ""
        && paymentStatus == Some(CreatedMessage)
      ensures old(Consistent()) && Find(old(ious), IouId(stamp)).None? ==> Consistent()
    {
      if CreateAccepted(amount, formCounterparty) {
        var newIou := NewIou(amount.value, formCounterparty, formNote, formDueDate, stamp, now);
        if Consistent() && Find(ious, newIou.id).None? {
          PrependKeepsConsistent(newIou, ious);
        }
        ious := [newIou] + ious;
        selectedIouId := Some(newIou.id);
        view := DetailView;
        formAmount := "";
        formCounterparty := "";
        formNote := "";
        formDueDate := "";
        paymentStatus := Some(CreatedMessage);
      } else {
        paymentStatus := Some(IncompleteFormMessage);
      }
    }

    /** `handleAcceptIou`, pressed on a card or in the detail panel: every IOU
        with the id becomes accepted, stamped `now`, with its cancellation
        stamp cleared; nothing else changes. On a consistent list this moves
        one pending IOU to accepted and keeps the list consistent. */
    method AcceptIou(id: string, now: string)
      requires AnswerOffered(id)
      modifies this`ious
      ensures ious == Rewrite(old(ious), id, Accept, now)
      ensures old(Consistent()) ==> Consistent()
      ensures old(Consistent()) ==> forall i :: 0 <= i < |ious| ==>
        ious[i] == old(ious[i]) || (old(ious[i].status) == Pending && ious[i].status == Accepted)
    {
      MoveKeepsConsistent(id, Accept, now);
      ious := Rewrite(ious, id, Accept, now);
    }

    /** `handleRejectIou`, pressed on a card or in the detail panel: every IOU
        with the id becomes cancelled, stamped `now`; its acceptance stamp and
        everything else stay. On a consistent list this moves one pending IOU
        to cancelled and keeps the list consistent. */
    method RejectIou(id: string, now: string)
      requires AnswerOffered(id)
      modifies this`ious
      ensures ious == Rewrite(old(ious), id, Reject, now)
      ensures old(Consistent()) ==> Consistent()
      ensures old(Consistent()) ==> forall i :: 0 <= i < |ious| ==>
        ious[i] == old(ious[i]) || (old(ious[i].status) == Pending && ious[i].status == Cancelled)
    {
      MoveKeepsConsistent(id, Reject, now);
      ious := Rewrite(ious, id, Reject, now);
    }

    /** On a consistent list, accepting or rejecting an id whose buttons are on
        screen is a move the detail panel offers for the IOU `find` returns,
        so it follows the status graph. */
    lemma MoveKeepsConsistent(id: string, m: Move, now: string)
      requires AnswerOffered(id) && m != Pay
      ensures Consistent() ==>
        var r := Rewrite(ious, id, m, now);
        && DistinctIds(r) && AllStamped(r)
        && forall i :: 0 <= i < |ious| ==> r[i] == ious[i] || Transition(ious[i].status, r[i].status)
    {
      if Consistent() {
        if i :| 0 <= i < |ious| && ious[i].id == id && OfferedOnCard(ious[i]) {
          FindDistinct(ious, i);
        }
        GuardedMoveFollowsGraph(ious, id, m, now);
      }
    }

    /** `handleSettleIou`, pressed in the detail panel. Messages, the payment
        timeline and the active payment are cleared; without a Pi session it
        stops there with a message and no payment. Otherwise it asks the
        provider for a payment of the IOU's amount with its memo, whose
        callbacks the returned flow holds; a payment with an identifier is
        announced, made active, logged and registered with the mock server.
        The list of IOUs is never changed here. */
    method SettleIou(iou: Iou, creation: Creation, initSync: SyncOutcome) returns (flow: PaymentFlow?)
      requires PayOffered(iou)
      modifies this`paymentStatus, this`authError, this`mockPaymentLog, this`activePaymentId, this`isPaymentLoading
      ensures authError == None && !isPaymentLoading
      ensures !old(authResult) ==>
        && flow == null && paymentStatus == Some(SignInFirstMessage)
        && mockPaymentLog == [] && activePaymentId == None
      ensures old(authResult) ==>
        && flow != null && fresh(flow)
        && flow.home == this && flow.iou == iou && flow.memo == Memo(iou) && flow.paymentIdentifier == None
      ensures old(authResult) ==> paymentStatus == match creation
        case CreationFailed(message) => Some(message)
        case Created(identifier) =>
          if !Truthy(identifier) then None
          else if initSync.SyncFailed? then Some(SyncErrorMessage(initSync.error))
          else Some("Pagamento " + identifier.value + " creato. Segui le indicazioni del server.")
      ensures old(authResult) ==>
        activePaymentId == if creation.Created? && Truthy(creation.identifier) then creation.identifier else None
      ensures old(authResult) ==>
        mockPaymentLog == if creation.Created? && Truthy(creation.identifier)
        then ["Cliente: creato " + creation.identifier.value] + SyncLog(initSync)
        else []
    {
      paymentStatus := None;
      authError := None;
      mockPaymentLog := [];
      activePaymentId := None;
      if !authResult {
        paymentStatus := Some(SignInFirstMessage);
        flow := null;
      } else {
        isPaymentLoading := true;
        flow := new PaymentFlow(this, iou);
        match creation {
          case CreationFailed(message) =>
            paymentStatus := Some(message);
          case Created(identifier) =>
            if Truthy(identifier) {
              var id := identifier.value;
              paymentStatus := Some("Pagamento " + id + " creato. Segui le indicazioni del server.");
              activePaymentId := Some(id);
              mockPaymentLog := mockPaymentLog + ["Cliente: creato " + id];
              mockPaymentLog := mockPaymentLog + SyncLog(initSync);
              if initSync.SyncFailed? {
                paymentStatus := Some(SyncErrorMessage(initSync.error));
              }
            }
        }
        isPaymentLoading := false;
      }
    }
  }

  /** One settlement started by `handleSettleIou`: the IOU as it was when pay
      was pressed, the memo sent to the provider, the identifier the callbacks
      have seen so far, and the page whose state the callbacks update. */
  class PaymentFlow {
    const home: Home
    const iou: Iou
    const memo: string
    var paymentIdentifier: Option<string>

    constructor (home: Home, iou: Iou)
      ensures this.home == home && this.iou == iou && memo == Memo(iou) && paymentIdentifier == None
    {
      this.home := home;
      this.iou := iou;
      memo := Memo(iou);
      paymentIdentifier := None;
    }

    /** `onReadyForServerApproval`: the payment becomes the active one and is
        approved with the mock server; the message says whether that worked.
        The list of IOUs is not touched. */
    method OnReadyForServerApproval(identifier: string, sync: SyncOutcome)
      modifies this`paymentIdentifier, home`activePaymentId, home`paymentStatus, home`mockPaymentLog
      ensures paymentIdentifier == Some(identifier) && home.activePaymentId == Some(identifier)
      ensures home.paymentStatus == Some(if sync.Synced? then "Pagamento " + identifier + " approvato dal server di esempio."
                                         else SyncErrorMessage(sync.error))
      ensures home.mockPaymentLog == old(home.mockPaymentLog) + SyncLog(sync)
    {
      paymentIdentifier := Some(identifier);
      home.activePaymentId := paymentIdentifier;
      home.paymentStatus := Some("Pagamenti Pi pronti: conferma dal server " + identifier + ".");
      match sync
      case Synced(_) =>
        home.mockPaymentLog := home.mockPaymentLog + SyncLog(sync);
        home.paymentStatus := Some("Pagamento " + identifier + " approvato dal server di esempio.");
      case SyncFailed(error) =>
        home.paymentStatus := Some(SyncErrorMessage(error));
    }

    /** `onReadyForServerCompletion`: the payment becomes the active one and is
        completed with the mock server. Only when that works is every IOU with
        the settled IOU's id marked paid, stamped `now`, whatever its status is
        by then; a failed completion changes no IOU. When the IOU is still
        pending or accepted, the list stays consistent. */
    method OnReadyForServerCompletion(identifier: string, sync: SyncOutcome, now: string)
      modifies this`paymentIdentifier, home`ious, home`activePaymentId, home`paymentStatus, home`mockPaymentLog
      ensures paymentIdentifier == Some(identifier) && home.activePaymentId == Some(identifier)
      ensures home.ious == if sync.Synced? then Rewrite(old(home.ious), iou.id, Pay, now) else old(home.ious)
      ensures home.paymentStatus == Some(if sync.Synced? then "IOU saldata. " + identifier + " chiuso."
                                         else SyncErrorMessage(sync.error))
      ensures home.mockPaymentLog == old(home.mockPaymentLog) + SyncLog(sync)
      ensures (old(home.Consistent()) && Find(old(home.ious), iou.id).Some?
               && CanSettle(Find(old(home.ious), iou.id).value)) ==> home.Consistent()
    {
      paymentIdentifier := Some(identifier);
      home.activePaymentId := paymentIdentifier;
      home.paymentStatus := Some("Il server pu\U{F2} chiudere il pagamento " + identifier + ".");
      match sync
      case Synced(_) =>
        home.mockPaymentLog := home.mockPaymentLog + SyncLog(sync);
        home.paymentStatus := Some("IOU saldata. " + identifier + " chiuso.");
        if home.Consistent() && Find(home.ious, iou.id).Some? && CanSettle(Find(home.ious, iou.id).value) {
          GuardedMoveFollowsGraph(home.ious, iou.id, Pay, now);
        }
        home.ious := Rewrite(home.ious, iou.id, Pay, now);
      case SyncFailed(error) =>
        home.paymentStatus := Some(SyncErrorMessage(error));
    }

    /** `onCancel`: only a message, and, when the provider names the payment,
        a cancellation sent to the mock server whose failure is ignored. */
    method OnCancel(identifier: Option<string>, sync: SyncOutcome)
      modifies home`paymentStatus, home`mockPaymentLog
      ensures home.paymentStatus == Some("Pagamento" + (if Truthy(identifier) then " " + identifier.value else "") + " annullato.")
      ensures home.mockPaymentLog == old(home.mockPaymentLog) + (if Truthy(identifier) then SyncLog(sync) else [])
    {
      var paymentId := if Truthy(identifier) then " " + identifier.value else "";
      home.paymentStatus := Some("Pagamento" + paymentId + " annullato.");
      if Truthy(identifier) {
        home.mockPaymentLog := home.mockPaymentLog + SyncLog(sync);
      }
    }

    /** `onError`: only a message naming the payment, when known, and the
        error's text. */
    method OnError(error: string, identifier: Option<string>)
      modifies home`paymentStatus
      ensures home.paymentStatus == Some("Errore" + (if Truthy(identifier) then " sul pagamento " + identifier.value else "")
                                         + ": " + error)
    {
      var paymentId := if Truthy(identifier) then " sul pagamento " + identifier.value else "";
      home.paymentStatus := Some("Errore" + paymentId + ": " + error);
    }
  }
}
