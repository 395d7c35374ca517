// The IOU record of the home page, its status graph, the conditions under
// which the page shows the accept, reject and pay buttons, and the pure list
// rewrites that the page's handlers apply to the list of IOUs.

module Ious {
  import opened Js

  datatype Status = Pending | Accepted | Paid | Cancelled

  /** Outgoing: the owner owes the counterparty; incoming: the counterparty
      owes the owner. */
  datatype Direction = Outgoing | Incoming

  /** One IOU as the page keeps it. Timestamps are ISO strings; an absent
      optional field is `undefined` in the source. */
  datatype Iou = Iou(
    id: string,
    amount: real,
    counterparty: string,
    note: Option<string>,
    dueDate: Option<string>,
    status: Status,
    direction: Direction,
    createdAt: string,
    acceptedAt: Option<string>,
    paidAt: Option<string>,
    cancelledAt: Option<string>)

  /** The moves the page's buttons can make: pending to accepted or cancelled,
      and pending or accepted to paid. */
  predicate Transition(from: Status, to: Status)
    ensures Transition(from, to) ==> from != to && to != Pending && (from == Pending || from == Accepted)
  {
    match from
    case Pending => to == Accepted || to == Cancelled || to == Paid
    case Accepted => to == Paid
    case Paid => false
    case Cancelled => false
  }

  /** Paid and cancelled are the statuses with no move out of them. */
  predicate IsTerminal(s: Status)
    ensures IsTerminal(s) <==> forall t :: !Transition(s, t)
  {
    assert s == Pending ==> Transition(s, Accepted);
    assert s == Accepted ==> Transition(s, Paid);
    s == Paid || s == Cancelled
  }

  /** The timestamps agree with the status: each status other than pending
      carries the stamp of the move that reached it, and no IOU is stamped
      both paid and cancelled. */
  predicate Stamped(iou: Iou)
  {
    match iou.status
    case Pending => iou.acceptedAt.None? && iou.paidAt.None? && iou.cancelledAt.None?
    case Accepted => iou.acceptedAt.Some? && iou.paidAt.None? && iou.cancelledAt.None?
    case Paid => iou.paidAt.Some? && iou.cancelledAt.None?
    case Cancelled => iou.cancelledAt.Some? && iou.paidAt.None?
  }

  predicate AllStamped(s: seq<Iou>)
  {
    forall i :: 0 <= i < |s| ==> Stamped(s[i])
  }

  /** No two IOUs of the list share an id. */
  predicate DistinctIds(s: seq<Iou>)
  {
    forall i, j :: 0 <= i < j < |s| ==> s[i].id != s[j].id
  }

  /** A list card shows "Accetta IOU" and "Rifiuta" only for a pending,
      incoming IOU. */
  predicate OfferedOnCard(iou: Iou)
    ensures OfferedOnCard(iou) ==> CanAcceptOrReject(iou)
  {
    iou.status == Pending && iou.direction == Incoming
  }

  /** The detail panel shows accept and reject only for a pending IOU. */
  predicate CanAcceptOrReject(iou: Iou)
    ensures CanAcceptOrReject(iou) <==> Transition(iou.status, Accepted) && Transition(iou.status, Cancelled)
  {
    iou.status == Pending
  }

  /** The detail panel shows "Paga in Pi" only for an accepted or pending IOU. */
  predicate CanSettle(iou: Iou)
    ensures CanSettle(iou) <==> Transition(iou.status, Paid)
  {
    iou.status == Accepted || iou.status == Pending
  }

  /** What a handler does to the one IOU it rewrites: accept, reject, or the
      payment-completion callback's mark-as-paid. */
  datatype Move = Accept | Reject | Pay

  /** The detail panel offers the button of `m` for `iou`. */
  predicate Offered(m: Move, iou: Iou)
  {
    if m == Pay then CanSettle(iou) else CanAcceptOrReject(iou)
  }

  /** The terms of an IOU, which no handler changes: everything but the status
      and the accepted, paid and cancelled stamps. */
  predicate SameTerms(a: Iou, b: Iou)
  {
    && a.id == b.id && a.amount == b.amount && a.counterparty == b.counterparty
    && a.note == b.note && a.dueDate == b.dueDate && a.direction == b.direction
    && a.createdAt == b.createdAt
  }

  /** The object spread `{...iou, status: …, …Stamp: now}` of a handler. A move
      never changes the terms; accept sets the accepted stamp and clears the
      cancelled one, reject sets the cancelled stamp, pay sets the paid stamp,
      and every other stamp is kept. A move whose button is offered follows
      the status graph and keeps the stamps consistent with the status. */
  function Apply(m: Move, iou: Iou, now: string): (r: Iou)
    ensures SameTerms(iou, r)
    ensures r.status == match m case Accept => Accepted case Reject => Cancelled case Pay => Paid
    ensures m == Accept ==> r.acceptedAt == Some(now) && r.cancelledAt == None && r.paidAt == iou.paidAt
    ensures m == Reject ==> r.cancelledAt == Some(now) && r.acceptedAt == iou.acceptedAt && r.paidAt == iou.paidAt
    ensures m == Pay ==> r.paidAt == Some(now) && r.acceptedAt == iou.acceptedAt && r.cancelledAt == iou.cancelledAt
    ensures Offered(m, iou) ==> Transition(iou.status, r.status)
    ensures Offered(m, iou) && Stamped(iou) ==> Stamped(r)
  {
    match m
    case Accept => iou.(status := Accepted, acceptedAt := Some(now), cancelledAt := None)
    case Reject => iou.(status := Cancelled, cancelledAt := Some(now))
    case Pay => iou.(status := Paid, paidAt := Some(now))
  }

  /** `previous.map(iou => iou.id === id ? {...} : iou)`: every IOU whose id
      matches is rewritten by the move, every other IOU is kept as it is, and
      the length and order of the list are unchanged. */
  function Rewrite(s: seq<Iou>, id: string, m: Move, now: string): (r: seq<Iou>)
    ensures |r| == |s|
    ensures forall i :: 0 <= i < |s| ==>
      r[i] == if s[i].id == id then Apply(m, s[i], now) else s[i]
  {
    if s == [] then []
    else [if s[0].id == id then Apply(m, s[0], now) else s[0]] + Rewrite(s[1..], id, m, now)
  }

  /** The index of the first IOU with the given id, or the length of the list
      when there is none. */
  function FirstIndex(s: seq<Iou>, id: string): (k: nat)
    ensures k <= |s|
    ensures forall j :: 0 <= j < k ==> s[j].id != id
    ensures k < |s| ==> s[k].id == id
  {
    if s == [] then 0
    else if s[0].id == id then 0
    else 1 + FirstIndex(s[1..], id)
  }

  /** `ious.find(iou => iou.id === id)`: the first IOU with that id, absent
      exactly when no IOU has it. */
  function Find(s: seq<Iou>, id: string): (r: Option<Iou>)
    ensures r.None? <==> forall i :: 0 <= i < |s| ==> s[i].id != id
    ensures r.Some? ==> r.value in s && r.value.id == id
    ensures r.Some? ==> exists k :: 0 <= k < |s| && r.value == s[k] && forall j :: 0 <= j < k ==> s[j].id != id
  {
    var k := FirstIndex(s, id);
    if k < |s| then Some(s[k]) else None
  }

  /** In a list without repeated ids, `find` by an IOU's id returns that IOU. */
  lemma FindDistinct(s: seq<Iou>, i: nat)
    requires DistinctIds(s) && i < |s|
    ensures Find(s, s[i].id) == Some(s[i])
  {
    var k := FirstIndex(s, s[i].id);
    assert k <= i;
  }

  /** Two lists with the same ids at the same places have the same first
      index for every id. */
  lemma {:induction false} FirstIndexSameIds(s: seq<Iou>, t: seq<Iou>, id: string)
    requires |s| == |t|
    requires forall i :: 0 <= i < |s| ==> s[i].id == t[i].id
    ensures FirstIndex(s, id) == FirstIndex(t, id)
  {
    if s != [] && s[0].id != id {
      FirstIndexSameIds(s[1..], t[1..], id);
    }
  }

  /** After a rewrite, `find` by the rewritten id sees the moved IOU and `find`
      by any other id sees what it saw before. */
  lemma FindAfterRewrite(s: seq<Iou>, id: string, m: Move, now: string, x: string)
    ensures Find(Rewrite(s, id, m, now), x) ==
      match Find(s, x)
      case None => None
      case Some(e) => Some(if x == id then Apply(m, e, now) else e)
  {
    FirstIndexSameIds(s, Rewrite(s, id, m, now), x);
  }

  /** Rewriting an id that no IOU has leaves the list unchanged. */
  lemma RewriteUnknownId(s: seq<Iou>, id: string, m: Move, now: string)
    requires Find(s, id).None?
    ensures Rewrite(s, id, m, now) == s
  {
  }

  /** A move whose button the detail panel offers, on a list without repeated
      ids, moves only the IOU shown, along the status graph; it keeps the ids
      distinct and the stamps consistent. */
  lemma GuardedMoveFollowsGraph(s: seq<Iou>, id: string, m: Move, now: string)
    requires DistinctIds(s)
    requires Find(s, id).Some? && Offered(m, Find(s, id).value)
    ensures var r := Rewrite(s, id, m, now);
      && DistinctIds(r)
      && (forall i :: 0 <= i < |s| ==> r[i] == s[i] || Transition(s[i].status, r[i].status))
      && (AllStamped(s) ==> AllStamped(r))
  {
    var r := Rewrite(s, id, m, now);
    forall i | 0 <= i < |s| && s[i].id == id
      ensures Offered(m, s[i])
    {
      FindDistinct(s, i);
    }
    forall i | 0 <= i < |s|
      ensures r[i] == s[i] || Transition(s[i].status, r[i].status)
      ensures Stamped(s[i]) && s[i].id == id ==> Stamped(r[i])
      ensures r[i].id == s[i].id
    {
      if s[i].id == id {
        assert Offered(m, s[i]);
      }
    }
  }

  /** Putting an IOU whose id is new and whose stamps agree with its status in
      front of a list keeps the ids distinct and the stamps consistent. */
  lemma PrependKeepsConsistent(n: Iou, s: seq<Iou>)
    requires Find(s, n.id).None? && Stamped(n)
    requires DistinctIds(s) && AllStamped(s)
    ensures DistinctIds([n] + s) && AllStamped([n] + s)
  {
    var r := [n] + s;
    forall i, j | 0 <= i < j < |r| ensures r[i].id != r[j].id {
      assert r[j] == s[j - 1];
      if i > 0 {
        assert r[i] == s[i - 1];
      }
    }
  }

  /** What a user can do on the page, one step at a time: create an IOU, or
      press a button of the detail panel for the IOU with the given id (for
      pay: with the payment completing before anything else happens). */
  datatype UiEvent = Created(iou: Iou) | Pressed(m: Move, id: string, now: string)

  /** One event: a created IOU goes in front; a press rewrites the list only
      when the button is on screen, which it is not otherwise. */
  function Step(s: seq<Iou>, e: UiEvent): seq<Iou>
  {
    match e
    case Created(n) => [n] + s
    case Pressed(m, id, now) =>
      if Find(s, id).Some? && Offered(m, Find(s, id).value) then Rewrite(s, id, m, now) else s
  }

  function Replay(s: seq<Iou>, evs: seq<UiEvent>): seq<Iou>
    decreases |evs|
  {
    if evs == [] then s else Replay(Step(s, evs[0]), evs[1..])
  }

  /** Every IOU created during the events has an id not yet in the list. */
  predicate FreshCreates(s: seq<Iou>, evs: seq<UiEvent>)
    decreases |evs|
  {
    evs == [] ||
    ((evs[0].Created? ==> Find(s, evs[0].iou.id).None?) && FreshCreates(Step(s, evs[0]), evs[1..]))
  }

  /** One event keeps the ids distinct when what it creates is fresh, and it
      never changes an IOU that is paid or cancelled. */
  lemma StepKeepsTerminal(s: seq<Iou>, e: UiEvent, id: string)
    requires DistinctIds(s)
    requires e.Created? ==> Find(s, e.iou.id).None?
    requires Find(s, id).Some? && IsTerminal(Find(s, id).value.status)
    ensures DistinctIds(Step(s, e))
    ensures Find(Step(s, e), id) == Find(s, id)
  {
    match e
    case Created(n) =>
      assert n.id != id;
      assert FirstIndex([n] + s, id) == 1 + FirstIndex(s, id);
      forall i, j | 0 <= i < j < |[n] + s| ensures ([n] + s)[i].id != ([n] + s)[j].id {
        if i > 0 {
          assert ([n] + s)[i] == s[i - 1];
        }
      }
    case Pressed(m, x, now) =>
      if Find(s, x).Some? && Offered(m, Find(s, x).value) {
        GuardedMoveFollowsGraph(s, x, m, now);
        FindAfterRewrite(s, x, m, now, id);
      }
  }

  /** Paid and cancelled are final: on a list without repeated ids, no
      sequence of creations with fresh ids and of button presses changes an
      IOU that is paid or cancelled. */
  lemma {:induction false} TerminalIsFinal(s: seq<Iou>, evs: seq<UiEvent>, id: string)
    requires DistinctIds(s) && FreshCreates(s, evs)
    requires Find(s, id).Some? && IsTerminal(Find(s, id).value.status)
    ensures Find(Replay(s, evs), id) == Find(s, id)
    decreases |evs|
  {
    if evs != [] {
      StepKeepsTerminal(s, evs[0], id);
      TerminalIsFinal(Step(s, evs[0]), evs[1..], id);
    }
  }

  /** The completion callback does not look at the status it overwrites: a
      rejection that lands between pressing pay and the completion turns a
      cancelled IOU into a paid one, a move outside the status graph that
      leaves the IOU stamped both cancelled and paid. */
  lemma CompletionAfterRejection(iou: Iou, rejectedAt: string, paidAt: string)
    requires iou.status == Pending
    ensures var rejected := Rewrite([iou], iou.id, Reject, rejectedAt);
      var paid := Rewrite(rejected, iou.id, Pay, paidAt);
      && rejected[0].status == Cancelled && paid[0].status == Paid
      && !Transition(rejected[0].status, paid[0].status) && !Stamped(paid[0])
  {
  }

  /** The completion callback does not look at the status either when the IOU
      is already paid: a second completion for the same IOU stamps it paid again
      with the later time. It comes from a second press of pay made after the
      first payment was created (the button is enabled again then) and before
      the first completion arrives, or from a repeated callback. */
  lemma RepeatedCompletionRestamps(iou: Iou, firstAt: string, secondAt: string)
    requires iou.status == Pending && firstAt != secondAt
    ensures var once := Rewrite([iou], iou.id, Pay, firstAt);
      var twice := Rewrite(once, iou.id, Pay, secondAt);
      && once[0].status == Paid && once[0].paidAt == Some(firstAt)
      && twice[0].status == Paid && twice[0].paidAt == Some(secondAt) && twice != once
  {
    var once := Rewrite([iou], iou.id, Pay, firstAt);
    var twice := Rewrite(once, iou.id, Pay, secondAt);
    assert twice[0].paidAt != once[0].paidAt;
  }

  /** The id the page gives a new IOU: `iou-${Date.now()}`. */
  function IouId(stamp: nat): (r: string)
    ensures |r| > 4 && r[..4] == "iou-" && IsDigits(r[4..]) && DigitsValue(r[4..]) == stamp
  {
    var r := "iou-" + Decimal(stamp);
    assert r[4..] == Decimal(stamp);
    DecimalRoundTrip(stamp);
    r
  }

  /** IOUs created at different milliseconds get different ids. */
  lemma IouIdInjective(a: nat, b: nat)
    requires IouId(a) == IouId(b)
    ensures a == b
  {
    assert Decimal(a) == IouId(a)[4..];
    assert Decimal(b) == IouId(b)[4..];
    DecimalInjective(a, b);
  }

  /** The creation form is accepted: a finite amount above zero and a
      counterparty that is not blank, that is, whose trim is not empty. */
  predicate CreateAccepted(amount: Num, counterparty: string)
    ensures CreateAccepted(amount, counterparty) <==>
      amount.Finite? && amount.value > 0.0 && Trim(counterparty) != []
  {
    amount.Finite? && amount.value > 0.0 && !AllSpace(counterparty)
  }

  /** `formNote.trim() || undefined`: the trimmed note, absent exactly when
      it is empty after trimming. */
  function OptionalNote(note: string): (r: Option<string>)
    ensures r.None? <==> AllSpace(note)
    ensures r.Some? ==> r.value == Trim(note) && r.value != [] && IsTrimmed(r.value)
  {
    var n := Trim(note);
    if n != [] then Some(n) else None
  }

  /** The IOU the creation form builds: pending and outgoing, with no stamp but
      its creation time, a trimmed counterparty, a note only when its trim is
      not empty and a due date only when the field is not empty. */
  function NewIou(amount: real, counterparty: string, note: string, dueDate: string,
                  stamp: nat, now: string): (r: Iou)
    requires CreateAccepted(Finite(amount), counterparty)
    ensures r.id == IouId(stamp) && r.amount == amount && r.createdAt == now
    ensures r.status == Pending && r.direction == Outgoing && Stamped(r)
    ensures r.counterparty == Trim(counterparty) && r.counterparty != [] && IsTrimmed(r.counterparty)
    ensures r.note == OptionalNote(note)
    ensures r.dueDate.None? <==> dueDate == []
    ensures r.dueDate.Some? ==> r.dueDate.value == dueDate
  {
    var c := Trim(counterparty);
    var due := if dueDate != [] then Some(dueDate) else None;
    Iou(IouId(stamp), amount, c, OptionalNote(note), due, Pending, Outgoing, now, None, None, None)
  }

  const MemoPrefix: string := "Pagamento IOU per "

  /** The memo sent with a payment: the prefix, the counterparty, then
      ": " and the note when the note is present and not empty. */
  function Memo(iou: Iou): (r: string)
    ensures |r| == |MemoPrefix| + |iou.counterparty|
                   + if iou.note.Some? && iou.note.value != "" then 2 + |iou.note.value| else 0
  {
    var tail := if iou.note.Some? && iou.note.value != "" then ": " + iou.note.value else "";
    MemoPrefix + iou.counterparty + tail
  }

  /** The memo names the counterparty right after the prefix, and goes on
      past it exactly when the IOU has a non-empty note, which then closes the
      memo. */
  lemma MemoParts(iou: Iou)
    ensures var r := Memo(iou); var k := |MemoPrefix| + |iou.counterparty|;
      && k <= |r| && r[..|MemoPrefix|] == MemoPrefix && r[|MemoPrefix|..k] == iou.counterparty
      && (k < |r| <==> iou.note.Some? && iou.note.value != "")
      && (k < |r| ==> r[k..k + 2] == ": " && r[k + 2..] == iou.note.value)
  {
    var r := Memo(iou);
    var k := |MemoPrefix| + |iou.counterparty|;
    assert r[..|MemoPrefix|] == MemoPrefix;
    assert r[|MemoPrefix|..k] == iou.counterparty;
    if iou.note.Some? && iou.note.value != "" {
      assert r[k..] == ": " + iou.note.value;
      assert r[k..k + 2] == ": ";
    }
  }

  /** The three sample IOUs the page starts with; the timestamps, which the
      source computes from the clock, are parameters. They have distinct ids
      and stamps consistent with their statuses. */
  function Placeholders(dueDate1: string, created1: string, created2: string, accepted2: string,
                        created3: string, accepted3: string, paid3: string): (r: seq<Iou>)
    ensures |r| == 3 && r[0].id == "iou-1"
    ensures DistinctIds(r) && AllStamped(r)
  {
    [ Iou("iou-1", 10.0, "Luca", Some("Cena di ieri"), Some(dueDate1), Pending, Outgoing,
          created1, None, None, None),
      Iou("iou-2", 6.0, "Sara", Some("Biglietti"), None, Accepted, Incoming,
          created2, Some(accepted2), None, None),
      Iou("iou-3", 3.5, "Mauro", Some("Prestito"), None, Paid, Outgoing,
          created3, Some(accepted3), Some(paid3), None) ]
  }
}
