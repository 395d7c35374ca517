// The `POST /api/ious/create` handler up to the database insert: the parsed
// request body is checked and turned into the row to insert, or into a 400
// response; the database's answer then becomes a 500 or the success response.

module CreateRoute {
  import opened Js
  import Ious

  /** A value that `request.json()` can produce. An object is a map from key to
      value (a repeated key keeps its last value). */
  datatype Json =
    | JNull
    | JBool(b: bool)
    | JNum(n: Num)
    | JStr(s: string)
    | JArr(elems: seq<Json>)
    | JObj(fields: map<string, Json>)

  /** The result of a JavaScript conversion that may throw a `TypeError`. */
  datatype Coerced<T> = Value(v: T) | Thrown

  const InvalidJsonMessage: string := "Invalid JSON payload."
  const RequiredMessage: string := "pi_uid, direction, and amount are required."
  const PendingStatus: string := "pending"

  /** The property `key` of the body as destructuring reads it: only an object
      has the six keys the route asks for; `null`, the other primitives and
      arrays give `undefined`. */
  function Field(body: Json, key: string): Option<Json>
  {
    match body
    case JObj(fields) => if key in fields then Some(fields[key]) else None
    case _ => None
  }

  /** Turning `v` into a string throws somewhere: some object reached through
      arrays has its own `toString` key, which hides the callable one of the
      prototype, and `valueOf` gives no primitive either. */
  predicate ThrowsOnString(v: Json)
    decreases v
  {
    match v
    case JObj(fields) => "toString" in fields
    case JArr(xs) => exists i :: 0 <= i < |xs| && ThrowsOnString(xs[i])
    case _ => false
  }

  /** `Number(v)` on a JSON value, with `parse` the conversion of a string. An
      object gives NaN unless it has its own `toString` key, when the
      conversion throws; an array is converted through its string form, so the
      empty array is 0, a one-element array converts like its element except
      that `true` and `false` become NaN, and a longer array, whose string has
      a comma, is NaN unless an element throws. */
  function ToNumber(v: Json, parse: string -> Num): (r: Coerced<Num>)
    ensures r.Thrown? <==> ThrowsOnString(v)
    decreases v
  {
    match v
    case JNull => Value(Finite(0.0))
    case JBool(b) => Value(Finite(if b then 1.0 else 0.0))
    case JNum(n) => Value(n)
    case JStr(s) => Value(parse(s))
    case JObj(fields) => if "toString" in fields then Thrown else Value(NonFinite)
    case JArr(xs) =>
      if |xs| == 0 then Value(Finite(0.0))
      else if |xs| == 1 then
        if xs[0].JBool? then Value(NonFinite) else ToNumber(xs[0], parse)
      else if ThrowsOnString(v) then Thrown
      else Value(NonFinite)
  }

  /** `Array.prototype.join` with ",": the strings of the elements, in order,
      stopping at the first element whose conversion throws. */
  function JoinAll(ss: seq<Coerced<string>>): (r: Coerced<string>)
    ensures r.Thrown? <==> exists i :: 0 <= i < |ss| && ss[i].Thrown?
  {
    if ss == [] then Value("")
    else if ss[0].Thrown? then Thrown
    else if |ss| == 1 then ss[0]
    else
      match JoinAll(ss[1..])
      case Thrown =>
        assert exists i :: 0 <= i < |ss[1..]| && ss[1..][i].Thrown?;
        Thrown
      case Value(t) =>
        assert forall i :: 1 <= i < |ss| ==> ss[i] == ss[1..][i - 1];
        Value(ss[0].v + "," + t)
  }

  /** The string an array element turns into inside `join`, with `show` the
      string form of a Number: `null` becomes the empty string, an array its
      own joined elements, a plain object "[object Object]". */
  function ElementString(v: Json, show: Num -> string): Coerced<string>
    decreases v
  {
    match v
    case JNull => Value("")
    case JBool(b) => Value(if b then "true" else "false")
    case JNum(n) => Value(show(n))
    case JStr(s) => Value(s)
    case JArr(xs) => JoinAll(seq(|xs|, i requires 0 <= i < |xs| => ElementString(xs[i], show)))
    case JObj(fields) => if "toString" in fields then Thrown else Value("[object Object]")
  }

  /** Every Number inside `v`, reached through arrays, reads back from its
      string form as itself. */
  ghost predicate ShowsBack(v: Json, parse: string -> Num, show: Num -> string)
    decreases v
  {
    match v
    case JNum(n) => parse(show(n)) == n
    case JArr(xs) => forall i :: 0 <= i < |xs| ==> ShowsBack(xs[i], parse, show)
    case _ => true
  }

  /** What JavaScript's string-to-number conversion does with the strings
      that the conversion of an array can produce besides a Number's own
      form: the empty string reads as 0, and "true", "false",
      "[object Object]" and any string with a comma read as NaN. */
  ghost predicate NumberSyntax(parse: string -> Num)
  {
    && parse("") == Finite(0.0)
    && parse("true") == NonFinite && parse("false") == NonFinite
    && parse("[object Object]") == NonFinite
    && (forall s :: ',' in s ==> parse(s) == NonFinite)
  }

  /** Two joined strings leave a comma in the result. */
  lemma {:induction false} JoinHasComma(ss: seq<Coerced<string>>)
    requires |ss| >= 2 && JoinAll(ss).Value?
    ensures ',' in JoinAll(ss).v
  {
    var t := JoinAll(ss[1..]).v;
    assert JoinAll(ss).v == ss[0].v + "," + t;
    assert JoinAll(ss).v[|ss[0].v|] == ',';
  }

  /** An element's string conversion throws exactly where `ThrowsOnString`
      says. */
  lemma {:induction false} ElementStringThrows(v: Json, show: Num -> string)
    ensures ElementString(v, show).Thrown? <==> ThrowsOnString(v)
    decreases v
  {
    match v
    case JArr(xs) =>
      var ss := seq(|xs|, i requires 0 <= i < |xs| => ElementString(xs[i], show));
      forall i | 0 <= i < |xs| ensures ss[i].Thrown? <==> ThrowsOnString(xs[i]) {
        ElementStringThrows(xs[i], show);
      }
    case _ =>
  }

  /** The shortcut `ToNumber` takes for an array is JavaScript's own
      definition: convert the array to its string, then parse that string. */
  lemma {:induction false} ArrayNumberIsParsedString(xs: seq<Json>, parse: string -> Num, show: Num -> string)
    requires NumberSyntax(parse) && ShowsBack(JArr(xs), parse, show)
    ensures ToNumber(JArr(xs), parse) ==
      match ElementString(JArr(xs), show)
      case Thrown => Thrown
      case Value(s) => Value(parse(s))
    decreases JArr(xs)
  {
    var ss := seq(|xs|, i requires 0 <= i < |xs| => ElementString(xs[i], show));
    assert ElementString(JArr(xs), show) == JoinAll(ss);
    ElementStringThrows(JArr(xs), show);
    if |xs| == 1 {
      assert JoinAll(ss) == ss[0];
      assert ShowsBack(xs[0], parse, show);
      match xs[0]
      case JArr(ys) => ArrayNumberIsParsedString(ys, parse, show);
      case _ =>
    } else if |xs| >= 2 && JoinAll(ss).Value? {
      JoinHasComma(ss);
    }
  }

  /** The assumptions of `ArrayNumberIsParsedString` can be met: a conversion
      that reads "7" as 7, the empty string as 0 and everything else as NaN,
      with 7 printed as "7", meets them for `[7]`, which converts to 7. */
  lemma NumberSyntaxSatisfiable()
    ensures var parse := (s: string) => if s == "7" then Finite(7.0) else if s == "" then Finite(0.0) else NonFinite;
      var show := (n: Num) => if n == Finite(7.0) then "7" else "NaN";
      && NumberSyntax(parse) && ShowsBack(JArr([JNum(Finite(7.0))]), parse, show)
      && ToNumber(JArr([JNum(Finite(7.0))]), parse) == Value(Finite(7.0))
  {
    var parse := (s: string) => if s == "7" then Finite(7.0) else if s == "" then Finite(0.0) else NonFinite;
    var show := (n: Num) => if n == Finite(7.0) then "7" else "NaN";
    var xs := [JNum(Finite(7.0))];
    assert ShowsBack(xs[0], parse, show);
    forall s: string | ',' in s ensures parse(s) == NonFinite {
      assert s != "7" && s != "";
    }
  }

  /** A row for the `ious` table, as the handler builds it. */
  datatype Row = Row(
    piUid: string,
    direction: string,
    counterparty: Json,
    amount: real,
    note: Json,
    dueDate: Json,
    status: string)

  /** Where the handler stops before the database answers: a 400 response
      with its message, a `TypeError` from the amount's conversion that the
      handler does not catch, or the row to insert. */
  datatype Checked = BadRequest(message: string) | Uncaught | Insert(row: Row)

  /** `counterparty`: a string is trimmed, a missing one becomes null, any
      other value goes through as it is. */
  function CounterpartyValue(v: Option<Json>): (r: Json)
    ensures v.None? ==> r == JNull
    ensures v.Some? && v.value.JStr? ==>
      r == JStr(Trim(v.value.s)) && IsTrimmed(r.s) && (r.s == [] <==> AllSpace(v.value.s))
    ensures v.Some? && !v.value.JStr? ==> r == v.value
  {
    match v
    case None => JNull
    case Some(JStr(s)) => JStr(Trim(s))
    case Some(other) => other
  }

  /** `note`: a string is trimmed and becomes null when nothing is left, a
      missing one becomes null, any other value goes through as it is. */
  function NoteValue(v: Option<Json>): (r: Json)
    ensures v.None? ==> r == JNull
    ensures v.Some? && v.value.JStr? ==>
      if AllSpace(v.value.s) then r == JNull else r == JStr(Trim(v.value.s)) && r.s != [] && IsTrimmed(r.s)
    ensures v.Some? && !v.value.JStr? ==> r == v.value
  {
    match v
    case None => JNull
    case Some(JStr(s)) => if Trim(s) != [] then JStr(Trim(s)) else JNull
    case Some(other) => other
  }

  /** `due_date`: kept as it was sent, untrimmed, when it is a string that is
      not all white space; null otherwise. */
  function DueDateValue(v: Option<Json>): (r: Json)
    ensures r != JNull <==> v.Some? && v.value.JStr? && !AllSpace(v.value.s)
    ensures r != JNull ==> r == v.value
  {
    match v
    case Some(JStr(s)) => if Trim(s) != [] then JStr(s) else JNull
    case _ => JNull
  }

  /** The sanitised `pi_uid`: the trimmed string, or "" for any other value. */
  function PiUidValue(v: Option<Json>): (r: string)
    ensures IsTrimmed(r)
    ensures v.Some? && v.value.JStr? ==> r == Trim(v.value.s)
    ensures r != [] <==> v.Some? && v.value.JStr? && !AllSpace(v.value.s)
  {
    match v
    case Some(JStr(s)) => Trim(s)
    case _ => ""
  }

  /** The sanitised `direction`: "incoming" or "outgoing" when sent exactly,
      "" otherwise. */
  function DirectionValue(v: Option<Json>): (r: string)
    ensures r == "incoming" || r == "outgoing" || r == ""
    ensures r != "" <==> v == Some(JStr("incoming")) || v == Some(JStr("outgoing"))
    ensures r != "" ==> v == Some(JStr(r))
  {
    match v
    case Some(JStr(s)) => if s == "incoming" || s == "outgoing" then s else ""
    case _ => ""
  }

  /** The amount as a Number: a missing amount is `undefined`, which converts
      to NaN. */
  function AmountValue(v: Option<Json>, parse: string -> Num): Coerced<Num>
  {
    match v
    case None => Value(NonFinite)
    case Some(a) => ToNumber(a, parse)
  }

  /** The handler from the parsed body to the 400 response, the uncaught
      conversion error or the row to insert; `None` is a body that is not valid
      JSON. The amount is converted before anything is checked, so a
      conversion error wins over every other complaint; then a blank or
      non-string `pi_uid`, a direction other than the two, or an amount that is
      not finite is a 400. The amount's sign and the counterparty are not
      checked. */
  function Sanitize(body: Option<Json>, parse: string -> Num): (r: Checked)
    ensures body.None? ==> r == BadRequest(InvalidJsonMessage)
    ensures r.BadRequest? ==> r.message == InvalidJsonMessage || r.message == RequiredMessage
    ensures r.Insert? ==>
      && r.row.piUid != [] && IsTrimmed(r.row.piUid)
      && (r.row.direction == "incoming" || r.row.direction == "outgoing")
      && r.row.status == PendingStatus
  {
    match body
    case None => BadRequest(InvalidJsonMessage)
    case Some(b) =>
      var piUid := PiUidValue(Field(b, "pi_uid"));
      var direction := DirectionValue(Field(b, "direction"));
      var amount := AmountValue(Field(b, "amount"), parse);
      if amount.Thrown? then Uncaught
      else if piUid == [] || direction == [] || !amount.v.Finite? then BadRequest(RequiredMessage)
      else
        Insert(Row(piUid, direction, CounterpartyValue(Field(b, "counterparty")), amount.v.value,
                   NoteValue(Field(b, "note")), DueDateValue(Field(b, "due_date")), PendingStatus))
  }

  /** The body carries a `pi_uid` string that is not all white space. */
  predicate HasPiUid(b: Json)
  {
    b.JObj? && "pi_uid" in b.fields && b.fields["pi_uid"].JStr? && !AllSpace(b.fields["pi_uid"].s)
  }

  /** The body's `direction` is exactly "incoming" or "outgoing". */
  predicate HasDirection(b: Json)
  {
    b.JObj? && "direction" in b.fields
    && (b.fields["direction"] == JStr("incoming") || b.fields["direction"] == JStr("outgoing"))
  }

  /** The body's `amount` converts to a finite Number, `x`. */
  predicate HasFiniteAmount(b: Json, parse: string -> Num, x: real)
  {
    b.JObj? && "amount" in b.fields && ToNumber(b.fields["amount"], parse) == Value(Finite(x))
  }

  /** Which bodies get which answer: the conversion error exactly when an
      amount is sent whose conversion throws; a row exactly when the body has a
      usable `pi_uid` and direction and a finite amount, whatever the sign of
      the amount and whatever the counterparty; a 400 in every other case. */
  lemma SanitizeOutcomes(b: Json, parse: string -> Num)
    ensures Sanitize(Some(b), parse).Uncaught? <==>
      b.JObj? && "amount" in b.fields && ThrowsOnString(b.fields["amount"])
    ensures Sanitize(Some(b), parse).Insert? <==>
      HasPiUid(b) && HasDirection(b) && exists x :: HasFiniteAmount(b, parse, x)
    ensures forall x :: HasFiniteAmount(b, parse, x) && HasPiUid(b) && HasDirection(b) ==>
      Sanitize(Some(b), parse).Insert? && Sanitize(Some(b), parse).row.amount == x
  {
    var r := Sanitize(Some(b), parse);
    if HasPiUid(b) && HasDirection(b) && r.Insert? {
      assert HasFiniteAmount(b, parse, r.row.amount);
    }
  }

  /** The row's fields, each as the route sanitises it: the trimmed `pi_uid`,
      the direction as sent, the finite amount, the counterparty, note and due
      date by their rules, and a pending status. */
  lemma InsertedRow(b: Json, parse: string -> Num)
    requires Sanitize(Some(b), parse).Insert?
    ensures var row := Sanitize(Some(b), parse).row;
      && b.JObj?
      && row.piUid == Trim(b.fields["pi_uid"].s)
      && Field(b, "direction") == Some(JStr(row.direction))
      && ToNumber(b.fields["amount"], parse) == Value(Finite(row.amount))
      && row.counterparty == CounterpartyValue(Field(b, "counterparty"))
      && row.note == NoteValue(Field(b, "note"))
      && row.dueDate == DueDateValue(Field(b, "due_date"))
      && row.status == PendingStatus
  {
  }

  /** The row sent back as a request body, with its amount as a JSON number. */
  function RowBody(row: Row): (r: Json)
    ensures r.JObj? && r.fields.Keys ==
      {"pi_uid", "direction", "counterparty", "amount", "note", "due_date", "status"}
  {
    JObj(map["pi_uid" := JStr(row.piUid), "direction" := JStr(row.direction),
             "counterparty" := row.counterparty, "amount" := JNum(Finite(row.amount)),
             "note" := row.note, "due_date" := row.dueDate, "status" := JStr(row.status)])
  }

  /** Each field rule, applied to its own output, gives that output back. */
  lemma FieldRulesStable(v: Option<Json>)
    ensures CounterpartyValue(Some(CounterpartyValue(v))) == CounterpartyValue(v)
    ensures NoteValue(Some(NoteValue(v))) == NoteValue(v)
    ensures DueDateValue(Some(DueDateValue(v))) == DueDateValue(v)
    ensures PiUidValue(v) != [] ==> PiUidValue(Some(JStr(PiUidValue(v)))) == PiUidValue(v)
  {
    if v.Some? && v.value.JStr? {
      TrimIdempotent(v.value.s);
    }
  }

  /** Sanitising is idempotent: a row the route builds, posted again, passes
      and builds the same row. */
  lemma ResanitizeRow(b: Json, parse: string -> Num)
    requires Sanitize(Some(b), parse).Insert?
    ensures var row := Sanitize(Some(b), parse).row;
      Sanitize(Some(RowBody(row)), parse) == Insert(row)
  {
    var row := Sanitize(Some(b), parse).row;
    FieldRulesStable(Field(b, "pi_uid"));
    FieldRulesStable(Field(b, "counterparty"));
    FieldRulesStable(Field(b, "note"));
    FieldRulesStable(Field(b, "due_date"));
    var rb := RowBody(row);
    assert Field(rb, "pi_uid") == Some(JStr(row.piUid));
    assert Field(rb, "direction") == Some(JStr(row.direction));
    assert Field(rb, "amount") == Some(JNum(Finite(row.amount)));
    assert Field(rb, "counterparty") == Some(row.counterparty);
    assert Field(rb, "note") == Some(row.note);
    assert Field(rb, "due_date") == Some(row.dueDate);
  }

  /** The route is laxer than the page's form: a zero amount with no
      counterparty, which the form refuses, is inserted. */
  lemma RouteLaxerThanForm(parse: string -> Num)
    ensures !Ious.CreateAccepted(Finite(0.0), "")
    ensures Sanitize(Some(JObj(map["pi_uid" := JStr(" u "), "direction" := JStr("outgoing"),
                                   "amount" := JNum(Finite(0.0))])), parse)
      == Insert(Row("u", "outgoing", JNull, 0.0, JNull, JNull, PendingStatus))
  {
    var b := JObj(map["pi_uid" := JStr(" u "), "direction" := JStr("outgoing"),
                      "amount" := JNum(Finite(0.0))]);
    assert Field(b, "pi_uid") == Some(JStr(" u "));
    assert TrimStart(" u ") == "u ";
    assert TrimEnd("u ") == "u";
    assert Field(b, "counterparty") == None;
    assert Field(b, "note") == None;
    assert Field(b, "due_date") == None;
  }

  /** What the insert returned: the stored row, or an error with a message. */
  datatype InsertResult = Inserted(data: Json) | InsertFailed(message: string)

  /** An HTTP response with a JSON body, or the framework's answer to an
      exception the handler let escape. */
  datatype Response = Reply(status: nat, payload: Json) | Crashed

  function ErrorBody(message: string): Json
  {
    JObj(map["error" := JStr(message)])
  }

  /** `POST`: a 400 with the sanitiser's message, a 500 with the database's
      message when the insert fails, or the stored row with status 200. The
      database is consulted only for a sanitised row. */
  function Post(body: Option<Json>, parse: string -> Num, insert: InsertResult): (r: Response)
    ensures r.Crashed? <==> Sanitize(body, parse).Uncaught?
    ensures r.Reply? && r.status == 400 <==> Sanitize(body, parse).BadRequest?
    ensures Sanitize(body, parse).BadRequest? ==> r.payload == ErrorBody(Sanitize(body, parse).message)
    ensures Sanitize(body, parse).Insert? ==>
      r == if insert.InsertFailed? then Reply(500, ErrorBody(insert.message)) else Reply(200, insert.data)
  {
    match Sanitize(body, parse)
    case BadRequest(message) => Reply(400, ErrorBody(message))
    case Uncaught => Crashed
    case Insert(_) =>
      match insert
      case InsertFailed(message) => Reply(500, ErrorBody(message))
      case Inserted(data) => Reply(200, data)
  }

  /** A body that is not JSON gets a 400 "Invalid JSON payload." whatever the
      database would have said. */
  lemma InvalidJsonIs400(parse: string -> Num, insert: InsertResult)
    ensures Post(None, parse, insert) == Reply(400, ErrorBody(InvalidJsonMessage))
  {
  }
}
