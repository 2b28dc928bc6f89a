/** The stored tables, the events whose handlers have not run yet, and the
    repository queries and updates over them.  Rows are kept in insertion order. */
module Tables {
  import opened Domain
  import opened Timeline

  /** Everything the pipeline changes.  Ingested events are kept in publish
      order; the other two kinds carry nothing that depends on order. */
  datatype State = State(
    activities: seq<Activity>,
    nextId: ActivityId,
    emissions: map<ActivityId, int>,
    dailies: map<DayKey, Summary>,
    weeklies: map<DayKey, Summary>,
    monthlies: map<MonthKey, Summary>,
    ingested: seq<Payload>,
    calculated: multiset<DayKey>,
    notices: multiset<Notice>,
    // history, not stored: the last ingested payload published for each activity
    published: map<ActivityId, Payload>
  )

  const INITIAL := State([], 0, map[], map[], map[], map[], [], multiset{}, multiset{}, map[])

  // ----- finding rows -----

  function IndexOf(rows: seq<Activity>, id: ActivityId): (r: Option<nat>)
    ensures r.Some? ==> r.value < |rows| && rows[r.value].id == id
    ensures r.None? ==> forall i :: 0 <= i < |rows| ==> rows[i].id != id
  {
    if rows == [] then None
    else if rows[|rows| - 1].id == id then Some(|rows| - 1)
    else IndexOf(rows[..|rows| - 1], id)
  }

  /** The row with this id if it belongs to the user. */
  function FindById(rows: seq<Activity>, id: ActivityId, user: UserId): (r: Option<nat>)
    ensures r.Some? ==> r.value < |rows| && rows[r.value].id == id && rows[r.value].user == user
  {
    var i := IndexOf(rows, id);
    if i.Some? && rows[i.value].user == user then i else None
  }

  predicate ExistsByKey(rows: seq<Activity>, key: Key) {
    exists i :: 0 <= i < |rows| && rows[i].key == key
  }

  predicate ExistsByReceiptId(rows: seq<Activity>, receiptId: string) {
    exists i :: 0 <= i < |rows| && rows[i].receiptId == Some(receiptId)
  }

  function FindByReceiptId(rows: seq<Activity>, receiptId: string): (r: Option<nat>)
    ensures r.Some? <==> ExistsByReceiptId(rows, receiptId)
    ensures r.Some? ==> r.value < |rows| && rows[r.value].receiptId == Some(receiptId)
  {
    if rows == [] then None
    else if rows[|rows| - 1].receiptId == Some(receiptId) then Some(|rows| - 1)
    else FindByReceiptId(rows[..|rows| - 1], receiptId)
  }

  // ----- the candidate query -----

  const BUFFER := 15 * 60
  const LOOK_BACK := 24 * 60 * 60

  /** Which of a user's rows are fetched: those near a time window, or all of them. */
  datatype Query = Window(user: UserId, from: Instant, until: Instant) | AllOf(user: UserId)

  predicate Selects(q: Query, a: Activity) {
    match q
    case AllOf(user) => a.user == user
    case Window(user, from, until) =>
      && a.user == user
      && a.startedAt <= until + BUFFER
      && if a.endedAt.None? then a.startedAt >= from - LOOK_BACK else a.endedAt.value >= from - BUFFER
  }

  function Select(q: Query, rows: seq<Activity>): seq<Activity> {
    if rows == [] then []
    else
      var a := rows[|rows| - 1];
      Select(q, rows[..|rows| - 1]) + if Selects(q, a) then [a] else []
  }

  // ----- updating rows -----

  /** The fields a merge may write; "" and None leave a column as it is. */
  datatype Enrichment = Enrichment(
    receiptId: string,
    provider: string,
    origin: string,
    destination: string,
    displayOrigin: Option<string>,
    displayDestination: Option<string>,
    fareAmount: Option<int>,
    fareCurrency: Option<string>,
    distance: Option<int>,
    duration: Option<int>,
    originLat: Option<real>,
    originLng: Option<real>,
    destLat: Option<real>,
    destLng: Option<real>,
    matchConfidence: nat
  )

  function NonEmpty(text: string): Option<string> {
    if text == "" then None else Some(text)
  }

  function Enrich(a: Activity, e: Enrichment): Activity {
    a.(source := GpsReceipt,
       matchConfidence := Some(e.matchConfidence),
       receiptId := NonEmpty(e.receiptId).Or(a.receiptId),
       provider := NonEmpty(e.provider).Or(a.provider),
       origin := NonEmpty(e.origin).Or(a.origin),
       destination := NonEmpty(e.destination).Or(a.destination),
       displayOrigin := e.displayOrigin.Or(a.displayOrigin),
       displayDestination := e.displayDestination.Or(a.displayDestination),
       fareAmount := e.fareAmount.Or(a.fareAmount),
       fareCurrency := e.fareCurrency.Or(a.fareCurrency),
       distance := e.distance.Or(a.distance),
       duration := e.duration.Or(a.duration),
       originLat := e.originLat.Or(a.originLat),
       originLng := e.originLng.Or(a.originLng),
       destLat := e.destLat.Or(a.destLat),
       destLng := e.destLng.Or(a.destLng))
  }

  /** Sets the route labels of a row that has neither. */
  function BackfillLabels(a: Activity, origin: string, destination: string): Activity {
    if a.origin.Some? || a.destination.Some? then a
    else a.(origin := NonEmpty(origin), destination := NonEmpty(destination))
  }

  /** Sets the display addresses that are still missing. */
  function BackfillDisplay(a: Activity, displayOrigin: Option<string>, displayDestination: Option<string>): Activity {
    a.(displayOrigin := a.displayOrigin.Or(displayOrigin),
      displayDestination := a.displayDestination.Or(displayDestination))
  }

  function SetStatus(rows: seq<Activity>, id: ActivityId, status: Status): seq<Activity> {
    match IndexOf(rows, id)
    case None => rows
    case Some(i) => rows[i := rows[i].(status := status)]
  }

  function Without<T>(s: seq<T>, i: nat): seq<T>
    requires i < |s|
  {
    s[..i] + s[i + 1..]
  }

  // ----- publishing -----

  /** The event that asks for an activity to be priced again. */
  function PayloadOf(a: Activity, fuel: Option<string>): Payload {
    Payload(a.id, a.user, a.activityType, a.mode, a.distance, a.energy, fuel, a.startedAt, a.day)
  }

  function PublishIngested(s: State, p: Payload): State {
    s.(ingested := s.ingested + [p], published := s.published[p.activity := p])
  }

  function PublishCalculated(s: State, k: DayKey): State {
    s.(calculated := s.calculated + multiset{k})
  }
}
