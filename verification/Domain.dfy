/** The records that every part of the pipeline shares.

    Instants are whole seconds since the Unix epoch, days are day numbers since
    1970-01-01, durations are whole minutes.  Distances are whole metres and
    energies whole watt-hours, the resolution of the NUMERIC(10,3) columns.
    Match confidences are thousandths, the resolution of NUMERIC(4,3). */
module Domain {

  datatype Option<T> = None | Some(value: T) {
    function Or(other: Option<T>): Option<T> {
      if Some? then this else other
    }
  }

  type UserId = int
  type ActivityId = nat
  type Day = int
  type Instant = int

  /** A summary is stored per user and day. */
  datatype DayKey = DayKey(user: UserId, day: Day)

  datatype ActivityType = Transport | Flight | Energy | Food

  datatype Source = Manual | Gps | GpsReceipt | Uber | Ola | Rapido | NammaYatri | Gmail | HealthKit

  datatype Status = Pending | Processed | Failed | Skipped

  /** An idempotency key is either given by the caller or derived from stable
      fields; the digest of those fields is taken to be injective. */
  datatype Key =
    | Given(text: string)
    | Derived(user: UserId, source: Source, provider: string, startedAt: Instant, mode: string)

  /** A row of the activities table. */
  datatype Activity = Activity(
    id: ActivityId,
    user: UserId,
    activityType: ActivityType,
    mode: Option<string>,
    distance: Option<int>,
    energy: Option<int>,
    duration: Option<int>,
    source: Source,
    provider: Option<string>,
    startedAt: Instant,
    endedAt: Option<Instant>,
    day: Day,
    key: Key,
    status: Status,
    origin: Option<string>,
    destination: Option<string>,
    displayOrigin: Option<string>,
    displayDestination: Option<string>,
    originLat: Option<real>,
    originLng: Option<real>,
    destLat: Option<real>,
    destLng: Option<real>,
    receiptId: Option<string>,
    fareAmount: Option<int>,
    fareCurrency: Option<string>,
    matchConfidence: Option<nat>
  )

  /** What a caller hands to Ingest and IngestWithDedup.  The offset is the one
      the user's time zone has at startedAt (zero for an unknown zone). */
  datatype IngestInput = IngestInput(
    user: UserId,
    activityType: ActivityType,
    mode: Option<string>,
    distance: Option<int>,
    energy: Option<int>,
    fuel: Option<string>,
    duration: Option<int>,
    source: Source,
    provider: Option<string>,
    startedAt: Instant,
    endedAt: Option<Instant>,
    utcOffset: int,
    key: string,
    origin: Option<string>,
    destination: Option<string>,
    displayOrigin: Option<string>,
    displayDestination: Option<string>,
    originLat: Option<real>,
    originLng: Option<real>,
    destLat: Option<real>,
    destLng: Option<real>,
    receiptId: Option<string>,
    fareAmount: Option<int>,
    fareCurrency: Option<string>
  )

  /** What an update may change; absent fields stay as they are. */
  datatype UpdateInput = UpdateInput(
    mode: Option<string>,
    distance: Option<int>,
    energy: Option<int>,
    fuel: Option<string>,
    duration: Option<int>,
    startedAt: Option<Instant>,
    utcOffset: int
  )

  /** The payload of an activity.ingested event. */
  datatype Payload = Payload(
    activity: ActivityId,
    user: UserId,
    activityType: ActivityType,
    mode: Option<string>,
    distance: Option<int>,
    energy: Option<int>,
    fuel: Option<string>,
    startedAt: Instant,
    day: Day
  )

  /** The payload of an activity.possible_duplicate event. */
  datatype Notice = Notice(activity: ActivityId, user: UserId, confidence: nat)

  const SECONDS_PER_DAY := 86400

  /** The calendar day an instant falls on at a given offset from UTC. */
  function LocalDate(t: Instant, utcOffset: int): Day {
    (t + utcOffset) / SECONDS_PER_DAY
  }

  function Min(a: int, b: int): int {
    if b < a then b else a
  }

  /** Rounds half away from zero, as NUMERIC columns and math.Round do. */
  function RoundHalf(x: real): int {
    if x >= 0.0 then (x + 0.5).Floor else -((0.5 - x).Floor)
  }
}
