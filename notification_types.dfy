/** The notification record and the platform's presented-notification record,
    as the two stores read and build them. */
module NotificationTypes {

  datatype Option<T> = None | Some(value: T)

  /** Milliseconds in a minute, an hour and a day. */
  const MinuteMs: int := 60 * 1000
  const HourMs: int := 60 * MinuteMs
  const DayMs: int := 24 * HourMs

  /** The five notification categories. */
  datatype NotificationType = Security | Transaction | System | Promotion | Urgent

  /** The three priority levels. */
  datatype Priority = Low | Medium | High

  /** The open `data` payload, reduced to the keys the stores read or write.
      Every key is optional; other keys of the payload are not modelled. */
  datatype Payload = Payload(
    identifier: Option<string>,
    scheduledFor: Option<int>,
    originalTimestamp: Option<int>,
    fromServer: Option<bool>,
    timestamp: Option<int>,
    kind: Option<NotificationType>,
    priority: Option<Priority>)

  /** Ids of the four demo notifications both stores install on load. */
  const SeedIds: set<string> := {"1", "2", "3", "4"}

  /** Title and description of a missed notification that arrives without
      them. */
  const DefaultTitle: string := "Nueva Notificación"
  const DefaultDescription: string := "Has recibido una nueva notificación"

  /** A payload object that carries none of the modelled keys (`{}`). */
  const EmptyPayload: Payload := Payload(None, None, None, None, None, None, None)

  /** A notification record; `timestamp` is in epoch milliseconds. */
  datatype Notification = Notification(
    id: string,
    title: string,
    description: string,
    kind: NotificationType,
    timestamp: int,
    isRead: bool,
    priority: Priority,
    data: Option<Payload>)

  /** The argument of `addNotification` and `addProgrammedNotification`:
      a notification without id, timestamp and read flag. */
  datatype Draft = Draft(
    title: string,
    description: string,
    kind: NotificationType,
    priority: Priority,
    data: Option<Payload>)

  /** A notification the platform currently presents: the request identifier,
      the content's title, body and data (each possibly missing) and the
      delivery date in epoch milliseconds. */
  datatype Presented = Presented(
    requestIdentifier: string,
    title: Option<string>,
    body: Option<string>,
    data: Option<Payload>,
    date: int)

  /** JavaScript truthiness of an optional string: present and non-empty. */
  predicate TruthyString(o: Option<string>)
  {
    o.Some? && o.value != ""
  }

  /** JavaScript truthiness of an optional number: present and non-zero. */
  predicate TruthyNumber(o: Option<int>)
  {
    o.Some? && o.value != 0
  }

  /** `x || fallback` for an optional string. */
  function StringOr(o: Option<string>, fallback: string): (s: string)
    ensures TruthyString(o) ==> s == o.value && s != ""
    ensures !TruthyString(o) ==> s == fallback
  {
    if TruthyString(o) then o.value else fallback
  }

  /** `n.data?.identifier`: the identifier a notification carries, if any. */
  function StoredIdentifier(n: Notification): Option<string>
  {
    if n.data.Some? then n.data.value.identifier else None
  }

  /** `data?.identifier` of a presented notification. */
  function PresentedIdentifier(p: Presented): Option<string>
  {
    if p.data.Some? then p.data.value.identifier else None
  }

  /** `Math.abs`. */
  function Abs(x: int): int
  {
    if x < 0 then -x else x
  }

  /** The record built by `addNotification` and `addProgrammedNotification`:
      the draft spread, then a fresh id, the given timestamp and unread. */
  function Materialize(d: Draft, id: string, timestamp: int): (n: Notification)
    ensures n.id == id && n.timestamp == timestamp && !n.isRead
    ensures n.title == d.title && n.description == d.description
    ensures n.kind == d.kind && n.priority == d.priority && n.data == d.data
  {
    Notification(id, d.title, d.description, d.kind, timestamp, false, d.priority, d.data)
  }
}
