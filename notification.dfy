/** Notificacion: the record an alert leaves when its limit is exceeded.
    Its text is kept as the values it is formatted from, so two
    notifications carry the same text exactly when these values agree. */
module Notifications {
  import opened Wrappers
  import opened Ids

  /** `String.format("%.2f", x)` keeps `x` rounded to cents, half up: the
      cents nearest to `x`, a tie going away from zero. */
  function Cents(x: real): (c: int)
    ensures x >= 0.0 ==> c >= 0 && -0.5 <= x * 100.0 - c as real < 0.5
    ensures x < 0.0 ==> c <= 0 && -0.5 < x * 100.0 - c as real <= 0.5
  {
    if x >= 0.0 then (x * 100.0 + 0.5).Floor else -((-x) * 100.0 + 0.5).Floor
  }

  /** Rounding to cents never reverses the order of two non-negative
      amounts. */
  lemma CentsMonotone(x: real, y: real)
    requires 0.0 <= x <= y
    ensures Cents(x) <= Cents(y)
  {
  }

  /** "¡Alerta <period>! Límite superado: <total>€ / <limit>€", followed by
      " en <category>" when the alert has a category; the amounts in cents. */
  datatype Message = Message(period: string, total: int, limit: int, category: Option<string>)

  class Notification {
    const id: Id
    const message: Message
    /** The identifier of the alert that raised it. */
    const alert: Id
    var read: bool

    /** `new Notificacion(mensaje, alerta)`: unread, with a fresh
        identifier. */
    constructor (ids: IdSupply, message: Message, alert: Id)
      modifies ids
      ensures this.id == old(ids.next) && ids.next == old(ids.next) + 1
      ensures this.message == message && this.alert == alert && !read
    {
      id := ids.next;
      this.message := message;
      this.alert := alert;
      read := false;
      ids.next := ids.next + 1;
    }

    /** `marcarComoLeida`: read from now on, whatever it was; nothing else
        of the notification changes. */
    method MarkRead()
      modifies this
      ensures read
    {
      read := true;
    }
  }
}
