/** Alerta: a spending limit over a period, optionally for one category,
    that leaves a notification each time the period's spend exceeds it,
    unless an unread notification with the same text is already there. The
    strategy is derived from the period when it is missing. */
module Alerts {
  import opened Wrappers
  import opened Ids
  import opened Calendar
  import opened Categories
  import opened Expenses
  import opened Strategies
  import opened Notifications

  /** What a check sees of one notification: its text and whether it has
      been read. */
  datatype Entry = Entry(message: Message, read: bool)

  /** Everything of an alert that its operations read or change. */
  datatype AlertState = AlertState(
    limit: real,
    period: Option<Period>,
    category: Option<Category>,
    active: bool,
    strategy: Option<Strategy>,
    journal: seq<Entry>)

  /** The period's description, or "Desconocido" without a period. */
  function PeriodLabel(p: Option<Period>): (s: string)
    ensures p.Some? ==> s == Label(p.value)
    ensures p.None? ==> s == "Desconocido"
  {
    if p.Some? then Label(p.value) else "Desconocido"
  }

  /** `construirMensaje`: the period label, the spend and the limit, and the
      category's name when there is one. */
  function MessageFor(a: AlertState, total: real): (m: Message)
    ensures m.period == PeriodLabel(a.period) && m.total == Cents(total) && m.limit == Cents(a.limit)
    ensures m.category.Some? <==> a.category.Some?
    ensures a.category.Some? ==> m.category.value == a.category.value.name
  {
    Message(PeriodLabel(a.period), Cents(total), Cents(a.limit),
            if a.category.Some? then Some(a.category.value.name) else None)
  }

  /** Some unread notification carries this text. */
  predicate HasUnread(j: seq<Entry>, m: Message) {
    exists i :: 0 <= i < |j| && j[i].message == m && !j[i].read
  }

  /** `crearNotificacion`: a new unread entry at the end unless an unread
      one with the same text is already there. */
  function Recorded(j: seq<Entry>, m: Message): (r: seq<Entry>)
    ensures HasUnread(r, m)
    ensures r == j <==> HasUnread(j, m)
    ensures r == j || r == j + [Entry(m, false)]
  {
    if HasUnread(j, m) then j else
      var r := j + [Entry(m, false)];
      assert r[|j|] == Entry(m, false);
      r
  }

  /** `recrearEstrategia` as `verificarLimite` and `getEstrategia` use it:
      a missing strategy is built from the period, when there is one. */
  function Rebuilt(a: AlertState): (s: Option<Strategy>)
    ensures a.strategy.Some? ==> s == a.strategy
    ensures a.strategy.None? && a.period.Some? ==> s == Some(StrategyOf(a.period.value))
    ensures s.None? <==> a.strategy.None? && a.period.None?
  {
    if a.strategy.None? && a.period.Some? then Some(StrategyOf(a.period.value)) else a.strategy
  }

  /** The spend a check compares with the limit, once the strategy is
      there. */
  function SpendOf(a: AlertState, clock: Clock, es: seq<Expense>): real
    requires Rebuilt(a).Some?
  {
    Spend(Rebuilt(a).value, clock, es, a.category)
  }

  /** `verificarLimite`: nothing happens to an inactive alert; an active one
      gets its strategy rebuilt if needed and, when the spend exceeds the
      limit strictly, records the breach. */
  function Checked(a: AlertState, clock: Clock, es: seq<Expense>): (r: AlertState)
    ensures !a.active ==> r == a
    ensures r.limit == a.limit && r.period == a.period && r.category == a.category && r.active == a.active
    ensures a.active ==> r.strategy == Rebuilt(a)
    ensures |r.journal| == |a.journal| || |r.journal| == |a.journal| + 1
    ensures r.journal[..|a.journal|] == a.journal
    ensures |r.journal| == |a.journal| + 1 <==>
      a.active && Rebuilt(a).Some? && SpendOf(a, clock, es) > a.limit &&
      !HasUnread(a.journal, MessageFor(a, SpendOf(a, clock, es)))
    ensures |r.journal| == |a.journal| + 1 ==>
      r.journal[|a.journal|] == Entry(MessageFor(a, SpendOf(a, clock, es)), false)
  {
    if !a.active then a
    else
      var s := Rebuilt(a);
      if s.None? then a
      else
        var total := Spend(s.value, clock, es, a.category);
        var b := a.(strategy := s);
        if total > a.limit then b.(journal := Recorded(a.journal, MessageFor(a, total))) else b
  }

  /** Checking again with the same expenses and clock changes nothing: the
      breach the first check recorded is still unread, so verifying twice
      adds at most one notification. */
  lemma CheckedIdempotent(a: AlertState, clock: Clock, es: seq<Expense>)
    ensures Checked(Checked(a, clock, es), clock, es) == Checked(a, clock, es)
    ensures |Checked(Checked(a, clock, es), clock, es).journal| <= |a.journal| + 1
  {
    var b := Checked(a, clock, es);
    if a.active && Rebuilt(a).Some? {
      assert Rebuilt(b) == Rebuilt(a);
      if SpendOf(a, clock, es) > a.limit {
        var m := MessageFor(a, SpendOf(a, clock, es));
        assert MessageFor(b, SpendOf(b, clock, es)) == m;
        assert HasUnread(b.journal, m);
      }
    }
  }

  /** Building the strategy of an active alert ahead of a check, as
      `getEstrategia` does, does not change what the check does. */
  lemma CheckedAfterRebuild(a: AlertState, clock: Clock, es: seq<Expense>)
    requires a.active
    ensures Checked(a.(strategy := Rebuilt(a)), clock, es) == Checked(a, clock, es)
  {
    var b := a.(strategy := Rebuilt(a));
    assert Rebuilt(b) == Rebuilt(a);
    if Rebuilt(a).Some? {
      assert MessageFor(b, SpendOf(a, clock, es)) == MessageFor(a, SpendOf(a, clock, es));
    }
  }

  /** Once every notification has been read, the same breach is recorded
      again. */
  lemma ReadBreachRecordedAgain(a: AlertState, clock: Clock, es: seq<Expense>)
    requires a.active && Rebuilt(a).Some? && SpendOf(a, clock, es) > a.limit
    requires forall i :: 0 <= i < |a.journal| ==> a.journal[i].read
    ensures |Checked(a, clock, es).journal| == |a.journal| + 1
    ensures Checked(a, clock, es).journal[|a.journal|] == Entry(MessageFor(a, SpendOf(a, clock, es)), false)
  {
  }

  /** What a list of notifications holds, in order. */
  function Entries(ns: seq<Notification>): (r: seq<Entry>)
    reads ns
    ensures |r| == |ns|
    ensures forall i :: 0 <= i < |ns| ==> r[i] == Entry(ns[i].message, ns[i].read)
  {
    seq(|ns|, i requires 0 <= i < |ns| reads ns => Entry(ns[i].message, ns[i].read))
  }

  /** `obtenerNotificacionesNoLeidas`: the unread notifications, in their
      stored order. */
  function UnreadOf(ns: seq<Notification>): (r: seq<Notification>)
    reads ns
    ensures |r| <= |ns|
    ensures forall i :: 0 <= i < |r| ==> r[i] in ns && !r[i].read
    ensures forall i :: 0 <= i < |ns| && !ns[i].read ==> ns[i] in r
    ensures r == [] <==> forall i :: 0 <= i < |ns| ==> ns[i].read
    decreases |ns|
  {
    if |ns| == 0 then []
    else
      var init, last := ns[..|ns| - 1], ns[|ns| - 1];
      assert ns == init + [last];
      UnreadOf(init) + (if last.read then [] else [last])
  }

  /** The unread view holds exactly the entries of the journal that are
      unread, in order. */
  lemma {:induction false} UnreadMatchesJournal(ns: seq<Notification>)
    ensures Entries(UnreadOf(ns)) == JournalUnread(Entries(ns))
    decreases |ns|
  {
    if |ns| > 0 {
      var init, last := ns[..|ns| - 1], ns[|ns| - 1];
      UnreadMatchesJournal(init);
      var j := Entries(ns);
      assert j[..|j| - 1] == Entries(init);
      assert j[|j| - 1] == Entry(last.message, last.read);
      if !last.read {
        EntriesAppend(UnreadOf(init), last);
      }
    }
  }

  /** One more notification adds its entry at the end. */
  lemma EntriesAppend(ns: seq<Notification>, n: Notification)
    ensures Entries(ns + [n]) == Entries(ns) + [Entry(n.message, n.read)]
  {
  }

  /** The unread entries of a journal, in order. */
  function JournalUnread(j: seq<Entry>): (r: seq<Entry>)
    ensures forall e :: e in r ==> e in j && !e.read
    decreases |j|
  {
    if |j| == 0 then [] else JournalUnread(j[..|j| - 1]) + (if j[|j| - 1].read then [] else [j[|j| - 1]])
  }

  /** `new Alerta(limite, periodo, categoria, estrategia)`: a limit of zero
      or less is refused; otherwise the alert starts active, with no
      notifications. An identifier is drawn either way, as the default
      constructor runs first. */
  method NewAlert(ids: IdSupply, limit: real, period: Option<Period>, category: Option<Category>, strategy: Option<Strategy>)
    returns (r: Result<Alert>)
    modifies ids
    ensures ids.next == old(ids.next) + 1
    ensures r.Err? <==> limit <= 0.0
    ensures r.Err? ==> r.error == NonPositiveLimit
    ensures r.Ok? ==> fresh(r.value) && r.value.id == old(ids.next) && r.value.Valid()
    ensures r.Ok? ==> r.value.State() == AlertState(limit, period, category, true, strategy, [])
  {
    var id := ids.Fresh();
    if limit <= 0.0 {
      return Err(NonPositiveLimit);
    }
    var a := new Alert(id, limit, period, category, strategy);
    return Ok(a);
  }

  class Alert {
    const id: Id
    var limit: real
    var period: Option<Period>
    var category: Option<Category>
    var active: bool
    var notifications: seq<Notification>
    var strategy: Option<Strategy>

    /** The limit is positive, as the constructor and `setLimiteGasto`
        demand. */
    predicate Valid()
      reads this
    {
      limit > 0.0
    }

    /** The alert's state, as the pure model of its operations sees it. */
    function State(): (s: AlertState)
      reads this, notifications
      ensures s.journal == Entries(notifications)
      ensures s.limit == limit && s.period == period && s.category == category
      ensures s.active == active && s.strategy == strategy
    {
      AlertState(limit, period, category, active, strategy, Entries(notifications))
    }

    /** The fields as the constructor sets them, after the limit has been
        checked. */
    constructor (id: Id, limit: real, period: Option<Period>, category: Option<Category>, strategy: Option<Strategy>)
      ensures this.id == id && this.limit == limit && this.period == period && this.category == category
      ensures this.strategy == strategy && active && notifications == []
    {
      this.id := id;
      this.limit := limit;
      this.period := period;
      this.category := category;
      this.strategy := strategy;
      active := true;
      notifications := [];
    }

    /** `verificarLimite`: the alert moves to the state `Checked` gives,
        by appending at most one fresh notification; the notifications
        already there stay, in order. */
    method Check(es: seq<Expense>, clock: Clock, ids: IdSupply)
      modifies this, ids
      ensures State() == Checked(old(State()), clock, es)
      ensures |old(notifications)| <= |notifications| <= |old(notifications)| + 1
      ensures notifications[..|old(notifications)|] == old(notifications)
      ensures forall n :: n in notifications && n !in old(notifications) ==> fresh(n) && n.alert == id
    {
      ghost var a := State();
      assert notifications[..|notifications|] == notifications;
      if !active {
        return;
      }
      var s := GetStrategy();
      if s.None? {
        return;
      }
      var total := Spend(s.value, clock, es, category);
      assert total == SpendOf(a, clock, es);
      if total > limit {
        Notify(total, ids);
        assert MessageFor(a.(strategy := s), total) == MessageFor(a, total);
      }
    }

    /** `crearNotificacion`: builds the message for `total` and a fresh
        notification carrying it, and keeps the notification unless an
        unread one with the same message is already there. */
    method Notify(total: real, ids: IdSupply)
      modifies this, ids
      ensures State() == old(State()).(journal := Recorded(old(State()).journal, MessageFor(old(State()), total)))
      ensures |old(notifications)| <= |notifications| <= |old(notifications)| + 1
      ensures notifications[..|old(notifications)|] == old(notifications)
      ensures forall n :: n in notifications && n !in old(notifications) ==> fresh(n) && n.alert == id
    {
      ghost var a := State();
      var m := MessageFor(AlertState(limit, period, category, active, strategy, []), total);
      assert m == MessageFor(a, total);
      var n := new Notification(ids, m, id);
      var present := exists i :: 0 <= i < |notifications| && notifications[i].message == m && !notifications[i].read;
      assert present == HasUnread(a.journal, m);
      if !present {
        EntriesAppend(notifications, n);
        notifications := notifications + [n];
      }
    }

    /** `getEstrategia`: the strategy, built from the period first when it
        is missing. */
    method GetStrategy() returns (s: Option<Strategy>)
      modifies this
      ensures s == Rebuilt(old(State())) && s == strategy
      ensures State() == old(State()).(strategy := s) && notifications == old(notifications)
    {
      if strategy.None? && period.Some? {
        strategy := Some(StrategyOf(period.value));
      }
      s := strategy;
    }

    /** `setLimiteGasto`: a limit of zero or less is refused and nothing
        changes. */
    method SetLimit(l: real) returns (s: Status)
      modifies this
      ensures l <= 0.0 ==> s == Fail(NonPositiveLimit) && State() == old(State())
      ensures l > 0.0 ==> s == Done && State() == old(State()).(limit := l) && Valid()
    {
      if l <= 0.0 {
        return Fail(NonPositiveLimit);
      }
      limit := l;
      s := Done;
    }

    /** `setPeriodo`: the new period, and a strategy rebuilt from it when
        it is set; clearing the period keeps the old strategy. */
    method SetPeriod(p: Option<Period>)
      modifies this
      ensures State() == old(State()).(period := p, strategy := if p.Some? then Some(StrategyOf(p.value)) else old(strategy))
    {
      period := p;
      if p.Some? {
        strategy := Some(StrategyOf(p.value));
      }
    }

    /** `setCategoria`. */
    method SetCategory(c: Option<Category>)
      modifies this
      ensures State() == old(State()).(category := c)
    {
      category := c;
    }

    /** `setActiva`. */
    method SetActive(b: bool)
      modifies this
      ensures State() == old(State()).(active := b)
    {
      active := b;
    }

    /** `obtenerNotificacionesNoLeidas`. */
    function Unread(): (r: seq<Notification>)
      reads this, notifications
      ensures forall i :: 0 <= i < |r| ==> r[i] in notifications && !r[i].read
      ensures forall i :: 0 <= i < |notifications| && !notifications[i].read ==> notifications[i] in r
      ensures Entries(r) == JournalUnread(State().journal)
    {
      UnreadMatchesJournal(notifications);
      UnreadOf(notifications)
    }
  }
}
