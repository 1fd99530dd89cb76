/** ControladorAlertas: creating, changing and removing alerts, checking
    them against the expenses, and the flattened views of their
    notifications. */
module AlertControllers {
  import opened Wrappers
  import opened Ids
  import opened Calendar
  import opened Categories
  import opened Expenses
  import opened Strategies
  import opened Notifications
  import opened Alerts
  import opened AlertCatalogues
  import opened CategoryRegistries
  import opened Repositories
  import Seqs

  /** The notification objects the alerts hold. */
  function NotificationsOf(alerts: seq<Alert>): set<Notification>
    reads alerts
    decreases |alerts|
  {
    if |alerts| == 0 then {}
    else
      var ns := alerts[|alerts| - 1].notifications;
      NotificationsOf(alerts[..|alerts| - 1]) + set j | 0 <= j < |ns| :: ns[j]
  }

  /** The notifications of the alerts, alert after alert, each alert's in
      its stored order. */
  function AllOf(alerts: seq<Alert>): seq<Notification>
    reads alerts
    decreases |alerts|
  {
    if |alerts| == 0 then [] else AllOf(alerts[..|alerts| - 1]) + alerts[|alerts| - 1].notifications
  }

  /** Flattening distributes over concatenation: the notifications of two
      runs of alerts are those of the first run, then those of the second. */
  lemma {:induction false} AllOfAppend(a: seq<Alert>, b: seq<Alert>)
    ensures AllOf(a + b) == AllOf(a) + AllOf(b)
    decreases |b|
  {
    if |b| == 0 {
      assert a + b == a;
    } else {
      var init, last := b[..|b| - 1], b[|b| - 1];
      assert (a + b)[..|a + b| - 1] == a + init;
      AllOfAppend(a, init);
      Seqs.AppendAssociative(AllOf(a), AllOf(init), last.notifications);
    }
  }

  /** The flattened view holds every notification of every alert, and
      nothing else. */
  lemma {:induction false} AllOfMembers(alerts: seq<Alert>)
    ensures forall k, j :: 0 <= k < |alerts| && 0 <= j < |alerts[k].notifications| ==> alerts[k].notifications[j] in AllOf(alerts)
    ensures forall n :: n in AllOf(alerts) ==> n in NotificationsOf(alerts)
    decreases |alerts|
  {
    if |alerts| > 0 {
      var init, last := alerts[..|alerts| - 1], alerts[|alerts| - 1];
      AllOfMembers(init);
      forall k, j | 0 <= k < |alerts| && 0 <= j < |alerts[k].notifications|
        ensures alerts[k].notifications[j] in AllOf(alerts)
      {
        if k < |init| {
          assert init[k] == alerts[k];
        }
      }
    }
  }

  /** The unread notifications of the alerts, alert after alert. */
  function UnreadAll(alerts: seq<Alert>): seq<Notification>
    reads alerts, NotificationsOf(alerts)
    decreases |alerts|
  {
    if |alerts| == 0 then []
    else
      UnreadAll(alerts[..|alerts| - 1]) + alerts[|alerts| - 1].Unread()
  }

  /** One more notification adds itself to the unread view when it is
      unread, and nothing otherwise. */
  lemma UnreadOfSnoc(ns: seq<Notification>, n: Notification)
    ensures UnreadOf(ns + [n]) == UnreadOf(ns) + (if n.read then [] else [n])
  {
    assert (ns + [n])[..|ns|] == ns;
  }

  /** Unread notifications of two lists are those of each, in order. */
  lemma {:induction false} UnreadOfAppend(a: seq<Notification>, b: seq<Notification>)
    ensures UnreadOf(a + b) == UnreadOf(a) + UnreadOf(b)
    decreases |b|
  {
    if |b| == 0 {
      assert a + b == a;
    } else {
      var init, last := b[..|b| - 1], b[|b| - 1];
      assert a + b == (a + init) + [last];
      assert b == init + [last];
      UnreadOfAppend(a, init);
      UnreadOfSnoc(a + init, last);
      UnreadOfSnoc(init, last);
      Seqs.AppendAssociative(UnreadOf(a), UnreadOf(init), if last.read then [] else [last]);
    }
  }

  /** The flattened unread view is the unread part of the flattened view
      of all notifications. */
  lemma {:induction false} UnreadAllIsUnreadOfAll(alerts: seq<Alert>)
    ensures UnreadAll(alerts) == UnreadOf(AllOf(alerts))
    decreases |alerts|
  {
    if |alerts| > 0 {
      var init, last := alerts[..|alerts| - 1], alerts[|alerts| - 1];
      UnreadAllIsUnreadOfAll(init);
      UnreadOfAppend(AllOf(init), last.notifications);
      assert alerts[..|alerts| - 1] == init;
    }
  }

  class AlertController {
    const repo: Repository
    const catalogue: AlertCatalogue
    const registry: CategoryRegistry
    const ids: IdSupply

    constructor (repo: Repository, catalogue: AlertCatalogue, registry: CategoryRegistry, ids: IdSupply)
      ensures this.repo == repo && this.catalogue == catalogue && this.registry == registry && this.ids == ids
    {
      this.repo := repo;
      this.catalogue := catalogue;
      this.registry := registry;
      this.ids := ids;
    }

    /** `crearAlerta`: a category name that names no category gives an
        alert on every category rather than an error; the strategy is the
        period's; a limit of zero or less is refused before anything is
        added or saved. */
    method Create(limit: real, period: Period, categoryName: Option<string>) returns (s: Status)
      modifies catalogue, repo, ids
      ensures ids.next == old(ids.next) + 1
      ensures limit <= 0.0 ==> s == Fail(NonPositiveLimit) && catalogue.alerts == old(catalogue.alerts) && repo.log == old(repo.log)
      ensures limit > 0.0 ==> s == Done && |catalogue.alerts| == |old(catalogue.alerts)| + 1
      ensures limit > 0.0 ==> catalogue.alerts[..|old(catalogue.alerts)|] == old(catalogue.alerts)
      ensures limit > 0.0 ==>
        var a := catalogue.alerts[|old(catalogue.alerts)|];
        var c := if categoryName.Some? then FindByName(registry.categories, categoryName.value) else None;
        fresh(a) && a.id == old(ids.next) &&
        a.State() == AlertState(limit, Some(period), c, true, Some(StrategyOf(period)), [])
      ensures limit > 0.0 ==> repo.log == old(repo.log) + [SavedAlerts(catalogue.alerts)]
    {
      var c := if categoryName.Some? then registry.Find(categoryName.value) else None;
      var r := NewAlert(ids, limit, Some(period), c, Some(StrategyOf(period)));
      if r.Err? {
        return Fail(r.error);
      }
      catalogue.Add(Some(r.value));
      repo.SaveAlerts(catalogue.All());
      s := Done;
    }

    /** `modificarAlerta`: nothing happens for an unknown identifier; a
        limit of zero or less is refused before the active flag changes;
        otherwise both are set and the alerts saved. No other alert
        changes. */
    method Modify(id: Id, limit: real, active: bool) returns (s: Status)
      modifies catalogue.alerts, repo
      ensures catalogue.FindById(id).None? ==> s == Done && repo.log == old(repo.log)
      ensures catalogue.FindById(id).Some? && limit <= 0.0 ==>
        var a := catalogue.FindById(id).value;
        s == Fail(NonPositiveLimit) && repo.log == old(repo.log) && a.State() == old(a.State())
      ensures catalogue.FindById(id).Some? && limit > 0.0 ==>
        var a := catalogue.FindById(id).value;
        s == Done && repo.log == old(repo.log) + [SavedAlerts(catalogue.alerts)] &&
        a.State() == old(a.State()).(limit := limit, active := active) && a.Valid()
      ensures forall a :: a in catalogue.alerts && Some(a) != catalogue.FindById(id) ==> unchanged(a)
    {
      var f := catalogue.FindById(id);
      if f.None? {
        return Done;
      }
      var a := f.value;
      s := a.SetLimit(limit);
      if s.Fail? {
        return;
      }
      a.SetActive(active);
      repo.SaveAlerts(catalogue.All());
    }

    /** `eliminarAlerta`: nothing happens for an unknown identifier;
        otherwise the alert found leaves the list, which is saved. */
    method Delete(id: Id)
      modifies catalogue, repo
      ensures old(catalogue.FindById(id)).None? ==> catalogue.alerts == old(catalogue.alerts) && repo.log == old(repo.log)
      ensures old(catalogue.FindById(id)).Some? ==>
        var a := old(catalogue.FindById(id)).value;
        catalogue.alerts == Seqs.RemoveFirst(old(catalogue.alerts), (x: Alert) => x == a) &&
        |catalogue.alerts| == |old(catalogue.alerts)| - 1 && repo.log == old(repo.log) + [SavedAlerts(catalogue.alerts)]
    {
      var f := catalogue.FindById(id);
      if f.Some? {
        catalogue.Remove(f.value);
        repo.SaveAlerts(catalogue.All());
      }
    }

    /** `verificarAlertas`: every alert checked against the expenses, then
        the alerts saved, whether or not a list was given. */
    method Verify(es: Option<seq<Expense>>, clock: Clock)
      modifies catalogue.alerts, ids, repo
      ensures es.None? ==> forall a :: a in catalogue.alerts ==> a.State() == old(a.State())
      ensures es.Some? ==> forall a :: a in catalogue.alerts ==> a.State() == Checked(old(a.State()), clock, es.value)
      ensures repo.log == old(repo.log) + [SavedAlerts(catalogue.alerts)]
    {
      catalogue.VerifyAll(es, clock, ids);
      repo.SaveAlerts(catalogue.All());
    }

    /** `obtenerTodasLasNotificaciones`: the `flatMap` of the alerts'
        notifications, alert after alert, with order and repeats kept; so
        every notification of every alert, and nothing else. */
    function AllNotifications(): (r: seq<Notification>)
      reads this, catalogue, catalogue.alerts
      ensures r == AllOf(catalogue.alerts)
      ensures forall k, j :: 0 <= k < |catalogue.alerts| && 0 <= j < |catalogue.alerts[k].notifications| ==>
        catalogue.alerts[k].notifications[j] in r
      ensures forall n :: n in r ==> n in NotificationsOf(catalogue.alerts)
    {
      AllOfMembers(catalogue.alerts);
      AllOf(catalogue.alerts)
    }

    /** `obtenerNotificacionesNoLeidas`: the unread notifications of each
        alert, alert after alert, which are the unread ones of the view of
        all notifications. */
    function UnreadNotifications(): (r: seq<Notification>)
      reads this, catalogue, catalogue.alerts, NotificationsOf(catalogue.alerts)
      ensures r == UnreadOf(AllNotifications())
    {
      UnreadAllIsUnreadOfAll(catalogue.alerts);
      UnreadAll(catalogue.alerts)
    }

    /** `contarNotificacionesNoLeidas`: the size of the unread view, so at
        most the number of notifications, and 0 exactly when all of them are
        read. */
    function CountUnread(): (n: nat)
      reads this, catalogue, catalogue.alerts, NotificationsOf(catalogue.alerts)
      ensures n == |UnreadOf(AllOf(catalogue.alerts))|
      ensures n <= |AllNotifications()|
      ensures n == 0 <==> forall i :: 0 <= i < |AllNotifications()| ==> AllNotifications()[i].read
    {
      |UnreadNotifications()|
    }

    /** `marcarTodasLasNotificacionesComoLeidas`: every notification of
        every alert read, alert after alert, none added or removed, and the
        alerts saved. */
    method MarkAllRead()
      modifies NotificationsOf(catalogue.alerts), repo
      ensures AllNotifications() == old(AllNotifications())
      ensures forall i :: 0 <= i < |AllNotifications()| ==> AllNotifications()[i].read
      ensures CountUnread() == 0
      ensures repo.log == old(repo.log) + [SavedAlerts(catalogue.alerts)]
    {
      var alerts := catalogue.alerts;
      var i := 0;
      while i < |alerts|
        invariant 0 <= i <= |alerts|
        invariant forall k, t :: 0 <= k < i && 0 <= t < |alerts[k].notifications| ==> alerts[k].notifications[t].read
        invariant repo.log == old(repo.log)
      {
        var ns := alerts[i].notifications;
        var j := 0;
        while j < |ns|
          invariant 0 <= j <= |ns|
          invariant forall t :: 0 <= t < j ==> ns[t].read
          invariant forall k, t :: 0 <= k < i && 0 <= t < |alerts[k].notifications| ==> alerts[k].notifications[t].read
          invariant repo.log == old(repo.log)
        {
          HeldNotification(alerts, i, j);
          ns[j].MarkRead();
          j := j + 1;
        }
        i := i + 1;
      }
      repo.SaveAlerts(catalogue.All());
      AllHeldRead(alerts);
      assert AllNotifications() == AllOf(alerts);
    }

    /** `obtenerTodasLasAlertas`: the catalogue's list, in order. */
    function AllAlerts(): (r: seq<Alert>)
      reads this, catalogue
      ensures r == catalogue.alerts
    {
      catalogue.All()
    }
  }

  /** When every notification each alert holds is read, so is every one
      of the flattened view. */
  lemma {:induction false} AllHeldRead(alerts: seq<Alert>)
    requires forall k, t :: 0 <= k < |alerts| && 0 <= t < |alerts[k].notifications| ==> alerts[k].notifications[t].read
    ensures forall i :: 0 <= i < |AllOf(alerts)| ==> AllOf(alerts)[i].read
    decreases |alerts|
  {
    if |alerts| > 0 {
      var init, last := alerts[..|alerts| - 1], alerts[|alerts| - 1];
      assert forall k :: 0 <= k < |init| ==> init[k] == alerts[k];
      AllHeldRead(init);
      assert AllOf(alerts) == AllOf(init) + last.notifications;
    }
  }

  /** A notification held by one of the alerts is among their
      notifications. */
  lemma {:induction false} HeldNotification(alerts: seq<Alert>, i: nat, j: nat)
    requires i < |alerts| && j < |alerts[i].notifications|
    ensures alerts[i].notifications[j] in NotificationsOf(alerts)
    decreases |alerts|
  {
    if i < |alerts| - 1 {
      HeldNotification(alerts[..|alerts| - 1], i, j);
    }
  }
}
