/** CatalogoAlertas: the alerts, in the order they were added. */
module AlertCatalogues {
  import opened Wrappers
  import opened Ids
  import opened Calendar
  import opened Expenses
  import opened Alerts
  import Seqs

  /** The object behind a reference that may be null. */
  function Objects(a: Option<Alert>): set<Alert> {
    if a.Some? then {a.value} else {}
  }

  class AlertCatalogue {
    var alerts: seq<Alert>

    constructor ()
      ensures alerts == []
    {
      alerts := [];
    }

    /** `agregarAlerta`: null is ignored; any other alert has its strategy
        built from its period if it is missing, and goes at the end. */
    method Add(a: Option<Alert>)
      modifies this, Objects(a)
      ensures a.None? ==> alerts == old(alerts)
      ensures a.Some? ==> alerts == old(alerts) + [a.value]
      ensures a.Some? ==> a.value.State() == old(a.value.State()).(strategy := Rebuilt(old(a.value.State())))
    {
      if a.Some? {
        var _ := a.value.GetStrategy();
        alerts := alerts + [a.value];
      }
    }

    /** `eliminarAlerta`: Alerta does not override `equals`, so the first
        occurrence of this very alert goes. */
    method Remove(a: Alert)
      modifies this
      ensures alerts == Seqs.RemoveFirst(old(alerts), (x: Alert) => x == a)
      ensures a !in old(alerts) ==> alerts == old(alerts)
      ensures a in old(alerts) ==> |alerts| == |old(alerts)| - 1
    {
      alerts := Seqs.RemoveFirst(alerts, (x: Alert) => x == a);
    }

    /** `buscarPorId`: the first alert with this identifier. */
    function FindById(id: Id): (r: Option<Alert>)
      reads this
      ensures r.None? <==> forall i :: 0 <= i < |alerts| ==> alerts[i].id != id
      ensures r.Some? ==> exists k :: 0 <= k < |alerts| && alerts[k] == r.value && r.value.id == id &&
                                      forall j :: 0 <= j < k ==> alerts[j].id != id
    {
      Seqs.FindFirst(alerts, (x: Alert) => x.id == id)
    }

    /** `obtenerTodas`: a copy of the list. */
    function All(): (r: seq<Alert>)
      reads this
      ensures r == alerts
    {
      alerts
    }

    /** One turn of the loop of `verificarTodasLasAlertas`: an active
        alert has its strategy built, then is checked; an inactive one is
        left as it is, which is also what a check would do. */
    method CheckActive(a: Alert, es: seq<Expense>, clock: Clock, ids: IdSupply)
      modifies a, ids
      ensures a.State() == Checked(old(a.State()), clock, es)
    {
      if a.active {
        ghost var before := a.State();
        var _ := a.GetStrategy();
        a.Check(es, clock, ids);
        CheckedAfterRebuild(before, clock, es);
      }
    }

    /** `verificarTodasLasAlertas`: nothing without a list of expenses;
        otherwise every active alert is checked against it, in list order,
        and every alert ends in the state one check gives it, even one that
        appears twice in the list. */
    method VerifyAll(es: Option<seq<Expense>>, clock: Clock, ids: IdSupply)
      modifies alerts, ids
      ensures es.None? ==> forall a :: a in alerts ==> a.State() == old(a.State())
      ensures es.Some? ==> forall a :: a in alerts ==> a.State() == Checked(old(a.State()), clock, es.value)
    {
      if es.None? {
        return;
      }
      ghost var done: set<Alert> := {};
      var i := 0;
      while i < |alerts|
        invariant 0 <= i <= |alerts|
        invariant forall k :: 0 <= k < i ==> alerts[k] in done
        invariant forall a :: a in alerts ==>
          a.State() == if a in done then Checked(old(a.State()), clock, es.value) else old(a.State())
      {
        var a := alerts[i];
        CheckActive(a, es.value, clock, ids);
        if a in done {
          CheckedIdempotent(old(a.State()), clock, es.value);
        }
        done := done + {a};
        i := i + 1;
      }
    }
  }
}
