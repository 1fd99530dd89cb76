/** Repositorio: where the controllers save their lists. Writing the JSON
    files is outside the model; what the model keeps is the order in which
    the controllers hand their lists over, as a log of save events. */
module Repositories {
  import opened Categories
  import opened Expenses
  import opened Alerts
  import opened SharedAccounts

  /** One call of a `guardar*` operation, with the list it was given. */
  datatype SaveEvent =
    | SavedExpenses(expenses: seq<Expense>)
    | SavedCategories(categories: seq<Category>)
    | SavedAlerts(alerts: seq<Alert>)
    | SavedAccounts(accounts: seq<SharedAccount>)

  class Repository {
    /** Every save so far, oldest first. */
    ghost var log: seq<SaveEvent>

    constructor ()
      ensures log == []
    {
      log := [];
    }

    /** `guardarGastos`. */
    method SaveExpenses(es: seq<Expense>)
      modifies this
      ensures log == old(log) + [SavedExpenses(es)]
    {
      log := log + [SavedExpenses(es)];
    }

    /** `guardarCategorias`. */
    method SaveCategories(cs: seq<Category>)
      modifies this
      ensures log == old(log) + [SavedCategories(cs)]
    {
      log := log + [SavedCategories(cs)];
    }

    /** `guardarAlertas`. */
    method SaveAlerts(alerts: seq<Alert>)
      modifies this
      ensures log == old(log) + [SavedAlerts(alerts)]
    {
      log := log + [SavedAlerts(alerts)];
    }

    /** `guardarCuentasCompartidas`. */
    method SaveAccounts(accounts: seq<SharedAccount>)
      modifies this
      ensures log == old(log) + [SavedAccounts(accounts)]
    {
      log := log + [SavedAccounts(accounts)];
    }
  }
}
