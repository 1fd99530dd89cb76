/** Optional values and the failure outcomes of the expense tracker.
    Every exception the Java code throws on a validation or lookup failure
    becomes an `Err` carrying one `Error` case, so each error path is a value
    a contract can talk about. */
module Wrappers {

  /** A reference that may be null. */
  datatype Option<+T> = None | Some(value: T)

  /** The conditions under which the tracker throws. */
  datatype Error =
    // IllegalArgumentException, raised by the domain classes
    | NegativeAmount            // Gasto: amount < 0
    | BlankName                 // Categoria, Persona: null or whitespace-only name
    | DuplicateCategoryName     // CatalogoCategorias: same name ignoring case
    | ShareOutOfRange           // Persona: percentage outside [0, 100]
    | TooFewPeople              // fewer than 2 participants
    | SharesDoNotSumTo100       // |sum - 100| > 0.01
    | PayerNotInAccount         // CuentaCompartida.agregarGasto
    | NonPositiveLimit          // Alerta: limit <= 0
    | NullExpense               // CatalogoGastos.agregarGasto(null)
    // IllegalArgumentException, raised by the controllers
    | ExpenseNotFound
    | CategoryNotFound
    | AccountNotFound
    | PayerNotFound
    | NoCategoryGiven
    | NoCategoryResolved
    | NullDate
    | StartAfterEnd
    | NoMonthGiven
    | UnknownMonth(name: string)
    | NoAdapter                 // FabricaImportadores.obtenerAdaptador
    // IllegalStateException, raised by ControladorCategorias.eliminarCategoria
    | CategoryHasExpenses(count: nat)
    | CategoryHasAlerts(count: nat)
    // runtime exceptions the code does not guard against
    | MissingCategory           // groupingBy on a null category key
    | MissingShare              // list index past the end of the percentages

  /** The outcome of an operation that returns a value or throws. */
  datatype Result<+T> = Ok(value: T) | Err(error: Error)

  /** The outcome of an operation that returns nothing or throws. */
  datatype Status = Done | Fail(error: Error)
}
