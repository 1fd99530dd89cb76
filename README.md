# gestion-gastos, modelled in Dafny

This project models the in-memory core of `gestion-gastos`, a personal expense
tracker written in Java. The tracker keeps expenses (`Gasto`) filed under
categories (`Categoria`). It filters and groups them. It watches spending
against alerts (`Alerta`) that raise notifications (`Notificacion`). It
splits the expenses of shared accounts (`CuentaCompartida`) among people
(`Persona`). It imports bank statements in a `;`-separated text format
through an adapter chosen by a factory.

The model follows the Java structure file by file:

- **Values.** Categories, expenses, filters, strategies and dates are
  datatypes with functions and lemmas.
- **Mutable objects.** Objects whose fields the Java code updates in place
  are Dafny classes. These are the catalogues, the registry, alerts,
  notifications, people, shared accounts, the controllers, the repository,
  the bank adapter and the importer factory. Their methods carry `modifies`
  clauses and are proved against specification functions.
- **Identifiers.** `UUID.randomUUID()` becomes a counter object (`Ids`) that
  never hands out the same identifier twice.
- **Persistence.** The JSON repository becomes a log of what was saved
  (`Repositories`).
- **External inputs.** The clock, the locale's first day of the week, and the
  JDK date and number parsers are parameters.

| file | Java source |
|---|---|
| `wrappers.dfy` | the exceptions the tracker throws, as `Error` values |
| `seqs.dfy`, `text.dfy`, `calendar.dfy` | the `List`, `String` and `LocalDate` behaviour the core relies on |
| `ids.dfy` | `UUID.randomUUID()` |
| `category.dfy`, `category_registry.dfy` | `Categoria`, `CatalogoCategorias` |
| `expense.dfy`, `expense_catalogue.dfy` | `Gasto`, `CatalogoGastos` |
| `filters.dfy` | `FiltroCategorias`, `FiltroFechas`, `FiltroMeses`, `FiltroCompuesto` |
| `strategies.dfy` | `AlertaSemanal`, `AlertaMensual`, `PeriodoTemporal` |
| `notification.dfy`, `alert.dfy`, `alert_catalogue.dfy` | `Notificacion`, `Alerta`, `CatalogoAlertas` |
| `person.dfy`, `ledger.dfy`, `shared_account.dfy`, `account_catalogue.dfy` | `Persona`, the balance arithmetic of `CuentaCompartida`, `CuentaCompartida`, `CatalogoCuentasCompartidas` |
| `repository.dfy` | `Repositorio` |
| `expense_controller.dfy`, `category_controller.dfy`, `alert_controller.dfy`, `account_controller.dfy` | `ControladorGastos`, `ControladorCategorias`, `ControladorAlertas`, `ControladorCuentasCompartidas` |
| `bank_adapter.dfy`, `importer_factory.dfy` | `AdaptadorBancario`, `FabricaImportadores` |

## Model

Source paths are relative to the repository root.

| member | source | states |
|---|---|---|
| Seqs.FindFirst | gestion-gastos/src/main/java/catalogos/CatalogoGastos.java:40-45 | the first element that passes the test: found exactly when one exists, and no element before it passes |
| Seqs.RemoveFirst | gestion-gastos/src/main/java/catalogos/CatalogoGastos.java:36-38 | `List.remove` drops the first equal element and keeps the order, or leaves the list alone when there is none |
| Seqs.Filter | gestion-gastos/src/main/java/catalogos/CatalogoGastos.java:71-75 | the kept elements are exactly those that pass, and there are no more than the input |
| Seqs.FilterAppend | gestion-gastos/src/main/java/dominio/filtros/FiltroFechas.java:26-30 | filtering distributes over concatenation, so the relative order is kept |
| Seqs.FilterFilter | gestion-gastos/src/main/java/dominio/filtros/FiltroCompuesto.java:30-35 | filtering twice is filtering by both tests |
| Seqs.Count | gestion-gastos/src/main/java/controlador/ControladorCategorias.java:108-115 | `filter(p).count()`: the number of positions whose element passes, which is the length of the filtered list; zero exactly when nothing passes |
| Seqs.FilterDisjoint | gestion-gastos/src/main/java/controlador/ControladorCategorias.java:108-115 | two tests that never hold together split what their disjunction keeps |
| Seqs.SumAppend | gestion-gastos/src/main/java/catalogos/CatalogoGastos.java:51-55 | the sum of a concatenation is the sum of the sums |
| Text.Trim | gestion-gastos/src/main/java/importador/AdaptadorBancario.java:38 | `trim` leaves a string that is empty or starts and ends with a character above U+0020 |
| Text.TrimEmptyIffBlank | gestion-gastos/src/main/java/dominio/Categoria.java:31-35 | a name trims to nothing exactly when it is blank, and otherwise trims to a slice with only blanks around it |
| Text.ToLower | gestion-gastos/src/main/java/dominio/CatalogoCategorias.java:39-46 | folding to lower case keeps the length and folds each character |
| Text.EqualsIgnoreCaseFacts | gestion-gastos/src/main/java/dominio/CatalogoCategorias.java:39-46 | `equalsIgnoreCase` is an equivalence that implies equal lengths |
| Text.JoinPieces | gestion-gastos/src/main/java/importador/AdaptadorBancario.java:41 | joining the pieces of a split with the separator gives back the string |
| Text.PiecesOfJoin | gestion-gastos/src/main/java/importador/AdaptadorBancario.java:41 | splitting a join of separator-free pieces gives back the pieces |
| Text.Split | gestion-gastos/src/main/java/importador/AdaptadorBancario.java:33 | `split`: the whole string when the separator is absent, otherwise the pieces without trailing empty ones, none holding the separator |
| Text.PiecesAllEmpty | gestion-gastos/src/main/java/importador/AdaptadorBancario.java:66 | every piece is empty exactly when the string is made of separators only |
| Text.DropTrailingMany | gestion-gastos/src/main/java/importador/AdaptadorBancario.java:66 | dropping trailing empty strings leaves more than one exactly when some string after the first is not empty |
| Text.SplitManyPieces | gestion-gastos/src/main/java/importador/AdaptadorBancario.java:66 | given the first separator, more than one piece exactly when a piece after it is not empty |
| Text.AfterFirstSeparator | gestion-gastos/src/main/java/importador/AdaptadorBancario.java:66 | a non-separator follows the first separator exactly when it follows some separator |
| Text.SplitMany | gestion-gastos/src/main/java/importador/AdaptadorBancario.java:66 | `split` gives more than one piece exactly when some separator is followed, somewhere later, by a character that is not one |
| Text.SplitDropsFinalNewline | gestion-gastos/src/main/java/importador/AdaptadorBancario.java:33 | a final line break adds no line |
| Text.SplitDropsEmptyLastField | gestion-gastos/src/main/java/importador/AdaptadorBancario.java:41-42 | an empty last field is dropped and a row of separators has no fields, so such rows fall below four fields |
| Text.Replace | gestion-gastos/src/main/java/importador/AdaptadorBancario.java:45 | replacing a character keeps the length, changes only that character, and leaves none of it |
| Text.StringHash | gestion-gastos/src/main/java/dominio/Categoria.java:73-75 | the hash is a 32-bit value |
| Calendar.DaysInMonth | gestion-gastos/src/main/java/dominio/estrategias/AlertaMensual.java:26 | 28 to 31 days, with 29 in February exactly in leap years |
| Calendar.BeforeIsStrictTotalOrder | gestion-gastos/src/main/java/dominio/Gasto.java:47-49 | `isBefore` is irreflexive, asymmetric, transitive and total on distinct dates |
| Calendar.NextDay | gestion-gastos/src/main/java/dominio/estrategias/AlertaSemanal.java:33 | the next day is later, is a valid date, and no valid date lies between the two |
| Calendar.PlusDays | gestion-gastos/src/main/java/dominio/estrategias/AlertaSemanal.java:33 | `plusDays` keeps dates valid |
| Calendar.PlusDaysMonotone | gestion-gastos/src/main/java/dominio/estrategias/AlertaSemanal.java:33 | adding no days changes nothing and adding some moves forward |
| Calendar.PlusDaysAdd | gestion-gastos/src/main/java/dominio/estrategias/AlertaSemanal.java:33 | adding a days and then b days is adding a + b days |
| Calendar.PlusDaysWithin | gestion-gastos/src/main/java/dominio/estrategias/AlertaSemanal.java:30-36 | every day from the week start to six days later lies in the window |
| Calendar.FirstOfMonth | gestion-gastos/src/main/java/dominio/estrategias/AlertaMensual.java:26-29 | `withDayOfMonth(1)` gives a valid date of the same month, and a date is not before it exactly when it falls in that month or later |
| Ids.IdSupply.Fresh | gestion-gastos/src/main/java/dominio/Gasto.java:30-32 | each identifier handed out is new: the counter only grows |
| Categories.NewCategory | gestion-gastos/src/main/java/dominio/Categoria.java:24-35 | construction fails with a blank-name error exactly when the name is blank, and otherwise keeps the identifier, name and description |
| Categories.SetName | gestion-gastos/src/main/java/dominio/Categoria.java:49-52 | `setNombre` runs the same check and changes only the name |
| Categories.SetDescription | gestion-gastos/src/main/java/dominio/Categoria.java:58-60 | `setDescripcion` changes only the description |
| Categories.HashCode | gestion-gastos/src/main/java/dominio/Categoria.java:73-75 | the hash is a 32-bit value |
| Categories.EqualityByName | gestion-gastos/src/main/java/dominio/Categoria.java:64-75 | equality ignores identifier and description, is an equivalence, and equal categories hash alike |
| Categories.EqualityIsCaseSensitive | gestion-gastos/src/main/java/dominio/Categoria.java:64-69 | names differing only in case make unequal categories, though they match ignoring case |
| CategoryRegistries.Defaults | gestion-gastos/src/main/java/dominio/CatalogoCategorias.java:26-32 | five non-blank defaults with consecutive identifiers and unique names |
| CategoryRegistries.FindByName | gestion-gastos/src/main/java/dominio/CatalogoCategorias.java:48-52 | the first category equal to the name ignoring case, and none exactly when no category matches |
| CategoryRegistries.FindByNameUnique | gestion-gastos/src/main/java/dominio/CatalogoCategorias.java:39-52 | with unique names, the lookup finds the only match |
| CategoryRegistries.FindById | gestion-gastos/src/main/java/dominio/CatalogoCategorias.java:54-59 | the first category with exactly that identifier, and none exactly when no category has it |
| CategoryRegistries.WithoutName | gestion-gastos/src/main/java/dominio/CatalogoCategorias.java:61-63 | removal drops the first category with exactly that name and keeps the others in order |
| CategoryRegistries.DropKeepsUnique | gestion-gastos/src/main/java/dominio/CatalogoCategorias.java:61-63 | removing the category at any one position keeps names unique |
| CategoryRegistries.WithoutNameKeepsUnique | gestion-gastos/src/main/java/dominio/CatalogoCategorias.java:61-63 | removal keeps names unique and shortens the list by one exactly when the name was present |
| CategoryRegistries.FindOrCreate | gestion-gastos/src/main/java/importador/AdaptadorBancario.java:70-77 | the matching category, or else a new one with the fresh identifier, or a blank-name error |
| CategoryRegistries.CategoryRegistry.constructor | gestion-gastos/src/main/java/dominio/CatalogoCategorias.java:21-32 | a new registry holds the five defaults and draws five identifiers |
| CategoryRegistries.CategoryRegistry.Add | gestion-gastos/src/main/java/dominio/CatalogoCategorias.java:34-46 | a name already present ignoring case is refused with no change; any other category goes at the end; names stay unique |
| CategoryRegistries.CategoryRegistry.FindOrAdd | gestion-gastos/src/main/java/importador/AdaptadorBancario.java:70-77 | the result is `FindOrCreate` of the old state; an identifier is drawn and the category added only when none matched; the name then finds the result |
| CategoryRegistries.CategoryRegistry.Find | gestion-gastos/src/main/java/dominio/CatalogoCategorias.java:48-52 | a found category is stored and matches ignoring case; nothing is found exactly when nothing matches |
| CategoryRegistries.CategoryRegistry.FindId | gestion-gastos/src/main/java/dominio/CatalogoCategorias.java:54-59 | the first stored category with exactly that identifier, and none exactly when no category has it |
| CategoryRegistries.CategoryRegistry.Remove | gestion-gastos/src/main/java/dominio/CatalogoCategorias.java:61-63 | the list becomes `WithoutName` of the old one, one shorter exactly when the name was present, with names still unique |
| CategoryRegistries.CategoryRegistry.All | gestion-gastos/src/main/java/dominio/CatalogoCategorias.java:65-67 | the registry's categories in order |
| CategoryRegistries.CategoryRegistry.Count | gestion-gastos/src/main/java/dominio/CatalogoCategorias.java:69-71 | the number of categories |
| CategoryRegistries.DifferAt | gestion-gastos/src/main/java/dominio/CatalogoCategorias.java:39-46 | names whose folded characters differ at some position are not equal ignoring case |
| CategoryRegistries.DefaultsFoundIgnoringCase | gestion-gastos/src/main/java/dominio/CatalogoCategorias.java:26-32 | a default is found under its name in lower case |
| CategoryRegistries.DefaultsLackShared | gestion-gastos/src/main/java/dominio/CatalogoCategorias.java:26-32 | "Compartido" is not a default, so a shared expense creates that category |
| Expenses.NewExpense | gestion-gastos/src/main/java/dominio/Gasto.java:34-41 | construction fails exactly for a negative amount, accepts zero, keeps every field, and sets no payer |
| Expenses.SetAmount | gestion-gastos/src/main/java/dominio/Gasto.java:82-85 | `setCantidad` runs the same check and changes only the amount |
| Expenses.InRangeInclusive | gestion-gastos/src/main/java/dominio/Gasto.java:47-49 | the range includes both ends and is empty when its start is after its end |
| Expenses.InMonthIgnoresYear | gestion-gastos/src/main/java/dominio/Gasto.java:43-45 | the month test looks at neither the year nor the day |
| Expenses.OfCategoryFacts | gestion-gastos/src/main/java/dominio/Gasto.java:52-58 | false when either category is missing; equal names match; matching ignores case |
| Expenses.ContributionBounds | gestion-gastos/src/main/java/dominio/Gasto.java:60-62 | a 0 % share is nothing, a 100 % share is the whole amount, and shares in between give a part in between |
| Expenses.EqualityById | gestion-gastos/src/main/java/dominio/Gasto.java:120-125 | equality looks at the identifier only |
| Expenses.Total | gestion-gastos/src/main/java/catalogos/CatalogoGastos.java:51-55 | the total is never negative and is zero for no expenses |
| Expenses.TotalAppend | gestion-gastos/src/main/java/catalogos/CatalogoGastos.java:51-55 | the total of a concatenation is the sum of the totals |
| Expenses.TotalAtLeastEach | gestion-gastos/src/main/java/catalogos/CatalogoGastos.java:51-55 | the total is at least each expense's amount |
| ExpenseCatalogues.FindById | gestion-gastos/src/main/java/catalogos/CatalogoGastos.java:40-45 | the first expense with that identifier, and none exactly when no expense has it |
| ExpenseCatalogues.WithoutFirst | gestion-gastos/src/main/java/catalogos/CatalogoGastos.java:36-38 | removal by `Gasto.equals` drops the first expense with the identifier and keeps the rest in order, or changes nothing |
| ExpenseCatalogues.Replaced | gestion-gastos/src/main/java/controlador/ControladorGastos.java:60-77 | the setters change the expense lookup found, in its place; nothing changes when there is none |
| ExpenseCatalogues.ReplacedFound | gestion-gastos/src/main/java/controlador/ControladorGastos.java:60-77 | after a change the identifier finds the changed expense, and the total moves by the change in its amount |
| ExpenseCatalogues.ReplacedAt | gestion-gastos/src/main/java/controlador/ControladorGastos.java:60-77 | the place `Replaced` overwrites holds the first expense with the identifier |
| ExpenseCatalogues.FirstMatch | gestion-gastos/src/main/java/catalogos/CatalogoGastos.java:40-45 | the first expense with an identifier is the one lookup finds |
| ExpenseCatalogues.TotalUpdate | gestion-gastos/src/main/java/catalogos/CatalogoGastos.java:51-55 | changing one expense moves the total by the change in its amount |
| ExpenseCatalogues.OfCategoryOnly | gestion-gastos/src/main/java/catalogos/CatalogoGastos.java:71-75 | the expenses of a category, in order; none when no category is given |
| ExpenseCatalogues.InMonthOnlyMembers | gestion-gastos/src/main/java/catalogos/CatalogoGastos.java:66-69 | a month's group holds exactly the list's expenses dated in that month |
| ExpenseCatalogues.GroupByMonth | gestion-gastos/src/main/java/catalogos/CatalogoGastos.java:66-69 | one group per month that occurs, each with that month's expenses in order, and every expense in its month's group |
| ExpenseCatalogues.InMonthOnlyAppend | gestion-gastos/src/main/java/catalogos/CatalogoGastos.java:66-69 | one more expense adds one to its own month's group only |
| ExpenseCatalogues.InMonthsCountsAll | gestion-gastos/src/main/java/catalogos/CatalogoGastos.java:66-69 | every expense is counted in exactly one month |
| ExpenseCatalogues.GroupSizesCount | gestion-gastos/src/main/java/catalogos/CatalogoGastos.java:66-69 | the group sizes of a grouping by month count the expenses of those months |
| ExpenseCatalogues.GroupByMonthPartitions | gestion-gastos/src/main/java/catalogos/CatalogoGastos.java:66-69 | the groups by month partition the list: each expense is in its month's group only, and the sizes add up to the length |
| ExpenseCatalogues.NamedCategoryOnly | gestion-gastos/src/main/java/catalogos/CatalogoGastos.java:61-64 | one group of `groupingBy`: exactly the list's filter by category name, so in encounter order with repeats kept; an expense is in it exactly when its category has that name |
| ExpenseCatalogues.GroupByCategory | gestion-gastos/src/main/java/catalogos/CatalogoGastos.java:61-64 | `groupingBy` throws exactly when an expense has no category; otherwise one key per category name that occurs, each group the filter of the list by that name, in encounter order, and every expense in its own group |
| ExpenseCatalogues.NamedGroupSizesCount | gestion-gastos/src/main/java/catalogos/CatalogoGastos.java:61-64 | over any set of names, the groups' sizes add up to the number of expenses filed under those names |
| ExpenseCatalogues.GroupByCategoryPartitions | gestion-gastos/src/main/java/catalogos/CatalogoGastos.java:61-64 | the groups by category partition the list: each expense is in its own name's group only, and the sizes add up to the length |
| ExpenseCatalogues.ExpenseCatalogue.constructor | gestion-gastos/src/main/java/catalogos/CatalogoGastos.java:25-27 | a new catalogue is empty |
| ExpenseCatalogues.ExpenseCatalogue.Add | gestion-gastos/src/main/java/catalogos/CatalogoGastos.java:29-34 | null is refused with no change; an expense goes at the end and raises the total by its amount |
| ExpenseCatalogues.ExpenseCatalogue.Remove | gestion-gastos/src/main/java/catalogos/CatalogoGastos.java:36-38 | the list becomes `WithoutFirst` of the old list |
| ExpenseCatalogues.ExpenseCatalogue.Update | gestion-gastos/src/main/java/controlador/ControladorGastos.java:60-77 | the list becomes `Replaced` of the old list |
| ExpenseCatalogues.ExpenseCatalogue.Find | gestion-gastos/src/main/java/catalogos/CatalogoGastos.java:40-45 | lookup by identifier on the current list |
| ExpenseCatalogues.ExpenseCatalogue.All | gestion-gastos/src/main/java/catalogos/CatalogoGastos.java:47-49 | a copy of the list |
| ExpenseCatalogues.ExpenseCatalogue.TotalAmount | gestion-gastos/src/main/java/catalogos/CatalogoGastos.java:51-55 | the sum of every amount on the list (`Total`), so never negative, zero for an empty list, and at least each amount |
| ExpenseCatalogues.ExpenseCatalogue.ApplyFilter | gestion-gastos/src/main/java/catalogos/CatalogoGastos.java:57-59 | the expenses the filter keeps, in order |
| ExpenseCatalogues.ExpenseCatalogue.Count | gestion-gastos/src/main/java/catalogos/CatalogoGastos.java:77-79 | the number of expenses |
| Filters.ApplyIsFilter | gestion-gastos/src/main/java/dominio/filtros/FiltroCategorias.java:26-30 | each filter returns exactly the input's expenses it keeps, in order |
| Filters.FoldIsFilter | gestion-gastos/src/main/java/dominio/filtros/FiltroCompuesto.java:30-35 | the composite's fold keeps exactly what every member keeps |
| Filters.KeepsExactly | gestion-gastos/src/main/java/dominio/filtros/FiltroFechas.java:26-30 | a filter's result is no longer than its input, holds exactly the kept expenses, and distributes over concatenation |
| Filters.CompositeOrderIrrelevant | gestion-gastos/src/main/java/dominio/filtros/FiltroCompuesto.java:25-35 | the order in which members are added does not change what the composite keeps |
| Filters.CompositeUnits | gestion-gastos/src/main/java/dominio/filtros/FiltroCompuesto.java:30-35 | an empty composite keeps everything; a one-member composite acts as its member |
| Filters.ReversedRangeKeepsNothing | gestion-gastos/src/main/java/dominio/filtros/FiltroFechas.java:20-30 | a range whose start is after its end keeps nothing |
| Filters.EmptySetsKeepNothing | gestion-gastos/src/main/java/dominio/filtros/FiltroMeses.java:25-29 | an empty month set or an empty category set keeps nothing |
| Filters.CompositeFilter.constructor | gestion-gastos/src/main/java/dominio/filtros/FiltroCompuesto.java:21-23 | a new composite has no members |
| Filters.CompositeFilter.Add | gestion-gastos/src/main/java/dominio/filtros/FiltroCompuesto.java:25-27 | one more member, at the end |
| Filters.CompositeFilter.Current | gestion-gastos/src/main/java/dominio/filtros/FiltroCompuesto.java:21-35 | the composite with the current members |
| Filters.CompositeFilter.ApplyTo | gestion-gastos/src/main/java/dominio/filtros/FiltroCompuesto.java:30-35 | the expenses every current member keeps, in order |
| Notifications.Cents | gestion-gastos/src/main/java/dominio/Alerta.java:92-100 | `%.2f` rounding: the nearest cent, with ties away from zero |
| Notifications.CentsMonotone | gestion-gastos/src/main/java/dominio/Alerta.java:92-100 | rounding never reverses the order of two non-negative amounts |
| Notifications.Notification.constructor | gestion-gastos/src/main/java/dominio/Notificacion.java:31-41 | a new notification is unread, has a fresh identifier, and keeps its message and alert |
| Notifications.Notification.MarkRead | gestion-gastos/src/main/java/dominio/Notificacion.java:43-45 | the notification is read afterwards, and nothing else changes |
| Strategies.Label | gestion-gastos/src/main/java/dominio/enums/PeriodoTemporal.java:24-26 | "Semanal" for the weekly period, "Mensual" for the monthly one |
| Strategies.StrategyOf | gestion-gastos/src/main/java/dominio/Alerta.java:71-78 | the weekly strategy exactly for the weekly period |
| Strategies.Spend | gestion-gastos/src/main/java/dominio/estrategias/AlertaMensual.java:24-33 | a period's spend is never negative |
| Strategies.SpendAppend | gestion-gastos/src/main/java/dominio/estrategias/AlertaSemanal.java:25-40 | the spend of a concatenation is the sum of the spends; one more expense adds its amount exactly when it is counted; spend never decreases |
| Strategies.SpendNothingCounted | gestion-gastos/src/main/java/dominio/estrategias/AlertaSemanal.java:35-39 | nothing counted means nothing spent |
| Strategies.TodayInWeek | gestion-gastos/src/main/java/dominio/estrategias/AlertaSemanal.java:26-33 | today lies in the weekly window |
| Strategies.MonthlyHasNoEnd | gestion-gastos/src/main/java/dominio/estrategias/AlertaMensual.java:25-29 | today lies in the monthly window, and so does every later date |
| Strategies.SpendOfThree | gestion-gastos/src/main/java/dominio/estrategias/AlertaMensual.java:28-32 | a three-expense spend adds exactly the counted amounts |
| Strategies.MonthlyFoodExample | gestion-gastos/src/test/java/controlador/ControladorAlertasIntegrationTest.java:72-90 | a monthly limit on food counts 150 + 100 and not the 500 of transport |
| Alerts.PeriodLabel | gestion-gastos/src/main/java/dominio/Alerta.java:93 | the period's description, or "Desconocido" when there is no period |
| Alerts.MessageFor | gestion-gastos/src/main/java/dominio/Alerta.java:92-100 | the message holds the period label, the spend and the limit in cents, and the category's name exactly when there is a category |
| Alerts.Recorded | gestion-gastos/src/main/java/dominio/Alerta.java:80-90 | after recording, an unread entry carries the text; the journal is unchanged exactly when one already did, and otherwise gains one unread entry at the end |
| Alerts.Rebuilt | gestion-gastos/src/main/java/dominio/Alerta.java:71-78 | an existing strategy stays; a missing one is built from the period; there is none exactly when both are missing |
| Alerts.Checked | gestion-gastos/src/main/java/dominio/Alerta.java:54-68 | an inactive alert is unchanged; settings stay; the journal keeps its prefix and gains one unread entry exactly when the alert is active, has a strategy, its spend strictly exceeds the limit, and no unread entry carries the same text |
| Alerts.CheckedIdempotent | gestion-gastos/src/main/java/dominio/Alerta.java:54-90 | checking twice with the same expenses and clock is checking once, so at most one notification is added |
| Alerts.CheckedAfterRebuild | gestion-gastos/src/main/java/dominio/Alerta.java:172-177 | building the strategy early, as `getEstrategia` does, does not change the check |
| Alerts.ReadBreachRecordedAgain | gestion-gastos/src/main/java/dominio/Alerta.java:80-90 | once every notification is read, the same breach is recorded again |
| Alerts.Entries | gestion-gastos/src/main/java/dominio/Alerta.java:160-165 | one entry per notification, with its text and read flag |
| Alerts.UnreadOf | gestion-gastos/src/main/java/dominio/Alerta.java:102-109 | the unread notifications, in order: every one kept is unread and every unread one is kept; empty exactly when all are read |
| Alerts.UnreadMatchesJournal | gestion-gastos/src/main/java/dominio/Alerta.java:102-109 | the unread view is exactly the journal's unread entries, in order |
| Alerts.EntriesAppend | gestion-gastos/src/main/java/dominio/Alerta.java:87-89 | one more notification adds its entry at the end |
| Alerts.JournalUnread | gestion-gastos/src/main/java/dominio/Alerta.java:102-109 | only unread entries of the journal are kept |
| Alerts.NewAlert | gestion-gastos/src/main/java/dominio/Alerta.java:38-52 | a limit of zero or less is refused; otherwise a fresh, active alert with no notifications; an identifier is drawn either way |
| Alerts.Alert.State | gestion-gastos/src/main/java/dominio/Alerta.java:117-177 | the alert's fields and its notifications' entries |
| Alerts.Alert.constructor | gestion-gastos/src/main/java/dominio/Alerta.java:44-52 | the fields as given, active, with no notifications |
| Alerts.Alert.Check | gestion-gastos/src/main/java/dominio/Alerta.java:54-68 | the new state is `Checked` of the old one; at most one fresh notification is appended and the old ones stay in order |
| Alerts.Alert.Notify | gestion-gastos/src/main/java/dominio/Alerta.java:80-90 | the journal becomes `Recorded` of the old one with this spend's message |
| Alerts.Alert.GetStrategy | gestion-gastos/src/main/java/dominio/Alerta.java:172-177 | returns and stores `Rebuilt` of the old state; nothing else changes |
| Alerts.Alert.SetLimit | gestion-gastos/src/main/java/dominio/Alerta.java:111-132 | a limit of zero or less is refused with no change; otherwise only the limit changes |
| Alerts.Alert.SetPeriod | gestion-gastos/src/main/java/dominio/Alerta.java:138-142 | the period is set, and the strategy is rebuilt from it only when it is not null |
| Alerts.Alert.SetCategory | gestion-gastos/src/main/java/dominio/Alerta.java:148-150 | only the category changes |
| Alerts.Alert.SetActive | gestion-gastos/src/main/java/dominio/Alerta.java:156-158 | only the active flag changes |
| Alerts.Alert.Unread | gestion-gastos/src/main/java/dominio/Alerta.java:102-109 | exactly the unread notifications, matching the journal's unread entries |
| AlertCatalogues.AlertCatalogue.constructor | gestion-gastos/src/main/java/dominio/CatalogoAlertas.java:20-22 | a new catalogue is empty |
| AlertCatalogues.AlertCatalogue.Add | gestion-gastos/src/main/java/dominio/CatalogoAlertas.java:24-30 | null is ignored; an alert gets its strategy built if missing and goes at the end |
| AlertCatalogues.AlertCatalogue.Remove | gestion-gastos/src/main/java/dominio/CatalogoAlertas.java:32-34 | the first occurrence of this very alert goes; the list shrinks by one exactly when it was present |
| AlertCatalogues.AlertCatalogue.FindById | gestion-gastos/src/main/java/dominio/CatalogoAlertas.java:36-41 | the first alert with that identifier, and none exactly when no alert has it |
| AlertCatalogues.AlertCatalogue.All | gestion-gastos/src/main/java/dominio/CatalogoAlertas.java:43-45 | a copy of the list |
| AlertCatalogues.AlertCatalogue.CheckActive | gestion-gastos/src/main/java/dominio/CatalogoAlertas.java:52-57 | an alert passed through the filter and the loop body ends in the state `Checked` gives it, inactive ones unchanged |
| AlertCatalogues.AlertCatalogue.VerifyAll | gestion-gastos/src/main/java/dominio/CatalogoAlertas.java:48-58 | nothing changes without a list; otherwise every alert ends in the state one `Checked` gives it |
| AlertControllers.AllOfMembers | gestion-gastos/src/main/java/controlador/ControladorAlertas.java:99-103 | the flattened view holds every notification of every alert and nothing else |
| AlertControllers.AllOfAppend | gestion-gastos/src/main/java/controlador/ControladorAlertas.java:99-103 | flattening keeps alert order: the notifications of two runs of alerts are the first run's, then the second's |
| AlertControllers.UnreadOfSnoc | gestion-gastos/src/main/java/dominio/Alerta.java:102-109 | one more notification joins the unread view exactly when it is unread |
| AlertControllers.UnreadOfAppend | gestion-gastos/src/main/java/controlador/ControladorAlertas.java:87-91 | the unread part of two lists is the unread part of each, in order |
| AlertControllers.UnreadAllIsUnreadOfAll | gestion-gastos/src/main/java/controlador/ControladorAlertas.java:87-103 | the unread view, alert after alert, is the unread part of the view of all notifications |
| AlertControllers.AllHeldRead | gestion-gastos/src/main/java/controlador/ControladorAlertas.java:106-111 | when each alert's notifications are all read, so is the whole view |
| AlertControllers.HeldNotification | gestion-gastos/src/main/java/controlador/ControladorAlertas.java:99-103 | a notification an alert holds is among all notifications |
| AlertControllers.AlertController.constructor | gestion-gastos/src/main/java/controlador/ControladorAlertas.java:33-38 | the controller holds the collaborators it is given |
| AlertControllers.AlertController.Create | gestion-gastos/src/main/java/controlador/ControladorAlertas.java:41-59 | a limit of zero or less is refused before anything is added or saved; otherwise one fresh active alert with the period's strategy goes at the end, on the category the name finds (or on every category), and the alerts are saved |
| AlertControllers.AlertController.Modify | gestion-gastos/src/main/java/controlador/ControladorAlertas.java:62-69 | nothing happens for an unknown identifier; a non-positive limit is refused with no change; otherwise limit and flag are set and the alerts saved; no other alert changes |
| AlertControllers.AlertController.Delete | gestion-gastos/src/main/java/controlador/ControladorAlertas.java:72-78 | nothing happens for an unknown identifier; otherwise that alert leaves the list and the alerts are saved |
| AlertControllers.AlertController.Verify | gestion-gastos/src/main/java/controlador/ControladorAlertas.java:81-84 | every alert ends in its `Checked` state, and the alerts are saved |
| AlertControllers.AlertController.AllNotifications | gestion-gastos/src/main/java/controlador/ControladorAlertas.java:99-103 | the `flatMap` of the alerts' notifications (`AllOf`), alert after alert, with order and repeats kept; every notification of every alert, and nothing else |
| AlertControllers.AlertController.UnreadNotifications | gestion-gastos/src/main/java/controlador/ControladorAlertas.java:87-91 | the unread part of all notifications |
| AlertControllers.AlertController.CountUnread | gestion-gastos/src/main/java/controlador/ControladorAlertas.java:94-96 | the length of the unread part of all notifications; at most the number of notifications, and 0 exactly when all are read |
| AlertControllers.AlertController.MarkAllRead | gestion-gastos/src/main/java/controlador/ControladorAlertas.java:106-111 | no notification is added or removed, every one is read, the unread count is 0, and the alerts are saved |
| AlertControllers.AlertController.AllAlerts | gestion-gastos/src/main/java/controlador/ControladorAlertas.java:114-116 | the catalogue's alerts, in order |
| People.Person.constructor | gestion-gastos/src/main/java/dominio/Persona.java:20-34 | for a name that is not blank and a share in range, the fields as given and a zero balance |
| People.Person.SetName | gestion-gastos/src/main/java/dominio/Persona.java:36-57 | a blank name is refused and the old one kept; share and balance stay |
| People.Person.SetShare | gestion-gastos/src/main/java/dominio/Persona.java:63-68 | exactly the range 0 to 100 is accepted; otherwise the old share is kept |
| People.Person.SetBalance | gestion-gastos/src/main/java/dominio/Persona.java:74-76 | only the balance changes |
| People.NewPerson | gestion-gastos/src/main/java/dominio/Persona.java:20-40 | an identifier is drawn first; a blank name is refused; otherwise share and balance start at 0 |
| People.NewPersonWithShare | gestion-gastos/src/main/java/dominio/Persona.java:20-68 | the name is checked first, then the share, each with its own error |
| Ledgers.Delta | gestion-gastos/src/main/java/dominio/CuentaCompartida.java:87-101 | an expense without a payer changes nothing; the payer gains the amount less their portion; everyone else loses their portion |
| Ledgers.BalanceOfPrefix | gestion-gastos/src/main/java/dominio/CuentaCompartida.java:87-101 | one more expense adds its delta to each balance |
| Ledgers.BalanceAppend | gestion-gastos/src/main/java/dominio/CuentaCompartida.java:83-103 | the balance over a concatenated history is the sum of the balances over the parts |
| Ledgers.BalanceWithout | gestion-gastos/src/main/java/dominio/CuentaCompartida.java:105-108 | removing an expense takes back exactly its effect |
| Ledgers.BalanceOrderIrrelevant | gestion-gastos/src/main/java/dominio/CuentaCompartida.java:83-103 | balances depend on the multiset of expenses, not their order |
| Ledgers.PaidTotal | gestion-gastos/src/main/java/dominio/CuentaCompartida.java:87-91 | the total paid is never negative |
| Ledgers.PaidTotalAppend | gestion-gastos/src/main/java/dominio/CuentaCompartida.java:87-91 | one more expense adds its amount to the total paid exactly when it has a payer |
| Ledgers.PortionsTotal | gestion-gastos/src/main/java/dominio/CuentaCompartida.java:93-101 | the roster bears the expense times its percentage total |
| Ledgers.SumDeltasOne | gestion-gastos/src/main/java/dominio/CuentaCompartida.java:93-101 | one expense paid by a participant changes the sum of balances by its amount less the roster's portions; one without a payer changes nothing |
| Ledgers.SumDeltasNone | gestion-gastos/src/main/java/dominio/CuentaCompartida.java:93-101 | an expense paid by someone outside the roster only takes every portion |
| Ledgers.SumBalancesStep | gestion-gastos/src/main/java/dominio/CuentaCompartida.java:87-102 | one more expense adds its deltas to the sum of balances |
| Ledgers.SumBalancesEmpty | gestion-gastos/src/main/java/dominio/CuentaCompartida.java:85 | before the first expense every balance is 0 |
| Ledgers.PaidPortionsAppend | gestion-gastos/src/main/java/dominio/CuentaCompartida.java:87-101 | one more expense adds its portions when it has a payer |
| Ledgers.BalancesSum | gestion-gastos/src/main/java/dominio/CuentaCompartida.java:83-103 | the balances add up to what was paid less what the roster bears of it |
| Ledgers.PortionsNear | gestion-gastos/src/main/java/dominio/CuentaCompartida.java:55-63 | shares within 0.01 of 100 bear each expense to within 0.01 percent |
| Ledgers.PaidPortionsCover | gestion-gastos/src/main/java/dominio/CuentaCompartida.java:55-63 | shares summing to 100 bear all that was paid; shares within the tolerance bear it to within 0.01 percent |
| Ledgers.ZeroSum | gestion-gastos/src/main/java/dominio/CuentaCompartida.java:83-103 | with shares summing to 100 the balances sum to 0; within the tolerance they sum to within 0.01 percent of what was paid |
| Ledgers.EqualShares | gestion-gastos/src/main/java/dominio/CuentaCompartida.java:65-68 | each of n participants bears 100 / n percent |
| Ledgers.SumSharesConstant | gestion-gastos/src/main/java/dominio/CuentaCompartida.java:65-68 | k equal shares of p sum to k times p |
| Ledgers.EqualSplitSumsTo100 | gestion-gastos/src/main/java/dominio/CuentaCompartida.java:65-68 | the equal split's shares sum to exactly 100 |
| Ledgers.EqualSplitExample | gestion-gastos/src/main/java/dominio/CuentaCompartida.java:83-103 | equal split where A pays 100: A is owed 50 and B owes 50 |
| Ledgers.WeightedExample | gestion-gastos/src/main/java/dominio/CuentaCompartida.java:83-103 | 70/30 split where B pays 100: A owes 70 and B is owed 70 |
| SharedAccounts.MembersOf | gestion-gastos/src/main/java/dominio/CuentaCompartida.java:93-94 | each person's identifier and share, in roster order |
| SharedAccounts.OnRosterInRoster | gestion-gastos/src/main/java/dominio/CuentaCompartida.java:77-81 | being on the roster is being in the roster the balances see |
| SharedAccounts.SharedAccount.Roster | gestion-gastos/src/main/java/dominio/CuentaCompartida.java:93-94 | the roster as the balance computation sees it |
| SharedAccounts.SharedAccount.constructor | gestion-gastos/src/main/java/dominio/CuentaCompartida.java:30-35 | the fields as given, with no expenses |
| SharedAccounts.SharedAccount.ResetBalances | gestion-gastos/src/main/java/dominio/CuentaCompartida.java:85 | every balance is back to 0; shares and names stay |
| SharedAccounts.SharedAccount.ApplyExpense | gestion-gastos/src/main/java/dominio/CuentaCompartida.java:87-101 | every balance moves by that expense's delta; shares and names stay |
| SharedAccounts.SharedAccount.Recalculate | gestion-gastos/src/main/java/dominio/CuentaCompartida.java:83-103 | every balance ends as the fold of the whole history, with the roster unchanged |
| SharedAccounts.SharedAccount.AddExpense | gestion-gastos/src/main/java/dominio/CuentaCompartida.java:70-81 | a payer outside the roster is refused before anything changes; otherwise the expense with its payer goes at the end and balances are settled |
| SharedAccounts.SharedAccount.RemoveExpense | gestion-gastos/src/main/java/dominio/CuentaCompartida.java:105-108 | the first expense with the identifier leaves and balances are settled; without one nothing changes |
| SharedAccounts.SharedAccount.TotalExpenses | gestion-gastos/src/main/java/dominio/CuentaCompartida.java:110-114 | the total of the history, never negative |
| SharedAccounts.SharedAccount.ExpensesOf | gestion-gastos/src/main/java/dominio/CuentaCompartida.java:116-120 | exactly the expenses this person paid, in order |
| SharedAccounts.BalanceTotalIsSum | gestion-gastos/src/main/java/dominio/CuentaCompartida.java:83-103 | balances that are folds of a history add up as the folds do |
| SharedAccounts.SettledBalancesSum | gestion-gastos/src/main/java/dominio/CuentaCompartida.java:55-63 | a settled account's balances sum to what was paid less what the shares bear: 0 when the shares sum to 100, within 0.01 percent of what was paid under the tolerance |
| SharedAccounts.NewAccount | gestion-gastos/src/main/java/dominio/CuentaCompartida.java:30-68 | an identifier is drawn first; fewer than two people are refused; a weighted account needs shares summing to 100 within 0.01; an equal account gives everyone 100 / n |
| SharedAccounts.SplitEqually | gestion-gastos/src/main/java/dominio/CuentaCompartida.java:65-68 | everyone bears 100 / n percent; names and balances stay |
| AccountCatalogues.FindAccount | gestion-gastos/src/main/java/catalogos/CatalogoCuentasCompartidas.java:33-38 | the first account with that identifier, and none exactly when there is none |
| AccountCatalogues.AccountCatalogue.constructor | gestion-gastos/src/main/java/catalogos/CatalogoCuentasCompartidas.java:21-23 | a new catalogue is empty |
| AccountCatalogues.AccountCatalogue.Add | gestion-gastos/src/main/java/catalogos/CatalogoCuentasCompartidas.java:25-27 | the account goes at the end |
| AccountCatalogues.AccountCatalogue.Remove | gestion-gastos/src/main/java/catalogos/CatalogoCuentasCompartidas.java:29-31 | the first occurrence of this very account goes; an absent one changes nothing |
| AccountCatalogues.AccountCatalogue.Find | gestion-gastos/src/main/java/catalogos/CatalogoCuentasCompartidas.java:33-38 | a stored account with that identifier, and none exactly when there is none |
| AccountCatalogues.AccountCatalogue.All | gestion-gastos/src/main/java/catalogos/CatalogoCuentasCompartidas.java:40-42 | a copy of the list |
| Repositories.Repository.constructor | gestion-gastos/src/main/java/repositorio/Repositorio.java:16-30 | nothing saved yet |
| Repositories.Repository.SaveExpenses | gestion-gastos/src/main/java/repositorio/Repositorio.java:18 | one expense save is logged |
| Repositories.Repository.SaveCategories | gestion-gastos/src/main/java/repositorio/Repositorio.java:21 | one category save is logged |
| Repositories.Repository.SaveAlerts | gestion-gastos/src/main/java/repositorio/Repositorio.java:24 | one alert save is logged |
| Repositories.Repository.SaveAccounts | gestion-gastos/src/main/java/repositorio/Repositorio.java:27 | one account save is logged |
| ExpenseControllers.MonthOfLower | gestion-gastos/src/main/java/controlador/ControladorGastos.java:185-198 | a month found for a lower-case name is the one with that name |
| ExpenseControllers.MonthFromName | gestion-gastos/src/main/java/controlador/ControladorGastos.java:183-199 | a month found is the one whose name is the input in lower case; an unknown name is an error that carries it |
| ExpenseControllers.LowerCaseUnchanged | gestion-gastos/src/main/java/controlador/ControladorGastos.java:184 | lower-casing a name already in lower case changes nothing |
| ExpenseControllers.MonthNameRoundTrip | gestion-gastos/src/main/java/controlador/ControladorGastos.java:183-199 | every month's name gives that month back |
| ExpenseControllers.MonthNameIgnoresCase | gestion-gastos/src/main/java/controlador/ControladorGastos.java:183-199 | names that differ only in capitals give the same outcome |
| ExpenseControllers.Collected | gestion-gastos/src/main/java/controlador/ControladorGastos.java:147-149 | a set comes back exactly when every name converts; otherwise the error of the first name that does not |
| ExpenseControllers.CollectedMembers | gestion-gastos/src/main/java/controlador/ControladorGastos.java:147-149 | the set holds exactly the values of the names |
| ExpenseControllers.Resolved | gestion-gastos/src/main/java/controlador/ControladorGastos.java:95-98 | the set is empty exactly when no name finds a category |
| ExpenseControllers.ResolvedMembers | gestion-gastos/src/main/java/controlador/ControladorGastos.java:95-98 | a category is in the set exactly when some name finds it |
| ExpenseControllers.KeptByNames | gestion-gastos/src/main/java/controlador/ControladorGastos.java:90-126 | the filter built from the names keeps an expense exactly when its category's name equals, ignoring case, a name that finds a category |
| ExpenseControllers.AllResolved | gestion-gastos/src/main/java/controlador/ControladorGastos.java:166-169 | a set comes back exactly when every name finds a category, and then it is the categories found; otherwise CategoryNotFound |
| ExpenseControllers.RegisteredFacts | gestion-gastos/src/main/java/controlador/ControladorGastos.java:43-57 | success exactly when the name finds a category or is not blank and the amount is not negative; then one expense is appended with those fields, under a category matching the name, and the total grows by the amount; a blank new name changes nothing; a negative amount keeps the new category but adds no expense; names stay unique |
| ExpenseControllers.ModifiedErrors | gestion-gastos/src/main/java/controlador/ControladorGastos.java:60-77 | an unknown expense, then an unknown category, then a negative amount is refused, in that order, and success exactly when none applies |
| ExpenseControllers.ModifiedChange | gestion-gastos/src/main/java/controlador/ControladorGastos.java:60-77 | a change keeps the length and every other expense, replaces the expense in its place with its identifier and payer kept, and moves the total by the change in amount |
| ExpenseControllers.ExpenseController.constructor | gestion-gastos/src/main/java/controlador/ControladorGastos.java:33-40 | the collaborators as given |
| ExpenseControllers.ExpenseController.Persist | gestion-gastos/src/main/java/controlador/ControladorGastos.java:225-228 | the expenses are saved, then the categories |
| ExpenseControllers.ExpenseController.CheckAlerts | gestion-gastos/src/main/java/controlador/ControladorGastos.java:76 | every alert ends checked against all current expenses, the alerts are saved to the alerts' repository, and the expenses and categories are left as they were |
| ExpenseControllers.ExpenseController.Record | gestion-gastos/src/main/java/controlador/ControladorGastos.java:43-57 | the registry and catalogue end as `Registered` says, and the lists are saved only after a success |
| ExpenseControllers.ExpenseController.Register | gestion-gastos/src/main/java/controlador/ControladorGastos.java:43-57 | as `Record`, and after a success every alert is checked against all expenses and the alerts are saved |
| ExpenseControllers.ExpenseController.Change | gestion-gastos/src/main/java/controlador/ControladorGastos.java:60-77 | the catalogue ends as `Modified` says, and the lists are saved only after a success |
| ExpenseControllers.ExpenseController.Modify | gestion-gastos/src/main/java/controlador/ControladorGastos.java:60-77 | as `Change`, and after a success every alert is checked against all expenses and the alerts are saved |
| ExpenseControllers.ExpenseController.Delete | gestion-gastos/src/main/java/controlador/ControladorGastos.java:80-86 | an unknown identifier changes nothing; otherwise the first expense with it leaves and the lists are saved |
| ExpenseControllers.ExpenseController.FilterByCategories | gestion-gastos/src/main/java/controlador/ControladorGastos.java:90-126 | no names, then no name that finds a category, is an error; otherwise exactly the expenses of the categories found, in order |
| ExpenseControllers.ExpenseController.FilterByDates | gestion-gastos/src/main/java/controlador/ControladorGastos.java:129-139 | a missing date, then a start after the end, is an error; otherwise exactly the expenses dated within the range, both ends included, in order |
| ExpenseControllers.ExpenseController.FilterByMonths | gestion-gastos/src/main/java/controlador/ControladorGastos.java:142-153 | no names, then the first name that is no month, is an error; otherwise exactly the expenses of the months named, in order |
| ExpenseControllers.ExpenseController.FilterComposite | gestion-gastos/src/main/java/controlador/ControladorGastos.java:156-179 | no names, then a missing date, then a name that finds no category, is an error; otherwise exactly the expenses both filters keep; a start after the end keeps nothing |
| ExpenseControllers.ExpenseController.TotalSpent | gestion-gastos/src/main/java/controlador/ControladorGastos.java:208-212 | the sum of every amount in the catalogue (`Total`), so never negative, 0 with no expenses, and at least each amount |
| ExpenseControllers.ExpenseController.AllExpenses | gestion-gastos/src/main/java/controlador/ControladorGastos.java:203-205 | the catalogue's expenses, in order |
| ExpenseControllers.ExpenseController.ByCategory | gestion-gastos/src/main/java/controlador/ControladorGastos.java:215-217 | the catalogue's grouping by category: an error exactly when an expense has no category, otherwise groups whose sizes add up to the number of expenses |
| ExpenseControllers.ExpenseController.ByMonth | gestion-gastos/src/main/java/controlador/ControladorGastos.java:220-222 | the catalogue's grouping by month, whose sizes add up to the number of expenses |
| CategoryControllers.ExpensesUsing | gestion-gastos/src/main/java/controlador/ControladorCategorias.java:108-115 | the number of positions of the list holding an expense filed under the identifier, which is the length of the filtered list; 0 exactly when there is none, at most the length |
| CategoryControllers.AlertsUsing | gestion-gastos/src/main/java/controlador/ControladorCategorias.java:120-127 | the number of positions of the list holding an alert that watches the identifier; 0 exactly when there is none, at most the length |
| CategoryControllers.MatchesOnce | gestion-gastos/src/main/java/controlador/ControladorCategorias.java:51-84 | with unique names, at most one category matches a name ignoring case |
| CategoryControllers.DroppedMatchLeavesNone | gestion-gastos/src/main/java/controlador/ControladorCategorias.java:51-84 | with unique names, removing the matching category leaves none that matches |
| CategoryControllers.RemovedNotFound | gestion-gastos/src/main/java/controlador/ControladorCategorias.java:51-84 | once the category a name finds is removed, the name finds nothing |
| CategoryControllers.CategoryController.constructor | gestion-gastos/src/main/java/controlador/ControladorCategorias.java:28-36 | the collaborators as given |
| CategoryControllers.CategoryController.Create | gestion-gastos/src/main/java/controlador/ControladorCategorias.java:41-45 | the identifier is drawn first; a blank name, then a name already taken ignoring case, changes nothing else; otherwise the category goes at the end and the categories are saved |
| CategoryControllers.CategoryController.CountExpenses | gestion-gastos/src/main/java/controlador/ControladorCategorias.java:108-115 | 0 for a name that finds no category; otherwise the number of expenses filed under the category found, 0 exactly when there is none |
| CategoryControllers.CategoryController.CountAlerts | gestion-gastos/src/main/java/controlador/ControladorCategorias.java:120-127 | 0 for a name that finds no category; otherwise the number of alerts watching the category found, 0 exactly when there is none |
| CategoryControllers.CategoryController.Delete | gestion-gastos/src/main/java/controlador/ControladorCategorias.java:51-84 | an unknown name changes nothing; a category in use by expenses, then by alerts, is refused with the count; otherwise it goes, the categories are saved, and the name finds nothing any more |
| CategoryControllers.CategoryController.ForceDelete | gestion-gastos/src/main/java/controlador/ControladorCategorias.java:89-95 | the category a name finds goes with no check of who uses it, the categories are saved, and the name finds nothing any more |
| CategoryControllers.CategoryController.Find | gestion-gastos/src/main/java/controlador/ControladorCategorias.java:97-99 | the first category whose name matches ignoring case, and none exactly when none matches |
| CategoryControllers.CategoryController.All | gestion-gastos/src/main/java/controlador/ControladorCategorias.java:101-103 | the registry's categories, in order |
| AccountControllers.FirstPersonError | gestion-gastos/src/main/java/controlador/ControladorCuentasCompartidas.java:116-121 | none exactly when no position before n has an error; otherwise the error of the first position that has one |
| AccountControllers.FirstPersonErrorStays | gestion-gastos/src/main/java/controlador/ControladorCuentasCompartidas.java:116-121 | once a prefix of the names has an error, the loop stops there: every longer prefix has the same first error |
| AccountControllers.SharesCoverNames | gestion-gastos/src/main/java/controlador/ControladorCuentasCompartidas.java:117-118 | a weighted account with no error has a percentage for every name |
| AccountControllers.MakePeople | gestion-gastos/src/main/java/controlador/ControladorCuentasCompartidas.java:112-124 | the first position with an error stops it with that error; otherwise one fresh person per name, in order, with consecutive identifiers, zero balances, and the percentage at the same position for a weighted account and 0 otherwise |
| AccountControllers.SumSharesOfPeople | gestion-gastos/src/main/java/controlador/ControladorCuentasCompartidas.java:53-73 | the roster of people holding these percentages sums them |
| AccountControllers.PersonNamed | gestion-gastos/src/main/java/controlador/ControladorCuentasCompartidas.java:83-86 | the first person whose name is exactly the one given, and none exactly when nobody has it |
| AccountControllers.ParticipantsInclude | gestion-gastos/src/main/java/controlador/ControladorCuentasCompartidas.java:76-99 | the people of an account of the list are among its participants |
| AccountControllers.FoundParticipants | gestion-gastos/src/main/java/controlador/ControladorCuentasCompartidas.java:78-86 | the people of the account an identifier finds are among the participants |
| AccountControllers.Summary | gestion-gastos/src/main/java/controlador/ControladorCuentasCompartidas.java:166-184 | one line per person, in roster order, with their name; a positive balance is owed to them as that balance, a negative one is owed by them as the balance negated, so always as an amount above 0 |
| AccountControllers.NetIsBalanceTotal | gestion-gastos/src/main/java/controlador/ControladorCuentasCompartidas.java:166-184 | what the lines say is owed adds up to the balances |
| AccountControllers.SettledSummaryBalances | gestion-gastos/src/main/java/controlador/ControladorCuentasCompartidas.java:166-184 | in an up-to-date account whose percentages sum to 100, what some are owed is exactly what the others owe |
| AccountControllers.OpenAccount | gestion-gastos/src/main/java/controlador/ControladorCuentasCompartidas.java:102-124 | the first person error, then fewer than two people, then weighted percentages that do not add up, is refused; an equal account always opens; the account opened holds the people in order with their percentages |
| AccountControllers.Charge | gestion-gastos/src/main/java/controlador/ControladorCuentasCompartidas.java:95-96 | an identifier is drawn; a negative amount is refused with the history unchanged; otherwise the expense is appended, paid by the payer, and every balance is up to date |
| AccountControllers.Uncharge | gestion-gastos/src/main/java/controlador/ControladorCuentasCompartidas.java:150-163 | an unknown expense is refused; otherwise the first expense with the identifier leaves and every balance is up to date |
| AccountControllers.ChargeShared | gestion-gastos/src/main/java/controlador/ControladorCuentasCompartidas.java:88-96 | the category Compartido is found ignoring case or created and registered at the end; the expense, filed under it, is then charged; no other account changes |
| AccountControllers.ChargeInAccount | gestion-gastos/src/main/java/controlador/ControladorCuentasCompartidas.java:76-97 | an unknown account, then an unknown payer, is refused with nothing changed; otherwise the category is found or created, and the expense goes into that account only, which is up to date |
| AccountControllers.ChargeWithCategory | gestion-gastos/src/main/java/controlador/ControladorCuentasCompartidas.java:127-146 | an unknown account, then an unknown category, then an unknown payer, is refused with nothing changed; otherwise the expense goes into that account only, filed under that category |
| AccountControllers.UnchargeInAccount | gestion-gastos/src/main/java/controlador/ControladorCuentasCompartidas.java:150-162 | an unknown account, then an unknown expense, is refused; otherwise the expense leaves that account only, which is up to date |
| AccountControllers.AccountController.constructor | gestion-gastos/src/main/java/controlador/ControladorCuentasCompartidas.java:29-35 | the collaborators as given |
| AccountControllers.AccountController.CreateAccount | gestion-gastos/src/main/java/controlador/ControladorCuentasCompartidas.java:102-109 | the account `OpenAccount` builds goes at the end and the accounts are saved; on failure nothing is added or saved |
| AccountControllers.AccountController.CreateEqual | gestion-gastos/src/main/java/controlador/ControladorCuentasCompartidas.java:38-50 | fewer than two names are refused before any identifier is drawn; a blank name is refused; otherwise an equal account with 100 / n percent each is added and saved |
| AccountControllers.AccountController.CreateWeighted | gestion-gastos/src/main/java/controlador/ControladorCuentasCompartidas.java:53-73 | fewer than two entries, then percentages farther than 0.01 from 100, are refused before any identifier is drawn; success exactly when every name is not blank and every percentage in range; the account holds the entries in order |
| AccountControllers.AccountController.RegisterExpense | gestion-gastos/src/main/java/controlador/ControladorCuentasCompartidas.java:76-99 | `ChargeInAccount`, and the accounts are saved only after a success |
| AccountControllers.AccountController.RegisterShared | gestion-gastos/src/main/java/controlador/ControladorCuentasCompartidas.java:127-147 | `ChargeWithCategory` with the category the name finds, and the accounts are saved only after a success |
| AccountControllers.AccountController.DeleteSharedExpense | gestion-gastos/src/main/java/controlador/ControladorCuentasCompartidas.java:150-163 | `UnchargeInAccount`, and the accounts are saved only after a success |
| AccountControllers.AccountController.DebtSummary | gestion-gastos/src/main/java/controlador/ControladorCuentasCompartidas.java:166-184 | an unknown account is an error; otherwise the summary of its people |
| AccountControllers.AccountController.DeleteAccount | gestion-gastos/src/main/java/controlador/ControladorCuentasCompartidas.java:187-193 | an unknown identifier changes nothing; otherwise the first account with it leaves and the accounts are saved |
| AccountControllers.AccountController.All | gestion-gastos/src/main/java/controlador/ControladorCuentasCompartidas.java:196-198 | the catalogue's accounts, in order |
| BankAdapters.AmountText | gestion-gastos/src/main/java/importador/AdaptadorBancario.java:45 | every comma of the field becomes a point and nothing else changes |
| BankAdapters.ReadLine | gestion-gastos/src/main/java/importador/AdaptadorBancario.java:38-47 | a line blank once trimmed, or with fewer than four fields, is skipped; a line is read exactly when it has four fields and both its date and its amount parse, and then it carries those values with the third and fourth fields |
| BankAdapters.Register | gestion-gastos/src/main/java/importador/AdaptadorBancario.java:70-77 | the category found ignoring case, else a new one with the next identifier, appended only when it could be made; the name then finds it; names stay unique |
| BankAdapters.Filed | gestion-gastos/src/main/java/importador/AdaptadorBancario.java:49-55 | a row adds at most one expense, at the end, exactly when its amount is not negative and its category exists; the expense has the row's fields, no payer, and the category the name finds; a new category stays even when the expense is refused |
| BankAdapters.Rows | gestion-gastos/src/main/java/importador/AdaptadorBancario.java:37-57 | the loop only appends expenses, at most one per line, only appends categories, never reuses an identifier, and keeps names unique |
| BankAdapters.ReadLines | gestion-gastos/src/main/java/importador/AdaptadorBancario.java:37-47 | one reading per line, in order |
| BankAdapters.RowStep | gestion-gastos/src/main/java/importador/AdaptadorBancario.java:37-57 | one pass adds at most one expense, at the end, with an amount of at least 0, no payer, a category in the registry and an identifier drawn during that pass |
| BankAdapters.RowsTake | gestion-gastos/src/main/java/importador/AdaptadorBancario.java:37 | the loop over k + 1 lines is the loop over k lines followed by one more pass |
| BankAdapters.RowsImported | gestion-gastos/src/main/java/importador/AdaptadorBancario.java:37-57 | every expense the loop adds has an amount of at least 0, no payer, a registered category and an identifier drawn during the import |
| BankAdapters.RowsIncreasing | gestion-gastos/src/main/java/importador/AdaptadorBancario.java:37-57 | the identifiers of the expenses added increase in file order |
| BankAdapters.ImportFacts | gestion-gastos/src/main/java/importador/AdaptadorBancario.java:31-60 | an import keeps names unique, only appends categories, adds at most one expense per line after the header, and each expense it returns is well formed with an identifier of its own |
| BankAdapters.HeaderOnlyImportsNothing | gestion-gastos/src/main/java/importador/AdaptadorBancario.java:33-37 | content of at most one line, the header, imports nothing and changes nothing |
| BankAdapters.RowsAppend | gestion-gastos/src/main/java/importador/AdaptadorBancario.java:37-57 | lines are processed one after the other: two runs of lines in a row give the same as one run after the other |
| BankAdapters.SkippedLineIgnored | gestion-gastos/src/main/java/importador/AdaptadorBancario.java:39-42 | a skipped line can be dropped from anywhere in the file without changing the outcome |
| BankAdapters.NegativeRowKeepsCategory | gestion-gastos/src/main/java/importador/AdaptadorBancario.java:49-55 | a row with a negative amount adds no expense but its new category is registered |
| BankAdapters.CanHandle | gestion-gastos/src/main/java/importador/AdaptadorBancario.java:63-67 | accepted exactly when the content has a semicolon and more than one line after `split`: some line break is followed, somewhere later, by a character that is not a line break |
| BankAdapters.RefusedImportsNothing | gestion-gastos/src/main/java/importador/AdaptadorBancario.java:31-67 | content refused only for having one line would import nothing |
| BankAdapters.BankAdapter.constructor | gestion-gastos/src/main/java/importador/AdaptadorBancario.java:26-28 | the registry as given |
| BankAdapters.BankAdapter.ParseLine | gestion-gastos/src/main/java/importador/AdaptadorBancario.java:38-55 | the registry, the identifiers and the expense added are one pass of `Rows` |
| BankAdapters.BankAdapter.File | gestion-gastos/src/main/java/importador/AdaptadorBancario.java:49-55 | the registry, the identifiers and the expense added are what `Filed` says |
| BankAdapters.BankAdapter.ParseLines | gestion-gastos/src/main/java/importador/AdaptadorBancario.java:37-57 | the expenses, registry and identifiers are what `Rows` says of the lines |
| BankAdapters.BankAdapter.Parse | gestion-gastos/src/main/java/importador/AdaptadorBancario.java:31-60 | the expenses, registry and identifiers are what `Import` says of the content |
| ImporterFactories.FirstAccepting | gestion-gastos/src/main/java/importador/FabricaImportadores.java:41-47 | an adapter is found exactly when one accepts the content, and it is the first that does; otherwise NoAdapter |
| ImporterFactories.FirstAcceptingAppend | gestion-gastos/src/main/java/importador/FabricaImportadores.java:36-47 | appending an adapter changes no lookup that succeeded; a lookup that failed now finds the new adapter exactly when it accepts the content |
| ImporterFactories.ImporterFactory.constructor | gestion-gastos/src/main/java/importador/FabricaImportadores.java:23-25 | a new factory holds no adapter |
| ImporterFactories.ImporterFactory.Get | gestion-gastos/src/main/java/importador/FabricaImportadores.java:41-47 | the first registered adapter that accepts the content, found exactly when one does; otherwise NoAdapter |
| ImporterFactories.ImporterFactory.Register | gestion-gastos/src/main/java/importador/FabricaImportadores.java:36-38 | the adapter goes at the end; no lookup that succeeded changes, and one that failed finds it exactly when it accepts |
| ImporterFactories.ImporterFactory.Clear | gestion-gastos/src/main/java/importador/FabricaImportadores.java:50-52 | no adapter is left and every lookup fails |

## Left out

- The user interface (`ui/`) and `NotificacionManager`: presentation and console I/O only.
- `RepositorioJSON`: Jackson reading and writing of files. A save is modelled as an entry in the repository's log.
- Repositories.Repository: the log entries for alerts and accounts hold the saved objects themselves, not their contents at the time of the save. A later change to an alert or an account shows in every earlier entry, so the log records which objects were saved and in what order, not what was written.
- `ImportadorDatos` and `ControladorImportador`: they read a file and hand its text to the adapter. The adapter's parsing is modelled.
- `FachadaAplicacion` and the `getInstancia` singletons: object wiring. The importer factory is modelled as an ordinary object that its owner creates once.
- `synchronized` on `getInstancia`: concurrency is not modelled.
- `UUID.randomUUID()`: identifiers are drawn from a counter. The model relies only on two draws never being equal.
- `LocalDate.now()` and the locale's first day of the week: these are the `Clock` value the caller passes in.
- `Notificacion.fechaGeneracion` (`LocalDateTime.now()` when a notification is made): a notification carries no timestamp, and nothing in the core reads it.
- `LocalDate.parse` and `Double.parseDouble` in the bank adapter: these are partial functions passed as parameters. Their formats are not modelled.
- `double`: amounts, percentages and balances are exact reals, with no rounding or overflow. The 0.01 tolerance on percentages is kept as a comparison of reals.
- `String.format("%.2f")`: the text of an alert's message and of a debt-summary line is not built. A message is the record of its period label, its amounts in cents and its category name. A summary line is the name, the direction and the amount.
- `toLowerCase` and `equalsIgnoreCase` fold ASCII and Latin-1 letters only, not the whole of Unicode.
- `HashMap` iteration order: the groupings are maps. `crearCuentaPorcentual` receives its entries in the order the map yields them.
- Debug output in `filtrarPorCategorias` and the error messages printed by the bank adapter.
- `Persona.setId`, and the plain getters and setters that only read or write a field, have no model of their own.
- People.Person.constructor: requires a name that is not blank and a share in range. In Java these checks are made by the constructor itself, which here is `NewPerson` or `NewPersonWithShare`.
- SharedAccounts.NewAccount: requires that the people are distinct objects with distinct identifiers. Java does not check this. Every caller builds the people fresh, each with an identifier of its own.
- SharedAccounts.SplitEqually: requires distinct people for the same reason.
- `null` arguments: some of Java's `null` checks take an `Option` in the model. These are the alert's category name and the expense list to verify against, the alert and the expense to add, and the two dates of a date filter. Elsewhere references are never null, so these `null` paths are dropped:
  - the name checks of `Categoria` and `Persona` (a null name); the blank path is modelled;
  - the people list of `CuentaCompartida` (a null list); fewer than two people is modelled;
  - the list of category names or month names in `filtrarPorCategorias`, `filtrarPorMeses` and `filtrarCompuesto` (a null list); an empty one is modelled.
