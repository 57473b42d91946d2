# Rental management tool: a verified model of its core

The rental manager is a terminal application. It keeps units, tenants and
payments in SQLite, and drives every screen from a tree of menu nodes. This
project is a Dafny model of the parts of it that hold logic. Each is stated
and proved against a specification.

- **Menu-navigation engine** (`menu_tree.dfy`, `legacy_menu_tree.dfy`,
  `cli.dfy`). `Node` and `MenuTree` are classes whose methods update fields
  in place:
  - labels are validated;
  - every attachment overwrites the `parent` link, so a shared node's
    parent is its last attachment;
  - children are an ordered list;
  - a node stores one procedure and one `data_ref` selection slot;
  - `Node.last_node` is class-wide, held by a `NodeClass` object.

  The earlier revision `lib/menu_tree.py` is modelled too: its bounded
  procedures, 1-based menu entries with Python negative indexing, and
  fallback to the current node. So is the `while True` driver loop of
  `lib/_3_cli.py`, which runs a procedure first and then the menu.
- **Generic interactive flows** (`populate_menu.dfy`). These are the
  prompt-with-retry routine with its "exit"/"e" cancel words, collecting a
  new record, the repeated attribute picker that edits a record,
  confirmation, menu titles after a selection, narrowing a selection to the
  children of a selected parent, and the delete flow. User answers are a
  queue held by a `Terminal` object: typed lines for `input()` and list
  positions for `pick`.
- **Field validators** (`validation.dfy`). These are pure functions over a
  tagged Python value (`py_values.dfy`), each with its `__name__` and its
  `constraints`.
- **Entities and the identity map** (`entities.dfy`, `sql_helper.dfy`).
  - Unit, Tenant and Payment share one `Entity` class. What differs between
    them (prompts, validated setters, row layout, constructor order) is data
    in a `Schema`.
  - The class-level `all` dictionary is a `Cache` class.
  - The database is an abstract source of rows and fresh row ids.
- **Rent rollforward** (`rollforward.dfy`). `get_rollforward` is an
  imperative loop. It is proved equal to a recursive statement function, and
  the statement's properties are lemmas.
  - Dates are day numbers and amounts are integer cents.
  - "One month later" is any strictly increasing function.
  - The stop date is a parameter: the move-out day, or for a current tenant
    the day after today. `datetime.now()` carries the time of day, so a
    period starting today is still before it.

The entity classes under `src/lib/database/` import their validators from
`src/lib/helper/validation.py`, which is not part of this model. Their
`VALIDATION_DICT`s name the same validators as `lib/validation.py`, so the
entity schemas use the `lib/validation.py` functions.

## Model

| member | source | states |
|---|---|---|
| Validation.NameValidation | lib/validation.py:4-11 | accepts exactly non-empty strings and returns them unchanged; otherwise ValueError "Name must be non-empty string" |
| Validation.AddressValidation | lib/validation.py:14-21 | accepts exactly non-empty strings and returns them unchanged; otherwise ValueError "Address must be non-empty string" |
| Validation.DescrValidation | lib/validation.py:24-31 | accepts exactly strings of at least two characters, unchanged |
| Validation.EmailValidation | lib/validation.py:34-44 | accepts exactly strings of the email shape (local part, '@', word characters, '.', lowercase letters), unchanged |
| Validation.MatchesEmailIffShape | lib/validation.py:38-42 | the left-to-right matcher accepts a string iff it splits into the pattern's parts |
| Validation.EmailPatternQuirks | lib/validation.py:38-44 | the class `[A-z]` lets `[` start an address, and a one-letter local part is refused |
| Validation.PhoneValidation | lib/validation.py:47-57 | accepts exactly "(ddd) ddd-dddd", "ddd-ddd-dddd" or ten digits, unchanged |
| Validation.PhoneHasTenDigits | lib/validation.py:51-55 | every accepted phone number holds exactly ten digits |
| Validation.DateValidation | lib/validation.py:60-70 | accepts exactly dddd-dd-dd strings of ASCII digits, unchanged |
| Validation.DateParts | lib/validation.py:64-68 | an accepted date splits into a 4-digit, a 2-digit and a 2-digit field |
| Validation.OptionalDateValidation | lib/validation.py:73-80 | None and "" become None; anything else is judged as by the date validator |
| Validation.DollarAmtValidation | lib/validation.py:83-90 | accepts exactly int, bool or float values that are at least 0, and returns them as float |
| Validation.ChoiceValidation | lib/validation.py:93-127 | accepts exactly a string in the listed choices, unchanged |
| Validation.ParentIdValidation | lib/validation.py:129-136 | accepts exactly a value of type int (not bool) whose parent row exists, unchanged |
| Validation.ChoiceValidatorsMatchConstraints | lib/validation.py:93-127 | each choice validator accepts a string iff it is in that validator's `constraints` list |
| Validation.LibraryValidatorsIdempotent | lib/validation.py:4-136 | validating an accepted value again gives the same result |
| Validation.LibraryValidatorsKeepText | lib/validation.py:4-80 | the text validators return their input unchanged |
| Menu.CheckLabel | src/lib/tree/menu_tree.py:207-223 | a label is accepted iff it is a non-empty string; otherwise the setter's ValueError |
| Menu.TitleArgument | src/lib/tree/menu_tree.py:188 | the title defaults to the option label when none is given |
| Menu.MenuTree.constructor | src/lib/tree/menu_tree.py:33-43 | the node becomes the root and its `menu_tree` is the new tree |
| Menu.MenuTree.ToMain | src/lib/tree/menu_tree.py:132-141 | always returns the root |
| Menu.NodeClass.constructor | src/lib/tree/menu_tree.py:174 | `last_node` starts as None |
| Menu.Node.Init | src/lib/tree/menu_tree.py:176-193 | a new node is detached, childless, without procedure or selection |
| Menu.Node.New | src/lib/tree/menu_tree.py:176-193 | checks the option label, then the title (defaulting to the option label); ValueError on either |
| Menu.Node.SetOptionLabel | src/lib/tree/menu_tree.py:207-212 | stores a non-empty string; otherwise ValueError and the label is unchanged |
| Menu.Node.SetTitleLabel | src/lib/tree/menu_tree.py:218-223 | stores a non-empty string; otherwise ValueError and the title is unchanged |
| Menu.Node.AddProcedure | src/lib/tree/menu_tree.py:263-281 | a callable replaces any stored procedure; anything else raises ValueError and changes nothing |
| Menu.Node.ValidateChild | src/lib/tree/menu_tree.py:283-300 | True for a Node, ValueError otherwise |
| Menu.Node.AddChild | src/lib/tree/menu_tree.py:302-314 | the child's parent becomes this node, its tree becomes this node's tree, and it is appended; a non-Node raises and changes nothing |
| Menu.Node.AddChildren | src/lib/tree/menu_tree.py:316-326 | attaches nodes in order up to the first non-Node, which raises; the earlier ones stay attached |
| Menu.FirstNonNodeAt | src/lib/tree/menu_tree.py:316-326 | a non-Node reached while every earlier entry is a Node is where `add_children` stops |
| Menu.AttachUnderBoth | src/lib/tree/menu_tree.py:302-314 | a node attached under two parents is in both children lists, and its parent is the second (last attachment wins) |
| Menu.Node.ShowMenu | src/lib/tree/menu_tree.py:331-344 | sets `Node.last_node` to this node and returns the picked child; an empty menu raises |
| Menu.Node.RunProcedure | src/lib/tree/menu_tree.py:346-358 | a truthy result wins; otherwise this node if it has children, else its parent; no procedure raises TypeError |
| LegacyMenu.ProcedureFrom | lib/menu_tree.py:96-130 | checks prompt, callable, bool flag, then bounds in source order; bounds are kept only when input is required |
| LegacyMenu.ProcedureFromWellBounded | lib/menu_tree.py:109-120 | a stored procedure that needs input has int bounds with 0 < lower < upper, otherwise no bounds |
| LegacyMenu.PyListIndex | lib/menu_tree.py:153-154 | Python list indexing: in range iff -len <= i < len, and negative indexes count from the end |
| LegacyMenu.MenuEntriesForChild | lib/menu_tree.py:151-154 | child k is reached exactly by the entries k+1 and k+1-len |
| LegacyMenu.MenuTree.constructor | lib/menu_tree.py:10-12 | the node becomes the root and its `menu_tree` is the new tree |
| LegacyMenu.MenuTree.ToMain | lib/menu_tree.py:38-39 | always returns the root |
| LegacyMenu.Node.Init | lib/menu_tree.py:42-48 | a new node is detached, childless and without procedure |
| LegacyMenu.Node.New | lib/menu_tree.py:42-59 | succeeds iff the label is a non-empty string, else ValueError |
| LegacyMenu.Node.SetLabel | lib/menu_tree.py:54-59 | stores a non-empty string; otherwise ValueError and the label is unchanged |
| LegacyMenu.Node.AddProcedure | lib/menu_tree.py:96-130 | stores what `ProcedureFrom` builds, or raises its error and keeps the old procedure |
| LegacyMenu.Node.AddChild | lib/menu_tree.py:132-142 | sets the child's parent and tree and appends it; a non-Node raises and changes nothing |
| LegacyMenu.Node.AddChildren | lib/menu_tree.py:144-146 | attaches in order up to the first non-Node, which raises; the earlier ones stay attached, and the nodes after the stop keep their parent and tree |
| LegacyMenu.Node.ShowMenu | lib/menu_tree.py:148-158 | entry n selects `children[n-1]` under Python indexing; a missing, non-integer or out-of-range entry returns this node |
| LegacyMenu.Node.RunProcedure | lib/menu_tree.py:160-174 | with input required, calls only for lower <= x <= upper, else ValueError; a truthy result wins, otherwise the parent |
| LegacyMenu.Node.GoBack | lib/menu_tree.py:176-177 | returns the parent |
| LegacyMenu.AttachedAppend | lib/menu_tree.py:144-146 | attaching one more node extends the attached list by exactly that node |
| Cli.MenuHalf | lib/_3_cli.py:14-15 | a node with children is replaced by its menu choice; a childless node stays |
| Cli.Step | lib/_3_cli.py:9-17 | one iteration runs the procedure first, then the menu of the node that results |
| Cli.Walk | lib/_3_cli.py:7-17 | the walk stays among the menu's nodes |
| Cli.Navigate | lib/_3_cli.py:7-17 | the loop starting at `menu.root` ends in the state the walk specification gives |
| Cli.WalkStaysEnded | lib/_3_cli.py:8-10 | once the process has exited or crashed, later answers change nothing |
| Cli.FixedPoint | lib/_3_cli.py:9-15 | a node with neither procedure nor children never changes |
| Cli.ExitOnlyByProcedure | lib/_3_cli.py:8-10 | the loop exits only through a procedure that exits the process |
| Cli.MenuOnlyPass | lib/_3_cli.py:14-15 | a node without procedure and with children moves to the chosen child or stays |
| Cli.ProcedureThenParentMenu | lib/_3_cli.py:9-15 | a procedure returning nothing leads to the parent's menu in the same iteration; with no parent the loop crashes |
| Entities.UnitSchema | src/lib/database/unit.py:58-146 | the Unit schema is well formed: every prompted key and column has a validating setter |
| Entities.TenantSchema | src/lib/database/tenant.py:60-158 | the Tenant schema is well formed and `unit_id` is checked against existing units |
| Entities.PaymentSchema | src/lib/database/payment.py:60-144 | the Payment schema is well formed; a row's columns map onto the constructor's order |
| Entities.SetField | src/lib/database/unit.py:112-146 | a validated property stores what its validator returns, or raises and stores nothing |
| Entities.AssignAllStores | src/lib/database/unit.py:88-93 | after an error-free run of assignments, each key holds its last validated value |
| Entities.AssignAllKeeps | src/lib/database/unit.py:88-93 | assignments to other keys leave a key's value alone |
| Entities.RowValues | src/lib/database/payment.py:164-184 | a row supplies exactly one value per constructor argument |
| Entities.Entity.Set | src/lib/database/unit.py:112-146 | an assignment through the property setter: stored on success, unchanged on error |
| Entities.New | src/lib/database/unit.py:69-93 | a new instance carries the id and the fields its setters built, or the first setter error |
| Entities.InstanceFromDb | src/lib/database/tenant.py:173-200 | a cached id updates and returns that same object, assigning the columns in order and stopping at the first setter that raises; otherwise builds and caches a new one under the row id; either way the result is `RowResult` of the row and the fields cached under its id |
| Entities.Save | src/lib/database/tenant.py:261-277 | the instance takes the new row id and is cached under it |
| Entities.UnitLateFeeDefault | src/lib/database/unit.py:69 | a Unit built without a late fee has late fee 150.0 |
| Entities.PaymentCategoryDefault | src/lib/database/payment.py:70 | a Payment built without a category is a "rent" payment |
| Entities.TenantMoveOutDefault | src/lib/database/tenant.py:71 | a Tenant built without a move-out date has none |
| Entities.AddressOnOneLine | src/lib/database/unit.py:96 | no newline survives, and an address without newlines is shown as is |
| Entities.AddressLinesJoined | src/lib/database/unit.py:96 | the lines of an address come out in order, joined by ", " |
| SqlHelper.TableGuard | src/lib/helper/sql_helper.py:28-29 | a table name passes iff it is an identifier; otherwise ValueError |
| SqlHelper.InjectionRefused | src/lib/helper/sql_helper.py:28-29 | a name containing a space or ';' is refused |
| SqlHelper.FirstWithId | src/lib/helper/sql_helper.py:31-33 | finds the first row with the id, or reports that none has it |
| SqlHelper.FindById | src/lib/helper/sql_helper.py:9-34 | after the guard: None when no row has the id; otherwise, for the first row with the id, a cached instance is refreshed from the row in column order (a setter error raises and keeps the earlier assignments), and an uncached id gives a new instance with that id and the built fields, cached under it, or the first setter error |
| SqlHelper.DropTable | src/lib/helper/sql_helper.py:36-52 | after the guard, the table is gone and every other table is unchanged |
| SqlHelper.Delete | src/lib/helper/sql_helper.py:54-78 | after the guard, removes the id from the cache and sets the id to None; an uncached id raises KeyError |
| SqlHelper.GetAll | src/lib/helper/sql_helper.py:80-110 | an invalid table name raises ValueError and leaves the cache alone; otherwise one instance per row in row order, each the one the cache then holds for its id; an uncached id gives a new instance carrying that id; cached instances keep their slot and id; when no two rows share a cached object, each instance holds the fields `instance_from_db` gives its row (the cached instance refreshed, or a new build), the call succeeds exactly when every row's refresh or build does, and a failure is the error of the first row that fails |
| SqlHelper.RowIds | src/lib/helper/sql_helper.py:107-108 | every row's id is among the ids |
| SqlHelper.RowIdsOnlyRows | src/lib/helper/sql_helper.py:107-108 | every id among them belongs to some row |
| SqlHelper.TransactionsQuery | src/lib/helper/sql_helper.py:139-158 | both sub-queries filter by unit iff the unit id is truthy, with one bound parameter per placeholder |
| Rollforward.InsertByDate | src/lib/database/tenant.py:323 | inserting adds exactly the payment, as a multiset |
| Rollforward.InsertByDateSorted | src/lib/database/tenant.py:323 | inserting into a date-sorted list keeps it sorted |
| Rollforward.SortByDate | src/lib/database/tenant.py:323 | the result is sorted by date and is a permutation of the payments |
| Rollforward.PrefixLen | src/lib/database/tenant.py:339-344 | counts the leading payments dated before the period end |
| Rollforward.GetRollforward | src/lib/database/tenant.py:315-391 | the loop's rows are the statement of the date-sorted payments from move-in with nothing carried in |
| Rollforward.RollPeriods | src/lib/database/tenant.py:326-391 | the period loop's rows are the statement of the given payments from move-in with nothing carried in |
| Rollforward.ClosePeriod | src/lib/database/tenant.py:333-387 | one iteration: the row of the consumed rent payments, and the payments left |
| Rollforward.ConsumePeriod | src/lib/database/tenant.py:339-346 | removes the leading payments dated before the period end and keeps the rent ones |
| Rollforward.Totals | src/lib/database/tenant.py:359-370 | the loop over applied payments yields the rent paid and the amount counted as on time |
| Rollforward.RollFirstPeriod | src/lib/database/tenant.py:333-391 | the statement is its first row followed by the statement of the remaining periods |
| Rollforward.PrefixLenOfSplit | src/lib/database/tenant.py:339-344 | a split into early payments and a first late one is exactly the period's consumption |
| Rollforward.RollDates | src/lib/database/tenant.py:326-391 | periods start at move-in, advance one month each, all start before the stop date, and the next would not |
| Rollforward.RollBookkeeping | src/lib/database/tenant.py:330-387 | BOP Due = rent + Back Due; fee iff rent − on-time > 0; EOP Due = Back Due + fee + unpaid rent and becomes the next Back Due; the first Back Due is the carried-in balance |
| Rollforward.RollShowsConsumedRent | src/lib/database/tenant.py:339-346 | the payments shown over all periods are the rent payments among those consumed, in order, each once |
| Rollforward.RentOnlyMembers | src/lib/database/tenant.py:345-346 | a payment is applied iff it was consumed and its category is "rent" |
| Rollforward.PrefixLenSorted | src/lib/database/tenant.py:339-344 | with sorted payments, a period consumes exactly those dated before its end |
| Rollforward.EarlyPaymentsInFirstPeriod | src/lib/database/tenant.py:339-344 | a rent payment dated before the first period ends, even before move-in, is shown in the first period |
| Rollforward.ConsumedPaymentDates | src/lib/database/tenant.py:339-344 | an applied payment is one of the pending payments, dated before the period end |
| Rollforward.AppliedBeforePeriodEnd | src/lib/database/tenant.py:339-344 | every payment a period shows is dated before that period's end |
| Rollforward.AppliedAfterPeriodStart | src/lib/database/tenant.py:339-344 | with sorted payments, every payment a later period shows is dated on or after its start |
| Rollforward.RollChains | src/lib/database/tenant.py:378-387 | each row carries in the previous EOP Due and settles its own |
| Rollforward.Telescope | src/lib/database/tenant.py:378-387 | the last EOP Due is the opening balance plus all fees plus all rent less all rent paid |
| Rollforward.ClosingBalance | src/lib/database/tenant.py:330-387 | the closing balance of the statement is opening balance + fees + periods × rent − rent paid |
| Rollforward.AsWrittenOvercounts | src/lib/database/tenant.py:369-370 | with non-negative amounts, the written rule counts at least as much as paid on time as the intended one |
| Rollforward.IntendedWithinPaid | src/lib/database/tenant.py:369-370 | under the intended rule, what counts as paid on time lies between 0 and what was paid |
| Rollforward.UnderpaidPeriodIsLate | src/lib/database/tenant.py:375-376 | under the intended rule, paying less than the rent draws the fee; paying the rent in full on time does not |
| Rollforward.AsWrittenMissesLateFee | src/lib/database/tenant.py:370-376 | three on-time payments of 300.00 against a 1000.00 rent draw no fee as written, and the fee as intended |
| PopulateMenu.TypedLine | src/lib/tree/populate_menu.py:188 | `input()` yields the next typed line, or EOFError when none is left |
| PopulateMenu.PickAt | src/lib/tree/populate_menu.py:186 | a pick yields a position inside the list; an empty list is refused |
| PopulateMenu.UserSelection | src/lib/tree/populate_menu.py:181-189 | a listed choice when the constraints are a list, otherwise a typed line |
| PopulateMenu.Terminal.Select | src/lib/tree/populate_menu.py:181-189 | reading an answer consumes it from the terminal |
| PopulateMenu.Retry | src/lib/tree/populate_menu.py:196-212 | the retry loop reads no more answers than there are |
| PopulateMenu.Ask | src/lib/tree/populate_menu.py:179-212 | the prompt reads no more answers than there are |
| PopulateMenu.ShowUserSelections | src/lib/tree/populate_menu.py:161-212 | the retry loop returns what the prompt specification gives and consumes the same answers |
| PopulateMenu.RetryRaisesOnlyTerminalErrors | src/lib/tree/populate_menu.py:196-212 | a validator's exception never escapes; any accepted value is some answer's validated value |
| PopulateMenu.AskOutcomes | src/lib/tree/populate_menu.py:191-212 | a prompt cancels, returns a validated answer, or fails only because the terminal did |
| PopulateMenu.FirstAnswerCancels | src/lib/tree/populate_menu.py:193-194 | a first answer of "exit" or "e" in any letter case cancels before validation |
| PopulateMenu.FirstValidAnswerAccepted | src/lib/tree/populate_menu.py:196-206 | a valid first answer is returned as validated, reading nothing more |
| PopulateMenu.RetryCancelIsCaseSensitive | src/lib/tree/populate_menu.py:211-212 | on a retry "EXIT" is not a cancel word and is taken as the answer |
| PopulateMenu.ChoiceFieldTakesOnePick | src/lib/tree/populate_menu.py:185-206 | a list-constrained field is answered by one listed choice and cannot be cancelled |
| PopulateMenu.NewItmValidation | src/lib/tree/populate_menu.py:214-268 | the prompt loop returns what the new-record specification gives |
| PopulateMenu.FillKeys | src/lib/tree/populate_menu.py:249-255 | a completed loop holds every prompted key, none holding the cancel value, and keeps earlier keys |
| PopulateMenu.NewItemMeaning | src/lib/tree/populate_menu.py:249-268 | a saved record has every prompted field plus `<parent>_id` = parent id; a cancel or a non-"y" answer gives None |
| PopulateMenu.SplitHead | src/lib/tree/populate_menu.py:308 | `split(":")[0]` is the longest prefix without ':' |
| PopulateMenu.StripLeft | src/lib/tree/populate_menu.py:308 | leading white space (as `str.isspace` defines it) is removed and nothing else |
| PopulateMenu.StripRight | src/lib/tree/populate_menu.py:308 | trailing white space (as `str.isspace` defines it) is removed and nothing else |
| PopulateMenu.LabelKeyRoundTrip | src/lib/tree/populate_menu.py:301-308 | the attribute named in a picker line is read back exactly |
| PopulateMenu.PickerOptions | src/lib/tree/populate_menu.py:301-303 | one line per prompted attribute with its current value, then the submit line |
| PopulateMenu.UpdateItmValidation | src/lib/tree/populate_menu.py:286-318 | the picker loop leaves the fields, the error and the answers the edit specification gives |
| PopulateMenu.UpdatesTouchOnlyPrompts | src/lib/tree/populate_menu.py:305-318 | an edit adds or changes only prompted attributes |
| PopulateMenu.SubmitLeavesFields | src/lib/tree/populate_menu.py:302-306 | picking submit first leaves the instance unchanged |
| PopulateMenu.PickSetsThatAttribute | src/lib/tree/populate_menu.py:308-318 | picking an attribute sets exactly that attribute and picks again; cancelling leaves the fields |
| PopulateMenu.RunFuncIfConfirm | src/lib/tree/populate_menu.py:524-543 | on an answer lowering to "y" runs the callable(s) in order; otherwise runs nothing |
| PopulateMenu.OptionsFor | src/lib/tree/populate_menu.py:125 | the title is "Options for: " followed by the instance text |
| PopulateMenu.UpdateTitleLabels | src/lib/tree/populate_menu.py:113-128 | stores the instance and gives the node and each direct child the title "Options for: <inst>" |
| PopulateMenu.ChildrenOf | src/lib/tree/populate_menu.py:152 | keeps exactly the options whose `<parent>_id` equals the parent id; a missing attribute raises |
| PopulateMenu.StoreSelectedInstance | src/lib/tree/populate_menu.py:130-156 | the picked instance is among the offered ones and, when a parent is selected, carries the parent's id; on success the node and each of its children show `Options for:` and the instance's repr; when the filter or the pick raises, the selection and every title are kept |
| PopulateMenu.FinalizeDelete | src/lib/tree/populate_menu.py:363-375 | deletes the selected instance, then clears the selection; with no selection, an invalid table or an uncached id it raises (AttributeError, ValueError, KeyError) and nothing is cleared |
| PopulateMenu.DeleteSelectedInstance | src/lib/tree/populate_menu.py:382-397 | deletes only on "y", and then the instance leaves the cache and its id becomes None; no answer (EOFError), a declined answer, or a confirmed delete that raises keeps the selection, the cache and the instance's id, and a raise propagates its error; in every case where no exception is raised it returns the parent of `Node.last_node` |
| PyValues.Lower | src/lib/tree/populate_menu.py:193 | `str.lower` changes each ASCII letter to lower case and keeps the length |

## Left out

- Terminal I/O is not modelled: `pick`, `input`, rich `print`, clearing the screen, banners, headers and continue messages. Answers are a queue in a `Terminal` object, and menu picks are index parameters.
- `sys.exit` in `exit_app` is a terminal outcome (`ExitsApp`, `Exited`), not a process exit.
- SQL text, connections, cursors and commits are not modelled. Tables are sequences of rows, and a fresh row id is a parameter of `Save`.
- pandas, CSV, PDF and chart output are not modelled: `get_dataframe`, `payments()` frames, `get_transaction_summary`, `filter_on_dates`, `print_to_csv`, `print_receipt` and `lib/report.py`.
- Floating point is not modelled. Validated amounts are `real`, rollforward amounts are integer cents, and `float(text)` is an abstract partial parse.
- Calendar arithmetic is not modelled. `datetime`, `relativedelta` and `datetime.now()` become integer day numbers, an abstract strictly increasing month step and a stop-date parameter (for a current tenant, the day after today, since `datetime.now()` is later than midnight today). This also covers the active-tenant filter of `store_selected_tenant`.
- `src/lib/helper/validation.py` is not part of this model. The entity schemas use the `lib/validation.py` validators that their `VALIDATION_DICT`s name.
- The `children` property setter, which replaces the whole list, is not modelled. The modelled code only appends.
- `__repr__` of the entities is an abstract function of id and fields (`describe`, `show`). Only the address line joining of `Unit.__repr__` is modelled.
- Procedures and callables are opaque. A procedure is known by what it returned. `run_func_if_confirm` reports which callables it called, not what they did.
- Rollforward.SortByDate: Python's sort is stable, and the model's insertion sort is not proved stable. Payments on the same date may therefore appear in a different order.
- Rollforward.GetRollforward: payments are read from the tenant's rows as given. The lookup of the unit (its rent and late fee) is a parameter, not a query.
- PopulateMenu.PickAt: a position outside the list stands for an answer the picker cannot give, and raises IndexError. The real picker never returns one.
- SqlHelper.GetAll: when two rows are served by one cached object (an instance whose `save()` ran twice, so it is cached under two ids), the fields that object ends with are not stated. Row ids are distinct, since `id` is the primary key.
- PopulateMenu.StoreSelectedInstance: `cls.get_all_instances()` is a parameter (`allInstances`). How it is computed is modelled by `SqlHelper.GetAll`.
- LegacyMenu.Node.RunProcedure: a line `int()` refuses and no line at all (EOFError) both arrive as `entry == None`. The model raises the same error, `NotAnInteger`, for both.
- PopulateMenu.FinalizeDelete: after a delete, the continue message (`print_continue_message`) waits for a line with `input("")` and discards it. The answer queue does not model that line: the model neither consumes it nor raises EOFError when no line is left.
- PopulateMenu.DeleteSelectedInstance: the cache passed in stands for `type(inst).all`, the `all` dictionary of the selected instance's class.
- Builder wiring is not modelled (`add_basic_ops`, `add_tenant_ops`, `add_unit_ops`, `add_summary_ops`, the `save_*_info` procedures). Neither are `finalize_add`, `finalize_update` and `update_selected_instance`, which only combine flows that are modelled.
- The Expense class is not modelled. It follows the same pattern as the three modelled entities.
- The seed scripts, debug scripts and superseded `lib/` persistence wrappers are not modelled.
- Validation.ParentIdValidation: `parentExists` stands for the truthiness of `parent_cls.find_by_id(parent_id)`. The effects of that call are not modelled here: it caches or refreshes the parent instance in its class's `all` dictionary, and a setter error it raises propagates out of the validator. `SqlHelper.FindById` models the call itself.
- Python `str.lower` and `str.isidentifier` are modelled on ASCII only. So are the `\w` class of the email pattern and the `\d` class of the date pattern: Python's `\d` on a `str` also matches non-ASCII decimal digits (such as Arabic-Indic digits), which `date_validation` accepts and the model refuses. `str.strip` uses the full set of characters `str.isspace` accepts.

## Findings

| source | as written | input that shows it | evidently intended | confidence | as-written member | corrected member |
|---|---|---|---|---|---|---|
| src/lib/database/tenant.py:370 | `rent_paid_on_time += rent_paid * (pmt_date < date_late)` adds the running total paid so far for each on-time payment | rent 1000.00, late fee 150.00, three rent payments of 300.00 dated before the late date: 900.00 is paid, but 300 + 600 + 900 = 1800.00 counts as paid on time, so no fee is charged | each on-time payment adds its own amount (`payment.amount`), so the period is late exactly when less than the rent was paid by the late date | not executed | Rollforward.AsWrittenMissesLateFee | Rollforward.UnderpaidPeriodIsLate |
