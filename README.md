# POS-WEB-FRONT in Dafny

A model of the front end of a point-of-sale demo written in React. The demo runs on mock data: there is no backend. The model covers:

- the cart ledger of the point-of-sale screen: adding, the plus and minus buttons, removing, clearing, weigh-ins, the barcode form, the discount dialog and the payment dialog;
- the derived amounts (subtotal, discount, total, change);
- the demo authentication provider and the login screen's demo credentials;
- the role-filtered sidebar;
- the catalog, staff and branch pages: search, statistics cards, create/edit/delete dialogs and the product attribute editor;
- the sales history: search, status filter and cancel/refund dialogs;
- the activity log: search, type filter, relative time, and icon and label tables.

## Layout

There is one module per source file, plus four shared modules:

- `Wrappers`: `Option`, for `null`/`undefined` and for what `parseFloat` makes of a form field.
- `Types`: the records of `src/types/index.ts`.
- `Seqs`: in-order `filter`.
- `Text`: `toLowerCase`, `includes`, `trim` and the decimal rendering of a number.

How each kind of source code is modelled:

- Derived values (search results, statistics, amounts, lookup tables) are functions.
- List updaters passed to `setState` are functions over `seq`.
- Each page's state hooks are the fields of a class. Each event handler is a method that states the page's whole new state.

Other modelling choices:

- Money, stock and weights are exact `real`s.
- Instants are milliseconds as `int`.
- `Date.now()`, `crypto.randomUUID()`, `Math.random()` and the typed text of form fields reach the model as method parameters.

The cart carries an invariant that the handlers keep, `CartLedger.LedgerValid`:

- every line is of a catalog product;
- its quantity is positive and within the stock;
- discrete lines hold whole units;
- the weigh-in flag matches the product;
- a discrete product has at most one line. Weigh-ins of one product stay separate lines.

Behaviour of the code worth knowing, which the model follows:

- **Some weighed lines are charged the unit price.** A weighed line uses the per-kilo price only when it is present and non-zero; otherwise it is charged the unit price (`src/pages/POS.tsx:427`, `CartLedger.UsesKiloPrice`).
- **The discrete stock cap compares before the increment.** `addToCart` refuses the increment only when the line already holds the stock or more (`src/pages/POS.tsx:450`). With whole stock, which `CartLedger.CatalogValid` requires of discrete products, a line therefore never exceeds the stock.
- **Processing is not a state of the model.** `processPayment` sets it and replaces it within one synchronous handler (`src/pages/POS.tsx:503-516`), so the model has Idle, Succeeded and Failed only.
- **The catalog search lowers the query before the barcode test.** It compares the lower-cased query against the barcode as stored (`src/pages/Products.tsx:350-355`). The point-of-sale grid compares the query exactly as typed (`src/pages/POS.tsx:419-420`).

## Model

| member | source | states |
|---|---|---|
| Types.RoleNamed | src/types/index.ts:2 | a text read back as a role is that role's spelling; any other text names no role |
| Types.RoleNameRoundTrip | src/types/index.ts:2 | every role survives being written to storage and read back |
| Auth.MockUser | src/contexts/AuthContext.tsx:16-35 | the demo user of each role holds that role |
| Auth.RoleFromEmail | src/contexts/AuthContext.tsx:88-91 | owner exactly when the e-mail contains "owner"; administrator exactly when it contains "admin" but not "owner"; cashier otherwise |
| Auth.UserJson | src/contexts/AuthContext.tsx:95 | the stored user text is never empty, so a later restore sees it |
| Auth.AuthSession.constructor | src/contexts/AuthContext.tsx:58-64 | nobody signed in, no business, subscription or branches, loading |
| Auth.AuthSession.IsAuthenticated | src/contexts/AuthContext.tsx:145 | authenticated exactly when a user is set |
| Auth.AuthSession.HasPermission | src/contexts/AuthContext.tsx:124-127 | granted exactly when a user is signed in whose role is among the required roles |
| Auth.AuthSession.IsSubscriptionActive | src/contexts/AuthContext.tsx:129-132 | active exactly when a subscription is set whose status is active or trial |
| Auth.AuthSession.IsBranchActive | src/contexts/AuthContext.tsx:134-137 | active exactly when an active branch is set and that branch is active |
| Auth.AuthSession.Restore | src/contexts/AuthContext.tsx:67-80 | with a stored user and role, the session is rebuilt from the role alone; otherwise it is untouched; an unknown role leaves no user but fills the rest; loading ends either way |
| Auth.AuthSession.Login | src/contexts/AuthContext.tsx:82-105 | the session gets the e-mail's demo user, business, subscription, branches and first branch; the three storage keys are written; afterwards permissions follow the e-mail's role and subscription and branch are active |
| Auth.AuthSession.Logout | src/contexts/AuthContext.tsx:107-116 | the session is emptied; exactly the three keys leave storage; no permission is granted afterwards |
| Auth.AuthSession.SetActiveBranch | src/contexts/AuthContext.tsx:118-122 | an active branch becomes the active branch; an inactive one changes nothing |
| Auth.ReloadAfterLogin | src/contexts/AuthContext.tsx:67-105 | after a login, a reload over the same storage restores the same user |
| LoginScreen.OwnerDemoEmail | src/pages/Login.tsx:12 | the owner demo e-mail signs in as owner |
| LoginScreen.AdminDemoEmail | src/pages/Login.tsx:13 | the administrator demo e-mail signs in as administrator |
| LoginScreen.CashierDemoEmail | src/pages/Login.tsx:14 | the cashier demo e-mail signs in as cashier |
| LoginScreen.DemoCredentialsGiveTheirRoles | src/pages/Login.tsx:11-15 | every listed demo credential signs in with the role it is listed under |
| Navigation.TableListsEveryPageOnce | src/components/layout/AppSidebar.tsx:25-92 | the navigation table lists every page exactly once |
| Navigation.VisibleItems | src/components/layout/AppSidebar.tsx:103-105 | the sidebar never shows more entries than the table holds |
| Navigation.VisibleIffPermitted | src/components/layout/AppSidebar.tsx:103-105 | an entry is shown exactly when a user is signed in whose role is among the entry's roles |
| Navigation.NoUserSeesNothing | src/components/layout/AppSidebar.tsx:103-105 | with nobody signed in the sidebar is empty |
| Navigation.ShownFrom | src/components/layout/AppSidebar.tsx:103-105 | the reference filter over a tail of the table yields no more entries than the tail holds |
| Navigation.FilterIsShownFrom | src/components/layout/AppSidebar.tsx:103-105 | the sidebar's filter agrees with the reference filter on every tail of the table |
| Navigation.VisibleIsShownFrom | src/components/layout/AppSidebar.tsx:103-105 | the whole sidebar of a signed-in user is the reference filter over the whole table |
| Navigation.OwnerShown | src/components/layout/AppSidebar.tsx:25-92 | for an owner the reference filter keeps the whole table |
| Navigation.AdministratorShown | src/components/layout/AppSidebar.tsx:25-92 | for an administrator the reference filter keeps dashboard, branches, products, point of sale, sales and reports |
| Navigation.CashierShown | src/components/layout/AppSidebar.tsx:25-92 | for a cashier the reference filter keeps dashboard, point of sale and sales |
| Navigation.OwnerSeesEverything | src/components/layout/AppSidebar.tsx:25-105 | an owner's sidebar is the whole table in order |
| Navigation.AdministratorEntries | src/components/layout/AppSidebar.tsx:25-105 | an administrator's sidebar is exactly those six entries in table order |
| Navigation.CashierEntries | src/components/layout/AppSidebar.tsx:25-105 | a cashier's sidebar is exactly those three entries in table order |
| Navigation.IsActive | src/components/layout/AppSidebar.tsx:107 | no contract of its own: an entry is highlighted when the path equals its target exactly; AtMostOneActive states what follows from it |
| Navigation.AtMostOneActive | src/components/layout/AppSidebar.tsx:107 | no two entries share a target, so at most one is highlighted for any path |
| CartLedger.Subtotal | src/pages/POS.tsx:426-430 | an empty cart's subtotal is zero |
| CartLedger.DiscountAmount | src/pages/POS.tsx:432 | the discount is nothing at 0%, the whole subtotal at 100%, and between zero and the subtotal for a percentage in [0, 100] |
| CartLedger.Total | src/pages/POS.tsx:433 | the total is the subtotal at 0%, zero at 100%, and between zero and the subtotal for a percentage in [0, 100] |
| CartLedger.Change | src/pages/POS.tsx:549-551 | no contract of its own: ConfirmEnabledIff states that the change is the tender minus the total for cash with a tender typed, and zero otherwise |
| CartLedger.ConfirmEnabled | src/pages/POS.tsx:917 | no contract of its own: the negation of the button's disabled expression; ConfirmEnabledIff states when it holds |
| CartLedger.ConfirmEnabledIff | src/pages/POS.tsx:549-551 | confirming is enabled exactly when a method is chosen and, for cash, a tender covering the total is typed; the change is then the excess, and zero for other methods |
| CartLedger.SubtotalAppend | src/pages/POS.tsx:426-430 | the subtotal of two carts end to end is the sum of their subtotals |
| CartLedger.SubtotalOfOne | src/pages/POS.tsx:426-430 | a one-line cart costs that line's amount |
| CartLedger.SubtotalReplace | src/pages/POS.tsx:426-430 | replacing a line changes the subtotal by the difference of the two lines' amounts |
| CartLedger.WeighInsAddUp | src/pages/POS.tsx:426-430 | two weigh-ins of one product stay two lines and add the per-kilo price times the sum of the weights |
| CartLedger.SubtotalNonNegative | src/pages/POS.tsx:426-430 | with prices not negative and positive quantities, the subtotal is not negative |
| CartLedger.TotalBounds | src/pages/POS.tsx:432-433 | with a discount in [0, 100], the discount is that share of the subtotal and the total lies between zero and the subtotal |
| CartLedger.EmptyCartCostsNothing | src/pages/POS.tsx:426-433 | an empty cart has zero subtotal, discount and total whatever the percentage |
| CartLedger.DistinctAt | src/pages/POS.tsx:437-459 | in a valid ledger a discrete line's product has no later line |
| CartLedger.DiscreteLineUnique | src/pages/POS.tsx:437-459 | a discrete product has at most one line in a valid ledger |
| CartLedger.FindLine | src/pages/POS.tsx:448 | `find` gives the first line of the product when the cart holds one, and nothing exactly when it holds none |
| CartLedger.Incremented | src/pages/POS.tsx:450-454 | the increment keeps every line's product and flag, in order |
| CartLedger.AddedToCart | src/pages/POS.tsx:447-458 | the cart grows by at most one line, and by one exactly when it held no line of the product; AddToCartEffect states the rest of the effect |
| CartLedger.AddToCartEffect | src/pages/POS.tsx:437-459 | adding a discrete product appends one unit when absent; otherwise its single line rises by exactly one below the stock and the cart is unchanged at the stock |
| CartLedger.AddToCartKeepsLedger | src/pages/POS.tsx:437-459 | adding keeps the ledger invariant; a discrete line never rises above the stock |
| CartLedger.AddToCartSubtotal | src/pages/POS.tsx:426-459 | below the stock, adding raises the subtotal by exactly the unit price; at the stock the cart is unchanged |
| CartLedger.OneMoreUnit | src/pages/POS.tsx:426-454 | one more unit on a discrete line adds the unit price to its amount |
| CartLedger.UpdatedLine | src/pages/POS.tsx:466-475 | one line becomes at most one line of the same product and flag; a line of another product is kept; a changed line holds the old quantity plus the step, within the stock |
| CartLedger.QuantityUpdated | src/pages/POS.tsx:463-477 | the plus and minus buttons never lengthen the cart |
| CartLedger.QuantityUpdatedAppend | src/pages/POS.tsx:463-477 | the quantity update works line by line over a cart split in two |
| CartLedger.QuantityUpdatedNoMatch | src/pages/POS.tsx:463-477 | a cart without the product comes back unchanged |
| CartLedger.UpdateQuantityAt | src/pages/POS.tsx:463-477 | for a product's only line: removed at zero or below, unchanged above the stock, otherwise set to the new quantity; the other lines stay in order |
| CartLedger.MinusOnLastUnitRemoves | src/pages/POS.tsx:463-477 | the minus button on a product's last unit removes its line |
| CartLedger.UpdateQuantityKeepsOthers | src/pages/POS.tsx:463-477 | the lines of every other product come out as they went in, in order |
| CartLedger.UpdatedLineValid | src/pages/POS.tsx:466-472 | a valid line is replaced by at most one valid line of the same product |
| CartLedger.UpdateQuantityKeepsLedger | src/pages/POS.tsx:463-477 | the quantity update keeps the ledger invariant |
| CartLedger.WithoutProduct | src/pages/POS.tsx:480-482 | after removing a product no line of it is left; every other line stays and nothing new appears |
| CartLedger.RemoveDropsEveryWeighIn | src/pages/POS.tsx:480-482 | removing a product drops all its weigh-ins at once |
| CartLedger.RemoveKeepsLedger | src/pages/POS.tsx:480-482 | removing keeps the ledger invariant |
| CartLedger.WeighInKeepsLedger | src/pages/POS.tsx:527-546 | a weigh-in above zero and within the stock keeps the invariant whatever weigh-ins the cart holds |
| PointOfSale.MatchesSearch | src/pages/POS.tsx:419-420 | no contract of its own: the name matches ignoring case or the barcode contains the query as typed; VisibleProducts and SearchIgnoresCaseOfName state its use |
| PointOfSale.VisibleProducts | src/pages/POS.tsx:418-423 | the grid shows exactly the active catalog products matching the search and the category tab |
| PointOfSale.EmptySearchShowsCategory | src/pages/POS.tsx:418-423 | an empty search shows every active product of the tab |
| PointOfSale.SearchIgnoresCaseOfName | src/pages/POS.tsx:419 | a name match is found whatever the case of the query |
| PointOfSale.FindByBarcode | src/pages/POS.tsx:495 | the barcode lookup gives the first catalog product carrying exactly that code, or nothing when no product carries it |
| PointOfSale.DiscountAcceptedIff | src/pages/POS.tsx:1036-1048 | a discount goes through exactly when the password equals the stored one and the percentage lies in (0, 100] |
| PointOfSale.NoUserCanAuthoriseDiscount | src/pages/POS.tsx:1039 | the user record carries no password, so every discount attempt is refused |
| PointOfSale.PosTerminal.constructor | src/pages/POS.tsx:306-319 | empty cart, no discount, no dialog, payment idle; the invariant holds |
| PointOfSale.PosTerminal.CanConfirm | src/pages/POS.tsx:917 | enabled exactly when a method is chosen and, for cash, the tender covers the total |
| PointOfSale.PosTerminal.CanApplyDiscount | src/pages/POS.tsx:322 | the discount button is shown exactly to owners and administrators with a non-empty cart |
| PointOfSale.PosTerminal.TotalWithinSubtotal | src/pages/POS.tsx:426-433 | in a valid terminal the total lies between zero and the subtotal |
| PointOfSale.PosTerminal.AddToCart | src/pages/POS.tsx:437-459 | out of stock: nothing; weighed: opens the weigh-in and leaves the cart; discrete: the ledger's add; the invariant is kept |
| PointOfSale.PosTerminal.UpdateQuantity | src/pages/POS.tsx:463-477 | the cart becomes the quantity update of the old cart; the invariant is kept |
| PointOfSale.PosTerminal.RemoveFromCart | src/pages/POS.tsx:480-482 | every line of the product goes; the invariant is kept |
| PointOfSale.PosTerminal.ClearCart | src/pages/POS.tsx:485-488 | cart empty, no discount, subtotal and total zero |
| PointOfSale.PosTerminal.SubmitBarcode | src/pages/POS.tsx:491-500 | an empty code does nothing; the first product with that exact code is added when active and in stock; otherwise nothing changes |
| PointOfSale.PosTerminal.ConfirmWeight | src/pages/POS.tsx:527-546 | a weight above zero and within the stock appends one weigh-in and closes the dialog; anything else changes nothing |
| PointOfSale.PosTerminal.CancelWeight | src/pages/POS.tsx:988 | closing the weigh-in dialog clears the pending product |
| PointOfSale.PosTerminal.ApplyDiscount | src/pages/POS.tsx:1036-1052 | the discount is replaced exactly when the checks pass, otherwise kept |
| PointOfSale.PosTerminal.OpenPayment | src/pages/POS.tsx:845-846 | the payment dialog opens only with a non-empty cart |
| PointOfSale.PosTerminal.ClosePayment | src/pages/POS.tsx:912 | the payment dialog closes |
| PointOfSale.PosTerminal.SelectPayment | src/pages/POS.tsx:311 | the chosen method is recorded |
| PointOfSale.PosTerminal.EnterCash | src/pages/POS.tsx:313 | the tender field holds what was typed |
| PointOfSale.PosTerminal.ProcessPayment | src/pages/POS.tsx:503-516 | without a method nothing changes; otherwise success or error as the provider answers |
| PointOfSale.PosTerminal.CompletePayment | src/pages/POS.tsx:519-525 | a fresh sale: empty cart, no discount, dialog closed, idle, no method, empty tender |
| PointOfSale.PosTerminal.RetryPayment | src/pages/POS.tsx:971 | back to idle with the sale intact |
| PointOfSale.PosTerminal.CancelAfterError | src/pages/POS.tsx:975-978 | the dialog closes and the status returns to idle |
| ProductCatalog.FilteredProducts | src/pages/Products.tsx:349-366 | exactly the products matching the search in name, SKU, barcode or an attribute, and the category tab |
| ProductCatalog.SearchIgnoresQueryCase | src/pages/Products.tsx:350 | a query and its lower-case form match the same products |
| ProductCatalog.EmptySearchListsCategory | src/pages/Products.tsx:349-366 | an empty search lists the whole category tab |
| ProductCatalog.Stats | src/pages/Products.tsx:368-373 | the total is the length; the active, low-stock (0 < stock < 10) and out-of-stock (stock = 0) cards are the counts of those products; the last two together never exceed the total |
| Seqs.FilterCount | src/pages/Products.tsx:370-372 | the length of a filtered list, as each card computes it, is the number of elements satisfying the test, counted one by one |
| ProductCatalog.AttributeUpdated | src/pages/Products.tsx:386-394 | editing an attribute keeps the list's length and every id |
| ProductCatalog.RemoveUndoesAdd | src/pages/Products.tsx:375-398 | removing an attribute just added under a fresh id gives the list back |
| ProductCatalog.UpdateAttributeOnly | src/pages/Products.tsx:386-394 | only the named field of the attribute with that id changes |
| ProductCatalog.BlankForm | src/pages/Products.tsx:401-417 | the create form is empty, category Bebidas, active, no attributes, and keeps the weighed switch |
| ProductCatalog.FormOf | src/pages/Products.tsx:419-440 | the edit form shows a weighed product's per-kilo price as its price, and carries the stock, attributes and weighed flag |
| ProductCatalog.FromForm | src/pages/Products.tsx:442-525 | the saved product has the trimmed name, SKU and barcode, the form's stock (or 0), category, flag, attributes and weighed switch; a weighed product costs 0 per unit and takes the price field per kilo, another takes the price field, or 0, with no per-kilo price; with no new image it keeps the fallback image |
| ProductCatalog.EditRoundTrip | src/pages/Products.tsx:419-525 | opening a product for editing and saving it untouched gives the same product |
| ProductCatalog.ProductsEdited | src/pages/Products.tsx:480-501 | saving an edit keeps length and ids; every product with the edited id is rebuilt from the form keeping its own image when there is no new one; every other product is unchanged |
| ProductCatalog.EditUnchangedKeepsList | src/pages/Products.tsx:419-525 | saving an untouched edit leaves the whole list as it was |
| ProductCatalog.DeleteUndoesCreate | src/pages/Products.tsx:442-540 | deleting a product just created under an unused id gives the list back |
| ProductCatalog.ProductsPage.constructor | src/pages/Products.tsx:322-347 | the page opens over the initial list with a blank form and no dialog |
| ProductCatalog.ProductsPage.AddAttribute | src/pages/Products.tsx:375-384 | an empty attribute with the fresh id is appended |
| ProductCatalog.ProductsPage.UpdateAttribute | src/pages/Products.tsx:386-394 | the form's attributes become the edited list |
| ProductCatalog.ProductsPage.RemoveAttribute | src/pages/Products.tsx:396-398 | no attribute with that id is left |
| ProductCatalog.ProductsPage.OpenCreate | src/pages/Products.tsx:401-417 | create mode, no edited id, blank form, dialog open |
| ProductCatalog.ProductsPage.OpenEdit | src/pages/Products.tsx:419-440 | edit mode on the product's id with its form, dialog open |
| ProductCatalog.ProductsPage.SaveProduct | src/pages/Products.tsx:442-525 | a blank name changes nothing; otherwise the new product is appended or the edited id rebuilt, and the dialog closes |
| ProductCatalog.ProductsPage.OpenDelete | src/pages/Products.tsx:528-531 | the product is chosen and the confirmation opens |
| ProductCatalog.ProductsPage.ConfirmDelete | src/pages/Products.tsx:534-540 | every product with the chosen id goes and the others stay in order; no product appears |
| Staff.FilteredUsers | src/pages/Users.tsx:113-117 | exactly the members whose name or e-mail contains the query, ignoring case |
| Staff.SearchIgnoresQueryCase | src/pages/Users.tsx:113-117 | a query and its lower-case form match the same members |
| Staff.NameMatchIgnoresCase | src/pages/Users.tsx:113-117 | a name containing the query matches however the query is cased |
| Staff.RolesPartition | src/pages/Users.tsx:122-124 | the owner, administrator and cashier counts add up to the list's length |
| Staff.Stats | src/pages/Users.tsx:119-125 | total is the length; each card is the count of active members, owners, administrators and cashiers; the three role cards add up to the total |
| Staff.BranchName | src/pages/Users.tsx:189-196 | the saved branch name is one of the four known names, and "Todas" exactly for a code other than "1", "2" and "4"; the same mapping is repeated at Users.tsx:219-226 |
| Staff.BranchCode | src/pages/Users.tsx:158-164 | the selector's value is one of "0", "1", "2" and "4", and "1" exactly for Sucursal Centro or an unknown name |
| Staff.BranchCodesRoundTrip | src/pages/Users.tsx:158-164 | the selector's codes and the branch names are inverse on the four known values; an unknown name loads as Sucursal Centro |
| Staff.BlankForm | src/pages/Users.tsx:139-149 | the create form is empty, cashier, branch "1" |
| Staff.FormOf | src/pages/Users.tsx:151-166 | the edit form carries name, e-mail and role, and a known branch loads as its own code |
| Staff.NewMember | src/pages/Users.tsx:184-198 | a created member is active, with the form's name, e-mail and role, and the branch name the selector's code stands for |
| Staff.UsersEdited | src/pages/Users.tsx:209-229 | an edit keeps length, ids and active flags; the edited member takes the form's name, e-mail, role and branch name; every other member is unchanged |
| Staff.EditUnchangedKeepsUsers | src/pages/Users.tsx:151-229 | saving an untouched edit of a member at a known branch leaves the list as it was |
| Staff.UsersPage.constructor | src/pages/Users.tsx:99-111 | the page opens over the initial list with a blank form and no dialog |
| Staff.UsersPage.OpenCreate | src/pages/Users.tsx:139-149 | create mode, no edited id, blank form, dialog open |
| Staff.UsersPage.OpenEdit | src/pages/Users.tsx:151-166 | edit mode on the member's id with its form, dialog open |
| Staff.UsersPage.SaveUser | src/pages/Users.tsx:169-249 | a blank name or e-mail changes nothing; otherwise a member is appended or the edited id rewritten, and the dialog closes |
| Staff.UsersPage.OpenDelete | src/pages/Users.tsx:257-261 | the member is chosen and the confirmation opens |
| Staff.UsersPage.ConfirmDelete | src/pages/Users.tsx:263-283 | every member with the chosen id goes and exactly the others stay, in order |
| BranchAdmin.CanManageBranches | src/pages/Branches.tsx:65 | no contract of its own: hasPermission(['OWNER']); OnlyOwnersManage states that it holds exactly for owners |
| BranchAdmin.OnlyOwnersManage | src/pages/Branches.tsx:65 | the create, edit and delete controls are shown exactly to owners |
| BranchAdmin.FilteredBranches | src/pages/Branches.tsx:67-70 | exactly the branches whose name or address contains the query, ignoring case |
| BranchAdmin.SearchIgnoresQueryCase | src/pages/Branches.tsx:67-70 | a query and its lower-case form match the same branches |
| BranchAdmin.Stats | src/pages/Branches.tsx:72-76 | the active and inactive cards are the counts of active and inactive branches and add up to the total, which is the length |
| BranchAdmin.BlankForm | src/pages/Branches.tsx:79-86 | the create form is empty and active |
| BranchAdmin.FormOf | src/pages/Branches.tsx:89-96 | the edit form carries the branch's name, address and flag |
| BranchAdmin.NewBranch | src/pages/Branches.tsx:113-119 | a created branch has the trimmed name and address, the form's flag and business "1" |
| BranchAdmin.BranchesEdited | src/pages/Branches.tsx:131-145 | an edit keeps length, ids and business; the edited branch takes the trimmed name and address and the form's flag; every other branch is unchanged |
| BranchAdmin.EditUnchangedKeepsBranches | src/pages/Branches.tsx:89-145 | saving an untouched edit of a trimmed branch leaves the list as it was |
| BranchAdmin.BranchesPage.constructor | src/pages/Branches.tsx:47-65 | the page opens for the session user over the initial list, controls only for an owner |
| BranchAdmin.BranchesPage.OpenCreate | src/pages/Branches.tsx:79-86 | create mode, no edited id, blank form, dialog open |
| BranchAdmin.BranchesPage.OpenEdit | src/pages/Branches.tsx:89-96 | edit mode on the branch's id with its form, dialog open |
| BranchAdmin.BranchesPage.SaveBranch | src/pages/Branches.tsx:99-162 | a blank name changes nothing; otherwise a branch is appended or the edited id rewritten, and the dialog closes |
| BranchAdmin.BranchesPage.OpenDelete | src/pages/Branches.tsx:165-169 | the branch is chosen and the confirmation opens |
| BranchAdmin.BranchesPage.ConfirmDelete | src/pages/Branches.tsx:171-186 | every branch with the chosen id goes and exactly the others stay, in order |
| SalesHistory.StatusNamesDistinct | src/types/index.ts:92 | no status is spelt "all", and different statuses have different spellings |
| SalesHistory.FilteredSales | src/pages/Sales.tsx:138-142 | exactly the sales whose ticket contains the query, ignoring case, with the chosen status or any |
| SalesHistory.ContainsEmpty | src/pages/Sales.tsx:139 | every ticket contains the empty query |
| SalesHistory.NoFilterShowsAll | src/pages/Sales.tsx:138-142 | no query and "all" show the whole list in order |
| SalesHistory.StatusFiltersPartition | src/pages/Sales.tsx:138-142 | the three status choices together show exactly as many sales as "all" |
| SalesHistory.ReturnActionsOnCompletedFilter | src/pages/Sales.tsx:323-341 | cancel and refund are offered exactly for the sales the "completed" filter shows |
| SalesHistory.SalesPage.constructor | src/pages/Sales.tsx:130-136 | the page opens over the list with no dialog, selection or reason |
| SalesHistory.SalesPage.HandleCancel | src/pages/Sales.tsx:170-174 | the sale is selected, the reason cleared and the cancel dialog opened |
| SalesHistory.SalesPage.HandleRefund | src/pages/Sales.tsx:176-180 | the sale is selected, the reason cleared and the refund dialog opened |
| SalesHistory.SalesPage.EnterReason | src/pages/Sales.tsx:136 | the reason holds what was typed |
| SalesHistory.SalesPage.ConfirmCancel | src/pages/Sales.tsx:182-189 | a blank reason changes nothing; otherwise the dialog closes and selection and reason are cleared |
| SalesHistory.SalesPage.ConfirmRefund | src/pages/Sales.tsx:191-198 | a blank reason changes nothing; otherwise the dialog closes and selection and reason are cleared |
| ActivityLog.FilteredLogs | src/pages/AuditLog.tsx:130-137 | exactly the entries whose action, user or details contain the query, ignoring case, with the chosen type or any |
| ActivityLog.SearchIgnoresQueryCase | src/pages/AuditLog.tsx:130-137 | a query and its lower-case form show the same entries |
| ActivityLog.NoFilterShowsAll | src/pages/AuditLog.tsx:130-137 | no query and "all" show the whole log in order |
| ActivityLog.TypeFilterNarrows | src/pages/AuditLog.tsx:135 | choosing a type never shows more than "all" |
| ActivityLog.FormatTimestamp | src/pages/AuditLog.tsx:139-157 | the minutes, hours or days shown are the elapsed time floored in that unit, under 60 minutes (negative for an entry in the future), 1-23 hours or 1-6 days; the date is shown only after a week or more |
| ActivityLog.TimeAgoBuckets | src/pages/AuditLog.tsx:139-157 | for a past entry: minutes under an hour, hours under a day, days under a week, the date otherwise; the count shown is the floor of the elapsed time in its unit and lies in its unit's range |
| ActivityLog.FloorDivision | src/pages/AuditLog.tsx:143-145 | the count is the largest multiple of the unit not above the elapsed time |
| ActivityLog.FutureShowsNegativeMinutes | src/pages/AuditLog.tsx:139-149 | an entry stamped in the future shows a negative number of minutes |
| ActivityLog.EntryIcon | src/pages/AuditLog.tsx:204 | a type in the icon table draws its own icon; any other type draws the document icon |
| ActivityLog.TablesShareKeys | src/pages/AuditLog.tsx:107-123 | the icon and label tables have the same keys, so every type the filter offers has its own icon |

## Left out

- Rendering: dialogs' visual state beyond the flags above, toasts, alerts, badges, icons and layout are not modelled. The sidebar's icons and the business name shown in it are left out.
- Printing the receipt (`src/pages/Receip.tsx`, `printReceipt` in `src/pages/POS.tsx`) is not modelled: it builds HTML and opens a window.
- The Dashboard, Reports, Billing, Business and Subscription pages, `App.tsx` routing, `AppHeader.tsx` and `AppLayout.tsx` are not part of this model.
- The mock lists of products, sales, audit entries and users are taken as parameters (the initial lists of the pages and the catalog of the terminal), not written out.
- `Date.now()`, `crypto.randomUUID()` and `Math.random()` are method parameters. A collision of two `Date.now()` ids is possible in the source and is not ruled out by the model.
- The 800 ms wait in `login` is left out: a login is one atomic step.
- JSON escaping in the stored user text is not modelled; only its non-emptiness is used. A stored role naming a prototype property of the lookup object (such as `constructor`) is treated like any unknown role.
- `toLowerCase` is modelled for ASCII and the Latin-1 capitals only; other scripts are compared unfolded.
- `parseFloat` is modelled by its result (`None` for NaN or an empty field). Partial parses such as "12abc" and the number-to-text round trip of the form fields are not modelled.
- PointOfSale.PosTerminal.CanConfirm: a non-numeric tender makes the change NaN in the source, which leaves the confirm button enabled; the model takes the tender already parsed, so that case is not represented.
- The barcode field being cleared after a submit, the weight field being cleared after a weigh-in and the discount dialog's own fields are not modelled.
- The payment status Processing is never observable (it is replaced within the same handler) and is not a state of the model.
- The plus button's `disabled` at the stock is a rendering detail; `updateQuantity` itself caps at the stock, which is what is modelled.
- The description field of the product form and the password field of the user form are never saved and are left out.
- `Product` omits the `description`, `categoryId` and `labels` fields of the shared type; no modelled logic reads them, and an edit keeps them unchanged through the object spread.
- The absolute date format of the activity log (locale formatting) and the Spanish text of the relative time are left out; the model states which form and which count are shown.
- Navigation.VisibleItems: its own contract states only a length bound; membership is stated by Navigation.VisibleIffPermitted and the per-role lists by the three role lemmas.
- CartLedger.Subtotal: its own contract states only the empty case; its meaning is given by CartLedger.SubtotalAppend, CartLedger.SubtotalOfOne and the lemmas about each handler.
- Completing a payment records no sale; it only clears the cart and resets the dialog, which is what is modelled.
