# Todo Electro: a verified model of the account, catalog and storefront rules

Todo Electro is an electronics shop built from a Django REST backend and a React front end.
This project models in Dafny the small rules inside it that can be stated precisely, and
proves what they promise.

**Accounts (backend).** The user table is a class holding a map from username to a record
`{email, isActive, isStaff, isSuperuser, emailVerified, pwHash}`. The model covers:

- the admin-role reconciliation pass, where only `admin` may be a superuser;
- the idempotent bootstrap of `admin`;
- registration, whose validator checks the password confirmation before e-mail uniqueness
  and whose new accounts start inactive;
- e-mail verification;
- the superuser-only admin provisioning endpoint;
- the staff check and the staff listing, with its order.

**Catalog (backend).** The catalog tables are maps from key to row inside a class. The model
covers:

- the read-open/write-staff permission;
- the category-slug filter of the product listing;
- the partial product update;
- the category slug default and the declared column constraints;
- the cascade on delete and the two declared orderings;
- the `get_or_create`-keyed demo seeding.

**Storefront (front end).** The model covers:

- the dashboard's slug generator, price-input sanitiser and thousands-separator formatter;
- the dashboard's selection toggles, order-status edit, order and product filters,
  category-to-specification-field table, and the discount and combo actions with their guards;
- the registration form's validator and submit handler;
- the catalogue page's product filter, number boxes, sliders and reset;
- the product card's defaults, description truncation, price text and stock display.

**Form of the model.** Code that changes state step by step is imperative Dafny:

- the scripts and views are methods that modify the user table or the catalog;
- React components are classes whose fields are the `useState` slots;
- each handler is a method that replaces the slots its setters touch.

Each method is proved against a specification function. The properties the source promises
are proved about that function, as `ensures` clauses and lemmas. Pure helpers, such as the
slug generator, the filters and the validators, are functions with lemmas.

**Modelling choices.**

- Money is held in cents (hundredths), which is exact for the two-decimal columns.
- Library calls are parameters: Django's token generator, the base64 codec of user keys,
  `slugify`, `validate_password`, the username and e-mail validators, the NFKC
  `normalize_username` and the mail transport.
- Django's `normalize_email`, which `create_user` applies, is modelled: strip, then
  lower-case the part after the last `@`.
- The registration fields strip surrounding white space before any check, as Django REST
  framework's `trim_whitespace` does.
- A password hash is the abstract `Hashed(raw)`.
- A database write that raises is modelled by a set of usernames whose `save()` fails.
- The discounted price, a floating-point computation, is a function parameter.

**What the code does not check.** The update view checks a product's price only against
the declared decimal precision, so the price may exceed the original price. No percentage
reaches the server: the dashboard's picker offers 15, 25, 50 or 75 percent, and the PATCH it
sends carries only the discounted price. The model follows the code.

## Model

| member | source | states |
|---|---|---|
| Accounts.Superusers | enforce_admin_roles.py:42 | exactly the accounts whose superuser flag is set |
| Accounts.RegularAdmins | enforce_admin_roles.py:43 | exactly the staff accounts that are not superusers |
| Accounts.InsertKeepsEmailsUnique | users/views.py:131-141 | inserting a row under a new username, with an e-mail address no account holds, keeps every address held by at most one account |
| UserManager.LowerDomainKeeps | users/views.py:136-141 | lower-casing the domain keeps the `@`, the first character, and whether the last character is white space |
| UserManager.LowerDomainIdempotent | users/views.py:136-141 | lower-casing the domain twice is lower-casing it once |
| UserManager.NormalizeEmailIdempotent | users/views.py:136-141 | the address `create_user` stores is already in normal form: normalizing it again changes nothing |
| Accounts.NewUser | users/views.py:136-141 | `create_user` stores an active account that is neither staff nor superuser, is not yet verified, and holds the given e-mail and a hash of the password |
| AdminRoles.ToWrite | enforce_admin_roles.py:17-36 | the pass saves `admin` iff one of its two flags is off, and saves every other account iff it is a superuser |
| AdminRoles.Reconcile | enforce_admin_roles.py:21-34 | `admin` gets both flags; another superuser loses the superuser flag and gains staff; any other record is unchanged; e-mail, activity, verification and password are never touched |
| AdminRoles.Reconciled | enforce_admin_roles.py:17-36 | after a full pass `admin` (if present) is superuser and staff; no other account is a superuser; every demoted account is staff; accounts that were not superusers are unchanged; the superusers are a subset of `{admin}` |
| AdminRoles.AppliedAllIsReconciled | enforce_admin_roles.py:17-36 | rewriting every row gives the same table as writing only the rows that need it |
| AdminRoles.AtMostOneSuperuser | enforce_admin_roles.py:42-45 | after a pass there is at most one superuser |
| AdminRoles.ReconcileIdempotent | enforce_admin_roles.py:21-38 | a second pass saves nothing, demotes nobody and changes no flag |
| AdminRoles.PromoteAdmin | enforce_admin_roles.py:17-24 | saves `admin` only when a flag was off, and fails exactly when that save raises |
| AdminRoles.DemoteOthers | enforce_admin_roles.py:28-36 | the loop demotes and saves each other superuser and stops at the first save that raises; it succeeds iff no save raises, and then the count equals the number demoted |
| AdminRoles.EnforceAdminRoles | enforce_admin_roles.py:10-50 | `enforce_admin_roles()` returns true iff no needed save raises; then the table is `Reconciled`, the demoted count is the number of other superusers, the superuser count is at most 1, and the admin count is the number of non-superuser staff; a failed run keeps only the rows already saved |
| SuperuserBootstrap.FreshAdmin | create_superuser.py:32-39 | a created `admin` is an active superuser and staff, with e-mail admin@example.com and password `admin` |
| SuperuserBootstrap.BootstrappedAdmin | create_superuser.py:17-39 | a missing `admin` is created; a non-superuser `admin` gains both flags and has its password reset; a superuser `admin` only has its password reset |
| SuperuserBootstrap.Bootstrapped | create_superuser.py:17-39 | afterwards `admin` exists and is a superuser with password `admin`; no other account changes; a superuser's staff flag and an existing e-mail are kept |
| SuperuserBootstrap.BootstrapIdempotent | create_superuser.py:17-39 | running the bootstrap twice is the same as running it once |
| SuperuserBootstrap.CreateSuperuser | create_superuser.py:11-47 | returns false iff the save of `admin` raises, and then nothing changes; otherwise the table is `Bootstrapped` |
| UserSerializers.FieldErrors | users/serializers.py:19-25 | the per-field checks of the registration serializer: username required, at most 150 characters, accepted by the username validator and unique; e-mail at most 254 characters and valid when not blank; password required and accepted by the policy; confirmation required |
| UserSerializers.ConfirmationComparedStripped | users/serializers.py:20-31 | the fields are stripped before `validate`, so passwords that differ only in surrounding white space match, and the stripped password is the one hashed |
| UserSerializers.Validate | users/serializers.py:27-39 | a mismatched confirmation fails keyed `password`; otherwise a taken e-mail fails keyed `email`; otherwise the input comes back unchanged |
| UserSerializers.MismatchCheckedFirst | users/serializers.py:29-37 | a mismatch is reported whatever the table holds, because it is checked before e-mail uniqueness |
| UserSerializers.Registered | users/serializers.py:41-50 | a registered account is inactive, not staff, not superuser and not verified, and stores the password only as a hash |
| UserSerializers.Create | users/serializers.py:41-55 | `create` inserts exactly that row under the username; it fails, storing nothing, when the `email` key is absent (`validated_data['email']` raises) or the username is taken |
| UserSerializers.Echo | users/serializers.py:19-25 | the response echoes username and e-mail; the write-only password fields are absent |
| UserSerializers.RegisterKeepsEmailsUnique | users/serializers.py:33-37 | valid registration data has a new username and never gives an e-mail address a second holder |
| UserSerializers.ApplyUserUpdate | users/serializers.py:11-17 | an update through the account serializer never changes `is_staff` (read-only) or the superuser flag |
| UserViews.VerificationMail | users/views.py:44-64 | the one mail goes to the account's (stripped) address and carries the encoded key and the token of the stored account |
| UserViews.RegisterCleaned | users/views.py:29-42 | on stripped data: invalid data gives 400 with nothing stored and no mail; valid data without an `email` key gives 500 with nothing stored and no mail; otherwise the inactive account is stored and exactly one mail is sent (201), and a mail failure gives 500 with the account stored |
| UserViews.Register | users/views.py:29-42 | the same for the request as sent, whose fields are stripped first; the stored row is the stripped data's |
| UserViews.Activated | users/views.py:77-80 | a verified account is active and marked verified, with nothing else changed |
| UserViews.Verification | users/views.py:69-86 | an accepted link activates exactly that account and redirects with `verified=1`; an undecodable key, an unknown user or a rejected token change nothing and redirect with `verified=0` |
| UserViews.VerifyTwiceSameTable | users/views.py:76-83 | following an accepted link again leaves the table as the first visit left it |
| UserViews.RegisterThenVerify | users/views.py:39-42 | a freshly registered account becomes active and verified through an accepted link |
| UserViews.VerifyEmail | users/views.py:69-86 | the view updates the table and redirects exactly as `Verification` says |
| UserViews.AdminRow | users/views.py:136-155 | a provisioned account is active, staff and verified, is a superuser iff the role is `superadmin`, and stores the normalized e-mail |
| UserViews.DecideAdmin | users/views.py:108-159 | a non-superuser gets 403; then missing or empty name, e-mail or password (400); then a taken username; then a taken e-mail, both compared as submitted; then a 500 when the NFKC-normalized username is taken; otherwise provision under the normalized username, with the role defaulting to `admin` |
| UserViews.ProvisionKeepsEmailsUnique | users/views.py:131-141 | provisioning with an address already in normal form never gives an e-mail address a second holder |
| UserViews.ProvisionMayDuplicateEmail | users/views.py:131-141 | the uniqueness check compares the submitted address, so an address whose normal form is already held passes and gets a second holder |
| UserViews.SuperadminIsOtherSuperuser | users/views.py:144-146 | a provisioned superadmin that is not `admin` is a superuser that the admin-role pass will demote |
| UserViews.CreateAdminUser | users/views.py:108-159 | status 403/400/500/201 and the error text follow `DecideAdmin`; only a provision stores a row, exactly the decided one |
| UserViews.CheckIsStaff | users/views.py:101-104 | the staff check answers exactly the requester's staff flag, which implies the listing permission |
| UserViews.StaffCheckNarrowerThanListing | users/views.py:103-104 | a superuser that is not staff may list admins, yet the staff check answers false |
| UserViews.ListingUnique | users/views.py:174 | two lists in `-is_superuser, username` order with the same members are equal, so the order determines the listing |
| UserViews.GetAdminUsers | users/views.py:164-176 | 403 unless staff or superuser; otherwise every staff account exactly once, superusers first, then by ascending username |
| CatalogModels.NewProduct | products/models.py:21-32 | a new product has no discount, a 0 discount percentage, stock 0 and no original price, and fits its columns when the price fits |
| CatalogModels.SlugOnSave | products/models.py:13-16 | an empty slug becomes `slugify(name)`; a non-empty slug is kept |
| CatalogModels.SlugOnSaveIdempotent | products/models.py:13-16 | saving again does not change the slug again |
| CatalogModels.CascadeProducts | products/models.py:30 | deleting a category leaves exactly the products of other categories, unchanged |
| CatalogModels.Catalog.InsertCategory | products/models.py:4-16 | applies the slug default, then fails on a taken name or slug (the unique constraints); otherwise adds exactly that row |
| CatalogModels.Catalog.DeleteCategory | products/models.py:30 | removes the category and cascades to its products, keeping names, slugs and references valid |
| CatalogModels.Catalog.InsertProduct | products/models.py:21-32 | fails on an unknown category or a value that does not fit its column (decimal precision, non-negative stock); otherwise adds the row under a fresh key |
| CatalogModels.Catalog.SaveProduct | products/models.py:21-32 | saving keeps every row within its declared constraints |
| CatalogModels.Catalog.InsertPaymentMethod | products/models.py:40-46 | adds the payment method under a fresh key |
| CatalogModels.CategoriesByName | products/models.py:11 | the categories, each exactly once, in ascending name order |
| CatalogModels.ProductsNewestFirst | products/models.py:35 | the products, each exactly once, with `created_at` never increasing along the list |
| CatalogViews.HasPermission | products/views.py:10-14 | reads are allowed to everyone, including anonymous requesters; other methods are allowed iff the requester is a staff user |
| CatalogViews.PermissionMonotone | products/views.py:10-14 | giving the requester more rights never withdraws a permission |
| CatalogViews.Listed | products/views.py:27-32 | with no or an empty `category` parameter, every product; otherwise exactly the products whose category's slug equals it; always a subset of all products |
| CatalogViews.ListedIsCategoryProducts | products/views.py:27-32 | with unique slugs, the filtered listing is the product set of the category with that slug |
| CatalogViews.CategoryBySlug | products/views.py:16-20 | a category detail URL addresses the one category with that slug, if any |
| CatalogViews.ValidPriceFits | products/models.py:24 | a price that passes the `(10, 2)` precision check always fits the column |
| CatalogViews.PatchErrors | products/views.py:34-45 | a field fails validation only when it is present in the request |
| CatalogViews.Clean | products/views.py:34-45 | a validated patch carries exactly the present fields, trimmed text within its limits, a fitting price, a stock within range and an existing category |
| CatalogViews.ApplyPatch | products/views.py:37-39 | a partial update writes the present fields, keeps every absent field and sets the modification time |
| CatalogViews.PatchKeepsFit | products/views.py:34-45 | a validated patch applied to a fitting row gives a fitting row |
| CatalogViews.UpdateProduct | products/views.py:34-45 | 403 without write permission; 400 with nothing saved for an unknown product or a failing field; otherwise 200 with exactly the patched row saved |
| DemoData.DemoAdmin | create_demo_data.py:19-26 | the demo `admin` is an active, verified superuser and staff with e-mail admin@admin and password `admin` |
| DemoData.CategorySeedsWellFormed | create_demo_data.py:32-38 | five category seeds with distinct names and slugs |
| DemoData.PaymentSeedsWellFormed | create_demo_data.py:53-58 | four payment seeds with distinct names |
| DemoData.ProductSeedsWellFormed | create_demo_data.py:72-143 | ten product seeds, each naming one of the five categories and fitting the product columns |
| DemoData.SeedAdmin | create_demo_data.py:19-29 | `admin` is created only when absent; otherwise nothing changes |
| DemoData.GetOrCreateCategory | create_demo_data.py:42-45 | an existing slug returns that category unchanged (its stored name kept); otherwise the seed is inserted, failing on a taken name |
| DemoData.SeedCategories | create_demo_data.py:40-50 | succeeds iff every seed passes; then the ids list has one entry per seed in seed order, each category with the seed's slug, and only seeds whose slug was missing were added |
| DemoData.NothingAddedWhenAllSlugsExist | create_demo_data.py:41-46 | when every slug exists a rerun adds no category |
| DemoData.GetOrCreatePaymentMethod | create_demo_data.py:61-64 | an existing name is kept as is, a missing one is created, and two methods with the name make it fail |
| DemoData.SeedPaymentMethods | create_demo_data.py:60-68 | afterwards each seed name is held by exactly one method, and only missing names were added |
| DemoData.NothingAddedWhenAllNamesExist | create_demo_data.py:60-68 | when every name exists a rerun adds no payment method |
| DemoData.DemoProduct | create_demo_data.py:148-154 | a demo product takes the seed's fields and category and the declared defaults |
| DemoData.SeedProducts | create_demo_data.py:147-157 | the product table gains exactly one row per seed, under fresh distinct keys |
| DemoData.Seed | create_demo_data.py:15-159 | a complete run leaves the tables seeded; a run on seeded tables completes and changes nothing, so the script is idempotent; products are added, one per seed, only when fewer than 10 exist |
| DemoData.CreateDemoData | create_demo_data.py:15-159 | the same, for the script's own seed lists, which add ten products |
| DashboardText.FoldAccent | frontend/src/pages/AdminDashboard.jsx:122-127 | accented vowels and ñ become their plain letters; ASCII letters and digits are kept |
| DashboardText.Normalize | frontend/src/pages/AdminDashboard.jsx:121-128 | per character: lower-case, fold accents, and turn anything outside a-z and 0-9 into `-` |
| DashboardText.Collapse | frontend/src/pages/AdminDashboard.jsx:129 | every run of dashes becomes one dash; the result has no `--` |
| DashboardText.SlugShape | frontend/src/pages/AdminDashboard.jsx:119-131 | every generated slug uses only a-z, 0-9 and `-`, has no leading or trailing `-`, and has no `--` |
| DashboardText.SlugFixesSlugs | frontend/src/pages/AdminDashboard.jsx:119-131 | a slug is its own slug |
| DashboardText.SlugIdempotent | frontend/src/pages/AdminDashboard.jsx:119-131 | generating a slug from a slug changes nothing |
| DashboardText.KeepPriceChars | frontend/src/pages/AdminDashboard.jsx:272 | only digits and dots are kept |
| DashboardText.SanitizePrice | frontend/src/pages/AdminDashboard.jsx:270-288 | the sanitiser as written keeps only digits and dots, with at most one dot |
| DashboardText.SanitizeOneDot | frontend/src/pages/AdminDashboard.jsx:274-283 | with at most one dot in the kept characters, the result is a price as typed: at most two digits follow the dot |
| DashboardText.SanitizeJoinsExtraPieces | frontend/src/pages/AdminDashboard.jsx:275-283 | with a second dot, `a.b.c` becomes `a.bc`, which has more than two decimals once `b` and `c` hold more than two digits |
| DashboardText.SanitizeKeepsExtraDecimals | frontend/src/pages/AdminDashboard.jsx:868-876 | "1.2.345" is sanitised to "1.2345" |
| DashboardText.SanitizePriceFixed | frontend/src/pages/AdminDashboard.jsx:861-880 | the corrected sanitiser always gives a price as typed: digits, then optionally a dot and at most two digits |
| DashboardText.FixedKeepsPrices | frontend/src/pages/AdminDashboard.jsx:861-880 | a price as typed passes the corrected sanitiser unchanged |
| DashboardText.FixedIdempotent | frontend/src/pages/AdminDashboard.jsx:861-880 | the corrected sanitiser is idempotent |
| DashboardText.FixedAgreesOnOneDot | frontend/src/pages/AdminDashboard.jsx:861-880 | the two sanitisers agree whenever the kept characters hold at most one dot |
| DashboardText.Group | frontend/src/pages/AdminDashboard.jsx:855 | grouping n digits adds (n-1)/3 commas |
| DashboardText.GroupCommas | frontend/src/pages/AdminDashboard.jsx:855 | a comma precedes every third digit counted from the right, and nowhere else |
| DashboardText.GroupDigits | frontend/src/pages/AdminDashboard.jsx:855 | removing the commas gives the digits back |
| DashboardText.FormatShape | frontend/src/pages/AdminDashboard.jsx:845-858 | `formatPrice` gives the grouped integer part, then a dot and at most two decimals when there was a dot; removing the commas gives the integer part back |
| DashboardText.KeepFormatted | frontend/src/pages/AdminDashboard.jsx:845-858 | filtering a formatted price as typed drops exactly its commas |
| DashboardText.FormatThenSanitize | frontend/src/pages/AdminDashboard.jsx:1018 | the price box shows `formatPrice(v)` and sanitises what it reads back; for a price as typed the round trip gives `v` |
| AdminDashboard.Toggle | frontend/src/pages/AdminDashboard.jsx:577-586 | the toggled id is selected iff it was not, and an unselected id is appended at the end; every other id keeps its membership |
| AdminDashboard.ToggleTwice | frontend/src/pages/AdminDashboard.jsx:577-586 | toggling an unselected id twice gives the selection back |
| AdminDashboard.ToggleKeepsOthers | frontend/src/pages/AdminDashboard.jsx:658-667 | toggling leaves the other ids in their order |
| AdminDashboard.ToggleKeepsNoDup | frontend/src/pages/AdminDashboard.jsx:577-586 | a selection without repeats stays without repeats |
| AdminDashboard.SetStatus | frontend/src/pages/AdminDashboard.jsx:802-812 | only the status of orders with that id changes; the length, the order and every other field are kept |
| AdminDashboard.SetStatusIdempotent | frontend/src/pages/AdminDashboard.jsx:802-812 | setting the same status twice is the same as setting it once |
| AdminDashboard.FilteredOrders | frontend/src/pages/AdminDashboard.jsx:819-825 | `all` gives every order; otherwise an order-preserving subsequence holding exactly the orders with that status |
| AdminDashboard.ChangedOrderListed | frontend/src/pages/AdminDashboard.jsx:802-825 | after a status change the order is listed under its new status |
| AdminDashboard.FilteredProducts | frontend/src/pages/AdminDashboard.jsx:827-834 | a blank term (after trimming) gives every product; otherwise an order-preserving subsequence holding exactly the products whose lower-cased name contains the lower-cased term or whose id string contains the term |
| AdminDashboard.FoundById | frontend/src/pages/AdminDashboard.jsx:832 | searching for a product's id finds it |
| AdminDashboard.TableFor | frontend/src/pages/AdminDashboard.jsx:314-391 | the basic table is chosen iff the lower-cased name is none of the sixteen names the `switch` lists |
| AdminDashboard.FieldTablesWellFormed | frontend/src/pages/AdminDashboard.jsx:316-391 | every table has at least five fields and no field name twice, and only the television table has a checkbox |
| AdminDashboard.CategoryFields | frontend/src/pages/AdminDashboard.jsx:298-392 | no fields iff no category has the id; otherwise the table selected by a matching category's lower-cased name |
| AdminDashboard.PatchFor | frontend/src/pages/AdminDashboard.jsx:599-616 | an unlisted id sends nothing; a listed one sends one PATCH copying the product's fields, with the discounted price |
| AdminDashboard.DiscountTargets | frontend/src/pages/AdminDashboard.jsx:598-633 | the discount reaches exactly the selected ids that name a listed product, in selection order |
| AdminDashboard.CollectPatches | frontend/src/pages/AdminDashboard.jsx:598-633 | the loop sends exactly `DiscountPatches` |
| AdminDashboard.ComboDescription | frontend/src/pages/AdminDashboard.jsx:681 | the typed description, or "Combo de N productos" when blank; never empty |
| AdminDashboard.AllowedPercentageOffered | frontend/src/pages/AdminDashboard.jsx:588-592 | a discount that passes the guard uses one of the four offered percentages |
| AdminDashboard.Dashboard.constructor | frontend/src/pages/AdminDashboard.jsx:72-101 | the initial state slots: the loaded products, an empty order list, the closed discount and combo forms, no percentage picked |
| AdminDashboard.Dashboard.OpenDiscountPicker | frontend/src/pages/AdminDashboard.jsx:145-154 | the discount modal opens with an empty selection, no percentage and an empty search; nothing else changes |
| AdminDashboard.Dashboard.HandleDiscountSelection | frontend/src/pages/AdminDashboard.jsx:573-575 | one of the four offered percentages (the buttons at lines 1216-1243) becomes the discount percentage; nothing else changes |
| AdminDashboard.Dashboard.HandleCloseDiscountModal | frontend/src/pages/AdminDashboard.jsx:650-655 | the modal closes and the selection, percentage and search reset; nothing else changes |
| AdminDashboard.Dashboard.HandleProductSelection | frontend/src/pages/AdminDashboard.jsx:577-586 | the discount selection is toggled and nothing else changes |
| AdminDashboard.Dashboard.HandleComboProductSelection | frontend/src/pages/AdminDashboard.jsx:658-667 | the combo selection is toggled and nothing else changes |
| AdminDashboard.Dashboard.HandleOrderStatusChange | frontend/src/pages/AdminDashboard.jsx:802-812 | the orders become `SetStatus` of the old orders and nothing else changes |
| AdminDashboard.Dashboard.HandleProductPriceChange | frontend/src/pages/AdminDashboard.jsx:270-288 | the product price box holds the as-written sanitiser's result, a price as typed whenever the kept characters have at most one dot; nothing else changes |
| AdminDashboard.Dashboard.HandleComboPriceChange | frontend/src/pages/AdminDashboard.jsx:861-880 | the combo price box holds the as-written sanitiser's result, a price as typed whenever the kept characters have at most one dot; nothing else changes |
| AdminDashboard.Dashboard.HandleApplyDiscount | frontend/src/pages/AdminDashboard.jsx:588-647 | with no selection or a 0 percentage, only the error is set and no request is sent; otherwise one PATCH per selected listed product is sent, then the picker closes and the selection, percentage and search reset; the percentage stays 0 or one of the offered ones |
| AdminDashboard.Dashboard.HandleCreateCombo | frontend/src/pages/AdminDashboard.jsx:669-714 | with no products, no price or no name, only the error is set and no request is sent; otherwise one create request (stock 1, marked combo, with the chosen ids) is sent, then the combo form and search reset |
| RegisterPage.AddressMatches | frontend/src/pages/RegisterPage.jsx:38 | a local part, domain and suffix without spaces, joined by `@` and `.`, pass the pattern |
| RegisterPage.PatternNeedsAtThenDot | frontend/src/pages/RegisterPage.jsx:38 | whatever passes the pattern has at least five characters and an `@` followed later by a `.` |
| RegisterPage.PatternAllowsSpaces | frontend/src/pages/RegisterPage.jsx:38 | the pattern is unanchored, so "a b@c.d" passes |
| RegisterPage.Put | frontend/src/pages/RegisterPage.jsx:31-51 | setting one key of the error object leaves the other keys as they were |
| RegisterPage.FormErrors | frontend/src/pages/RegisterPage.jsx:27-55 | each field has an error iff its check fails (username shorter than 3, e-mail not matching, password shorter than 8, confirmation empty or different); an empty field gets the required message; the object is empty iff all four checks pass |
| RegisterPage.ValidateForm | frontend/src/pages/RegisterPage.jsx:27-55 | assigning the keys one after another gives exactly `FormErrors` |
| RegisterPage.AcceptedFormConfirms | frontend/src/pages/RegisterPage.jsx:60-67 | a form the page accepts never fails the server's password confirmation, which compares the stripped fields |
| RegisterPage.SetField | frontend/src/pages/RegisterPage.jsx:19-25 | the named input takes the value and the other inputs keep theirs |
| RegisterPage.RegisterForm.constructor | frontend/src/pages/RegisterPage.jsx:8-15 | empty inputs, no errors, no banner |
| RegisterPage.RegisterForm.HandleChange | frontend/src/pages/RegisterPage.jsx:19-25 | one input changes and nothing else does |
| RegisterPage.RegisterForm.HandleSubmit | frontend/src/pages/RegisterPage.jsx:57-78 | with errors, they are shown and `register` is not called; otherwise the errors clear and the form is submitted, and a success empties all four inputs and shows the banner |
| ProductsPage.FilteredProducts | frontend/src/pages/ProductsPage.jsx:46-57 | an order-preserving subsequence holding exactly the products that match the search and the category and the price range |
| ProductsPage.EmptySearchMatches | frontend/src/pages/ProductsPage.jsx:47-48 | the empty search term matches every product |
| ProductsPage.RangeEndsIncluded | frontend/src/pages/ProductsPage.jsx:53-54 | both ends of the price range are included |
| ProductsPage.CeilToUnit | frontend/src/pages/ProductsPage.jsx:33 | rounding up to a whole unit gives the least multiple of 100 cents not below the amount |
| ProductsPage.MaxPrice | frontend/src/pages/ProductsPage.jsx:32 | the highest price of a non-empty list |
| ProductsPage.LoadedFilters | frontend/src/pages/ProductsPage.jsx:14-16 | after loading, the upper end is the highest price rounded up; search is empty and the category is `all` |
| ProductsPage.LoadShowsAll | frontend/src/pages/ProductsPage.jsx:28-33 | right after loading, every product with a non-negative price is shown |
| ProductsPage.ResetMax | frontend/src/pages/ProductsPage.jsx:212 | the reset maximum is at least 10000 and at least every price, and is one of them |
| ProductsPage.ResetShowsAll | frontend/src/pages/ProductsPage.jsx:205-214 | after a reset every product with a non-negative price is shown |
| ProductsPage.NumberBox | frontend/src/pages/ProductsPage.jsx:175 | a box holds the parsed integer, or 0 when the text does not parse |
| ProductsPage.NumberBoxOfNumeral | frontend/src/pages/ProductsPage.jsx:183 | a box holding a whole number reads as that number |
| ProductsPage.Catalogue.constructor | frontend/src/pages/ProductsPage.jsx:14-33 | the loaded products and the loaded filters |
| ProductsPage.Catalogue.SetSearch | frontend/src/pages/ProductsPage.jsx:14 | only the search term changes |
| ProductsPage.Catalogue.SelectCategory | frontend/src/pages/ProductsPage.jsx:15 | only the category changes |
| ProductsPage.Catalogue.SetMinBox | frontend/src/pages/ProductsPage.jsx:175 | only the lower end changes, to the box's number in whole units |
| ProductsPage.Catalogue.SetMaxBox | frontend/src/pages/ProductsPage.jsx:183 | only the upper end changes, to the box's number in whole units |
| ProductsPage.Catalogue.SetMinSlider | frontend/src/pages/ProductsPage.jsx:191 | only the lower end changes, to the slider position |
| ProductsPage.Catalogue.SetMaxSlider | frontend/src/pages/ProductsPage.jsx:199 | only the upper end changes, to the slider position |
| ProductsPage.Catalogue.Reset | frontend/src/pages/ProductsPage.jsx:205-214 | the filters become search empty, category `all`, range 0 to the reset maximum; then every product with a non-negative price is shown |
| ProductCard.TruncateDescription | frontend/src/components/ProductCard.jsx:35-38 | a non-string gives the fallback; at most 100 characters are kept as they are; a longer text gives its first 100 characters and "..." (length 103) |
| ProductCard.TruncateIdempotent | frontend/src/components/ProductCard.jsx:35-38 | truncating a truncated description changes nothing |
| ProductCard.FormatHundredths | frontend/src/components/ProductCard.jsx:28 | `toFixed(2)`: digits, a dot and two decimals, with a minus sign exactly for negative numbers |
| ProductCard.ParseFormatted | frontend/src/components/ProductCard.jsx:28 | reading back a printed non-negative price gives it back |
| ProductCard.FormatPrice | frontend/src/components/ProductCard.jsx:26-32 | as written: anything other than a number (or the absent default) shows "0.00" |
| ProductCard.TextPriceShowsZero | frontend/src/components/ProductCard.jsx:26-32 | a positive price sent as text, as the API sends decimals, is shown as "0.00" |
| ProductCard.FormatPriceFixed | frontend/src/components/ProductCard.jsx:26-32 | the corrected formatter reads a text price back to the same value |
| ProductCard.FixedShowsTextPrice | frontend/src/components/ProductCard.jsx:26-32 | the corrected formatter shows a text price exactly as the API printed it |
| ProductCard.FixedAgreesOnNumbers | frontend/src/components/ProductCard.jsx:26-32 | on numbers and missing prices both formatters agree |
| ProductCard.StockLabel | frontend/src/components/ProductCard.jsx:79-81 | "<n> disponibles" while there is stock, else "Agotado" |
| ProductCard.Render | frontend/src/components/ProductCard.jsx:5-95 | the placeholder iff there is no product; otherwise defaults for missing name, category and description, the placeholder image for an empty image, the truncated description, the price as the as-written `formatPrice` prints it (so "0.00" for a text price), a login link iff in preview, and otherwise the stock label with the cart disabled iff stock is at most 0 |

## Left out

- I/O: HTTP, the API client, `fetchData`, loading flags, console logging, mail delivery and
  the `print` output of the scripts. A mail transport failure is modelled only as a flag.
- Library calls are parameters or abstract values, not models: the token generator, the
  base64 codec, `slugify`, `validate_password`, the username and e-mail validators, password
  hashing and the Unicode NFKC `normalize_username`.
- UserManager.NormalizeEmail: lower-cases ASCII and Latin-1 letters only, as `Text.Lower`
  does; Python's full Unicode lower-casing is not modelled.
- Floating-point arithmetic. The discounted price is a function parameter of the discount
  action. The combo's `original_price` sum and `calculateTotalPrice` are not modelled.
- Database behaviour beyond the declared constraints: transactions, query ordering among
  rows created at the same instant (the model puts the higher key first), and the text of
  exception messages. A 500 answer from the listing view is not modelled.
- A missing username or password key and a blank value are both the empty string for the
  registration serializer; they differ only in the message text, which is not modelled. A
  missing `email` key is modelled separately, because it is accepted by the checks and then
  makes `create` raise.
- UserViews.DecideAdmin: of the exceptions the view turns into a 500 answer, only the failed insert under a taken normalized username is modelled; other database failures are not.
- UserViews.GetAdminUsers: every staff row holds the same fields, so the model lists usernames rather than serialized rows.
- Text.Lower: lower-cases ASCII and Latin-1 letters only. JavaScript's full Unicode case mapping is not modelled.
- String lengths count characters. JavaScript counts UTF-16 code units, which differ only
  outside the Basic Multilingual Plane.
- AdminDashboard.Dashboard.HandleApplyDiscount: a PATCH that fails is only logged by the
  source, so the model records every PATCH as sent. The "Error al aplicar descuentos"
  message after a failed refresh is I/O.
- AdminDashboard.Dashboard.HandleCreateCombo: the "Error al crear el combo" message after a
  failed create is I/O. The `original_price` field is float arithmetic and is not in the
  modelled form.
- The rest of the product form, its submit, editing, and the category form are not modelled;
  they are rendering and I/O.
- AdminDashboard.TableFor: the concrete table chosen for each demo category name is not
  stated as a lemma, because comparing those string constants is too costly for the solver.
  The sixteen names that select a table are stated in the contract.
- ProductsPage.LoadedFilters: with no products the source computes `Math.ceil(-Infinity)`.
  The model keeps the initial upper end in that case, which shows the same (empty) list.
  Prices are compared in cents, which matches the parsed decimals for two-decimal prices.
- ProductCard.Render: a `null` name or category, which the defaults do not replace, is not
  modelled; absent fields are. A stock that is not an integer is not modelled either.
- ProductCard.FormatPriceFixed: a text price that is negative or not of the form `digits.dd`
  shows "0.00".
- The dashboard's order list starts empty and no load fills it, so in the program the status
  edit and the order filter only ever see `[]`. `AdminDashboard.SetStatus` and
  `FilteredOrders` are stated over any list.
- AdminDashboard.Dashboard.HandleDiscountSelection: the function accepts any value, but its
  only callers are the four buttons, so the model requires one of 15, 25, 50 or 75.
- The image `onError` fallback is a browser event, and is not modelled.
- The `image` column of `Product` (an uploaded file) is not part of the catalog model; the
  product card takes the image URL as a plain optional string.
- Text.StrLess: the model orders text columns by code point. The real order of `order_by` on
  text is the database's collation, which no file of the repository fixes.
- `update_profile` (routed in the URL configuration but absent from the views) is not part
  of this model.

## Findings

| source | as written | input that shows it | evidently intended | confidence | as-written member | corrected member |
|---|---|---|---|---|---|---|
| frontend/src/pages/AdminDashboard.jsx:270-288, 861-880 | After dropping extra dots the two-decimal limit looks only at the first piece after the dot, so the following pieces bring back more decimals | typing "1.2.345" leaves "1.2345" in the price box | keep the first dot only and at most two digits after it | not executed | DashboardText.SanitizeKeepsExtraDecimals | DashboardText.SanitizePriceFixed |
| frontend/src/components/ProductCard.jsx:26-32 | `formatPrice` prints only JavaScript numbers and shows "0.00" for anything else; the API sends decimal prices as text | a product whose price arrives as "1299.99" is shown as $0.00 | show the price the API sent, with two decimals | not executed | ProductCard.TextPriceShowsZero | ProductCard.FormatPriceFixed |
