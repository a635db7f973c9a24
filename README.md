# Health shop: verified model of the mock store and the onboarding and shop pages

This project models two parts of a small health e-commerce application.

The first part is the mock GraphQL server. Its resolvers keep users, products, carts,
orders and health profiles in module-level arrays and change them in place. The model
covers:

- the caller lookup from the bearer token;
- sign-up, sign-in and profile updates;
- the four cart mutations, with their recomputed subtotal;
- checkout into an order, with its ordered guards;
- the product, category, cart and order queries.

The store is the class `Resolvers.Db`. It has a `seq` field per array, and each mutation
is a method that names what it changes. Its invariant is kept by every method:

- emails are distinct;
- each user has at most one cart;
- every cart has distinct products and a subtotal equal to the sum of its lines;
- every cart line comes from the catalogue;
- every order is non-empty and totals its lines;
- each user has at most one health profile.

The second part is the React client:

- the four-step profile wizard and the seven-question survey, as classes whose methods
  are the pages' handlers;
- the checkout page's validation rules, payment switch, empty-cart redirect and submission;
- the product list's category filter and sorts (a stable sort on a copy);
- the product page's lookup, related products and add-to-cart line;
- the sign-in redirect chain and the registration rules.

A few conventions hold throughout:

- Money is whole cents and ratings are whole tenths of a star.
- Fresh ids, timestamps and random order suffixes are parameters.
- JWT signing and verification, bcrypt hashing and comparison, and email syntax checks
  are foreign code, so they enter as function parameters.
- JavaScript's `filter`, `find`/`findIndex`, `slice` (negative arguments included),
  `reduce` and the stable `sort` are modelled once, in `Collections` and `Sorting`.
- `Sorting.SortInPlace` is an in-place insertion sort on an array. It is proved equal to
  the functional specification `Sorting.SortBy`, which is proved sorted, a permutation
  and stable.

The code was modelled as written where it differs from its stated intent:

- **Profile wizard mailing address.** Its schema makes the mailing-address fields
  required on a form value `sameAsBilling`. The form never defines that value, so the
  rule never fires. Step 2 therefore never blocks as written
  (`ProfileWizard.MailingStepAlwaysValid`).
- **Survey Next button.** The end-to-end test of the survey
  (client/cypress/e2e/profile/survey-wizard.cy.ts) expects Next to be disabled while a
  question is unanswered. The page only disables it while submitting, and
  `SurveyWizard.Survey.GoToNextQuestion` advances regardless.

## Model

| member | source | states |
|---|---|---|
| Accounts.Authenticate | server/src/graphql/resolvers.js:23-44 | A missing or empty header fails with "Authorization header must be provided". Any other failure is "Invalid/Expired token", including a user lookup that fails inside the try. Success holds exactly when the verified subject is a stored user, and the result is that user, at the index `findIndex` gives |
| Accounts.StripBearerNoPrefix | server/src/graphql/resolvers.js:30 | `replace('Bearer ', '')` leaves a header without that text unchanged |
| Accounts.NewUser | server/src/graphql/resolvers.js:211-223 | A new user stores the given id, email and hash, has no address, and has both onboarding flags false |
| Accounts.SignUpKeepsEmailsDistinct | server/src/graphql/resolvers.js:204-223 | Registering an email no user has keeps emails distinct |
| Accounts.SignIn | server/src/graphql/resolvers.js:234-258 | Every failure is the same UserInputError "Invalid email or password", and an unknown email always fails. For the first user with the email, sign-in succeeds exactly when the password matches its hash, and then returns that user with a token signed for it |
| Accounts.SignUpThenSignIn | server/src/graphql/resolvers.js:201-258 | Signing in right after signing up, with a matching password, returns the new user |
| Accounts.SignInFailuresAlike | server/src/graphql/resolvers.js:238-249 | A wrong password for a known email gives the same result as an unknown email |
| Accounts.UpdatedProfile | server/src/graphql/resolvers.js:266-289 | The profile update sets the four personal fields, replaces the address only when one is given, sets `profileCompleted`, and keeps identity, password and the survey flag |
| Accounts.ReplaceUser | server/src/graphql/resolvers.js:290-291 | Only the user at `findIndex`'s position is replaced; the length and every other user stay the same |
| Accounts.ReplaceUserKeepsEmailsDistinct | server/src/graphql/resolvers.js:290-291 | Replacing a user by a record with the same email keeps emails distinct |
| Carts.UserCart | server/src/graphql/resolvers.js:367-380 | When the caller has a cart it is that cart; otherwise a new empty cart with subtotal 0 is made for them |
| Carts.PutCartFound | server/src/graphql/resolvers.js:367-380 | Storing a cart keeps one cart per user, makes it the caller's cart, leaves other users' carts alone, and adds at most one cart |
| Carts.WithItems | server/src/graphql/resolvers.js:399-402 | Recomputing the subtotal over lines with distinct products gives a consistent cart with the same id and owner |
| Carts.AddLine | server/src/graphql/resolvers.js:383-396 | A product already in the cart keeps the line count and changes only its own line. A new product appends exactly one line with the given id and quantity |
| Carts.AddLineQuantity | server/src/graphql/resolvers.js:383-396 | The added product's total quantity grows by `quantity`; every other product's total stays the same |
| Carts.AddLineDistinct | server/src/graphql/resolvers.js:383-396 | Adding keeps "no two lines share a product" |
| Carts.AddLineSubtotal | server/src/graphql/resolvers.js:383-402 | The new subtotal is the old one plus price × quantity |
| Carts.UpdateLine | server/src/graphql/resolvers.js:426-432 | A quantity ≤ 0 removes exactly that line. Otherwise it sets that line's quantity and leaves every other line unchanged |
| Carts.UpdateLineSubtotal | server/src/graphql/resolvers.js:426-438 | The new subtotal drops the old line's total and, for a positive quantity, adds price × the new quantity |
| Carts.UpdateLineQuantity | server/src/graphql/resolvers.js:426-432 | The updated product's quantity becomes the new quantity, or 0 when the line is removed |
| Carts.UpdateLineDistinct | server/src/graphql/resolvers.js:426-432 | Updating keeps products distinct |
| Carts.QuantityOfLine | server/src/graphql/resolvers.js:383 | With distinct products, a product's total quantity is its line's quantity |
| Carts.QuantityOfAbsent | server/src/graphql/resolvers.js:383 | A product with no line has total quantity 0 |
| Carts.RemoveLineSubtotal | server/src/graphql/resolvers.js:462-468 | Removing a line lowers the subtotal by exactly that line's total |
| Carts.RemoveLineDistinct | server/src/graphql/resolvers.js:462 | Removing a line keeps products distinct |
| Orders.OrderLines | server/src/graphql/resolvers.js:524-529 | There is one order line per cart line, in order, with the cart line's product and quantity and the product's current price |
| Orders.OrderSubtotalIsCartSubtotal | server/src/graphql/resolvers.js:531-535 | The order subtotal equals the cart subtotal |
| Orders.NewOrder | server/src/graphql/resolvers.js:537-557 | Subtotal = total = the sum of the cart's price × quantity; status PROCESSING, payment COMPLETED, and the given address and method |
| Orders.NewOrderPlaced | server/src/graphql/resolvers.js:524-557 | An order made from a cart that has lines is non-empty and totals its own lines |
| Orders.CheckoutGuards | server/src/graphql/resolvers.js:499-520 | The guards run in order: cart not found, then not the caller's cart, then empty, then no shipping address. Each fails with its own error; otherwise the index of the caller's non-empty cart is returned |
| Orders.OrdersOf | server/src/graphql/resolvers.js:178-181 | Exactly the caller's orders, in placement order, each as many times as it is stored |
| Orders.OrderFor | server/src/graphql/resolvers.js:183-196 | An unknown id gives "Order not found". The first order with that id is returned only if it is the caller's; otherwise the result is an authorization error |
| Catalog.FilteredIsOneFilter | server/src/graphql/resolvers.js:56-77 | The three successive filters equal one filter by their conjunction |
| Catalog.OrderedContents | server/src/graphql/resolvers.js:79-95 | Sorting keeps exactly the filtered products |
| Catalog.QueryMatches | server/src/graphql/resolvers.js:55-99 | Every product returned is in the catalogue and passes the category, tag and search filters (case-insensitive) |
| Catalog.QueryPageSize | server/src/graphql/resolvers.js:55-99 | At most `limit` products are returned, and at most 10 when no limit is given, whatever the offset |
| Catalog.QueryIsPage | server/src/graphql/resolvers.js:98 | The result is the window of the ordered list that starts at `offset` |
| Catalog.QueryCompleteWhenShort | server/src/graphql/resolvers.js:55-99 | A first page shorter than `limit` holds every matching product |
| Catalog.QuerySortedByKey | server/src/graphql/resolvers.js:79-98 | With a recognised sortBy every returned page is ordered by that sortBy's key |
| Catalog.KeyOrderMeans | server/src/graphql/resolvers.js:79-95 | Ordered by the key of price_asc, price_desc, rating or newest means ordered by that field in that direction |
| Catalog.QuerySorted | server/src/graphql/resolvers.js:79-95 | price_asc is non-decreasing in price; price_desc, rating and newest are non-increasing in their fields |
| Catalog.QueryUnsortedKeepsOrder | server/src/graphql/resolvers.js:79-98 | An unknown or missing sortBy keeps catalogue order |
| Catalog.ProductById | server/src/graphql/resolvers.js:102-104 | The result is a catalogue product with that id; it is none exactly when no product has the id |
| Catalog.CategoryById | server/src/graphql/resolvers.js:118-122 | The result is the category of a product, with that id; it is none exactly when no product is filed under the id |
| Catalog.Categories | server/src/graphql/resolvers.js:106-116 | Category ids are distinct, and every product's category is listed |
| Catalog.CategoriesAreFirst | server/src/graphql/resolvers.js:106-122 | Each listed category is the one the `category` query returns for its id: the first product's category wins |
| Catalog.FirstFiledLast | server/src/graphql/resolvers.js:118-122 | A category first filed by the last product is found as that product's category |
| Catalog.CategoryByIdExtend | server/src/graphql/resolvers.js:118-122 | Appending a product never changes an id that is already found |
| Resolvers.UserCartValid | server/src/graphql/resolvers.js:367-380 | The cart that addToCart starts from satisfies the cart invariant |
| Resolvers.PutCartValid | server/src/graphql/resolvers.js:367-402 | Storing a valid cart for its owner keeps the store's cart invariant |
| Resolvers.SetCartValid | server/src/graphql/resolvers.js:409-491 | Replacing a user's cart by a valid cart keeps the cart invariant |
| Resolvers.CatalogueLinesPriced | server/src/graphql/resolvers.js:361-402 | Lines of a catalogue product carry its catalogue price |
| Resolvers.AddLineFromCatalogue | server/src/graphql/resolvers.js:383-396 | Adding a catalogue product keeps every line from the catalogue |
| Resolvers.UpdateLineFromCatalogue | server/src/graphql/resolvers.js:426-432 | Updating a line keeps every line from the catalogue |
| Resolvers.Db.constructor | server/src/graphql/resolvers.js:6-12 | The store starts with the given catalogue (empty in the source) and no users, carts, orders or profiles, and satisfies its invariant |
| Resolvers.Db.SignUp | server/src/graphql/resolvers.js:201-232 | A taken email fails with "Email already in use" and changes nothing. Otherwise exactly the new user is appended and returned with its token |
| Resolvers.Db.UpdateProfile | server/src/graphql/resolvers.js:266-294 | An authentication failure changes nothing. Otherwise the caller's record is replaced by the updated profile |
| Resolvers.Db.CreateHealthProfile | server/src/graphql/resolvers.js:297-329 | A second profile fails with "User already has a health profile". Otherwise the profile is appended and the caller's `surveyCompleted` is set; every failure changes nothing |
| Resolvers.Db.UpdateHealthProfile | server/src/graphql/resolvers.js:331-353 | No profile gives "Health profile not found". Otherwise the caller's profile takes the new details over its old ones |
| Resolvers.Db.AddToCart | server/src/graphql/resolvers.js:356-407 | An unknown product fails before any cart is made. Otherwise the line is added, and the subtotal grows by price × quantity |
| Resolvers.Db.UpdateCartItem | server/src/graphql/resolvers.js:409-443 | A missing cart or line fails with no change. Otherwise the line is updated or removed, and the subtotal is recomputed |
| Resolvers.Db.RemoveCartItem | server/src/graphql/resolvers.js:445-473 | A missing cart or line fails with no change. Otherwise exactly that line is removed, and the subtotal drops by its total |
| Resolvers.Db.ClearCart | server/src/graphql/resolvers.js:475-491 | The caller's cart is left with no items and subtotal 0 |
| Resolvers.Db.CreateOrder | server/src/graphql/resolvers.js:494-567 | On success the order is appended, its total equals the cart's subtotal, and the cart is emptied. On any guard failure nothing changes |
| Resolvers.Db.CartQuery | server/src/graphql/resolvers.js:172-175 | The result is the caller's cart exactly when one exists |
| Resolvers.Db.OrdersQuery | server/src/graphql/resolvers.js:178-181 | An authentication failure is passed on; otherwise the result is the caller's orders as `OrdersOf` gives them, in placement order and with their multiplicity |
| Resolvers.Db.OrderQuery | server/src/graphql/resolvers.js:183-196 | An authentication failure is passed on. For an authenticated caller the result is `OrderFor`'s: "Order not found" for an unknown id, "Not authorized to view this order" for another user's, and otherwise the caller's order |
| Resolvers.Db.Products | server/src/graphql/resolvers.js:55-99 | Filtering, sorting a copy and slicing yields exactly the query's page |
| Collections.Filter | server/src/graphql/resolvers.js:59-77 | `filter` keeps exactly the elements that pass, in order |
| Collections.FilterCounts | server/src/graphql/resolvers.js:59-77 | `filter` keeps every copy of an element that passes and no copy of one that fails |
| Collections.FirstIndex | server/src/graphql/resolvers.js:34 | `find`/`findIndex` returns the first matching position, or none when nothing matches |
| Collections.JsSlice | server/src/graphql/resolvers.js:98 | `slice(start, end)` is the window from `start`, at most `end - start` long for any start, and cut short only by the end of the list |
| Collections.SumByReplace | server/src/graphql/resolvers.js:399-402 | Replacing one term of a `reduce` sum changes the sum by the difference |
| Collections.SumByRemoveAt | server/src/graphql/resolvers.js:465-468 | Removing one term of a `reduce` sum subtracts it |
| Sorting.SortByPermutes | server/src/graphql/resolvers.js:79-95 | Sorting is a permutation |
| Sorting.SortBySorted | server/src/graphql/resolvers.js:79-95 | Sorting orders the elements by their key |
| Sorting.SortByStable | server/src/graphql/resolvers.js:79-95 | Sorting keeps elements with equal keys in their original order |
| Sorting.SortInPlace | server/src/graphql/resolvers.js:82-93 | The in-place sort of an array leaves it equal to the specified stable sort |
| Sorting.SortedCopy | client/src/pages/shop/ProductList.tsx:149-175 | Sorting a copy gives a sorted permutation of it |
| Sorting.SortedSlice | server/src/graphql/resolvers.js:98 | A slice of a sorted list is sorted |
| Session.UpdateUser | client/src/contexts/AuthContext.tsx:143-149 | Each field the update names wins and the rest are kept. Nothing happens when no one is signed in |
| Session.UpdateUserIdempotent | client/src/contexts/AuthContext.tsx:143-149 | Applying an update twice is applying it once |
| ProfileWizard.InitialValues | client/src/pages/profile/ProfileWizard.tsx:46-73 | The names come from the user when known; both countries are "United States", the language is "en", and every other text field is empty |
| ProfileWizard.CopyBilling | client/src/pages/profile/ProfileWizard.tsx:146-155 | Each mailing value becomes its billing value; every non-mailing value is unchanged |
| ProfileWizard.MailingStepAlwaysValid | client/src/pages/profile/ProfileWizard.tsx:88-114 | As written, the mailing step is valid whatever the mailing fields hold and whether or not the box is checked |
| ProfileWizard.StepValidReadsChecked | client/src/pages/profile/ProfileWizard.tsx:162-192 | A step's validity depends only on the fields that step checks |
| ProfileWizard.StepValidMoreTouched | client/src/pages/profile/ProfileWizard.tsx:162-192 | Touching more fields never invalidates a step |
| ProfileWizard.EarlyStepIgnoresSameAsBilling | client/src/pages/profile/ProfileWizard.tsx:164-181 | Steps 0 and 1 do not depend on the checkbox |
| ProfileWizard.CopyBillingKeepsEarlySteps | client/src/pages/profile/ProfileWizard.tsx:142-181 | Checking "same as billing" keeps steps 0 and 1 as valid as they were |
| ProfileWizard.EarlierStepsClearSchema | client/src/pages/profile/ProfileWizard.tsx:74-192 | Once steps 0 and 1 are valid, the whole schema passes |
| ProfileWizard.Wizard.constructor | client/src/pages/profile/ProfileWizard.tsx:40-73 | The wizard starts at step 0 with the box checked, nothing touched and the initial values |
| ProfileWizard.Wizard.Edit | client/src/pages/profile/ProfileWizard.tsx:46-115 | Editing a field shown on the current step changes only that value, and the steps already passed stay valid |
| ProfileWizard.Wizard.Blur | client/src/pages/profile/ProfileWizard.tsx:46-115 | Leaving a field marks it touched, and the steps already passed stay valid |
| ProfileWizard.Wizard.SetNotifications | client/src/pages/profile/ProfileWizard.tsx:66-70 | The two checkboxes take their new values |
| ProfileWizard.Wizard.HandleSameAsBillingChange | client/src/pages/profile/ProfileWizard.tsx:142-157 | Checking copies the six billing values into the mailing values and nothing else. Unchecking changes no value |
| ProfileWizard.Wizard.SubmitForm | client/src/pages/profile/ProfileWizard.tsx:117-138 | Every field is touched. If the schema passes, the user gets the names and `profileCompleted`, and the wizard navigates to /survey |
| ProfileWizard.Wizard.GoToNextStep | client/src/pages/profile/ProfileWizard.tsx:160-228 | A valid step below the last advances by exactly one. The last step submits, and as steps 0–2 were passed the submission always goes through. An invalid step stays put and touches its fields, and the step stays within 0..3 |
| ProfileWizard.Wizard.GoToPreviousStep | client/src/pages/profile/ProfileWizard.tsx:230-235 | Moves back one step, without validation; nothing happens at step 0 |
| SurveyWizard.QuestionIdsDistinct | client/src/pages/profile/SurveyWizard.tsx:17-103 | The seven question ids are distinct |
| SurveyWizard.Toggled | client/src/pages/profile/SurveyWizard.tsx:123-139 | Checking appends the value, duplicates included. Unchecking removes every occurrence and keeps every copy of the other values, in order |
| SurveyWizard.CheckThenUncheck | client/src/pages/profile/SurveyWizard.tsx:123-139 | Checking then unchecking a value is the same as unchecking it |
| SurveyWizard.UncheckAbsent | client/src/pages/profile/SurveyWizard.tsx:134-138 | Unchecking a value never checked changes nothing |
| SurveyWizard.SliderShows | client/src/pages/profile/SurveyWizard.tsx:251-258 | An unanswered slider shows its declared minimum; an answered one shows its answer |
| SurveyWizard.Survey.constructor | client/src/pages/profile/SurveyWizard.tsx:108-109 | The survey starts at question 0 with no answers |
| SurveyWizard.Survey.HandleSingleAnswer | client/src/pages/profile/SurveyWizard.tsx:115-120 | Only the current question's answer is overwritten |
| SurveyWizard.Survey.HandleMultiAnswer | client/src/pages/profile/SurveyWizard.tsx:123-139 | Only the current question's list changes, as `Toggled` says, starting from empty when there is no answer |
| SurveyWizard.Survey.HandleSliderAnswer | client/src/pages/profile/SurveyWizard.tsx:142-147 | Only the current question's answer is overwritten, and the slider then shows it |
| SurveyWizard.Survey.HandleSubmit | client/src/pages/profile/SurveyWizard.tsx:170-189 | The user gets `surveyCompleted`, keeps the profile flag, and the page navigates to /products |
| SurveyWizard.Survey.GoToNextQuestion | client/src/pages/profile/SurveyWizard.tsx:150-159 | Next advances by one whether or not the question is answered; at the last question it submits instead. The answers are untouched |
| SurveyWizard.Survey.GoToPreviousQuestion | client/src/pages/profile/SurveyWizard.tsx:162-167 | Moves back one question; nothing happens at question 0. The answers are untouched |
| Checkout.ExpiryIsMonthAndYear | client/src/pages/shop/Checkout.tsx:51-57 | The expiry pattern accepts exactly "MM/YY" with MM a month from 1 to 12 |
| Checkout.Errors | client/src/pages/shop/Checkout.tsx:26-65 | No field errs exactly when the shipping section is complete and the payment is PayPal or a complete card; address line 2 and the save flag never err |
| Checkout.NoErrorIffComplete | client/src/pages/shop/Checkout.tsx:26-65 | Every rule passes exactly when the shipping and payment sections are complete |
| Checkout.NoErrorMeansComplete | client/src/pages/shop/Checkout.tsx:26-65 | A form that passes every rule has complete shipping and payment sections |
| Checkout.CompleteMeansNoError | client/src/pages/shop/Checkout.tsx:26-65 | A form with complete shipping and payment sections passes every rule |
| Checkout.CardRules | client/src/pages/shop/Checkout.tsx:39-64 | Paying by credit card, the card number passes exactly when it is 16 digits, the expiry when it is MM/YY, the CVV when it is 3 or 4 digits, and the name when it is given |
| Checkout.PayPalLeavesCardFree | client/src/pages/shop/Checkout.tsx:39-64 | With PayPal no card field is in error, whatever it holds |
| Checkout.ShippingRules | client/src/pages/shop/Checkout.tsx:28-36 | The nine shipping fields are required whatever the payment method. Address line 2 and the save flag never are |
| Checkout.InitialForm | client/src/pages/shop/Checkout.tsx:68-91 | The form starts with a credit card, "United States", save checked, the user's email when known, and empty address and card fields |
| Checkout.ConfirmationRoute | client/src/pages/shop/Checkout.tsx:100-106 | The confirmation route is /order-confirmation/ORD- followed by the order suffix |
| Checkout.CheckoutPage.constructor | client/src/pages/shop/Checkout.tsx:16-91 | The page starts on credit card in both the state and the form. An empty cart redirects to /products |
| Checkout.CheckoutPage.CartChanged | client/src/pages/shop/Checkout.tsx:19-23 | A cart that becomes empty redirects to /products |
| Checkout.CheckoutPage.HandlePaymentMethodChange | client/src/pages/shop/Checkout.tsx:115-118 | The state and the form value change together and stay equal |
| Checkout.CheckoutPage.Edit | client/src/pages/shop/Checkout.tsx:68-91 | Typing replaces the form values and keeps the payment method equal to the state's |
| Checkout.CheckoutPage.Submit | client/src/pages/shop/Checkout.tsx:93-111 | A passing form clears the cart and opens the confirmation page; a failing one changes nothing |
| ProductList.AllKeepsEverything | client/src/pages/shop/ProductList.tsx:151-154 | "All" shows every product, each as many times as the list has it |
| ProductList.CategoryShowsItsOwn | client/src/pages/shop/ProductList.tsx:151-154 | Any other category shows exactly the products filed under it |
| ProductList.ArrangePermutesFilter | client/src/pages/shop/ProductList.tsx:148-175 | The shown list is a permutation of the filtered list |
| ProductList.ArrangeOrdered | client/src/pages/shop/ProductList.tsx:157-166 | price-low is non-decreasing in price; price-high and rating are non-increasing |
| ProductList.ProductListPage.constructor | client/src/pages/shop/ProductList.tsx:114-117 | The page starts empty, on "All" and "recommended" |
| ProductList.ProductListPage.ApplyFilters | client/src/pages/shop/ProductList.tsx:148-176 | The shown list becomes the filtered, sorted copy, and the product list itself is not reordered |
| ProductList.ProductListPage.Load | client/src/pages/shop/ProductList.tsx:121-146 | The fetched products are stored and the shown list is recomputed |
| ProductList.ProductListPage.SelectCategory | client/src/pages/shop/ProductList.tsx:148-176 | A new category recomputes the shown list from the unchanged products |
| ProductList.ProductListPage.SelectSort | client/src/pages/shop/ProductList.tsx:148-176 | A new order recomputes the shown list from the unchanged products |
| ProductDetail.Lookup | client/src/pages/shop/ProductDetail.tsx:244-248 | A missing, empty or unknown id gives no product (the not-found view); a known id gives the catalogue's product with that id |
| ProductDetail.Related | client/src/pages/shop/ProductDetail.tsx:186-190 | At most four products, all from the catalogue, none the current product, and all of its category |
| ProductDetail.RelatedIsFirstCandidates | client/src/pages/shop/ProductDetail.tsx:188-190 | The related products are the first four candidates in catalogue order, or all of them when there are fewer |
| ProductDetail.RelatedSection | client/src/pages/shop/ProductDetail.tsx:192 | Nothing is rendered exactly when no other product shares the category |
| ProductDetail.AddItemPayload | client/src/pages/shop/ProductDetail.tsx:265-282 | Nothing is added without a product; otherwise the product's line with the selected quantity is added |
| ProductDetail.PayloadQuantityInRange | client/src/pages/shop/ProductDetail.tsx:535 | Any quantity picked from the selector reaches the cart as 1 to 8 |
| Login.LoginErrors | client/src/pages/auth/Login.tsx:18-24 | Email and password are both required, and the email must look like one |
| Login.LoginRedirect | client/src/pages/auth/Login.tsx:31-39 | /profile exactly when the profile is incomplete, /survey exactly when only the survey is, and /products exactly when both are done |
| Login.SubmitLogin | client/src/pages/auth/Login.tsx:25-47 | A rejected form is not submitted. A failed sign-in shows "Invalid email or password. Please try again." and does not navigate. A successful one clears the error and redirects |
| Login.RedirectFollowsOnboarding | client/src/pages/auth/Login.tsx:31-39 | A new user is sent to /profile, to /survey after the profile wizard, and to /products after the survey |
| Register.RegisterErrors | client/src/pages/auth/Register.tsx:19-29 | Email, password and confirmation are required. The password needs 8 characters and the confirmation must equal it |
| Register.RegisterAcceptsExactly | client/src/pages/auth/Register.tsx:19-29 | The form passes exactly for an email, a password of at least 8 characters and its exact repetition |
| Register.SubmitRegister | client/src/pages/auth/Register.tsx:30-47 | A rejected form is not submitted. Success navigates to /profile; failure shows the fixed message and does not navigate |

## Left out

- JWT signing and verification, and bcrypt hashing and comparison, are foreign libraries. They are function parameters of `Authenticate`, `SignIn` and `Db.SignUp`.
- Yup's email syntax check and date parsing are library behaviour. They are the predicate parameters `isEmail` and `isDate`.
- Ids, timestamps (`Date.now()`, `new Date()`) and the random order suffix are nondeterministic, so they are parameters.
- `createReview` is left out because it averages ratings in floating point.
- The `log10` "recommended" sort on the product list uses floating point. The model takes that order as a caller-supplied integer key.
- `recommendedProducts` is left out: it is a placeholder heuristic.
- The `orderStatusChanged` subscription is left out: it is a stub async iterator.
- `signOut` is left out: it only returns true.
- The `me` query is `Authenticate` itself.
- Prices and subtotals are JavaScript numbers in the source. The model uses whole cents, so rounding of floating-point sums is not modelled.
- Ratings are whole tenths and slider answers are reals.
- Interleaving of concurrent requests over the shared arrays is not modelled. Neither are the artificial `setTimeout` delays or the `isSubmitting`/`isLoading` flags.
- Resolvers.Db: the JavaScript code mutates the cart object the resolver returns and shares it with `db`. The model stores cart values, so aliasing between a returned cart and the store is not captured.
- Resolvers.Db.constructor: the source's store starts with an empty `products` array that nothing ever fills. The model takes the catalogue as a parameter, and the source is the case of an empty catalogue. In that case `products` returns [], `addToCart` always fails with "Product not found", no cart is ever created, and so `createOrder` always fails with "Cart not found".
- Resolvers.Db.CreateHealthProfile: the source spreads arbitrary input keys into the profile. The model takes the details as a string map.
- Resolvers.Db.CreateOrder: the `shippingAddressId` argument, which the source ignores, is not modelled. Neither is the `updatedAt` stamp.
- Register.RegisterErrors: Yup's `min(8)` counts UTF-16 code units, and the model counts characters. A password of four characters outside the Basic Multilingual Plane is 8 units long, so the source accepts it and the model rejects it.
- Catalog.MatchesSearch: lower-casing is ASCII only. The Unicode case mapping of `toLowerCase` is not modelled.
- Catalog.Categories: the result lists categories in the order their products first appear. The order in which `Object.values` enumerates integer-like keys is not modelled.
- ProfileWizard.Wizard: validation timing (formik validating asynchronously after each change) is not modelled. Errors are a function of the current values.
- ProfileWizard.Wizard: the rendering of each step's inputs is not modelled. `Edit` and `Blur` accept exactly the fields the current step shows.
- ProductDetail.Lookup: the page's record of sample products is a list here. A prototype key such as "toString", which a JavaScript object lookup would also find, is not modelled.
- Checkout.CheckoutPage.Submit: after the cart is cleared, the empty-cart effect could also fire. The page has already navigated away, so that effect is not modelled after submission.
- The cart context (client/src/contexts/CartContext.tsx) is not part of this model. The checkout page sees it as a line count, and the product page as the line it hands to `addItem`.
- The rest of the client is pure presentation and is not modelled: routing, layouts, the cart, order history, order confirmation and forgot-password views, and the Apollo bootstrap.
