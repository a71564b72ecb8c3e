# Emall rules, modelled in Dafny

Emall is a shopping-mall web application. It has an Express/Mongoose back
end and a Next.js front end. This project models the parts of it that make
decisions, and proves properties of them:

- **Product routes** (`product_routes.dfy`, module `ProductRoutes`):
  - the 24-hex-digit shop id check;
  - posting a review, with one review per (product, user);
  - the product update and its restock e-mail wait-list;
  - subscribing to that wait-list;
  - deleting a product.

  The product store is a class `ProductService`. It holds a map from id to
  product, a review sequence and a trace of mail attempts. `sendMail` is a
  function parameter whose result says whether the send succeeded.
- **Request guards**:
  - `validation.dfy` (`Validation`): the register, login and profile
    validators, and the e-mail regular expression. The regular expression
    is given both as a reference pattern and as the checker used, and the
    two are proved equal.
  - `auth.dfy` (`Auth`): token extraction from the `Authorization` header,
    verification outcomes and `requireRole`. The request is a class whose
    `user` field is written before `next` is called.
- **Accounts** (`auth_controller.dfy`, `AuthController`): register, login,
  profile read and profile update over a user table (class `UserStore`).
  Hashing, password comparison and token signing are function parameters.
- **The style competition**:
  - `outfit_builder.dfy`: the outfit cart's derived values and its button
    rule;
  - `competition.dfy`: the competition page, as a class with its state and
    its stored keys;
  - `competition_content.dfy`: the spin, build and submit step machine;
  - `judge.dfy`: the judge panel (scores, podium places, sorting,
    winners).
- **The two style quizzes**:
  - `style_quiz_content.dfy`: weighted scores and the argmax with its
    tie-break;
  - `style_quiz_page.dfy`: the recommendation decision table and the
    `canProceed` gate.

  Both files also model question navigation.
- **Catalogue pages**: the filters, de-duplication and grouping on the
  following pages:
  - shops (`shops_page.dfy`);
  - search (`search_page.dfy`);
  - malls (`malls_page.dfy`);
  - blog (`blog_page.dfy`).
- **The admin page** (`admin_page.dfy`):
  - how the mall, shop and product forms become request bodies, including
    comma lists that are split, trimmed and filtered;
  - the mallId and required-field guards;
  - the image preview and the button that removes a previewed image;
  - the name search over each table.

Shared helpers live in the following files:

- `common.dfy`: `Option` and JavaScript truthiness of optional strings;
- `text.dfy`: JavaScript `trim`, ASCII `toLowerCase`, `includes`, `split` and
  `join`, with their round trips;
- `lists.dfy`: `filter`, toggling, de-duplication, sums and a stable sort;
- `catalog.dfy`: tag matching and de-duplication shared by the pages.

React state is modelled in one of two ways. Where a component's handlers
update state step by step, the state becomes the fields of a class and the
handlers become methods. Values the component only derives become
functions.

Some things the code does, noted while modelling (not bugs):

- On the style-quiz page, the slider handler's reset of the slider value
  never fires. `StyleQuizPage.QuizPage.Next` keeps `sliderValue`.
- The admin's shop edit dialog does not repeat the mallId length check made
  when adding a shop. See `AdminPage.SaveShop` against `AdminPage.AddShop`.
- An admin images field holding only blanks shows neither a preview nor the
  "no image" placeholder (`AdminPage.BlankImagesShowNothing`).

## Model

| member | source | states |
|---|---|---|
| ProductRoutes.IsHexId | backend/routes/productRoutes.js:26-28 | true exactly when the id has 24 characters, each a hexadecimal digit of either case |
| ProductRoutes.ProductService.ProductsOfShop | backend/routes/productRoutes.js:22-31 | a malformed shop id gives no answer (400). Otherwise the answer is exactly the stored products whose shopId is that id, unchanged |
| ProductRoutes.ProductService.ReviewsOf | backend/routes/productRoutes.js:39-46 | the reviews of the product, each as often as it is stored and no others, newest first |
| ProductRoutes.NewestFirst | backend/routes/productRoutes.js:41 | the reviews of one product, each as often as it is stored and no others, ordered by creation time descending |
| ProductRoutes.StoredUserKey | backend/routes/productRoutes.js:58 | the user key of a new review is the `id` claim, else `_id`, else `userId`, each taken only when truthy |
| ProductRoutes.ProductService.PostReview | backend/routes/productRoutes.js:49-67 | corrected: the duplicate query at line 54 as written is `ReviewExistsAsWritten`; this member checks the key the review is stored under instead (see "## Findings"). A missing or zero rating, or a missing or empty comment, is a 400 and stores nothing. A review already stored under the same (product, user key) is a 400 and stores nothing. Otherwise exactly one review is appended and returned with 201, and keys stay unique |
| ProductRoutes.ReviewInsertKeepsUnique | backend/routes/productRoutes.js:54-62 | appending a review whose (product, user) key is free keeps all keys unique |
| ProductRoutes.AsWrittenBlocksOtherUser | backend/routes/productRoutes.js:54 | with the duplicate query as written and tokens that carry only `userId`, a second user is refused because a first user reviewed the product. The corrected check lets the second user through |
| ProductRoutes.ChecksAgreeWithIdClaim | backend/routes/productRoutes.js:54-58 | when the token does carry a truthy `id`, the check as written and the corrected check agree on every review list |
| ProductRoutes.Merge | backend/routes/productRoutes.js:108 | every field present in the body replaces the product's field, and every absent field keeps its value |
| ProductRoutes.MergeEmptyAndIdempotent | backend/routes/productRoutes.js:107-108 | merging an empty body changes nothing, and merging the same body twice equals merging it once |
| ProductRoutes.Sender | backend/routes/productRoutes.js:113-117 | the sender is the shop's e-mail when the product has a truthy shop id, the shop exists and its e-mail is truthy; otherwise (an empty e-mail included) it is the default sender |
| ProductRoutes.Attempts | backend/routes/productRoutes.js:120-127 | one attempt per address, in list order, each with the same sender, subject and text, recording whether it succeeded |
| ProductRoutes.AttemptsStep | backend/routes/productRoutes.js:120-127 | the attempts for a prefix one longer are the previous attempts followed by the attempt for the next address |
| ProductRoutes.ProductService.NotifyAll | backend/routes/productRoutes.js:120-127 | the send loop appends exactly `Attempts(...)` to the trace; a failed send does not stop later ones |
| ProductRoutes.ProductService.Update | backend/routes/productRoutes.js:99-136 | an unknown id is a 404 with nothing changed. Otherwise the merged product is stored. Mail goes out only when the stored product was out of stock, the merged one is in stock and the wait-list is non-empty; then each address gets one attempt and the stored wait-list is emptied. No other product changes |
| ProductRoutes.ProductService.Delete | backend/routes/productRoutes.js:139-149 | removes exactly that product, or answers 404 and changes nothing |
| ProductRoutes.AddUnique | backend/routes/productRoutes.js:161-166 | the address is on the list afterwards; it is appended only when absent, so a list without duplicates stays without duplicates |
| ProductRoutes.AddUniqueIdempotent | backend/routes/productRoutes.js:161-166 | subscribing the same address twice gives the same list as once |
| ProductRoutes.ProductService.Subscribe | backend/routes/productRoutes.js:152-171 | a missing, empty or non-string e-mail is a 400 and an unknown product a 404, with nothing changed. Otherwise only that product's wait-list changes, to `AddUnique` of it |
| Validation.IndexOf | backend/middleware/validation.js:12 | the position of the first occurrence of a character |
| Validation.EmailShapeIff | backend/middleware/validation.js:12-15 | the checker accepts an address exactly when the regular expression `^[^\s@]+@[^\s@]+\.[^\s@]+$` matches it |
| Validation.ShapeMatches | backend/middleware/validation.js:12-15 | an address the checker accepts matches the regular expression |
| Validation.MatchHasShape | backend/middleware/validation.js:12-15 | any way of matching the regular expression (an '@' and a later '.', the three parts non-empty and free of blanks and '@') is accepted by the checker |
| Validation.ValidateRegister | backend/middleware/validation.js:3-23 | passes exactly when the name, e-mail and password checks all pass. Otherwise it reports only the first failing check, in the order name, e-mail, password |
| Validation.BlankNameRefused | backend/middleware/validation.js:7-9 | a name made only of blanks is refused with the name error, whatever the other fields are |
| Validation.ValidateLogin | backend/middleware/validation.js:25-39 | passes exactly when e-mail and password are both truthy. A missing e-mail is reported before the password is looked at |
| Validation.ValidateProfileUpdate | backend/middleware/validation.js:41-58 | absent fields pass. A present name is checked before a present e-mail, and each failure gets its own message |
| Validation.ProfileUpdateWeakerThanRegister | backend/middleware/validation.js:41-58 | an empty update passes, and any name and e-mail that pass the register check also pass the update check |
| Auth.TokenIsSecondField | backend/middleware/auth.js:5 | the token is the second space-separated field of the header, whatever the first word is and whatever follows |
| Auth.NoSpaceNoToken | backend/middleware/auth.js:5-9 | a header with no space yields no token |
| Auth.Request.Authenticate | backend/middleware/auth.js:3-23 | no token is a 401 and `next` is not called. A verified token sets `req.user` to its claims and calls `next` exactly once. A verification error maps through `ClassifyError` and leaves the user unset |
| Auth.ClassifyError | backend/middleware/auth.js:14-22 | an expired token gives 401 "Token expired", a malformed one 401 "Invalid token", and any other error 500 "Token verification failed"; `next` is never called |
| Auth.RequireRole | backend/middleware/auth.js:26-38 | `next` is called exactly when there is a user whose role is among the roles. With no user the answer is 401; otherwise it is 403 |
| AuthController.Public | backend/controllers/authController.js:29-34 | the user returned carries the id, name, e-mail and role, and no password |
| AuthController.TokenClaims | backend/controllers/authController.js:20-21 | the claims signed are `userId`, e-mail and role; there is no `id` or `_id` claim |
| AuthController.StoredRole | backend/models/User.js:22-24 | a missing role becomes "user". The roles "admin" and "user" are kept, and any other role is refused by the schema |
| AuthController.NormalEmail | backend/models/User.js:10-16 | the schema's `lowercase` and `trim` setters: the result is trimmed, has no upper-case ASCII letter and is no longer than the input |
| AuthController.NormalEmailIdempotent | backend/models/User.js:14-15 | normalising a stored address again changes nothing, so a stored address is found by itself |
| AuthController.NormalEmailIgnoresCase | backend/models/User.js:14 | addresses that differ only in ASCII letter case normalise to the same address |
| AuthController.CaseVariantIsTaken | backend/controllers/authController.js:11 | with "a@b" stored, the lookup for " A@B" finds it |
| AuthController.CastEmail | backend/controllers/authController.js:115-119 | the update's `email` is present exactly when the body's is, and is then its normalised form |
| AuthController.UserStore.constructor | backend/controllers/authController.js:7 | an empty user table |
| AuthController.UserStore.Register | backend/controllers/authController.js:7-35 | an e-mail whose normalised form is already stored is a 400 with no user created. Otherwise exactly one user is appended, with the normalised e-mail, and 201 returns its token and public record; e-mails stay unique |
| AuthController.UserStore.Login | backend/controllers/authController.js:41-77 | the lookup uses the normalised e-mail. An unknown e-mail and a wrong password give the same 401 "Invalid credentials". Otherwise a session for the matching user is returned, with its signed claims and public record |
| AuthController.UserStore.GetProfile | backend/controllers/authController.js:89-100 | 404 exactly when no user has the token's `userId`; otherwise that user's public record |
| AuthController.OwnEmailAllowed | backend/controllers/authController.js:108-113 | with unique e-mails, a user's own current e-mail is never held by another user |
| AuthController.ApplyUpdate | backend/controllers/authController.js:115-119 | the update sets the fields that are present and keeps the id, password and role |
| AuthController.UserStore.UpdateProfile | backend/controllers/authController.js:102-128 | a truthy e-mail whose normalised form another user holds is a 400 with nothing changed. An update the schema rejects is a 500. Otherwise the caller's record gets the fields, the e-mail normalised, and e-mails stay unique |
| AuthController.UpdateKeepsUnique | backend/controllers/authController.js:108-119 | replacing a user by one with the same id and an e-mail nobody else holds keeps e-mails unique |
| OutfitBuilder.ItemsInCategory | front/components/OutfitBuilder.tsx:46-48 | "all" shows every product. Any other category shows exactly the products of that category, in their original order |
| OutfitBuilder.RemoveById | front/app/competition/page.tsx:136-138 | drops every entry with the id and keeps every other entry, as often as it occurred, in order |
| OutfitBuilder.AddWithinBudget | front/components/OutfitBuilder.tsx:50-53 | adding an affordable product (remaining cash at least its price) keeps the total spent within the cash |
| OutfitBuilder.RemoveWithinBudget | front/components/OutfitBuilder.tsx:50-51 | removing products never takes the total spent over the cash |
| OutfitBuilder.ButtonPress | front/components/OutfitBuilder.tsx:175-176 | a selected product's button removes it. An unselected product's button adds it when affordable and is disabled otherwise |
| Competition.CompetitionPage.constructor | front/app/competition/page.tsx:98-104 | the welcome step, no cash, no selection, empty name and description, not submitted |
| Competition.CompetitionPage.Mount | front/app/competition/page.tsx:107-119 | a stored participation leads to the submit step. Otherwise a stored spin leads to the build step, with the stored cash restored. Otherwise nothing changes |
| Competition.CompetitionPage.SpinWin | front/app/competition/page.tsx:121-125 | cash is the amount won, the spin is recorded in state and in storage, and the build step follows |
| Competition.CompetitionPage.SelectProduct | front/app/competition/page.tsx:129-134 | the product is appended exactly when the total plus its price is within the cash; otherwise the selection is unchanged. The total never exceeds the cash |
| Competition.CompetitionPage.RemoveProduct | front/app/competition/page.tsx:136-138 | the selection becomes `RemoveById` of the old one, and stays within budget |
| Competition.CompetitionPage.SubmitOutfit | front/app/competition/page.tsx:140-158 | nothing happens unless the name is non-empty and a product is selected. Then one entry is appended to the stored entries, its total cost being the sum of the selected prices, and the participation flag is set |
| CompetitionContent.Widget.constructor | front/components/CompetitionContent.tsx:20-23 | the spin step, no cash, no selection, not spun |
| CompetitionContent.Widget.SpinComplete | front/components/CompetitionContent.tsx:93-97 | cash is the amount and the build step follows the spin |
| CompetitionContent.Widget.Select | front/components/CompetitionContent.tsx:99-101 | appends the product with no budget check |
| CompetitionContent.SelectAloneOverspends | front/components/CompetitionContent.tsx:99-101 | the select handler on its own can take the total over the cash, so the budget rests on the builder's disabled button |
| CompetitionContent.Widget.Remove | front/components/CompetitionContent.tsx:103-105 | the selection becomes `RemoveById` of the old one |
| CompetitionContent.Widget.PressButton | front/components/OutfitBuilder.tsx:175-176 | pressing the builder's button does what `ButtonPress` says and keeps the total within the cash |
| CompetitionContent.Widget.SubmitOutfit | front/components/CompetitionContent.tsx:107-109 | moves to the submit step |
| CompetitionContent.Widget.Reset | front/components/CompetitionContent.tsx:111-116 | back to the spin step, with cash 0, no selection and not spun |
| CompetitionContent.Widget.RemainingShown | front/components/CompetitionContent.tsx:219-222 | the cash shown is the cash minus the sum of the selected prices, never negative within budget |
| Judge.NatToString | front/app/competition/judge/page.tsx:152 | the decimal text of a number is non-empty, and has two digits or more from 10 on |
| Judge.NatToStringInjective | front/app/competition/judge/page.tsx:152 | different numbers have different decimal texts |
| Judge.Loaded | front/app/competition/judge/page.tsx:147-155 | the mock submissions come first; then the stored entries, in storage order, with ids `user_1` to `user_n` |
| Judge.MockIds | front/app/competition/judge/page.tsx:34-134 | three mock submissions with distinct one-character ids |
| Judge.UserIdInjective | front/app/competition/judge/page.tsx:152 | different positions give different `user_` ids |
| Judge.LoadedIdsDistinct | front/app/competition/judge/page.tsx:147-155 | all loaded submissions have distinct ids |
| Judge.ApplyScore | front/app/competition/judge/page.tsx:167-176 | only the submissions with the id get the score and comments; every other submission is unchanged |
| Judge.AwardPlace | front/app/competition/judge/page.tsx:179-185 | the target gets the place. Any other holder of that place loses it, and every other place stays as it was |
| Judge.AwardPlaceKeepsUnique | front/app/competition/judge/page.tsx:179-185 | with distinct ids, each podium place stays held by at most one submission |
| Judge.SortedSubmissions | front/app/competition/judge/page.tsx:187-202 | a permutation ordered by the chosen key: newest or oldest by date, highest score first (unscored counting as 0), lowest or highest cost first. An unknown key keeps the order |
| Judge.Winners | front/app/competition/judge/page.tsx:204 | exactly the submissions that hold a place, ordered by place ascending |
| Judge.JudgePanel.constructor | front/app/competition/judge/page.tsx:137-155 | the loaded submissions, nothing selected, empty inputs, sorted newest first |
| Judge.JudgePanel.ScoreSelected | front/app/competition/judge/page.tsx:167-176 | with a selection and a score in 1..10, only the selected submission's score and comments change and the inputs are cleared; otherwise nothing changes. Scores stay within 1..10 |
| Judge.JudgePanel.SelectWinner | front/app/competition/judge/page.tsx:179-185 | the submissions become `AwardPlace` of the old ones, and places stay unique |
| StyleQuizContent.Rank | front/components/StyleQuizContent.tsx:305 | the position of a profile in the key order minimalist, urban, romantic, classic |
| StyleQuizContent.ScoreAnswers | front/components/StyleQuizContent.tsx:282-301 | each profile scores between 0 and 6, and the four scores add up to at most 6 |
| StyleQuizContent.TieGoesToLater | front/components/StyleQuizContent.tsx:305 | of two keys with equal scores, the one listed earlier never wins the `reduce` |
| StyleQuizContent.OutscoringAllWins | front/components/StyleQuizContent.tsx:305 | a key that beats every other key on score, or ties it and is listed later, is the result of the `reduce` |
| StyleQuizContent.VotesDecide | front/components/StyleQuizContent.tsx:282-305 | with votes worth 3, 2 and 1, the 3-point profile wins exactly when the other two votes do not both go to one profile listed after it |
| StyleQuizContent.TopProfile | front/components/StyleQuizContent.tsx:305 | the result has the highest score, and among equal scores the latest key wins |
| StyleQuizContent.PersonalityDecides | front/components/StyleQuizContent.tsx:282-305 | the profile the first question votes for wins, unless the colour and fit questions both vote for one same profile later in the key order |
| StyleQuizContent.CreativeAloneIsClassic | front/components/StyleQuizContent.tsx:282-305 | the "Creative and artistic" answer alone, with no colour or fit vote, gives classic elegance |
| StyleQuizContent.SliderShown | front/components/StyleQuizContent.tsx:506 | an unanswered slider shows 5 |
| StyleQuizContent.UntouchedSliderBlocksNext | front/components/StyleQuizContent.tsx:506-535 | an untouched slider shows 5 but counts as unanswered, so Next stays disabled |
| StyleQuizContent.Quiz.constructor | front/components/StyleQuizContent.tsx:248-251 | question 0, no answers, no results |
| StyleQuizContent.Quiz.HandleAnswer | front/components/StyleQuizContent.tsx:255-257 | only the given question's answer changes |
| StyleQuizContent.Quiz.ToggleOption | front/components/StyleQuizContent.tsx:461-466 | the list becomes `Toggle` of the old one: an option already chosen is removed, any other is appended at the end; no other answer changes |
| StyleQuizContent.Quiz.CalculateResults | front/components/StyleQuizContent.tsx:273-309 | the profile shown is `TopProfile` of the answers' scores |
| StyleQuizContent.Quiz.Next | front/components/StyleQuizContent.tsx:259-265 | advances one question, except on the last one, where it computes the results instead |
| StyleQuizContent.Quiz.Previous | front/components/StyleQuizContent.tsx:267-271 | goes back one question and never below 0 |
| StyleQuizContent.Quiz.Reset | front/components/StyleQuizContent.tsx:311-316 | question 0, no answers, no results |
| StyleQuizPage.GenerateRecommendations | front/app/style-quiz/page.tsx:222-365 | always 3 recommendations. Minimalist with neutral gives Minimalist Chic; otherwise adventurous with streetwear gives Urban Explorer; otherwise romantic with pastel gives Romantic Dreamer; otherwise Classic Elegance. The personality is [answer 1] and the preferences are answer 2 |
| StyleQuizPage.NothingAnsweredIsClassic | front/app/style-quiz/page.tsx:224-227 | with no answers the defaults give Classic Elegance and its picks |
| StyleQuizPage.MissingColorCountsAsNeutral | front/app/style-quiz/page.tsx:224-233 | a minimalist personality with no colour answer counts as neutral and gives Minimalist Chic |
| StyleQuizPage.PicksAreDisjoint | front/app/style-quiz/page.tsx:233-357 | no product id appears twice across the four recommendation lists |
| StyleQuizPage.IdsDistinct | front/app/style-quiz/page.tsx:46-219 | the question ids are distinct |
| StyleQuizPage.OnlyLastIsSlider | front/app/style-quiz/page.tsx:46-219 | the last question, and only it, is a slider |
| StyleQuizPage.StoreKeepsWellTyped | front/app/style-quiz/page.tsx:377-379 | storing an answer of the question's kind keeps every answer of its question's kind |
| StyleQuizPage.QuizPage.constructor | front/app/style-quiz/page.tsx:368-372 | question 0, no answers, not completed, no result, slider at 5 |
| StyleQuizPage.QuizPage.CanProceed | front/app/style-quiz/page.tsx:401-407 | a multiple-choice question needs a non-empty list; any other question needs an answer |
| StyleQuizPage.QuizPage.Choose | front/app/style-quiz/page.tsx:377-379 | only the current question's answer changes |
| StyleQuizPage.QuizPage.Toggle | front/app/style-quiz/page.tsx:611-616 | the list becomes `Toggle` of the old one: a chosen option is removed and any other appended at the end; no other answer changes |
| StyleQuizPage.QuizPage.Slide | front/app/style-quiz/page.tsx:674-678 | the slider value and the current answer become the value |
| StyleQuizPage.QuizPage.Next | front/app/style-quiz/page.tsx:381-393 | advances one question, or on the last one completes with `GenerateRecommendations`. The slider value is kept |
| StyleQuizPage.QuizPage.Previous | front/app/style-quiz/page.tsx:395-399 | goes back one question and never below 0 |
| StyleQuizPage.QuizPage.Retake | front/app/style-quiz/page.tsx:515-518 | question 0, no answers, not completed, no result |
| ShopsPage.Categories | front/app/shops/page.tsx:116 | duplicate-free, no empty value, exactly the shops' non-empty categories |
| ShopsPage.Locations | front/app/shops/page.tsx:117 | duplicate-free, no empty value, exactly the shops' non-empty locations |
| ShopsPage.FilteredShops | front/app/shops/page.tsx:120-130 | keeps, in order, exactly the shops whose name, description or some tag contains the query ignoring case, and that pass the category, location and rating filters ("all"/"any" match everything) |
| ShopsPage.WildcardsShowEveryShop | front/app/shops/page.tsx:120-130 | an empty query with every filter on its wildcard shows every shop |
| ShopsPage.FilteredProducts | front/app/shops/page.tsx:133-140 | keeps, in order, exactly the products matching the query on name, description or some tag |
| ShopsPage.FindShop | front/app/shops/page.tsx:147 | a shop whose `_id` or `id` equals the product's shopId, or none when there is no such shop |
| ShopsPage.GroupByShop | front/app/shops/page.tsx:143-160 | the `reduce` loop builds exactly `Grouped` |
| ShopsPage.AddProductAt | front/app/shops/page.tsx:148-156 | one step of the `reduce`: only the product's shop group changes, by appending the product |
| ShopsPage.GroupedAt | front/app/shops/page.tsx:143-160 | each group holds, in order, exactly the products of its shop |
| ShopsPage.GroupedContents | front/app/shops/page.tsx:143-160 | the groups are keyed by exactly the shops that have a product; each holds its shop's products in order under that shop's key |
| ShopsPage.ShoplessProductDropped | front/app/shops/page.tsx:143-160 | a product whose shop is not found is in no group |
| ShopsPage.ShopFilters.constructor | front/app/shops/page.tsx:52-56 | an empty query and every filter on its wildcard |
| ShopsPage.ShopFilters.ClearFilters | front/app/shops/page.tsx:162-166 | the filters go back to all/all/any and the query is left alone |
| SearchPage.FilterProducts | front/app/search/page.tsx:124-132 | keeps, in order, exactly the products within the price range (both ends included), with no category ticked or some tag ticked, and either with the discount switch off or an original price above the price |
| SearchPage.SearchView.constructor | front/app/search/page.tsx:59-64 | the query is the `q` parameter or empty, and the discount switch is on when `discounted` is "true". The price range is [0, 1000], no category is ticked, sorting is by relevance and there are no results |
| SearchPage.SearchView.FilteredProducts | front/app/search/page.tsx:124-132 | the found products that pass the current filters, in order |
| SearchPage.SearchView.TotalResults | front/app/search/page.tsx:134-135 | at least the malls and shops found, at most everything found |
| SearchPage.SearchView.Search | front/app/search/page.tsx:86-109 | a blank query empties all three lists without a request. Otherwise the lists are what the request returned, or empty with the error message when it failed |
| SearchPage.SearchView.ToggleCategory | front/app/search/page.tsx:111-115 | a ticked category is unticked and any other appended; no other category changes |
| SearchPage.SearchView.ClearFilters | front/app/search/page.tsx:117-122 | the price range is [0, 1000], with no categories, no discount filter and sort by relevance. Afterwards the products shown are exactly those priced 0 to 1000 |
| MallsPage.CardOf | front/app/malls/page.tsx:194-199 | the card's id is the mall's `_id`, the shop count is 0 when absent, and a missing image becomes the placeholder |
| MallsPage.LocationsOf | front/app/malls/page.tsx:48 | every mall's location, and nothing else |
| MallsPage.Locations | front/app/malls/page.tsx:48 | duplicate-free, exactly the malls' locations |
| MallsPage.AllTags | front/app/malls/page.tsx:49 | duplicate-free, exactly the tags of some mall |
| MallsPage.FilteredMalls | front/app/malls/page.tsx:51-60 | keeps, in order, exactly the malls matching the query on name or description, meeting the rating threshold, and matching the location and the tag, with "any"/"all" as wildcards |
| MallsPage.OfferedTagShowsAMall | front/app/malls/page.tsx:49-60 | choosing any tag the page offers leaves at least one mall |
| MallsPage.OfferedLocationShowsAMall | front/app/malls/page.tsx:48-60 | choosing any location the page offers leaves at least one mall |
| BlogPage.FilteredPosts | front/app/blog/page.tsx:74-84 | keeps, in order, exactly the posts whose title, excerpt or some tag contains the query ignoring case, in the chosen category and type ("All Categories"/"all" match everything) |
| BlogPage.WildcardsListEveryPost | front/app/blog/page.tsx:74-84 | an empty query with both wildcards lists every post |
| BlogPage.SortedPosts | front/app/blog/page.tsx:86-99 | a permutation ordered by the chosen key: newest or oldest date, most likes or most comments first. An unknown key keeps the order |
| BlogPage.Featured | front/app/blog/page.tsx:101 | the first post, when there is one |
| BlogPage.Trending | front/app/blog/page.tsx:102 | the posts at positions 1 to 3, as many as exist |
| Catalog.DistinctNonEmpty | front/app/shops/page.tsx:116-117 | duplicate-free, no empty value, exactly the non-empty input values |
| AdminPage.TrimmedPieces | front/app/admin/page.tsx:252 | one piece per comma-separated field, each comma-free and trimmed |
| AdminPage.CommaTags | front/app/admin/page.tsx:252 | mall and shop tags: empty text gives no tag; otherwise the trimmed pieces, empty ones kept |
| AdminPage.CleanList | front/app/admin/page.tsx:952-959 | the trimmed pieces with empty ones removed: every item is non-empty, comma-free and trimmed, and there are no more items than fields |
| AdminPage.CleanListOfEmpty | front/app/admin/page.tsx:952-959 | empty text gives an empty list |
| AdminPage.ParsedList | front/app/admin/page.tsx:952-959 | a list already loaded passes through; typed text becomes its clean list |
| AdminPage.PrefilledListRoundTrip | front/app/admin/page.tsx:899-959 | a clean list joined with ", " for editing, then parsed again, gives back the same list |
| AdminPage.PrefilledTagsRoundTrip | front/app/admin/page.tsx:470-495 | mall and shop tags joined with ", " and parsed again come back unchanged. The one exception is a single empty tag, which comes back as no tag |
| AdminPage.Preview | front/app/admin/page.tsx:540-544 | the first four items of the clean image list, in order |
| AdminPage.RemoveAt | front/app/admin/page.tsx:556 | the list without the item at the position, the others kept in order |
| AdminPage.RemovePreviewAsWritten | front/app/admin/page.tsx:556-557 | as written, removing a previewed image leaves exactly the preview minus that image, at most three images |
| AdminPage.CommaJoinRoundTrip | front/app/admin/page.tsx:542 | a clean list joined with "," parses back to itself |
| AdminPage.RemovePreview | front/app/admin/page.tsx:556-557 | corrected: removing a previewed image leaves every image but that one, in order |
| AdminPage.PreviewOfLoadedImages | front/app/admin/page.tsx:540-544 | a loaded list of four or more clean images previews its first four |
| AdminPage.RemovalLosesFifthImage | front/app/admin/page.tsx:544-557 | with five or more images, removing any previewed one as written loses the fifth image; the corrected removal keeps it |
| AdminPage.PlaceholderHasNoPreview | front/app/admin/page.tsx:540-562 | when the placeholder shows, the preview is empty |
| AdminPage.BlankImagesShowNothing | front/app/admin/page.tsx:540-562 | an images field holding a single blank shows neither a preview nor the placeholder |
| AdminPage.Address | front/app/admin/page.tsx:497-498 | an edit with an id is a PUT to the item's address; anything else is a POST to the collection |
| AdminPage.SaveMall | front/app/admin/page.tsx:490-497 | always sent: a PUT exactly when editing, with the edited id. Rating is sent only when typed. Tags are empty exactly when the field is empty, and each tag is trimmed |
| AdminPage.AddMall | front/app/admin/page.tsx:244-253 | the add form sends the same body as a create in the dialog: a POST to the malls address without an id |
| AdminPage.AddShop | front/app/admin/page.tsx:289-307 | nothing happens without a selected mall. A mallId whose length is not 24 is refused with the "invalid mall" message. Otherwise a POST with that mallId is sent, with clean images |
| AdminPage.SaveShop | front/app/admin/page.tsx:688-701 | always sent, with the typed mallId unchecked: a PUT exactly when editing. Tags are empty exactly when the field is empty |
| AdminPage.SaveProduct | front/app/admin/page.tsx:928-982 | refused with the required-fields message exactly when name, price or shopId is empty. An edit is a PUT keeping the ids; a create is a POST without id or `_id`. Stock defaults to true, tags are clean and non-empty, and a size list passes through |
| AdminPage.CheckSize | front/app/admin/page.tsx:1068-1081 | the size is in the list exactly when it is ticked; no other size changes, and a typed size text is replaced by a list |
| AdminPage.RowsNamed | front/app/admin/page.tsx:450 | keeps, in order, exactly the rows whose name contains the search text ignoring case |
| AdminPage.EmptySearchListsAll | front/app/admin/page.tsx:880 | an empty search lists every row |

## Left out

- Express, Mongoose and MongoDB are left out: routing, casting, `save`
  and hooks. A product, user or review is a record held in a map or
  sequence. Of the User schema, the role enum at register
  (`StoredRole`), the `lowercase`/`trim` setters on `email`
  (`NormalEmail`) and the update's `runValidators` checks on name and
  e-mail (`UpdatePassesSchema`) are modelled. Bad ObjectIds
  (`CastError`), the other User checks at save (required fields,
  name and password lengths) and the Review and Product schema
  validation are not.
- The Review model is not part of this model. A review is the record
  `Review(productId, userId, rating, comment, createdAt)`.
- Mongoose drops a filter key whose value is `undefined`. The duplicate
  check as written is modelled on that behaviour.
- `sendMail`, bcrypt and jsonwebtoken are function parameters with no
  properties assumed. Expiry times and secrets are left out.
- Concurrency is left out. Check-then-insert for reviews and the wait-list,
  and the two saves in `PUT /:id`, are modelled as single sequential
  steps.
- All network and storage I/O is left out: `fetch`, `axios`, toasts,
  navigation, and the loading effects that fill the pages' lists. A fetch
  result is a parameter (`SearchPage.SearchView.Search`). localStorage
  becomes fields of `Competition.CompetitionPage`.
- `Number(...)` and `parseInt` parsing is a parameter (`number`) or an
  already-parsed integer score.
- Progress percentages, the budget bar width and the discount percent
  involve floating-point division and are not modelled.
- Shop, mall and form ratings are exact reals and prices are integers.
- Review ratings are modelled as integers, so a fractional body rating
  such as 4.5, which the `!rating` test accepts, cannot be expressed.
- Dates are integer timestamps (milliseconds).
- Randomness, timers and animation are left out. The spin wheel is not
  part of this model, and `handleSpinWin` is a standalone operation whose
  delayed step change happens at once.
- JavaScript's `toLowerCase` is modelled on ASCII letters only.
- String lengths count Unicode scalar values rather than UTF-16 code units.
  This matters only for characters outside the Basic Multilingual Plane.
- The searches that turn raw user input into MongoDB regular expressions
  (search controller, shop routes) are not modelled.
- The shop page's grouped map keeps its keys in insertion order in
  JavaScript. `ShopsPage.GroupByShop` builds a Dafny map, which has no
  order.
- The form text fields that are copied unchanged into request bodies
  (address, phone, website, descriptions) are left out.
- Only the fields the rules read are modelled.
- SearchPage.SearchView.TotalResults states bounds rather than the exact
  sum. The sum is the function itself, and what it counts is stated by
  `SearchPage.SearchView.FilteredProducts`.
- Presentation components, mock catalogues and quiz texts are included only
  where a property needs them.

## Findings

| source | as written | input that shows it | evidently intended | confidence | as-written member | corrected member |
|---|---|---|---|---|---|---|
| backend/routes/productRoutes.js:54 | The duplicate-review query uses `userId: req.user.id`. Issued tokens carry only `userId`, so the key is `undefined`; the query then ignores the user and matches any review of the product. | User u1 reviews product p1, then user u2 (a token with `userId` "u2" only) posts a review of p1: u2 is refused as if u2 had already reviewed. | Check the same key the review is stored under (`id`, else `_id`, else `userId`), so that each user gets one review per product. | not executed; depends on the undefined filter key being dropped. If it were sent as null instead, no review would match and repeats would pass | ProductRoutes.AsWrittenBlocksOtherUser | ProductRoutes.ProductService.PostReview |
| front/app/admin/page.tsx:544 | The remove button rebuilds the images field from `arr`, which is the first four previewed URLs, minus the removed one. | Images a,b,c,d,e; remove the first preview: the field becomes "b, c, d" and e is lost. | Remove only the clicked image from the full list. | not executed | AdminPage.RemovalLosesFifthImage | AdminPage.RemovePreview |
