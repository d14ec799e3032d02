# StarConnect rules in Dafny

StarConnect is a booking site for performers ("stars"): fans browse and filter the
catalogue, open a star's page to get a quote and pick a time slot, message each other,
and stars register themselves and pay for a premium plan. The site is made of React
pages over a document store, file storage and a card-payment processor. This project
models the deterministic rules inside those pages and the payment backend. Every
storage, database and processor call is an input: a plain value, or a function
parameter used as an oracle.

- `js.dfy` (`Js`) holds the JavaScript built-ins the rules lean on:
  - string truthiness and `||`;
  - ASCII `toLowerCase`, `includes` and `startsWith`;
  - the default `sort()` order of two strings;
  - `String(n)` for integers, in plain and exponent notation, and `parseInt` without a radix
    (leading white space, a sign, decimal digits and the `0x` prefix);
  - `images?.[0]`.
- `lists.dfy` (`Lists`) holds `filter` and "one element per derived key, the first one
  wins". The second is what both a `Set` built from a list and a `Map` filled with
  `if (!m.has(k)) m.set(k, v)` keep. It is proved against a reference definition
  (`FirstOccurrences`).
- `messages.dfy` (`Messages`) is the inbox of the messages page:
  - the conversation key and the skip rule;
  - the `Map`-based deduplication loop, proved equal to a specification function `Inbox`;
  - the name and picture of the other participant. As written, the lookup never reads a
    profile (see "## Findings"). The line builder and every member built on it take the
    lookup's binding `b` as a parameter: `LoopSnapshot` is the code as written,
    `FirestoreDoc` the corrected lookup.
    `Inbox`, `ListConversations` and `OnSnapshot` are proved for both.
  - the page object with its subscription.
- `register_star.dfy` (`RegisterStar`) is the star registration form:
  - the change handlers;
  - the bounded list of advertising images;
  - the URL-assembly loop, proved equal to a specification function;
  - the uploads and the document a submit produces.
- `book_star.dfy` (`BookStar`) covers the catalogue's category options and its two chained filters.
- `stripe_payment.dfy` (`StripePayment`) covers the intent endpoint's decision table and the webhook.
- `star_details.dfy` (`StarDetails`) covers the star page: the quote, the 24 time slots,
  the header image, and what the page ends up showing.
- `plan_upgrade.dfy` (`PlanUpgrade`) covers the premium upgrade:
  - the checkout form and its callback dispatch;
  - the upgrade page's flags;
  - the field patch written to the star's document.
- `category_page.dfy` (`CategoryPage`) covers the category page: the query, the
  starting price, the `categoryInfo` lookup and the card fallbacks. The page computes
  `categoryInfo` (src/pages/CategoryPage.tsx:36-57) and renders nothing from it; the model
  states what the lookup yields, not what is displayed.

Two behaviours of the code are worth knowing when reading the model:

- The intent endpoint (functions/stripe-payment.js:32-37) checks only that `amount` is
  truthy, then charges `parseInt(amount)`. So a negative number is passed on as it is, text
  is read up to its first non-digit (`TextAmountTruncated`), text without a number is sent
  as NaN (`TextWithoutNumberSentAsNaN`), and a number from 10^21 on is charged as its
  leading digit (`OneE21ChargedAsOne`). Stripe's API reference documents the intent's `amount` as a
  positive integer in the currency's smallest unit. Whatever else the endpoint passes on is
  left to the processor to refuse.
- The inbox keeps the *first* document of every conversation in query order. That is the
  most recent one, because the query is ordered by `updatedAt` descending.

## Model

| member | source | states |
|---|---|---|
| Js.Sort2 | src/pages/MessagesPage.tsx:50 | `[a, b].sort()` holds exactly `a` and `b`, in ascending string order |
| Js.ParseIntOfIntToString | functions/stripe-payment.js:37 | `parseInt` reads back every integer written in plain decimal notation, the form `String(n)` takes below 10^21 |
| Js.ParseIntReadsDigits | functions/stripe-payment.js:37 | after white space and an optional sign, `parseInt` reads the longest run of decimal digits and ignores the rest |
| Js.ParseIntReadsHex | functions/stripe-payment.js:37 | without a radix, a `0x`/`0X` prefix makes `parseInt` read the following hexadecimal digits in base sixteen |
| Js.ParseIntNoDigits | functions/stripe-payment.js:37 | a text that is all white space, or whose first other character is neither a digit nor a sign, gives NaN |
| Js.ParseIntOfHugeNumber | functions/stripe-payment.js:37 | from 10^21 on, `String(n)` is in exponent notation and `parseInt` of it gives only the signed leading digit of `n` |
| Js.FirstImage | src/pages/StarDetailsPage.tsx:53 | `images?.[0]` is defined exactly for a present, non-empty list, and is its first element |
| Lists.KeepFirstIsFirstOccurrences | src/pages/MessagesPage.tsx:53 | keep-first-per-key keeps exactly the first element of every key, in the order of those first occurrences |
| Lists.KeepFirstDistinct | src/pages/MessagesPage.tsx:53-64 | no two kept elements share a key |
| Lists.FilterFilter | src/pages/BookStarPage.tsx:53-62 | two chained filters equal one filter on the conjunction `Both(p, q)` |
| Messages.OtherParticipant | src/pages/MessagesPage.tsx:45-47 | `find(id => id !== uid)`: it is undefined exactly when every participant is the viewer; otherwise it is a participant other than the viewer |
| Messages.OtherParticipantIsFirst | src/pages/MessagesPage.tsx:45-47 | the participant found is the first one that differs from the viewer |
| Messages.ConversationKey | src/pages/MessagesPage.tsx:50 | the key is the viewer's id and `_` when there is no other participant, and otherwise the two ids joined by `_` in one of the two orders |
| Messages.ConversationKeySymmetric | src/pages/MessagesPage.tsx:50 | the sorted-pair key is the same whichever of the two users computes it |
| Messages.SameKeyForBothParticipants | src/pages/MessagesPage.tsx:45-50 | both participants of a two-party chat document derive the same key from it |
| Messages.OtherProfile | src/pages/MessagesPage.tsx:54-62 | the corrected lookup (Firestore's `doc`): the `stars` profile if it exists, else the `users` profile; a failed lookup or a missing other participant finds nothing |
| Messages.DisplayName | src/pages/MessagesPage.tsx:70 | `name \|\| username` of the profile found, `'Unknown User'` without one |
| Messages.Summarize | src/pages/MessagesPage.tsx:54-72 | an inbox line copies the document's id, participants, time and non-empty last message; `lastSenderName` defaults to `''`; as written (`LoopSnapshot`) the name is `'Unknown User'` and the image null; with the corrected lookup, `otherUserName` is the display name and `otherUserImage` the `profilePicture` of the other participant's profile (none without a profile) |
| Messages.KeptEligible | src/pages/MessagesPage.tsx:39-43 | every kept document is an input document with a last message |
| Messages.InboxSkipsDocsWithoutMessage | src/pages/MessagesPage.tsx:43 | no line comes from a document without `lastMessage`; every line comes from an input document |
| Messages.InboxKeysDistinct | src/pages/MessagesPage.tsx:50-64 | no two inbox lines share a conversation key |
| Messages.InboxCoversEveryConversation | src/pages/MessagesPage.tsx:39-73 | every conversation with a document that has a last message has a line |
| Messages.InboxKeepsFirstDocument | src/pages/MessagesPage.tsx:30-53 | the line kept per key comes from the first (most recent) eligible document, and lines follow first-occurrence order |
| Messages.Inbox | src/pages/MessagesPage.tsx:39-73 | for either binding of the lookup, the inbox has at most one line per document, and every line has a non-empty last message |
| Messages.InboxAsWrittenShowsUnknownUser | src/pages/MessagesPage.tsx:39-71 | as written, every inbox line shows `'Unknown User'` and a null image, whatever the stars and users hold |
| Messages.BindingsDifferOnlyInProfile | src/pages/MessagesPage.tsx:54-71 | the as-written and the corrected inbox have the same lines in the same order, differing only in `otherUserName` and `otherUserImage` |
| Messages.ShadowedDocHidesStarName | src/pages/MessagesPage.tsx:39-71 | viewer `A` with one chat `['A','B']` and the star `B` named Bob: as written the line reads `'Unknown User'`, corrected it reads `'Bob'` |
| Messages.ListConversations | src/pages/MessagesPage.tsx:36-76 | for either binding of the lookup, the `Map` loop read back in insertion order yields exactly `Inbox` |
| Messages.MessagesPage.constructor | src/pages/MessagesPage.tsx:20-21 | the page starts loading, with no chats and no subscription |
| Messages.MessagesPage.Mount | src/pages/MessagesPage.tsx:23-27 | with nobody signed in it only stops loading and subscribes to nothing; otherwise it subscribes for the user |
| Messages.MessagesPage.OnSnapshot | src/pages/MessagesPage.tsx:36-78 | a delivery replaces the chats with the inbox of the delivered documents, for the given binding of the lookup, and stops loading |
| RegisterStar.HandleChange | src/pages/RegisterStarPage.tsx:32-73 | the handler throws exactly when an event named `governmentId`, or `profilePicture` while the picture type is file, carries no file list (a non-file input); an empty pick stores undefined; no change touches the advertising images |
| RegisterStar.SocialLinkChangesOnlyThatPlatform | src/pages/RegisterStarPage.tsx:40-48 | a `socialMediaLinks.<platform>` change writes that link only; every other link and field is unchanged |
| RegisterStar.ProfilePictureTypeResets | src/pages/RegisterStarPage.tsx:49-54 | choosing the picture type resets the picture to `''` for url and null otherwise; nothing else changes |
| RegisterStar.PlainFieldChangesOnlyThatField | src/pages/RegisterStarPage.tsx:67-72 | a plain field change writes that field only |
| RegisterStar.ChangeImage | src/pages/RegisterStarPage.tsx:84-103 | as written, the handler throws exactly for an index past the end, or for a value edit of a file entry without files |
| RegisterStar.AddImage | src/pages/RegisterStarPage.tsx:75-82 | appends `{type:'url', value:''}` only below five entries, so five is never exceeded |
| RegisterStar.ChangeImageTouchesOnlyIndex | src/pages/RegisterStarPage.tsx:84-103 | an image change keeps the length and every entry other than `index`; an index past the end throws |
| RegisterStar.ValueEditWritesValue | src/pages/RegisterStarPage.tsx:91-97 | a value edit writes `files[0]` into a file entry and the text into any other entry |
| RegisterStar.RemoveImageDeletesIndex | src/pages/RegisterStarPage.tsx:105-112 | `splice(index, 1)` removes exactly that entry; the others keep their order, as a multiset minus one |
| RegisterStar.RemoveImage | src/pages/RegisterStarPage.tsx:105-112 | an index past the end leaves the list as it is; otherwise the list loses exactly one entry |
| RegisterStar.ImageActionsKeepInvariant | src/pages/RegisterStarPage.tsx:75-112 | with the change handler as written or as intended, any sequence of add, change and remove keeps at most five entries, with every url entry holding text |
| RegisterStar.FromInitialForm | src/pages/RegisterStarPage.tsx:10-28 | from the initial empty list, with either change handler, no sequence of actions exceeds five entries and every url entry holds text |
| RegisterStar.AssembleAdUrls | src/pages/RegisterStarPage.tsx:146-156 | at most one URL and one upload per entry; a failed loop has attempted at least one upload |
| RegisterStar.AssembleAdUrlsLoop | src/pages/RegisterStarPage.tsx:146-156 | the push loop, stopped by the first failed upload, computes `AssembleAdUrls` |
| RegisterStar.AssembleFailedSticks | src/pages/RegisterStarPage.tsx:147-152 | after a failed upload the remaining entries change nothing |
| RegisterStar.AssembledUrlsAreYieldingEntries | src/pages/RegisterStarPage.tsx:146-156 | when uploads succeed: one URL per url entry (as is, even empty) and per file entry with a file, in order; file entries without a file are dropped; one upload per picked file, to `advertisingImages/<uid>/<file name>`, in order |
| RegisterStar.AssembleFailsIffUploadFails | src/pages/RegisterStarPage.tsx:147-152 | the loop fails exactly when the upload of one of the picked files fails |
| RegisterStar.AssembleStopsAtFirstFailure | src/pages/RegisterStarPage.tsx:147-152 | with `k` the first failing entry, the loop keeps the URLs and uploads of the entries before `k`, uploads `k`'s file and stops |
| RegisterStar.AssembledPathsAreUnderUser | src/pages/RegisterStarPage.tsx:149 | every image upload goes to `advertisingImages/<uid>/<file name>` |
| RegisterStar.SubmitWithoutUser | src/pages/RegisterStarPage.tsx:119-123 | with nobody signed in: `'User not authenticated.'`, no upload, no write |
| RegisterStar.Submit | src/pages/RegisterStarPage.tsx:114-182 | nobody signed in: the not-authenticated error with no upload and no write; a document is written exactly when no error is reported, only if the write succeeds, and at `stars/<uid>` |
| RegisterStar.SubmitSucceeds | src/pages/RegisterStarPage.tsx:128-174 | when every upload and the write succeed: the uploads are the government id (if picked), the picture (if a file was picked) and each picked image, in that order, to `<folder>/<uid>/<file name>`; the document at `stars/<uid>` holds all eleven fields, the form's text fields and links as entered, the download URLs of the uploads, the picture as entered when not uploaded, and the assembled image URLs |
| RegisterStar.SubmitFailureWritesNothing | src/pages/RegisterStarPage.tsx:128-178 | a signed-in submit writes nothing exactly when an upload fails or the write fails, and then reports the generic failure; the uploads made stop at the first failing one |
| RegisterStar.UploadRadioWritesTextAsWritten | src/pages/RegisterStarPage.tsx:88-95 | as written, the "Upload" radio of a url entry writes the text `"file"` as its URL instead of switching the type |
| RegisterStar.RenderedEventKeepsTypes | src/pages/RegisterStarPage.tsx:84-97 | as written, a change event named as the form renders it (`advertisingImageType<i>` radio or `advertisingImage<i>` input) keeps the length and every entry's type |
| RegisterStar.RenderedEventsNeverChangeType | src/pages/RegisterStarPage.tsx:75-112 | as written, from a list of url entries, any sequence of additions, removals and rendered change events leaves only url entries |
| RegisterStar.AssembleAllUrl | src/pages/RegisterStarPage.tsx:146-156 | a list of url entries yields one URL per entry and uploads nothing |
| RegisterStar.AsWrittenNeverUploadsImages | src/pages/RegisterStarPage.tsx:75-156 | as written, whatever the user does with the rendered inputs, submitting uploads no advertising image and fails no upload |
| RegisterStar.RadioSwitchesTypeIntended | src/pages/RegisterStarPage.tsx:84-103 | with the intended test, a radio of entry `i` sets its type and resets its value, and a picked file then lands in the entry |
| RegisterStar.ChangeImageIntended | src/pages/RegisterStarPage.tsx:84-103 | with the intended name test, the handler throws exactly for an index past the end or a value edit of a file entry without files; otherwise only entry `index` changes and the length is kept |
| RegisterStar.IntendedAgreesElsewhere | src/pages/RegisterStarPage.tsx:88-97 | the intended handler differs from the written one only on names that extend `advertisingImageType` |
| RegisterStar.ChangeImageOnCopy | src/pages/RegisterStarPage.tsx:84-103 | copying the list into a new array and rewriting slot `index` gives the chosen handler's result (as written or as intended), or throws when it does |
| BookStar.CategoryOptions | src/pages/BookStarPage.tsx:34-37 | the options start with `'All Categories'`, hold at most one more option than there are stars, and every other option is a star's category |
| BookStar.CategoryOptionsAreDistinctFirstSeen | src/pages/BookStarPage.tsx:34-37 | after `'All Categories'` come exactly the stars' categories, `null` and `undefined` included, each once, in first-seen order; `'All Categories'` repeats only if a star has it as its category |
| BookStar.NullAndUndefinedAreTwoOptions | src/pages/BookStarPage.tsx:34-37 | a star stored with `null` and one without a category give two distinct options |
| BookStar.CardSelectionListsItsStars | src/pages/BookStarPage.tsx:53-56 | choosing a category card (any option but `'All Categories'`, `null` and `undefined` included) with an empty search lists exactly the stars with that category, and at least one |
| BookStar.FilterStars | src/pages/BookStarPage.tsx:53-62 | a listing never holds more stars than the catalogue, and only a non-empty search can throw |
| BookStar.NoFilterIsIdentity | src/pages/BookStarPage.tsx:53-62 | `'All Categories'` with an empty search lists every star, in order |
| BookStar.FilterThrowsOnlyOnNamelessStar | src/pages/BookStarPage.tsx:57-61 | filtering throws exactly when searching and a star of the chosen category has no name |
| BookStar.FilterIsConjunction | src/pages/BookStarPage.tsx:53-62 | the listing is an order-preserving subsequence and holds exactly the stars passing both filters |
| BookStar.FilterIsBoth | src/pages/BookStarPage.tsx:53-62 | the chained pipeline equals one filter on category-and-search |
| BookStar.SearchIgnoresQueryCase | src/pages/BookStarPage.tsx:57-61 | a query and its lower-cased form match the same stars |
| BookStar.PriceLabel | src/pages/BookStarPage.tsx:206 | the price, or `'$1000/hour'` when it is missing or empty |
| StripePayment.EveryResponseHasCors | functions/stripe-payment.js:9-52 | every response carries the three CORS headers, has status 204, 405, 400, 200 or 500, and at most one intent creation is requested from the processor |
| StripePayment.CreatePaymentIntent | functions/stripe-payment.js:9-52 | every response has the CORS headers; one intent creation is requested from the processor (never more) exactly for a POST with a truthy amount, whether the processor then creates it or refuses it; a 200 answer means the creation succeeded |
| StripePayment.PreflightCreatesNothing | functions/stripe-payment.js:15-18 | OPTIONS gives 204 with an empty body and creates nothing |
| StripePayment.OtherMethodsRefused | functions/stripe-payment.js:24-26 | any method other than POST and OPTIONS gives 405 and creates nothing |
| StripePayment.FalsyAmountRefused | functions/stripe-payment.js:32-34 | a missing, null, false, 0 or empty amount gives 400 `'Amount is required'` and creates nothing |
| StripePayment.TruthyAmountCreatesOneIntent | functions/stripe-payment.js:36-51 | one intent for `parseInt(amount)`, usd, card only; 200 with its client secret, or 500 with message, code and type |
| StripePayment.NumberAmountChargedExactly | functions/stripe-payment.js:36-40 | a non-zero JSON number below 10^21 in magnitude is charged as exactly that many minor units |
| StripePayment.HugeNumberAmountChargedLeadingDigit | functions/stripe-payment.js:36-40 | a JSON number of 10^21 or more in magnitude is charged as its signed leading digit, between 1 and 9 |
| StripePayment.OneE21ChargedAsOne | functions/stripe-payment.js:36-40 | the body `{"amount": 1e21}` creates an intent for 1 minor unit |
| StripePayment.TextAmountTruncated | functions/stripe-payment.js:37 | a text amount of white space, a sign, a digit run and any rest not starting with a digit is charged as the signed value of the digit run (`"49.99"` gives 49) |
| StripePayment.HexTextAmountReadInBaseSixteen | functions/stripe-payment.js:37 | a text amount starting with `0x` after white space and a sign is charged as its hexadecimal value |
| StripePayment.TextWithoutNumberSentAsNaN | functions/stripe-payment.js:32-40 | a non-empty text amount without a leading digit or sign passes the amount check and is sent as NaN |
| StripePayment.WebhookOutcomes | functions/stripe-payment.js:59-83 | a failed verification gives 400 `'Webhook Error: <message>'`; otherwise 200 `{received: true}` |
| StripePayment.WebhookIgnoresEventType | functions/stripe-payment.js:66-79 | every verified event gets the same answer, whatever its type |
| StripePayment.StripeWebhook | functions/stripe-payment.js:55-84 | the answer is 200 exactly when the signature check passes and 400 exactly when it fails |
| StarDetails.PageViewOutcomes | src/pages/StarDetailsPage.tsx:16-41 | without a star id nothing is read and the page stays loading; with one it shows the star exactly when the document exists, else "Star not found" |
| StarDetails.PageView | src/pages/StarDetailsPage.tsx:16-41 | the page stays loading exactly without a star id; the star it shows is the existing document read for that id |
| StarDetails.ServiceFee | src/pages/StarDetailsPage.tsx:43 | the fee is within half a unit of a tenth of the rate, with halves rounded up |
| StarDetails.ServiceFeeIsRoundHalfUp | src/pages/StarDetailsPage.tsx:43 | the fee is the only integer with that property |
| StarDetails.Total | src/pages/StarDetailsPage.tsx:43-44 | the total is eleven tenths of the rate rounded half up: `10t - 5 <= 11 rate < 10t + 5` |
| StarDetails.QuoteBounds | src/pages/StarDetailsPage.tsx:43-44 | for a rate of 0 or more: 0 <= fee <= total, rate <= total = rate + fee, and 10 x total is within 5 of 11 x rate |
| StarDetails.PadStart | src/pages/StarDetailsPage.tsx:124 | `padStart(width, '0')` keeps the text as the suffix, preceded by zeros only, up to the width |
| StarDetails.Slot | src/pages/StarDetailsPage.tsx:124 | an option is the hour padded to two digits followed by `:00` |
| StarDetails.TimeOptions | src/pages/StarDetailsPage.tsx:123-127 | exactly 24 options, option `i` being hour `i`'s slot |
| StarDetails.SlotDigits | src/pages/StarDetailsPage.tsx:123-127 | option `i` is `i`'s two decimal digits followed by `:00` |
| StarDetails.TimeOptionsOrdered | src/pages/StarDetailsPage.tsx:123-127 | options are 5 characters each, increasing in string order, and distinct |
| StarDetails.SlotHourRoundTrip | src/pages/StarDetailsPage.tsx:124 | `parseInt` of option `i` gives back `i` |
| StarDetails.DefaultTimeOffered | src/pages/StarDetailsPage.tsx:12 | the default time `'10:00'` is one of the options |
| StarDetails.HeaderImage | src/pages/StarDetailsPage.tsx:53 | the profile picture, else the first advertising image |
| StarDetails.HeaderImageSources | src/pages/StarDetailsPage.tsx:53 | a header image is shown exactly when one of the two sources is non-empty, and comes from one of them |
| PlanUpgrade.SuccessOnlyWhenSucceeded | src/pages/PlanUpgradePage.tsx:52-63 | the success callback fires exactly when the server is OK and the confirmed status is `'succeeded'`, and it receives that intent |
| PlanUpgrade.ServerFailureIsGenericError | src/pages/PlanUpgradePage.tsx:42-66 | a non-OK or failed server request ends in the error callback with the generic message, never in success |
| PlanUpgrade.ConfirmationOutcomes | src/pages/PlanUpgradePage.tsx:58-63 | a confirmation error sets the card error and goes to the error callback; a status other than `'succeeded'` fires no callback |
| PlanUpgrade.CardErrorOnlyFromConfirmation | src/pages/PlanUpgradePage.tsx:24-60 | the card error is set only by a confirmation error |
| PlanUpgrade.Checkout | src/pages/PlanUpgradePage.tsx:17-70 | success needs an OK reply and an intent whose status is `'succeeded'`; a card error always goes with the error callback carrying the same message; no callback fires only after an OK reply and a confirmed intent |
| PlanUpgrade.CheckoutForm.constructor | src/pages/PlanUpgradePage.tsx:14-15 | the form starts not processing, with no card error |
| PlanUpgrade.CheckoutForm.HandleSubmit | src/pages/PlanUpgradePage.tsx:17-70 | not ready: nothing changes and nothing is asked; ready: 4900 is requested, the outcome is `Checkout`'s and processing ends false |
| PlanUpgrade.UpgradePatch | src/pages/PlanUpgradePage.tsx:134-140 | the patch writes exactly the five upgrade fields |
| PlanUpgrade.ApplyPatch | src/pages/PlanUpgradePage.tsx:134 | `updateDoc` gives patched fields their new values and keeps every other field |
| PlanUpgrade.UpgradedDocument | src/pages/PlanUpgradePage.tsx:133-140 | after the upgrade: plan `'premium'`, the intent's id, the amount in dollars (x100 = cents), all other fields unchanged |
| PlanUpgrade.UpgradePage.constructor | src/pages/PlanUpgradePage.tsx:120-122 | the page starts not loading, with no error and no success |
| PlanUpgrade.UpgradePage.HandleUpgradePlan | src/pages/PlanUpgradePage.tsx:125-153 | nobody signed in: nothing changes; a successful write patches `stars/<uid>`, sets success and schedules the redirect; a failed one sets the upgrade error; loading ends false |
| PlanUpgrade.UpgradePage.HandlePaymentError | src/pages/PlanUpgradePage.tsx:155-158 | shows the message and stops loading |
| PlanUpgrade.UpgradePage.OnCheckout | src/pages/PlanUpgradePage.tsx:125-158 | no callback changes nothing; the error callback shows its message and stops loading with success and redirect as they were; success with nobody signed in changes nothing; a successful write patches `stars/<uid>` (plan `'premium'`, the intent's id), clears the error and loading, sets success and schedules the redirect; a failed write changes no document and shows the upgrade error |
| CategoryPage.LoadCategoryExact | src/pages/CategoryPage.tsx:16-18 | exactly the stars whose category equals the route id, in store order |
| CategoryPage.LoadCategory | src/pages/CategoryPage.tsx:16-23 | a star is loaded exactly when it is in the collection with the route id as its category |
| CategoryPage.MinOf | src/pages/CategoryPage.tsx:71 | `Math.min(...)` is `Infinity` exactly for no argument; otherwise it is a lower bound that is attained |
| CategoryPage.StartingPriceIsMinimum | src/pages/CategoryPage.tsx:71 | the starting price is at most every star's rate (missing counts as 0) and is one of them; with no stars it is `Infinity` |
| CategoryPage.MissingRateMakesPriceZero | src/pages/CategoryPage.tsx:71 | one star without a rate among rates of 0 or more makes the starting price 0 |
| CategoryPage.StartingPrice | src/pages/CategoryPage.tsx:71 | the starting price is `Infinity` exactly when there are no stars |
| CategoryPage.CategoryInfo | src/pages/CategoryPage.tsx:36-57 | the lookup yields an inherited object member only for the name of one, and then that member |
| CategoryPage.CategoryInfoOnlyForSlugs | src/pages/CategoryPage.tsx:36-57 | the computed (and unrendered) `categoryInfo` is an entry with a title for the four slugs, the inherited member for a name of an `Object.prototype` member, and the empty default for every other id |
| CategoryPage.HomePageLinksGetEmptyDefault | src/pages/HomePage.tsx:12-15 | every category id the home page links to gets the empty default from the `categoryInfo` lookup |
| CategoryPage.RegisteredBandsMissBandPage | src/pages/RegisterStarPage.tsx:260-264 | stars whose category came from the registration form never appear on the home page's "Band" page |
| CategoryPage.CardImage | src/pages/CategoryPage.tsx:97 | never empty: picture, else first advertising image, else `'/default-avatar.png'` |
| CategoryPage.RatingLabel | src/pages/CategoryPage.tsx:112 | `'New'` exactly when the rating is missing or 0; otherwise the rating |
| CategoryPage.ShownSpecialties | src/pages/CategoryPage.tsx:119 | at most the first three specialties, all of them when there are three or fewer |

## Left out

- Document store, file storage and payment processor: every call is an input. The subscription's live delivery, unsubscribing, and the order in which awaited lookups complete are not modelled. The model reads the snapshot's lookups one after the other.
- RegisterStar.ChangeImage and RegisterStar.ChangeImageOnCopy: the handler copies the list but mutates the entry objects it shares with the previous state. The model writes a new entry value, so that aliasing is not captured.
- RegisterStar.HandleChange: the catch-all branch (src/pages/RegisterStarPage.tsx:67-72) writes `[name]: value` for any other name, so an event named `advertisingImages` or `socialMediaLinks` would replace that structured field with a string. No input the form renders has either name; the model keeps the plain text fields in a map of their own and writes the value there, so that overwrite is not captured.
- RegisterStar.Submit: the form's `loading` flag and the redirect home after a successful write are not modelled. Uploading a value that is not a picked file is modelled as a failed upload.
- RegisterStar.TextOf: a url entry that held a non-text value would have that value pushed as is; the model pushes `''`. No sequence of actions reaches such an entry (`ImageActionsKeepInvariant`).
- Rates, ratings and amounts are whole numbers, and `paymentAmount` is an exact rational:
  - floating-point `Math.round(rate * 0.1)` and `amount / 100` are not modelled;
  - `Number()`/NaN coercion of text rates is not modelled;
  - fractional JSON amounts are not modelled.
- StripePayment.NumberAmountChargedExactly: holds for the integer the endpoint receives. `JSON.parse` rounds a literal above 2^53 to the nearest double before the endpoint sees it, and `parseInt` of a digit run longer than that rounds too; numbers are exact integers here.
- Js.NumberToString: from 10^21 on, the exponent form is written with the integer's exact digits, not with the shortest digits that identify the double. The leading digit can differ: the double nearest 10^23 lies just below it, yet prints as `1e+23`.
- StripePayment.JsonValue: an `amount` that is an array or an object is not modelled. Both are truthy; `parseInt` of an array reads its joined text (`[12]` gives 12), and of an object gives NaN.
- Case folding is ASCII only.
- StripePayment.CreatePaymentIntent: a request without any JSON body (destructuring `undefined` throws and is answered 500) is not modelled; the body is always an object. The request logging is left out.
- BookStar.CategoryOptions: the drop-down option for `null` or `undefined` (src/pages/BookStarPage.tsx:112-116) renders with neither a value nor a label, so choosing it in the drop-down selects `''`, not the option itself. The model does not derive drop-down events; the category cards, which set the option itself, are what `CardSelectionListsItsStars` covers.
- BookStar.FilterStars: the failures of the catalogue read, and the read of a fixed test document whose result is only logged (src/pages/BookStarPage.tsx:43-49), are not modelled. Only the filtering is.
- StarDetails: the selected date and the date picker are UI state and are not modelled.
- CategoryPage: the `loading` flag, a failed read (only logged), and the image `onError` fallback that runs after a broken image fails to load are not modelled.
- PlanUpgrade: the redirect timer is recorded as a flag (`redirectScheduled`), not as a timed navigation. The two clock readings are inputs. The body of a non-OK server reply is discarded by the catch, so it is not modelled.
- src/api/stripe.js, the profile, booking-confirmation and chat pages, authentication wrappers, navigation bar and configuration are not part of this model.

## Findings

| source | as written | input that shows it | evidently intended | confidence | as-written member | corrected member |
|---|---|---|---|---|---|---|
| src/pages/RegisterStarPage.tsx:88 | the type switch runs only for an input named exactly `advertisingImageType`. The radios are named `advertisingImageType<index>` (lines 405, 416), so a radio click falls into the value branch. | Clicking "Upload" (value `"file"`) on entry 0 of `[{type:'url', value:''}]` gives `[{type:'url', value:'file'}]` | any radio of entry `index` switches its type and resets its value, so a file can be picked | high (not executed) | RegisterStar.ChangeImage, RegisterStar.UploadRadioWritesTextAsWritten, RegisterStar.AsWrittenNeverUploadsImages | RegisterStar.ChangeImageIntended, RegisterStar.RadioSwitchesTypeIntended |
| src/pages/MessagesPage.tsx:56 | the loop variable `doc` (line 39) shadows Firestore's `doc` imported at line 3, so `doc(db, 'stars', otherParticipantId)` calls a document snapshot as a function and throws. The `catch` at lines 60-62 only logs, `userData` stays undefined, and lines 70-71 give every line `'Unknown User'` and a null image. | viewer `A`, one chat `{participants:['A','B'], lastMessage:'hi'}`, and `stars/B = {name:'Bob'}`: the inbox line reads `'Unknown User'` | the stars and then the users are looked up, and the line shows `'Bob'` | high (not executed) | Messages.InboxAsWrittenShowsUnknownUser, Messages.ShadowedDocHidesStarName | Messages.OtherProfile, Messages.Summarize, Messages.BindingsDifferOnlyInProfile |
