# PixelMind core, modelled in Dafny

PixelMind is a Next.js application for AI image edits (restore, generative
fill, object removal, recolouring, background removal). Users pay for
transformations with credits, which they buy through a hosted checkout. This
project models the application logic behind that and proves its properties:

- the helpers in `lib/utils.ts`:
  - normalising errors (`handleError`);
  - editing query strings (`formUrlQuery`, `removeKeysFromQuery`);
  - image sizing (`getImageSize`);
  - the recursive settings merge (`deepMergeObjects`);
- the transformation form's state machine (`components/shared/transformation-form.tsx`);
- the pagination rules of the image collection (`components/shared/collection.tsx`);
- the cached database connection (`lib/database/mongoose.ts`);
- the credit ledger: `createTransaction` and `checkoutCredits` (`lib/actions/transaction.actions.ts`), and `deleteUser` (`lib/actions/user.actions.ts`);
- the payment webhook (`app/api/webhooks/stripe/route.ts`) and the identity webhook (`app/api/webhooks/clerk/route.ts`).

Layout, one module per source file plus two shared modules:

| file | module | models |
|---|---|---|
| `js.dfy` | `Js` | JavaScript values: truthiness, `{...v}`, `v?.[k]`, `a \|\| b`, thrown values, the engine's TypeError on reading a property of null, and `String`/`Number` on integers |
| `utils.dfy` | `Utils` | `lib/utils.ts` |
| `collection.dfy` | `Collection` | `components/shared/collection.tsx` |
| `mongoose.dfy` | `Mongoose` | `lib/database/mongoose.ts`. A pure `Connect` step specifies the class `ConnectionCache`, which holds the `{conn, promise}` record |
| `store.dfy` | `Store` | the users and transactions collections as a class `Database`. Its methods are the document-store calls the actions make |
| `user_actions.dfy` | `UserActions` | `deleteUser` |
| `transaction_actions.dfy` | `TransactionActions` | `checkoutCredits` (session parameters) and `createTransaction` |
| `http.dfy` | `Http` | the responses the routes build |
| `stripe_webhook.dfy` | `StripeWebhook` | the payment webhook |
| `clerk_webhook.dfy` | `ClerkWebhook` | the identity webhook |
| `transformation_form.dfy` | `TransformationForm` | the form, as a class `Form` whose methods are its handlers |

Conventions:

- **Exceptions.** A call that may throw returns `Completion<T>`: either `Returned(v)` or `Threw(e)`.
- **`handleError`.** It never returns. `HandleError` is the `Error` it throws.
- **Outside results.** What a foreign call would give is a parameter: the `mongoose.connect` settlement, the store's replies to an insert, to `findOne` and to `findByIdAndDelete` (`QueryReply`), signature verification, `createUser`, `updateUser`, the outcome of the Clerk metadata write, `addImage`/`updateImage`, whether the form schema accepts the fields (`accepted`) and what `getCldImageUrl` throws, if anything (`urlFailure`).
- **Effects.** Requests the form makes are appended to its `effects` log, and the store calls to the store's `log`. Both record the order.

Where the code and its doc comments disagree, the model follows the code:

- **`deepMergeObjects`.** The doc comment (`lib/utils.ts:192-201`) says that on a conflict the property of the second object is used. The code keeps the first object's value: `output[key] = obj1[key]`. `Utils.DeepMergeKeepsFirst` shows this on a concrete pair. The only caller, `components/shared/transformation-form.tsx:168`, passes the pending settings first. So new settings overriding old ones is what the application gets, and `Utils.DeepMergeCovers` proves that.
- **`createTransaction`.** Its doc comment promises `undefined` on error. The code rethrows every error through `handleError`, so it never resolves to `undefined`. `StripeWebhook.NeverReportsFailedCreation` proves the consequence: the webhook's 'Failed to create transaction' answer is unreachable.
- **`deleteUser`.** Its doc comment promises `null` when the user is not found. The code throws `Error: User not found` instead. `ClerkWebhook.DeliverDeleted` proves, on the store, that the identity webhook then raises, where it could have answered 'Error occured'.

## Model

| member | source | states |
|---|---|---|
| Js.IsObject | lib/utils.ts:218-223 | the guard `v && typeof v === 'object'` holds exactly of non-null objects |
| Js.NumberOfIntToString | app/api/webhooks/stripe/route.ts:32 | `Number(String(n)) == n` for every integer: credits survive the trip through string-valued checkout metadata |
| Utils.HandleError | lib/utils.ts:25-35 | whatever is caught, what is rethrown is an `Error` |
| Utils.HandleErrorMessage | lib/utils.ts:25-35 | the rethrown message is `'Error: '` + the message for Errors and strings, `'Unknown error: '` + the JSON text for anything else; each prefix occurs exactly for its shape |
| Utils.FormUrlQuery | lib/utils.ts:88-92 | the pathname is kept; `key` is present exactly when the value is not null, and then maps to it; every other key is kept with its value exactly when it is non-null |
| Utils.RemoveKeysFromQuery | lib/utils.ts:102-112 | a key survives exactly when it was present, is not among the keys to remove, and is not null; surviving values are unchanged |
| Utils.GetImageSize | lib/utils.ts:151-162 | 'fill' of a null or undefined image throws, and nothing else does; the size is always truthy; 'fill' reads the option named by the image's aspect ratio, other types read the image's own dimension, 1000 standing in for a missing or zero size |
| Utils.DeepMerge | lib/utils.ts:203-232 | a null or undefined second object gives the first back; otherwise the keys are the union of both; a key only in the second keeps its value; a key of the first gets its merged property |
| Utils.MergeProperty | lib/utils.ts:218-227 | unless both values are objects, the first object's value is kept as is; when both are, the result is an object with the keys of both, the second's value for a key only it has, and the recursive `DeepMerge` of the two, which merges each key of the first property by property |
| Utils.DeepMergeObjects | lib/utils.ts:203-232 | the copy-then-overwrite loop computes exactly `DeepMerge` |
| Utils.DeepMergeCovers | lib/utils.ts:215-229 | every leaf the first object sets is in the result unchanged, at any depth, whatever the second object holds |
| Utils.DeepMergeSelf | lib/utils.ts:203-232 | merging an object with itself gives it back |
| Utils.DeepMergeReapply | lib/utils.ts:203-232 | merging the same first object again over a merge result changes nothing |
| Utils.DeepMergeKeepsFirst | lib/utils.ts:224-226 | on a conflict the first object's value wins even when it is falsy, not the second's as the doc comment says |
| Collection.DefaultHidesPagination | components/shared/collection.tsx:24 | without a `totalPages` prop there is one page and no pagination controls |
| Collection.EnabledMoveStaysInRange | components/shared/collection.tsx:68-89 | from a page in range, a move the disabled rules allow stays in 1..totalPages, and each rule disables exactly the move that would leave it |
| Collection.OnPageChangeKeepsOtherKeys | components/shared/collection.tsx:36-46 | navigation sets `page` to page ± 1 and leaves every other query key and value as it was |
| Collection.NextThenPrev | components/shared/collection.tsx:36-46 | 'next' then 'prev' gives the URL of the starting page with the rest of the query unchanged |
| Collection.TotalPages | components/shared/collection.tsx:24 | a given `totalPages` is used as is; without one there is one page, so no pagination, and on page 1 (the only one) both moves are disabled |
| Collection.ShowsPagination | components/shared/collection.tsx:68 | the controls are shown exactly when the first page can move forward |
| Collection.PrevDisabled | components/shared/collection.tsx:73 | the previous-page button is disabled exactly when the move would go below page 1 |
| Collection.NextDisabled | components/shared/collection.tsx:85 | the next-page button is disabled exactly when the move would go past the last page |
| Collection.PageValue | components/shared/collection.tsx:37 | 'next' goes one page up and 'prev' one page down |
| Collection.OnPageChange | components/shared/collection.tsx:36-46 | the pushed URL keeps the pathname, sets `page` to the new page and keeps every other non-null key with its value |
| Mongoose.ConnectConsistent | lib/database/mongoose.ts:22-39 | each call keeps the record consistent: a promise is cached exactly when connect was called once, and `conn` is what it resolved to |
| Mongoose.ConnectAtMostOnce | lib/database/mongoose.ts:27-36 | over any sequence of calls `mongoose.connect` is called at most once, and never while the URL is missing |
| Mongoose.ConnectedStaysConnected | lib/database/mongoose.ts:23-25 | once a connection is cached every later call returns it and nothing changes |
| Mongoose.FailureIsSticky | lib/database/mongoose.ts:29-36 | a rejected promise stays cached: every later call fails with the same error without reconnecting |
| Mongoose.ConnectionCache.constructor | lib/database/mongoose.ts:15 | the record starts as `{ conn: null, promise: null }` without connect calls |
| Mongoose.ConnectionCache.ConnectToDatabase | lib/database/mongoose.ts:22-39 | the result and the new record are those of `Connect`; a connect call with database 'pixelmind' and buffering off is logged exactly when a new promise is made |
| Mongoose.LoadModule | lib/database/mongoose.ts:11-16 | the record on `global` is reused when present, otherwise an empty one is created and stored there |
| Mongoose.Connect | lib/database/mongoose.ts:22-39 | a cached connection is returned with nothing changed; a missing URL throws without connecting; `mongoose.connect` is called exactly when there is neither a connection nor a promise; the call returns exactly when the promise resolves, and then caches the connection; otherwise it throws the promise's error |
| Mongoose.Results | lib/database/mongoose.ts:22-39 | each of a series of calls returns what `Connect` returns from the record the earlier calls left |
| Store.Database.FindOne | lib/actions/user.actions.ts:20 | a rejected lookup throws its error; otherwise a user is found exactly when one has the clerk id, and then it is the stored user; the lookup is logged either way |
| Store.Database.FindByIdAndDelete | lib/actions/user.actions.ts:24 | a rejected delete throws its error and removes nothing; otherwise the user with the id is removed and returned, or null when there is none |
| Store.Database.Insert | lib/actions/transaction.actions.ts:56-59 | the ledger grows by the record exactly when the store stores it; the reply is the record, nothing, or the rejection |
| Store.Database.UpdateCredits | lib/actions/transaction.actions.ts:64 | the buyer's balance moves by `delta` and nothing else changes; an unknown buyer is an error |
| Store.Database.constructor | lib/actions/user.actions.ts:20-24 | the store is abstract: the users and transactions collections that `User.findOne`, `User.findByIdAndDelete` and `Transaction.create` (lib/actions/transaction.actions.ts:56) act on; it starts with the given users, which have distinct clerk ids, an empty ledger and no calls logged, behind the given connection cache |
| TransactionActions.CheckoutSession | lib/actions/transaction.actions.ts:14-37 | one line item, quantity 1, named after the plan, whose price in minor units is the amount in major units × 100; metadata carries plan, credits and buyer verbatim; mode 'payment' |
| TransactionActions.NewRecord | lib/actions/transaction.actions.ts:56-59 | the stored record copies every input field (stripe id, amount, credits, plan, buyer id, creation time) and adds `buyer`, the buyer id |
| TransactionActions.CreateTransaction | lib/actions/transaction.actions.ts:49-70 | a connect failure is rethrown with nothing written; an insert that fails or yields nothing is rethrown and credits no one; a stored record is appended, then the buyer is credited exactly `credits` and the record returned; an unknown buyer is rethrown after the record is written |
| UserActions.UserNotFoundMessage | lib/actions/user.actions.ts:22 | the error for an unknown clerk id reads `Error: User not found` |
| UserActions.DeleteUser | lib/actions/user.actions.ts:16-33 | a connect failure is rethrown with nothing changed; a rejected lookup or delete is rethrown through `handleError` with no user removed; an unknown clerk id throws `User not found` after one lookup; otherwise the user with that clerk id is removed, returned, and the only user gone |
| StripeWebhook.Post | app/api/webhooks/stripe/route.ts:6-47 | a transaction is created exactly when the signature is present and valid and the event is a completed checkout, and then once, from the session; an absent or invalid signature answers 'Stripe Webhook error' with the error; other events answer an empty 200; the creation result decides 'OK', 'Failed to create transaction', or the exception |
| StripeWebhook.MajorUnits | app/api/webhooks/stripe/route.ts:30 | the amount is the total divided by 100, so multiplying back by 100 gives the total, and 0 without a total |
| StripeWebhook.TransactionParams | app/api/webhooks/stripe/route.ts:28-35 | the session id and time are kept; the amount turns back into the charged total; without metadata plan and buyer are empty and credits 0; with metadata, plan and buyer come from it, or are empty when the key is missing; credits are 0 when the key is missing or does not read as a number, and credits written with `String(n)` read back as `n` |
| StripeWebhook.NeverReportsFailedCreation | app/api/webhooks/stripe/route.ts:37-43 | because `createTransaction` only returns records or throws, the route never answers 'Failed to create transaction'; a failure escapes as the thrown error |
| StripeWebhook.CheckoutRoundTrip | app/api/webhooks/stripe/route.ts:26-35 | a session from `checkoutCredits`, reported back with its charged total and metadata, records the original plan, credits, buyer and amount |
| StripeWebhook.ExamplePurchase | app/api/webhooks/stripe/route.ts:28-35 | 2000 minor units and credits "100" record amount 20 and 100 credits |
| StripeWebhook.Deliver | app/api/webhooks/stripe/route.ts:25-43 | the route with `createTransaction` carried out on the store: no call leaves both collections unchanged; a stored purchase by a known buyer adds the credits to that buyer's balance, leaves every other user and the buyer's other fields as they were, appends the record and answers 'OK' |
| ClerkWebhook.Post | app/api/webhooks/clerk/route.ts:9-117 | a missing secret throws before anything else; missing svix headers answer 400 'Error occured -- no svix headers'; a failed verification answers 400 'Error occured'; at most one user action is called, only for a verified event, followed at most by the metadata write for a created user; other event types answer an empty 200 |
| ClerkWebhook.UserCreated | app/api/webhooks/clerk/route.ts:54-78 | no email addresses throws reading `email_address` before any call; otherwise `createUser` is called first with the event's fields, then the metadata write exactly when a user comes back, with its `_id`; a failed creation raises its error |
| ClerkWebhook.CreatedEvent | app/api/webhooks/clerk/route.ts:54-78 | `user.created` creates the user from the event's id, first address and profile; the new `_id` is written back exactly when a user is returned; the answer is 'OK' with the user or 'Error occured' with null |
| ClerkWebhook.CreatedWithoutEmail | app/api/webhooks/clerk/route.ts:59 | a created user without email addresses throws before any call |
| ClerkWebhook.UpdatedEvent | app/api/webhooks/clerk/route.ts:81-98 | `user.updated` sends the profile fields, no email, and answers with the update's result |
| ClerkWebhook.DeletedEvent | app/api/webhooks/clerk/route.ts:101-111 | `user.deleted` calls `deleteUser` with the event's id and answers 'OK' for a returned user, 'Error occured' for null |
| ClerkWebhook.DeletedUnknownUserRaises | app/api/webhooks/clerk/route.ts:101-111 | given `deleteUser`'s rejection for an unknown user, the route raises `Error: User not found` instead of answering; `DeliverDeleted` derives that rejection from the store |
| ClerkWebhook.DeliverDeleted | app/api/webhooks/clerk/route.ts:101-111 | `user.deleted` with `deleteUser` run on the store: for an id no user has, the route raises `Error: User not found` and every user is kept; for a known id only that user is removed and the answer is 'OK' |
| TransformationForm.UntouchedUpdateSavesStored | components/shared/transformation-form.tsx:51-123 | editing a stored image and saving before touching anything sends the stored title, ratio, prompt, colour and public id back under the stored `_id`, with the URL built from the stored public id |
| TransformationForm.UntouchedAddSavesDefaults | components/shared/transformation-form.tsx:51-96 | a new image starts from, and is saved with, the type's defaults whatever document the form was given |
| TransformationForm.SelectedImage | components/shared/transformation-form.tsx:133-138 | the image gets the option's aspect ratio, width and height; every other field is kept |
| TransformationForm.SelectedImageSize | components/shared/transformation-form.tsx:129-143 | after choosing a key, `getImageSize` sizes the image by that option, for 'fill' and every other type |
| TransformationForm.WithInput | components/shared/transformation-form.tsx:153-159 | the text goes to `[type].prompt` for the prompt input and `[type].to` otherwise; every other key under the type and at the top level is kept |
| TransformationForm.WithInputLastWins | components/shared/transformation-form.tsx:153-159 | typing into the same input twice leaves only the second text |
| TransformationForm.WithInputsCommute | components/shared/transformation-form.tsx:153-159 | the prompt and colour inputs can be filled in either order with the same result |
| TransformationForm.UrlOptions | components/shared/transformation-form.tsx:73-78 | the URL options hold the applied settings' keys plus width, height and src; the settings override any of them, and otherwise width and height are the image's and src is the given public id |
| TransformationForm.SaveRequest | components/shared/transformation-form.tsx:70-123 | nothing is saved unless there is a stored or a current image, or when updating without a stored image; 'Add' posts to '/' and 'Update' to the stored image's page with its `_id`; title, ratio, prompt and colour come from the form; public id, width, height and secure URL from the current image; the config is the applied settings, and the URL options are `UrlOptions` of the current image, with src the image's public id if set, else the stored one's |
| TransformationForm.Form.constructor | components/shared/transformation-form.tsx:30-65 | `data` and `config` default to null; the image starts as `data`; after the image effect of lines 177-181, the type's settings are pending for a 'restore' or 'removeBackground' form with a stored image and nothing is pending otherwise; neither flag is set, and the fields are the initial values |
| TransformationForm.Form.SelectAspectRatio | components/shared/transformation-form.tsx:129-143 | the type's settings become pending and the field takes the key; a known key resizes the image to its option; an unknown key leaves the image and raises reading `aspectRatio` of undefined when the queued update runs, an error raised during rendering that ends the form (the select offers only the table's keys) |
| TransformationForm.Form.InputChange | components/shared/transformation-form.tsx:145-163 | the pending settings become `WithInput` of the old ones under the form's type, and the field takes the text; nothing else changes |
| TransformationForm.Form.EditTitle | components/shared/transformation-form.tsx:187-193 | only the title field changes |
| TransformationForm.Form.ApplyTransformation | components/shared/transformation-form.tsx:165-175 | the applied settings become the pending ones merged over the old, keeping every pending leaf; nothing is pending; the form is busy and the apply button disabled; one credit change of `creditFee` for the user is requested |
| TransformationForm.Form.TransformationSettled | components/shared/transformation-form.tsx:276-283 | the busy flag clears, and the apply button is disabled exactly when nothing is pending |
| TransformationForm.Form.ImageUploaded | components/shared/transformation-form.tsx:265-273 | the uploader's image and public id replace the current ones, and the image effect then makes the type's settings pending for 'restore' and 'removeBackground' |
| TransformationForm.Form.ImageChanged | components/shared/transformation-form.tsx:177-181 | the image effect: for 'restore' and 'removeBackground' a present image makes the type's settings pending, otherwise nothing changes; the constructor, `ImageUploaded` and `Submit` end with it |
| TransformationForm.Form.Submit | components/shared/transformation-form.tsx:67-127 | a rejected schema changes nothing; a URL build that throws rejects with the form left submitting and the save button disabled; otherwise the request of `SaveRequest`, if any, is made, then the page of a save the server confirms is opened, a saved new image resets the form and the image to `data` (the image effect runs when that changes the image), and the save button is enabled again |
| TransformationForm.Form.ShowsInsufficientCredits | components/shared/transformation-form.tsx:186 | for a charging fee the modal is shown exactly when one transformation would take the balance below zero; for a positive fee, when the balance is below it |
| TransformationForm.ChargedPerApplication | components/shared/transformation-form.tsx:165-175 | a request log in which every credit change is the form's own `creditFee` has charged `creditFee` times the number of applied transformations, and nothing for saves or navigation |
| TransformationForm.Form.ChargesFeePerApplication | components/shared/transformation-form.tsx:165-175 | whatever handlers ran, the form has charged its user `creditFee` once per applied transformation (the class invariant `Valid` keeps every request on behalf of the form's user) |
| TransformationForm.Form.ApplyDisabled | components/shared/transformation-form.tsx:290 | the apply button's rule; `ApplyTransformation` and `TransformationSettled` state it afterwards |
| TransformationForm.Form.SubmitDisabled | components/shared/transformation-form.tsx:295 | the save button's rule; `Submit` states it afterwards |

## Left out

- Utils.HandleErrorMessage: `JSON.stringify` throwing at lib/utils.ts:34 (a circular object or a BigInt) is not modelled, so `Utils.HandleError` and `Utils.HandleErrorMessage` state the 'Unknown error: ' case only for values that serialise; values are JSON data here.
- Numbers are integers. JavaScript's floating point, NaN and `Infinity` are not modelled. `Number(s)` is modelled only for an optional sign followed by decimal digits, and any other text reads as NaN.
- Money amounts are exact `real`s, so the rounding of `amount * 100` and `amountTotal / 100` in floating point is not modelled.
- Spreading a string or an array (index keys), prototypes, and property-order effects of `{...obj}` are not modelled. Primitives spread to `{}`.
- `qs.parse` and `qs.stringify` are taken as the identity between a query string and a flat key/value map. Nested and array syntax is not modelled.
- `debounce`'s timer is not modelled, because the form creates a new debounced function per keystroke. `Form.InputChange` applies the state update at once.
- React scheduling, `useTransition`, re-rendering and the asynchronous awaits are not modelled. Each handler completes before the next one starts, and the form's effects are recorded requests, not their results.
- TransformationForm.Form.Submit: the `isSubmitting = true` interval during the awaited save is not observable in this sequential model; only the final value is stated (`false`, or `true` when building the URL throws). Schema validation is the `accepted` parameter and what `getCldImageUrl` throws is the `urlFailure` parameter, because the form schema and Cloudinary are not part of this model.
- Concurrency is not modelled. Calls are sequential, so the shared in-flight connection promise is only ever awaited by one caller.
- UserActions.DeleteUser: the `return null` at lib/actions/user.actions.ts:32 needs a concurrent delete between the lookup and the delete, so the sequential model never reaches it.
- `constants/index.ts` is not part of this model. `aspectRatioOptions`, `creditFee`, `defaultValues` and the type configurations are parameters of `Form`.
- `process.env` values are parameters: `MONGODB_URL`, `WEBHOOK_SECRET` and `NEXT_PUBLIC_SERVER_URL`. The Stripe keys are not modelled; they only feed the foreign calls.
- Foreign calls are left out. These are `mongoose.connect`, the Stripe SDK (session creation, `constructEvent`), svix's `verify`, `clerkClient.users.updateUserMetadata`, `getCldImageUrl`, `MediaUploader` and `TransformedImage`. Each one's outcome is a parameter, or its argument is recorded.
- `updateCredits`, `createUser`, `updateUser`, `addImage` and `updateImage` are not shown in the source modelled here. `updateCredits` is taken as adding the delta to a known user's balance and failing for an unknown one. The others are parameters, and no atomicity is claimed.
- `redirect(session.url)` in `checkoutCredits`, `revalidatePath`, `router.push` options, `console` logging and `JSON.parse(JSON.stringify(...))` copies are not modelled. Navigation is recorded as an effect.
- `req.json()` failing on a malformed body and `request.text()` are not modelled. The verified event is a parameter.
- Null profile fields in identity events (`first_name`, `username!`) are not modelled, because they are strings here.
- `cn`, `shimmer`, `toBase64`, `dataUrl` and `download` in `lib/utils.ts` are not modelled. They build CSS class names, SVG and base64 text, or drive the browser.
- StripeWebhook.Deliver: its ensures names the creation result only as some completion of `createTransaction` (an existential). The users map, the ledger and the answer are stated exactly only for a stored purchase by a known buyer after a successful connection.
- Response bodies are the objects handed to `NextResponse.json`, before serialisation: the `error` a Stripe webhook error carries is the thrown value itself, whereas JSON serialisation would turn a plain `Error` into `{}`.
- Rendering (labels, class names, the select's option list) is not modelled beyond the conditions the form and the collection compute.
