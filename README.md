# Hyperion music app: playback queue, access gates and request flows

This project models the client-side logic of the Hyperion music-streaming app in Dafny and proves properties of that model. It covers five parts:

- **Playback queue store.** The `usePlayer` store holds an ordered queue of track ids and an optional active id. `PlayerContent` moves through the queue with next and previous, both of which wrap around. It also owns the binary mute and the `isPlaying` flag that the sound library's callbacks drive.
- **Access gates and modal flags.** `useOnPlay` and the library's add button both check for a user first and a subscription second. Depending on the result they open the login prompt, open the subscribe prompt, or act. Each of the three prompts is backed by a store holding a single `isOpen` flag.
- **Client request flows.** These are the like toggle, the upload dialog's submission and the subscribe dialog's checkout. Each is a short sequence of steps with early returns. Every backend call's result is an input to the model.
- **`getURL`.** This builds the site's base URL from environment variables, adds an `https://` prefix when the string does not contain `http` anywhere (so `ftp://host` becomes `https://ftp://host`), and ensures a trailing slash.
- **The payment webhook.** This covers the relevant-event filter, the switch from event type to mirror upsert, and the response status.

Modules follow the source files:

| file | module | source |
|---|---|---|
| `wrappers.dfy` | `Wrappers` | `Option`, standing for JavaScript's `T \| undefined` |
| `types.dfy` | `Types` | the records the components exchange |
| `player_store.dfy` | `Player` | `hooks/usePlayer.ts` |
| `navigation.dfy` | `Navigation` | next and previous selection in `components/PlayerContent.tsx` |
| `player_content.dfy` | `PlayerContent` | the state and callbacks of `components/PlayerContent.tsx` |
| `modals.dfy` | `Modals` | `hooks/useAuthModal.ts`, `hooks/useSubscribeModal.ts`, `hooks/useUploadModal.ts` |
| `play_gate.dfy` | `PlayGate` | `hooks/useOnPlay.ts` |
| `library.dfy` | `Library` | `components/Library.tsx` |
| `likes.dfy` | `Likes` | `components/LikeButton.tsx` |
| `upload.dfy` | `Upload` | `components/UploadModal.tsx` |
| `subscribe.dfy` | `Subscribe` | `components/SubscribeModal.tsx` |
| `site_url.dfy` | `SiteUrl` | `getURL` in `libs/helpers.ts` |
| `webhook.dfy` | `Webhook` | `app/api/webhooks/route.ts` |

The stores are classes, and their methods state the new field values outright. Next and previous are pure functions over `(ids, activeId)`, and the player methods are proved against them. These functions follow JavaScript semantics exactly:

- `findIndex` returns the first match, or -1.
- Reading an index out of range gives `undefined`, including -1 and -2.
- The `!song` test treats both `undefined` and `""` as missing.

So next and previous wrap in three cases:

- the active id's first occurrence is at the end of the queue (next) or at the start (previous);
- the active id is not in the queue at all;
- the neighbour at that position is the empty string.

Nothing checks an id that `setId` receives against the queue. The model keeps this: the active id can lie outside the queue, as `Player.OrphanedSelection` shows. One might expect the active id always to lie in the queue; the code does not enforce that, and the model follows the code. When you click a track in a list, its id comes from the same list that becomes the queue, so the id does lie in the queue (`Library.OnItemClick`).

Inputs from outside the code:

- Backend results are parameters: storage uploads, table inserts and deletes, the liked-row lookup, the checkout post, and whether the payment library loaded.
- So are the unique id drawn by `uniqid()`, the environment variables, and the user and subscription that `useUser` reports.
- The webhook's signature check (`constructEvent`) and the upsert outcomes are function parameters.

## Model

| member | source | states |
|---|---|---|
| `Player.PlayerStore.constructor` | hyperion-music-app/hooks/usePlayer.ts:31-32 | the store starts with an empty queue and no active id |
| `Player.PlayerStore.SetId` | hyperion-music-app/hooks/usePlayer.ts:33 | the active id becomes the given id, the queue is unchanged, and the result does not depend on the prior state (so the last call wins) |
| `Player.PlayerStore.SetIds` | hyperion-music-app/hooks/usePlayer.ts:34 | the queue becomes exactly the given sequence, in order; the active id is kept even if it is no longer in the queue |
| `Player.PlayerStore.Reset` | hyperion-music-app/hooks/usePlayer.ts:35 | empty queue and no active id, whatever the prior state |
| `Player.OrphanedSelection` | hyperion-music-app/hooks/usePlayer.ts:33-34 | a store can reach a state where its active id is not in its queue |
| `Player.ResetTwice` | hyperion-music-app/hooks/usePlayer.ts:35 | a second reset leaves the same state as the first |
| `Navigation.FindIndex` | hyperion-music-app/components/PlayerContent.tsx:62 | the result is -1 exactly when the target is absent or not in the queue; otherwise it is the index of the target's first occurrence |
| `Wrappers.Truthy` | hyperion-music-app/components/PlayerContent.tsx:65 | JavaScript truthiness of an optional string: present and not `""`; the same test guards the webhook's signature and secret (`app/api/webhooks/route.ts:52`) |
| `Navigation.At` | hyperion-music-app/components/PlayerContent.tsx:63 | indexing reads an element exactly when the index is in range, and that element; otherwise `undefined`, also for -1 and -2 |
| `Navigation.FindIndexIsFirst` | hyperion-music-app/components/PlayerContent.tsx:62 | the index of the first occurrence is the index that `findIndex` reports |
| `Navigation.NextActive` | hyperion-music-app/components/PlayerContent.tsx:57-70 | on an empty queue the active id is unchanged; otherwise the new active id is a member of the queue |
| `Navigation.PrevActive` | hyperion-music-app/components/PlayerContent.tsx:73-86 | on an empty queue the active id is unchanged; otherwise the new active id is a member of the queue |
| `Navigation.NextFollowsFirstOccurrence` | hyperion-music-app/components/PlayerContent.tsx:62-69 | next selects the element after the first occurrence when that element exists and is not empty |
| `Navigation.NextWrapsAfterOccurrence` | hyperion-music-app/components/PlayerContent.tsx:62-67 | next wraps to `ids[0]` when the first occurrence is last or its successor is `""` |
| `Navigation.NextWrapsWhenAbsent` | hyperion-music-app/components/PlayerContent.tsx:62-67 | next selects `ids[0]` when the active id is absent or not in the queue |
| `Navigation.PrevPrecedesFirstOccurrence` | hyperion-music-app/components/PlayerContent.tsx:78-85 | previous selects the element before the first occurrence when that element exists and is not empty |
| `Navigation.PrevWrapsBeforeOccurrence` | hyperion-music-app/components/PlayerContent.tsx:78-83 | previous wraps to the last element when the first occurrence is at index 0 or its predecessor is `""` |
| `Navigation.PrevWrapsWhenAbsent` | hyperion-music-app/components/PlayerContent.tsx:78-83 | previous selects the last element when the active id is absent or not in the queue |
| `Navigation.NextAt` | hyperion-music-app/components/PlayerContent.tsx:57-70 | in a queue of distinct non-empty ids, next moves from index i to the cyclic successor of i |
| `Navigation.PrevAt` | hyperion-music-app/components/PlayerContent.tsx:73-86 | in a queue of distinct non-empty ids, previous moves from index i to the cyclic predecessor of i |
| `Navigation.PrevUndoesNext` | hyperion-music-app/components/PlayerContent.tsx:57-86 | for distinct non-empty ids with the active id in the queue, previous after next restores the active id |
| `Navigation.NextUndoesPrev` | hyperion-music-app/components/PlayerContent.tsx:57-86 | under the same conditions, next after previous restores the active id |
| `Navigation.AdvanceFrom` | hyperion-music-app/components/PlayerContent.tsx:57-70 | k presses of next from index i reach index i + k while that stays inside the queue |
| `Navigation.CycleFrom` | hyperion-music-app/components/PlayerContent.tsx:57-70 | \|ids\| presses of next from any index return to that index |
| `Navigation.NextCycle` | hyperion-music-app/components/PlayerContent.tsx:94-97 | for distinct non-empty ids, \|ids\| applications of next (or \|ids\| track endings) return to the starting id |
| `Navigation.AdvanceEmpty` | hyperion-music-app/components/PlayerContent.tsx:58-60 | on an empty queue any number of next presses changes nothing |
| `Navigation.Scenarios` | hyperion-music-app/components/PlayerContent.tsx:57-86 | on ["a","b","c"]: next from "b" gives "c", next from "c" gives "a", previous from "a" gives "c" |
| `PlayerContent.MuteToggled` | hyperion-music-app/components/PlayerContent.tsx:122-128 | the result is 0 or 1, and it is 0 exactly when the old volume is not 0 |
| `PlayerContent.MuteToggledTwice` | hyperion-music-app/components/PlayerContent.tsx:123-127 | toggling twice gives 1 from every volume except 0, e.g. 0.3 becomes 1 |
| `PlayerContent.PlayerControls.constructor` | hyperion-music-app/components/PlayerContent.tsx:49-50 | volume starts at 1 and `isPlaying` starts false |
| `PlayerContent.PlayerControls.OnPlayNext` | hyperion-music-app/components/PlayerContent.tsx:57-70 | the store's active id becomes `NextActive` of the old state, and its queue is unchanged |
| `PlayerContent.PlayerControls.OnPlayPrevious` | hyperion-music-app/components/PlayerContent.tsx:73-86 | the store's active id becomes `PrevActive` of the old state, and its queue is unchanged |
| `PlayerContent.PlayerControls.HandlePlay` | hyperion-music-app/components/PlayerContent.tsx:113-119 | asks the sound library to play exactly when not playing, otherwise to pause |
| `PlayerContent.PlayerControls.ToggleMute` | hyperion-music-app/components/PlayerContent.tsx:122-128 | the new volume is `MuteToggled` of the old one |
| `PlayerContent.PlayerControls.OnSliderChange` | hyperion-music-app/components/PlayerContent.tsx:226 | the volume becomes the slider's value |
| `PlayerContent.PlayerControls.OnSoundPlay` | hyperion-music-app/components/PlayerContent.tsx:93 | `isPlaying` becomes true |
| `PlayerContent.PlayerControls.OnSoundPause` | hyperion-music-app/components/PlayerContent.tsx:98 | `isPlaying` becomes false |
| `PlayerContent.PlayerControls.OnSoundEnd` | hyperion-music-app/components/PlayerContent.tsx:94-97 | `isPlaying` becomes false and the store advances as next does |
| `Modals.AuthModal.constructor` | hyperion-music-app/hooks/useAuthModal.ts:26 | the login prompt starts closed |
| `Modals.AuthModal.OnOpen` | hyperion-music-app/hooks/useAuthModal.ts:28 | open afterwards, whatever the prior state (idempotent, last call wins) |
| `Modals.AuthModal.OnClose` | hyperion-music-app/hooks/useAuthModal.ts:30 | closed afterwards, whatever the prior state |
| `Modals.SubscribeModal.constructor` | hyperion-music-app/hooks/useSubscribeModal.ts:23 | the subscribe prompt starts closed |
| `Modals.SubscribeModal.OnOpen` | hyperion-music-app/hooks/useSubscribeModal.ts:24 | open afterwards, whatever the prior state |
| `Modals.SubscribeModal.OnClose` | hyperion-music-app/hooks/useSubscribeModal.ts:25 | closed afterwards, whatever the prior state |
| `Modals.UploadModal.constructor` | hyperion-music-app/hooks/useUploadModal.ts:27 | the upload dialog starts closed |
| `Modals.UploadModal.OnOpen` | hyperion-music-app/hooks/useUploadModal.ts:28 | open afterwards, whatever the prior state |
| `Modals.UploadModal.OnClose` | hyperion-music-app/hooks/useUploadModal.ts:29 | closed afterwards, whatever the prior state |
| `PlayGate.Decide` | hyperion-music-app/hooks/useOnPlay.ts:33-40 | asks for sign-in exactly when there is no user, asks to subscribe exactly when there is a user without a subscription, and allows exactly when both are present |
| `PlayGate.SongIds` | hyperion-music-app/hooks/useOnPlay.ts:44 | the ids of the songs, same length, same order |
| `PlayGate.SongIdInQueue` | hyperion-music-app/hooks/useOnPlay.ts:44 | every listed song's id is in the queue built from the list |
| `PlayGate.OnPlay` | hyperion-music-app/hooks/useOnPlay.ts:31-45 | no user: only the login prompt opens and the player is unchanged. No subscription: only the subscribe prompt opens and the player is unchanged. Otherwise the active id becomes `id` (unchecked) and the queue becomes the song ids; neither prompt changes |
| `Library.OnAddClick` | hyperion-music-app/components/Library.tsx:48-58 | exactly the prompt chosen by the user-then-subscription check is opened (login, subscribe or upload); the other two are untouched |
| `Library.OnItemClick` | hyperion-music-app/components/Library.tsx:82-85 | the click is `onPlay` of the clicked song's id: exactly the prompt the check picks opens and the other keeps its state, or, when allowed, neither prompt changes, the active id is that song's id, the queue is the library's ids, and the active id is in the queue |
| `Likes.LikeButton.constructor` | hyperion-music-app/components/LikeButton.tsx:41 | `isLiked` starts false |
| `Likes.LikeButton.FetchLiked` | hyperion-music-app/components/LikeButton.tsx:43-61 | the lookup runs exactly when the user's id is truthy. The flag becomes old flag or (queried and row found), so the lookup never sets it to false |
| `Likes.LikeButton.HandleLike` | hyperion-music-app/components/LikeButton.tsx:66-104 | no user: the login prompt opens, no request, no notice, flag unchanged. Liked: issues a delete. Not liked: issues an insert. Success flips the flag, and only the insert adds a "Success" notice. An error keeps the flag and shows the error message. A thrown call changes nothing |
| `Upload.FirstFile` | hyperion-music-app/components/UploadModal.tsx:69-70 | the first selected file, present exactly when a non-empty file list was given |
| `Upload.StorageName` | hyperion-music-app/components/UploadModal.tsx:86 | the object name is `<kind>-<title>-<uid>`: its length is the parts' lengths plus two separators, and kind, title and unique id sit at their places between the two `-` |
| `Upload.StorageNamesDiffer` | hyperion-music-app/components/UploadModal.tsx:77-103 | the audio and artwork names of one submission differ, and both end in the same unique id |
| `Upload.UploadForm.constructor` | hyperion-music-app/components/UploadModal.tsx:44-55 | not loading, and the form holds its default values |
| `Upload.UploadForm.OnChange` | hyperion-music-app/components/UploadModal.tsx:58-63 | closing resets the form and closes the dialog; opening changes nothing |
| `Upload.UploadForm.OnSubmit` | hyperion-music-app/components/UploadModal.tsx:65-139 | ends with `isLoading` false on every path. Missing fields: "Missing fields" and no request. A failed upload issues no later request. Names are `song-<title>-<uid>` and `image-<title>-<uid>`. The row carries the user id, title, author and both stored paths. The form resets, the dialog closes and the page refreshes exactly when every step succeeds. Each failure shows its own notice |
| `Subscribe.PriceButtons` | hyperion-music-app/components/SubscribeModal.tsx:112-121 | one button per price, in order; each is disabled exactly when loading or when its id equals `priceIdLoading` |
| `Subscribe.Disabled` | hyperion-music-app/components/SubscribeModal.tsx:116 | a price button is disabled exactly when the user data is still loading (`useUser`'s `isLoading`) or the checkout's loading marker names that price; an unset marker names none |
| `Subscribe.LacksPrices` | hyperion-music-app/components/SubscribeModal.tsx:104 | `!product.prices?.length`: the product has no price list, or an empty one |
| `Subscribe.ProductEntries` | hyperion-music-app/components/SubscribeModal.tsx:104-121 | a product lacking prices contributes exactly one placeholder with its id; otherwise one price button per price, in price order |
| `Subscribe.Entries` | hyperion-music-app/components/SubscribeModal.tsx:103-122 | the number of entries is one per price-less product plus one per price; every button's disabled flag is the one the rule above gives |
| `Subscribe.EntriesAppend` | hyperion-music-app/components/SubscribeModal.tsx:103-122 | each product contributes its own entries, in product order (the listing distributes over concatenation) |
| `Subscribe.ProductListing` | hyperion-music-app/components/SubscribeModal.tsx:104-121 | a product with missing or empty prices yields one "No prices available" entry; otherwise one button per price, in order |
| `Subscribe.ModalContent` | hyperion-music-app/components/SubscribeModal.tsx:94-133 | a subscription gives "Already subscribed." whatever the products; otherwise no products gives "No products available." and any products give exactly `Entries` of the products (their listing, with `TotalEntryCount` entries) |
| `Subscribe.SubscribeDialog.constructor` | hyperion-music-app/components/SubscribeModal.tsx:52 | no price is loading |
| `Subscribe.SubscribeDialog.OnChange` | hyperion-music-app/components/SubscribeModal.tsx:55-59 | closing closes the subscribe prompt; opening changes nothing |
| `Subscribe.SubscribeDialog.HandleCheckout` | hyperion-music-app/components/SubscribeModal.tsx:62-91 | the loading marker is cleared on every exit and holds the price id while posting. No user: "Must be logged in" and no post. Subscribed: "Already subscribed" and no post. Otherwise it posts the price and either redirects to the returned session (when the payment library loaded) or shows the failure message |
| `SiteUrl.Coalesce` | hyperion-music-app/libs/helpers.ts:20-23 | `??` falls through only on an absent value, so an empty string is kept |
| `SiteUrl.Contains` | hyperion-music-app/libs/helpers.ts:25 | `includes`, scanning from the left; `ContainsIff` proves it holds exactly when the substring occurs at some index |
| `SiteUrl.EndsWithSlash` | hyperion-music-app/libs/helpers.ts:27 | the `charAt(url.length - 1) === '/'` test; false on the empty string, whose `charAt(-1)` is `""` |
| `SiteUrl.ContainsIff` | hyperion-music-app/libs/helpers.ts:25 | `includes` holds exactly when the substring occurs at some index |
| `SiteUrl.ContainsPrefix` | hyperion-music-app/libs/helpers.ts:27 | appending the slash keeps an occurrence of `http` |
| `SiteUrl.Normalise` | hyperion-music-app/libs/helpers.ts:25-27 | the result ends with `/` and contains `http`. A URL without `http` gets the `https://` prefix, and one with it gets none. The slash is appended exactly when the (prefixed) URL does not already end with `/`, so a URL with `http` ending in `/` is returned unchanged and `example.com/` becomes `https://example.com/` |
| `SiteUrl.GetURL` | hyperion-music-app/libs/helpers.ts:19-29 | the result always ends with `/` and contains `http` |
| `SiteUrl.NormaliseIdempotent` | hyperion-music-app/libs/helpers.ts:25-27 | normalising twice equals normalising once |
| `SiteUrl.GetURLFixpoint` | hyperion-music-app/libs/helpers.ts:19-28 | feeding `getURL`'s result back in as the site URL returns it unchanged |
| `SiteUrl.DefaultURL` | hyperion-music-app/libs/helpers.ts:20-28 | with neither variable set the result is exactly `http://localhost:3000/` |
| `SiteUrl.EmptySiteUrlKept` | hyperion-music-app/libs/helpers.ts:20-26 | an empty site URL is kept and becomes `https://`, even when the platform URL is set |
| `Webhook.RelevantIffRouted` | hyperion-music-app/app/api/webhooks/route.ts:28-95 | an event type is relevant exactly when the switch has a case for it, so the default throw is unreachable |
| `Webhook.RouteOf` | hyperion-music-app/app/api/webhooks/route.ts:63-95 | the `switch` arm of an event type; `RelevantIffRouted` and `RouteClasses` state which types reach which arm |
| `Webhook.RouteClasses` | hyperion-music-app/app/api/webhooks/route.ts:63-81 | `product.*` goes to products and `price.*` to prices; a subscription event's `createAction` is true exactly for `created` |
| `Webhook.UpsertFor` | hyperion-music-app/app/api/webhooks/route.ts:63-93 | product and price events upsert their record. A `customer.subscription.*` event calls the status change with the subscription's own id, its customer, and `createAction` true exactly for `created`. A completed checkout in subscription mode calls it with the session's subscription id, its customer and `true`. No upsert happens exactly for a completed checkout that is not in subscription mode |
| `Webhook.WebhookSecret` | hyperion-music-app/app/api/webhooks/route.ts:46-48 | the live secret when set (even empty), else the fallback |
| `Webhook.Post` | hyperion-music-app/app/api/webhooks/route.ts:40-106 | at most one upsert. Missing signature or secret: no response, no upsert. Failed verification: 400 "Webhook Error: …" and no upsert. Irrelevant event: 200 `{received:true}` and no upsert. Relevant event: exactly `UpsertFor`'s call, then 400 "Webhook handler failed" if it throws, else 200 |
| `Webhook.DeletedSubscriptionScenario` | hyperion-music-app/app/api/webhooks/route.ts:72-81 | a `customer.subscription.deleted` event updates the subscription mirror with `createAction` false |

## Left out

- Audio playback through the sound library is not modelled: `play()`, `pause()`, `sound.play()`, `unload()` and the effect that loads and releases the sound (`components/PlayerContent.tsx:89-110`). It is a foreign library with callback timing. Only the `isPlaying` flag transitions and the play/pause request are modelled.
- All backend I/O is not modelled: Supabase queries, storage, `useUser`'s fetch, `useGetSongById`, `useLoadSongUrl`, `useLoadImage`, the `actions/` files and `middleware.ts`. In the modelled flows, each call's result is only an input parameter.
- Stripe and HTTP plumbing is not modelled: `libs/stripe.ts`, `libs/stripeClient.ts`, the checkout-session and portal-link routes, `postData`'s `fetch`, and `redirectToCheckout`. Signature verification is an oracle function, and the HMAC is not modelled. The upsert helpers of `libs/supabaseAdmin` are not part of this model.
- `formatPrice` and `toDateTime` are not modelled, because they rely on locale formatting and floating-point dates. Price buttons carry the price record rather than their label text.
- Volume is a `real`. The slider's 0.1 steps and its range are not modelled.
- Timing and asynchrony are not modelled. This covers `useDebounce`, responses that arrive after the state they were issued for has changed, and the LikeButton effect re-running when its dependencies change (each run is one call of `FetchLiked`).
- Form validation by `handleSubmit` (the `required` fields) is not modelled: `OnSubmit` receives the submitted values as they are.
- `router.refresh()` is recorded only as the flag `refreshed`. Console logging is not modelled.
- Upload.UploadForm.OnSubmit: does not state that `isLoading` is true while the requests are in flight, because the model has no state between awaits. It states only the value on exit.
- Likes.LikeButton.HandleLike: a rejected request is modelled as escaping the handler with no state change. The resulting unhandled-rejection report is not modelled.
- Subscribe.SubscribeDialog.HandleCheckout: treats `getStripe()` as either loaded or not; a rejected load and the result of the un-awaited redirect are not modelled.
- Presentation components are not modelled. These are the buttons, inputs, boxes, items, pages, layout, providers, the header and the sidebar. Two one-line guards live here: the render guard in `components/Player.tsx` and the header's `player.reset()` on logout. The latter is `Player.PlayerStore.Reset`.
- `components/Player.tsx` renders the controls keyed by the track URL, so each new track starts with a fresh volume and `isPlaying` (`PlayerContent.PlayerControls.constructor`). The remount itself is not modelled.
