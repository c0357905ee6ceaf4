# Push notifications of the Personal Media Manager, in Dafny

This project models the push-notification path of the Personal Media
Manager web application and a few client-side decision rules:

- the broadcast endpoint (`POST /api/pmp/push`), which sends one payload to
  every stored push subscription, counts deliveries, and deletes the
  subscriptions the push service reports as gone (HTTP 410 or 404);
- the registration endpoint (`POST /api/pmp/push/subscribe`), which upserts a
  browser's subscription descriptor into the subscription table, keyed by its
  endpoint;
- the service worker's `push` handler (payload defaults, app badge) and
  `notificationclick` handler (focus the first matching window, else open
  one);
- the app-badge rule (count the projects whose status is "Pending"; set the
  badge to a positive count, clear it otherwise);
- the notifications panel's permission state (`default`, `granted`,
  `denied`, `unsupported`): detection on mount, the permission request, and
  what the panel offers in each state.

Everything outside the code is a parameter: the VAPID keys as read from the
environment, what the store's select returned, whether a store write fails,
the push service's answer to a send (`deliver`), the presence of the
Badging API, `window`, the Notification API and `clients.openWindow`, and
the user's answer to a permission prompt. The subscription table is a
`map` from endpoint to row inside a `Store` class; the broadcaster returns
the list of its side effects (read, sends, batch delete) so that "nothing
was read", "nothing was sent" and "everyone got the same payload" can be
stated.

Modules: `Basics` (shared value types), `SubscriptionStore` (the table),
`PushBroadcast`, `PushSubscribe`, `ServiceWorker`, `BadgeSync`,
`NotificationsPanel`, and `PushPipeline` (what a broadcast looks like once
the service worker shows it).

Points of the code's behaviour worth knowing, as modelled:

- `sent` counts only delivered sends: recipients answering ok, 410, ok, 404,
  500 give `sent = 2` and stale ids 2 and 4
  (`PushBroadcast.MixedOutcomesExample`).
- `staleRemoved` is the number of ids marked stale, even when the batch
  delete fails (`PushBroadcast.Broadcast` with `deleteFails`).
- The panel only asks for permission and fires a local confirmation
  notification; it neither creates a push subscription nor calls the
  registration endpoint.
- A dismissed prompt answers "default", and the panel stays in `default`.

## Model

| member | source | states |
|---|---|---|
| SubscriptionStore.Upserted | app/api/pmp/push/subscribe/route.ts:20-25 | after an upsert the endpoint has exactly one row, holding the new descriptor and the endpoint itself; an existing row keeps its id and device label, a new one gets a fresh id; every other row is unchanged |
| SubscriptionStore.WithoutIds | app/api/pmp/push/route.ts:70-72 | the batch delete removes exactly the rows whose id is listed and keeps every other row as it was |
| SubscriptionStore.UpsertKeepsWellFormed | app/api/pmp/push/subscribe/route.ts:19-25 | an upsert keeps one row per endpoint and distinct ids |
| SubscriptionStore.UpsertTwiceKeepsLatest | app/api/pmp/push/subscribe/route.ts:19-24 | submitting the same endpoint twice leaves the same table as submitting only the later descriptor |
| SubscriptionStore.DeleteKeepsWellFormed | app/api/pmp/push/route.ts:70-72 | the batch delete keeps the table well formed |
| SubscriptionStore.DeleteIdempotent | app/api/pmp/push/route.ts:70-72 | deleting ids already gone changes nothing, so racing broadcasts do no harm |
| SubscriptionStore.Store.Upsert | app/api/pmp/push/subscribe/route.ts:20-25 | a successful upsert sets the table to `Upserted` of the old table; a failing one writes nothing |
| SubscriptionStore.Store.DeleteIdsIn | app/api/pmp/push/route.ts:70-72 | a successful delete sets the table to `WithoutIds` of the old table; a failing one deletes nothing |
| PushBroadcast.Configured | app/api/pmp/push/route.ts:18-21 | the broadcaster is configured exactly when both VAPID keys are present and non-empty |
| PushBroadcast.BuildPayload | app/api/pmp/push/route.ts:28-29 | the payload carries the request's title and message unchanged; its url is the given one, even "", and "/" only when absent |
| PushBroadcast.Gone | app/api/pmp/push/route.ts:60-63 | a send reports its subscription gone exactly when it failed with status 410 or 404; a delivered send never does |
| PushBroadcast.Sends | app/api/pmp/push/route.ts:51-58 | one send per subscription, in order, each carrying the same payload |
| PushBroadcast.StaleIdsExactlyGone | app/api/pmp/push/route.ts:60-64 | an id is marked stale if and only if some recipient with that id answered 410 or 404 |
| PushBroadcast.SentAndStaleWithinTotal | app/api/pmp/push/route.ts:55-74 | sent + staleRemoved <= total, with equality exactly when every failure was a 410 or 404 |
| PushBroadcast.SentCountIgnoresOrder | app/api/pmp/push/route.ts:55-67 | the order in which the concurrent sends settle does not change `sent` |
| PushBroadcast.StaleIdsIgnoreOrder | app/api/pmp/push/route.ts:55-67 | the order in which the sends settle does not change which ids are stale, nor how many |
| PushBroadcast.Classify | app/api/pmp/push/route.ts:51-67 | the per-recipient loop sends the same payload to each subscription, counts exactly the delivered ones and collects exactly the ids answered 410/404 |
| PushBroadcast.SendToAll | app/api/pmp/push/route.ts:51-74 | with at least one subscription: the counts reported, the sends made, and a single batch delete of the stale ids only when there is one |
| PushBroadcast.Broadcast | app/api/pmp/push/route.ts:16-79 | missing or empty VAPID key: 503 with nothing read, sent or deleted; unreadable body: 500; read error: 500 with nothing sent or deleted; no subscriptions: sent 0 and no send; otherwise `{sent, total, staleRemoved}` with url defaulting to "/", and the table loses exactly the stale rows (none if the delete fails, which the response does not reflect) |
| PushBroadcast.MixedOutcomesExample | app/api/pmp/push/route.ts:55-74 | answers ok, 410, ok, 404, 500 give sent = 2 and stale ids [2, 4] |
| PushSubscribe.EndpointOf | app/api/pmp/push/subscribe/route.ts:12-15 | a subscription is accepted exactly when it is present and its endpoint is truthy, and then keyed by that endpoint |
| PushSubscribe.Subscribe | app/api/pmp/push/subscribe/route.ts:10-37 | unreadable body: 500 with its message; missing subscription or falsy endpoint: 400 with no write; store error: 500 "Failed to save subscription" with no write; otherwise `{ok: true}` and the endpoint's row is upserted with the descriptor, other rows untouched |
| ServiceWorker.ReadPushData | public/sw.js:14-19 | no data reads as an empty object, JSON as the parsed message, text that is not JSON as title "New Notification" with the text as body and no url or count; only JSON `null` leaves nothing to read |
| ServiceWorker.OnPush | public/sw.js:13-41 | the handler throws only on a JSON `null` payload; a shown notification always has a non-empty title and url and the app icon; the badge is set only when the Badging API exists |
| ServiceWorker.NoDataShowsDefaults | public/sw.js:14-26 | no push data: title "Personal Media Manager", empty body, url "/", badge untouched |
| ServiceWorker.NotJsonShowsRawText | public/sw.js:15-26 | data that is not JSON: title "New Notification" with the raw text as body, url "/" |
| ServiceWorker.JsonFieldsOrDefaults | public/sw.js:21-38 | each truthy field is used, a falsy one defaulted; the badge is set to `pendingCount` exactly when the API exists and the count is not null |
| ServiceWorker.TargetUrl | public/sw.js:46 | the click target is the notification's truthy url, otherwise "/"; never empty |
| ServiceWorker.Includes | public/sw.js:53 | the empty target is included in every URL; no target is included in a shorter URL, and in a URL of its own length only when equal to it |
| ServiceWorker.IncludesIffOccurs | public/sw.js:53 | `includes` holds exactly when the target occurs at some position of the client URL |
| ServiceWorker.OnNotificationClick | public/sw.js:44-62 | the notification is closed; the first focusable client in whose URL the target occurs is focused, and no earlier one is such a client; with no match a window is opened at the target exactly when `openWindow` exists, otherwise nothing happens |
| ServiceWorker.ClickTargetsShownUrl | public/sw.js:26-46 | clicking a shown notification targets the url it was shown with |
| BadgeSync.CountPending | hooks/use-badge-sync.ts:7-10 | the exact count of "Pending" rows never exceeds the number of rows |
| BadgeSync.CountPendingBounds | hooks/use-badge-sync.ts:7-10 | the pending count is at most the number of rows, 0 exactly when no row is "Pending", and all rows exactly when every row is |
| BadgeSync.FetchPendingCount | hooks/use-badge-sync.ts:6-14 | the count of "Pending" rows; 0 on a query error or a null count |
| BadgeSync.ApplyBadge | hooks/use-badge-sync.ts:16-25 | no call without `navigator` or `setAppBadge`; otherwise set the badge to exactly the count when it is > 0, clear it when it is <= 0 |
| BadgeSync.SyncBadge | hooks/use-badge-sync.ts:28-31 | no call exactly when the Badging API is missing; a badge is only ever set to a positive count of rows actually read; a failed or null read clears the badge |
| BadgeSync.SyncBadgeShowsPending | hooks/use-badge-sync.ts:28-31 | with the Badging API, the badge shows the pending count when a project is pending, and is cleared when none is or the count cannot be read |
| NotificationsPanel.FromBrowser | components/notifications-panel.tsx:28-29 | the browser's answer never puts the panel in `unsupported` |
| NotificationsPanel.AfterRequest | components/notifications-panel.tsx:23-29 | without the Notification API the state is kept; otherwise it is `granted` exactly on a grant, `denied` exactly on a block, and never `unsupported` |
| NotificationsPanel.Label | components/notifications-panel.tsx:42-68 | the status label agrees with the control below it: Enabled with the all-set message, Blocked with the blocked help, Not supported with the unsupported note, Not yet enabled with the Enable button |
| NotificationsPanel.Control | components/notifications-panel.tsx:85-105 | the all-set message, blocked help, unsupported note and Enable button each appear in exactly one state: `granted`, `denied`, `unsupported`, `default` |
| NotificationsPanel.ShowsBlockedButton | components/notifications-panel.tsx:107-112 | the disabled "Blocked by browser" button shows exactly with the blocked help and the "Blocked" label |
| NotificationsPanel.LabelAndControlIdentifyState | components/notifications-panel.tsx:42-105 | Enabled, Blocked, Not supported and Not yet enabled, and the four controls, each belong to exactly one state |
| NotificationsPanel.OffersMatchState | components/notifications-panel.tsx:85-112 | the Enable button is offered exactly in `default`; the disabled "Blocked by browser" control appears exactly in `denied` |
| NotificationsPanel.FirstDecision | components/notifications-panel.tsx:28-29 | the first answer that is not "default", or "default" when there is none |
| NotificationsPanel.DecidedStatesAreFinal | components/notifications-panel.tsx:23-105 | from `granted`, `denied` or `unsupported` no sequence of clicks changes the state; from `default` the first decisive answer settles it, and without the Notification API it stays `default` |
| NotificationsPanel.Panel.constructor | components/notifications-panel.tsx:12 | the panel starts in `default` |
| NotificationsPanel.Panel.Mount | components/notifications-panel.tsx:14-21 | without `window` nothing changes; without the Notification API the state is `unsupported`; otherwise it is the browser's current permission |
| NotificationsPanel.Panel.RequestPermission | components/notifications-panel.tsx:23-40 | without the Notification API the state is unchanged and an error toast shows; otherwise the state is the browser's answer, and the confirmation notification fires exactly when the answer is "granted" |
| PushPipeline.BroadcastShownOnDevice | public/sw.js:14-46 | a broadcast shows the request's title or "Personal Media Manager", its message or an empty body, and its truthy url or "/", leaves the badge alone, and a click targets that url |

## Left out

- The concurrency of `Promise.allSettled`: the sends run as a sequential loop; `SentCountIgnoresOrder` and `StaleIdsIgnoreOrder` show the order does not matter for what is reported or deleted.
- The push service is a total function `deliver` of descriptor and payload: two sends of the same payload to the same descriptor are taken to get the same answer.
- The rows the broadcaster reads are a parameter, not derived from the `Store` table: no transaction links the read and the delete, and concurrent writers may change the table in between.
- Other thrown errors of the broadcast handler (the `web-push` import failing, `setVapidDetails` rejecting malformed keys) are not modelled; only an unreadable request body reaches the 500 catch path.
- A broadcast request whose `url` is `null` rather than absent is not distinguished: both take the default "/" here, while the code sends `null` (which the service worker then replaces with "/").
- JSON fields of the wrong type (a numeric title, a non-string endpoint, a string `pendingCount`) are not modelled; fields are strings or absent.
- JSON serialisation is not modelled: payloads and push data are records.
- `ServiceWorker.OnNotificationClick` returns the action (focus, open, nothing) and a closed flag; the promises of `focus`, `openWindow` and `matchAll` are not modelled.
- `BadgeSync.ApplyBadge` returns the call it makes; a rejected `setAppBadge` or `clearAppBadge` is caught and dropped in the code, and the model has no error channel for it at all.
- The realtime channel and focus listener of `useBadgeSync` (event plumbing), the service worker's install and activate handlers, the vibrate pattern, `requireInteraction` and the unused cache name.
- Toast wording, JSX, CSS classes and icons beyond the notification icon path.
- `app/layout.tsx` (metadata and the registration script) and `lib/supabase.ts` (client construction) are not part of this model.
- `requestPermission` reached without `window` (a ReferenceError in the code) is not modelled: the button that calls it is only rendered in a browser.
