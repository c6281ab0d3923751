# Taka Home mobile client — a Dafny model of its core

Taka Home is a rental marketplace. Its mobile client (React Native,
TypeScript) lists boarding houses and apartments, lets tenants book them, and
turns bookings into contracts with invoices. Tenants pay those invoices from an
in-app wallet or through VNPAY. Users also chat with landlords over a realtime
socket. This project models the client's core logic in Dafny and proves
properties of that model:

- **The contract projector** (`lib/contracts/mappers.ts`). It maps a booking to
  the contract view. It uses the status decision table, takes price and deposit
  from the room type or from the apartment, and defaults every absent field.
- **The contracts hook** (`hooks/use-contracts.ts`). It keeps the relevant
  bookings, projects them, fetches invoices only for active contracts, and
  attaches those invoices to their contracts.
- **The chat socket manager** (`lib/socket/chat-socket.ts`). It is modelled as
  a class with:
  - the connection state (`socket`, `connected`, `isConnecting`);
  - five subscriber sets;
  - a log of emitted events;
  - a log of handler invocations.

  It covers the typing fan-out (one call per typing user, or one blank
  "cleared" event), the emits that are guarded by the connection, and
  subscribe and unsubscribe.
- **The chat context** (`contexts/chat-context.tsx`). It holds the current
  room and the map of typing users, on top of the socket manager.
- **The route permissions** (`lib/auth/roles.ts`) and **the auth guard**
  (`components/auth/AuthGuard.tsx`).
- **The property helpers** (`lib/utils/property-helpers.ts`) and **the
  property detail screen** (`components/properties/PropertyDetailView.tsx`).
- **Payment dates** (`lib/utils/utils.ts`): `dd/mm/yyyy` parsing with the
  day arithmetic of JavaScript's `Date`, and the overdue test.
- **The listing form schema** (`schema/schema.ts`).
- **The API layer**:
  - `lib/api/index.ts`;
  - `lib/api/client.ts`, modelled as interceptors and error normalisation;
  - `lib/utils/error-handler.ts`.
- **The notification and image-upload hooks**
  (`hooks/use-notifications.ts`, `hooks/use-image-upload.ts`).
- **The wallet screen** (`app/wallet/index.tsx`). It sorts the transaction
  history newest first, in place on an array, and maps types and statuses to
  icons, colours and labels.
- **The invoice payment modal** (`components/contracts/InvoicePaymentModal.tsx`).
  It decides the payment, computes the subtotal and settles the payment
  reply.

JavaScript values that the code inspects dynamically are modelled by
`Js.JsValue`. Truthiness, `||` and property access follow JavaScript.
Numbers are integers.

Network replies, the clock, the file reader and the token store are all
parameters of the operations that use them. Each React hook or component
that keeps state becomes a class whose fields are that state. Each
`setState` becomes an assignment.

The contract projector has one decision table for the contract status,
written out in `ContractsMapper.DecideStatus`.

Leaving a room in the chat context:

- `leaveRoom` (`contexts/chat-context.tsx:112-122`) emits the leave request
  for any room id, not only for the room that is currently joined.
- It only clears the current room and the typing map when the room
  matches. `ChatContext.ChatProvider.LeaveRoom` states both halves.

## Model

| member | source | states |
|---|---|---|
| ContractsMapper.StringOr | lib/contracts/mappers.ts:18-22 | an empty or absent string falls back to the default; any other string is kept |
| ContractsMapper.DecideStatus | lib/contracts/mappers.ts:28-51 | for each of the seven view statuses, the exact booking/contract status combinations that produce it, both directions (first match wins, unknown falls back to pending_landlord) |
| ContractsMapper.PriceOf | lib/contracts/mappers.ts:10-12 | boarding bookings take the room type's price, apartments the property's; absent values are 0 |
| ContractsMapper.DepositOf | lib/contracts/mappers.ts:14-16 | boarding bookings take the room type's deposit, apartments the property's; absent values are 0 |
| ContractsMapper.PropertyCodeOf | lib/contracts/mappers.ts:18-22 | never empty; for boarding the room's name; for apartments the unit string or the unit record's name; "N/A" whenever that value is missing or empty |
| ContractsMapper.FurnishingOf | lib/contracts/mappers.ts:24-26 | the room type's furnishing for boarding, the property's for apartments, kept when non-empty; "Chưa có thông tin" when missing or empty |
| ContractsMapper.BookingToContract | lib/contracts/mappers.ts:4-74 | every field of the contract view in terms of the booking: status by the decision table, id from the contract code or the booking id, the fixed contract type, tenant and landlord names, start and end dates ("" without a contract), the address joined with commas, the property code, the furnishing label as property type, the category, the contract code, and an empty invoice list |
| ContractsMapper.UnlistedStatusesFallBack | lib/contracts/mappers.ts:28-51 | statuses outside the table (REJECTED, SETTLEMENT_PENDING) and PENDING_LANDLORD show as pending_landlord |
| ContractsMapper.EscrowAsymmetry | lib/contracts/mappers.ts:43-46 | tenant-funded escrow waits for the landlord's deposit, and landlord-funded escrow waits for the tenant's |
| ContractsMapper.NoContractDefaults | lib/contracts/mappers.ts:33-42 | without a contract, PENDING_SIGNATURE and AWAITING_DEPOSIT both show pending_signature; the id is the booking id and the dates are empty |
| ContractsMapper.ZeroDepositIsZero | lib/contracts/mappers.ts:14-16 | a room-type deposit of 0 gives a deposit of 0, not a missing value |
| UseContracts.RelevantBookings | hooks/use-contracts.ts:25-31 | the kept bookings are a sub-list of the input and all have a relevant status |
| UseContracts.MapContracts | hooks/use-contracts.ts:34-36 | one contract view per kept booking, in order, each its projection |
| UseContracts.ActiveContractIds | hooks/use-contracts.ts:39-41 | at most one id per contract |
| UseContracts.InvoicesMap | hooks/use-contracts.ts:43-60 | an id has an entry exactly when it was requested and its fetch replied with code 200 and data |
| UseContracts.AttachInvoices | hooks/use-contracts.ts:63-66 | the same contracts in the same order, each with the invoices found for its contract id and no other change |
| UseContracts.UserRole | hooks/use-contracts.ts:94 | the user's first role when it is non-empty; TENANT when there is no user, no role list, an empty list or an empty first role; never empty |
| UseContracts.CollectInvoices | hooks/use-contracts.ts:43-60 | the loop builds exactly the map of successful fetches |
| UseContracts.RelevantMembership | hooks/use-contracts.ts:25-31 | a booking is kept exactly when it is in the input and relevant |
| UseContracts.RelevantAppend | hooks/use-contracts.ts:25-31 | filtering distributes over concatenation (the filter is order-preserving) |
| UseContracts.ActiveContractIdsMembership | hooks/use-contracts.ts:39-41 | an id is fetched exactly when some contract is active or dual-escrow-funded with that non-empty contract id |
| UseContracts.OnlyActiveContractsFetch | hooks/use-contracts.ts:25-41 | every fetched invoice id is the contract id of a booking that exists in the reply |
| UseContracts.ViewSource | hooks/use-contracts.ts:34-36 | every contract view comes from one of the kept bookings |
| UseContracts.ActiveViewOfBooking | hooks/use-contracts.ts:39-41 | a view that wants invoices comes from an ACTIVE or DUAL_ESCROW_FUNDED booking with a non-empty contract id |
| UseContracts.AttachedInvoices | hooks/use-contracts.ts:63-66 | after attaching, each contract keeps its position and carries the invoices of its own contract id |
| UseContracts.ActiveContractInvoices | hooks/use-contracts.ts:43-66 | an active contract whose fetch succeeded carries exactly the fetched invoices |
| UseContracts.ContractsHook.constructor | hooks/use-contracts.ts:9-11 | no contracts, loading, no error |
| UseContracts.ContractsHook.FetchContracts | hooks/use-contracts.ts:13-79 | no user: nothing changes; otherwise loading ends and the state is the loaded contracts, the reply's message or the thrown message |
| ChatSocket.BlankTyping | lib/socket/chat-socket.ts:150-167 | the cleared-typing event has an empty user and is not typing |
| ChatSocket.SetAdd | lib/socket/chat-socket.ts:247-250 | adding a handler keeps the set duplicate-free and contains exactly the old handlers plus the new one |
| ChatSocket.SetRemove | lib/socket/chat-socket.ts:247-250 | removing a handler leaves exactly the other handlers |
| ChatSocket.SetRemoveNoDup | lib/socket/chat-socket.ts:247-250 | removal keeps the set duplicate-free |
| ChatSocket.SetAddIdempotent | lib/socket/chat-socket.ts:247-250 | subscribing the same handler twice is the same as once |
| ChatSocket.SetRemoveAbsent | lib/socket/chat-socket.ts:247-250 | removing an absent handler changes nothing |
| ChatSocket.SubscribeUnsubscribe | lib/socket/chat-socket.ts:247-250 | the unsubscribe function undoes its own subscription exactly |
| ChatSocket.SetRemoveAppend | lib/socket/chat-socket.ts:247-250 | removal distributes over concatenation, so other handlers keep their order |
| ChatSocket.Calls | lib/socket/chat-socket.ts:132-134 | one invocation per subscriber, in subscription order, each with the event |
| ChatSocket.PerUserCallsAppend | lib/socket/chat-socket.ts:150-167 | the per-user fan-out of two lists is the fan-out of each in turn |
| ChatSocket.PerUserCallsBlock | lib/socket/chat-socket.ts:150-167 | the calls for the k-th typing user form one contiguous block for all handlers |
| ChatSocket.PerUserCallsLength | lib/socket/chat-socket.ts:150-167 | a typing snapshot causes users × handlers calls |
| ChatSocket.BlankTypingFanOut | lib/socket/chat-socket.ts:150-167 | an empty or missing list gives each handler exactly one blank, not-typing event |
| ChatSocket.ChatSocketManager.constructor | lib/socket/chat-socket.ts:59-65 | no socket, not connected, not connecting, no subscribers, nothing emitted |
| ChatSocket.ChatSocketManager.Connect | lib/socket/chat-socket.ts:70-93 | a no-op while connected or connecting; otherwise a socket exists and it is connecting |
| ChatSocket.ChatSocketManager.Notify | lib/socket/chat-socket.ts:132-134 | appends one invocation per handler |
| ChatSocket.ChatSocketManager.OnTransportConnect | lib/socket/chat-socket.ts:114-118 | connected, no longer connecting, every connect handler called once |
| ChatSocket.ChatSocketManager.OnTransportDisconnect | lib/socket/chat-socket.ts:120-123 | disconnected, every disconnect handler called once |
| ChatSocket.ChatSocketManager.OnTransportConnectError | lib/socket/chat-socket.ts:125-129 | no longer connecting, every error handler called with the message |
| ChatSocket.ChatSocketManager.OnTransportError | lib/socket/chat-socket.ts:182-185 | every error handler called with the message |
| ChatSocket.ChatSocketManager.OnNewMessage | lib/socket/chat-socket.ts:132-134 | every message handler receives the message exactly once |
| ChatSocket.ChatSocketManager.OnUserTyping | lib/socket/chat-socket.ts:150-167 | the invocations are the typing fan-out of the snapshot |
| ChatSocket.ChatSocketManager.JoinRoom | lib/socket/chat-socket.ts:191-197 | emits join-room only while connected |
| ChatSocket.ChatSocketManager.LeaveRoom | lib/socket/chat-socket.ts:202-208 | emits leave-room only while connected |
| ChatSocket.ChatSocketManager.SendMessage | lib/socket/chat-socket.ts:213-219 | throws "Socket not connected" and emits nothing while disconnected; otherwise emits the message |
| ChatSocket.ChatSocketManager.SendTyping | lib/socket/chat-socket.ts:224-230 | emits typing only while connected, never fails |
| ChatSocket.ChatSocketManager.GetOnlineUsers | lib/socket/chat-socket.ts:235-242 | emits the request only while connected |
| ChatSocket.ChatSocketManager.OnMessage | lib/socket/chat-socket.ts:247-250 | adds the handler to the message set |
| ChatSocket.ChatSocketManager.OnTyping | lib/socket/chat-socket.ts:255-258 | adds the handler to the typing set |
| ChatSocket.ChatSocketManager.OnError | lib/socket/chat-socket.ts:263-266 | adds the handler to the error set |
| ChatSocket.ChatSocketManager.OnConnect | lib/socket/chat-socket.ts:271-274 | adds the handler to the connect set |
| ChatSocket.ChatSocketManager.OnDisconnect | lib/socket/chat-socket.ts:279-282 | adds the handler to the disconnect set |
| ChatSocket.ChatSocketManager.Unsubscribe | lib/socket/chat-socket.ts:247-282 | removes the handler from its own set and leaves the other four unchanged |
| ChatSocket.ChatSocketManager.Disconnect | lib/socket/chat-socket.ts:287-293 | safe without a socket; otherwise the socket is gone and the state is disconnected |
| ChatSocket.ChatSocketManager.IsConnected | lib/socket/chat-socket.ts:298-300 | true exactly when a socket exists and is connected |
| ChatContext.EmittedIf | lib/socket/chat-socket.ts:202-208 | an emit happens exactly when connected |
| ChatContext.TypingUpdate | contexts/chat-context.tsx:83-93 | a typing event from another user sets that user's entry, any other event removes it, and other users are untouched |
| ChatContext.TypingEvents | lib/socket/chat-socket.ts:150-167 | a snapshot always produces at least one event |
| ChatContext.SingleHandlerSees | contexts/chat-context.tsx:81-97 | the context's typing handler receives exactly the translated events of a snapshot |
| ChatContext.PerUserSingle | lib/socket/chat-socket.ts:150-167 | with one handler, the calls are the typing users in order |
| ChatContext.OtherUsersUntouched | contexts/chat-context.tsx:83-93 | users that no event mentions keep their entries |
| ChatContext.BlankEventOnlyRemovesEmptyKey | contexts/chat-context.tsx:83-93 | the cleared event only removes the entry with an empty user id, so stale indicators stay |
| ChatContext.OwnUserNeverListed | contexts/chat-context.tsx:83-93 | the signed-in user never appears among the typing users |
| ChatContext.ChatProvider.constructor | contexts/chat-context.tsx:36-40 | not connected, no room, no typing users |
| ChatContext.ChatProvider.ConnectIfAuthenticated | contexts/chat-context.tsx:43-61 | connects only with an authenticated user and a token |
| ChatContext.ChatProvider.HandleConnect | contexts/chat-context.tsx:64-78 | the context becomes connected |
| ChatContext.ChatProvider.HandleDisconnect | contexts/chat-context.tsx:64-78 | the context becomes disconnected |
| ChatContext.ChatProvider.HandleTyping | contexts/chat-context.tsx:81-97 | the typing map is updated by one event |
| ChatContext.ChatProvider.HandleTypingDelivery | contexts/chat-context.tsx:81-97 | the typing map is updated by every event of a snapshot, in order |
| ChatContext.ChatProvider.JoinRoom | contexts/chat-context.tsx:99-110 | leaves a different current room first, joins, and resets the typing map |
| ChatContext.ChatProvider.LeaveRoom | contexts/chat-context.tsx:112-122 | always emits leave; clears the room and the typing map only for the current room |
| ChatContext.ChatProvider.SendTyping | contexts/chat-context.tsx:124-131 | emits typing for the current room, nothing without one |
| Roles.FindRoute | lib/auth/roles.ts:89-91 | the first table entry whose key equals the path or is a "/"-bounded prefix of it; none exactly when no entry matches |
| Roles.FindRouteFrom | lib/auth/roles.ts:89-91 | the search from position i finds the first match at or after i |
| Roles.HasRoutePermission | lib/auth/roles.ts:80-119 | an unconfigured path is allowed without authentication; a configured one reports its `requireAuth`; without roles it is allowed exactly when authentication is not required, and redirects to the entry's configured redirect, "/signin" when it has none; with roles it is allowed exactly when one of them is among the entry's roles, with no redirect when allowed and otherwise the entry's configured redirect, "/" when it has none |
| Roles.HasRole | lib/auth/roles.ts:124-130 | true exactly when the user has the role |
| Roles.HasAnyRole | lib/auth/roles.ts:135-141 | true exactly when the user has one of the roles |
| Roles.IsAdmin | lib/auth/roles.ts:146-148 | true exactly when the user is an admin |
| Roles.IsLandlord | lib/auth/roles.ts:153-155 | true exactly when the user is a landlord |
| Roles.IsTenant | lib/auth/roles.ts:160-162 | true exactly when the user is a tenant |
| Roles.AllRoutesRequireAuth | lib/auth/roles.ts:17-75 | every configured route requires authentication |
| Roles.UnauthenticatedDenied | lib/auth/roles.ts:101-107 | without roles, every configured path is denied and redirects to the entry's configured redirect; an unconfigured path is allowed |
| Roles.PermittedIffRoleAllowed | lib/auth/roles.ts:110-118 | a user with roles is allowed exactly when one of the roles is allowed |
| Roles.SegmentMatching | lib/auth/roles.ts:89-91 | "/contracts-x" is not governed by "/contracts", while "/contracts/12" is |
| Roles.SiblingPathUngoverned | lib/auth/roles.ts:89-91 | no entry matches "/contracts-x" |
| Roles.SubPathGoverned | lib/auth/roles.ts:89-91 | "/contracts/12" is governed by the "/contracts" entry |
| Roles.TenantDeniedLandlordRoutes | lib/auth/roles.ts:17-75 | a tenant is sent home from the landlord's property pages |
| AuthGuard.RedirectFor | components/auth/AuthGuard.tsx:16-28 | no redirect while loading; sign-in exactly for a signed-out user outside the auth group; tabs exactly for a signed-in user inside it |
| AuthGuard.ShowsSpinner | components/auth/AuthGuard.tsx:31-37 | the spinner is shown exactly while loading |
| AuthGuard.SpinnerHoldsNavigation | components/auth/AuthGuard.tsx:16-37 | while the spinner shows the guard never redirects; once it is gone, it redirects exactly when a signed-in user is inside the auth group or a signed-out user is outside it |
| AuthGuard.Target | components/auth/AuthGuard.tsx:21-27 | the sign-in target is inside the auth group, the tabs target outside |
| AuthGuard.RedirectSettles | components/auth/AuthGuard.tsx:16-28 | after a redirect the guard does not redirect again |
| AuthGuard.GuardEstablishes | components/auth/AuthGuard.tsx:16-28 | after the guard acts, the user is in the auth group exactly when signed out |
| PropertyHelpers.OrElse | lib/utils/property-helpers.ts:125-130 | a present non-empty string is kept, otherwise the default |
| PropertyHelpers.GetPropertyId | lib/utils/property-helpers.ts:63-68 | room types give their parent's id, properties their own |
| PropertyHelpers.GetDisplayId | lib/utils/property-helpers.ts:86-91 | the listing's own id |
| PropertyHelpers.GetPropertyType | lib/utils/property-helpers.ts:96-100 | "boarding" exactly for room types, "apartment" exactly otherwise |
| PropertyHelpers.GetPropertyLocation | lib/utils/property-helpers.ts:125-130 | the parent's address for room types, the listing's own address joined with commas otherwise |
| PropertyHelpers.GetPropertyImage | lib/utils/property-helpers.ts:135-145 | never empty; the first non-empty of the hero image, the first image, (properties only) the first gallery entry; else the default image |
| PropertyHelpers.GetPropertyDetails | lib/utils/property-helpers.ts:172-192 | room types report their own figures; properties report every figure, each missing one as 0, and the furnishing, missing as "" |
| PropertyHelpers.DetailsDefaultsOnlyFillGaps | lib/utils/property-helpers.ts:172-192 | on a listing that carries every figure both shapes report exactly those figures; for a property, feeding its details back in gives the same details |
| PropertyHelpers.GetUpdatedDate | lib/utils/property-helpers.ts:207-213 | the property's update date, "" for room types or when absent |
| PropertyHelpers.GetPropertyImages | lib/utils/property-helpers.ts:150-167 | the hero image first, then the images, or failing those (properties only) the gallery, each in order; every element comes from one of them and the count is their sum |
| PropertyHelpers.IsRoomType | lib/utils/property-helpers.ts:47-49 | a room type has a parent and is never a property; a `type` key or a missing `rooms` key rules it out |
| PropertyHelpers.IsProperty | lib/utils/property-helpers.ts:54-56 | a property has no parent; without a `type` key nothing is a property |
| PropertyHelpers.GuardsExclusive | lib/utils/property-helpers.ts:47-56 | no listing is both a room type and a property |
| PropertyHelpers.ThumbnailIsFirstImage | lib/utils/property-helpers.ts:135-167 | for any listing, the thumbnail is the image list's first entry exactly when that entry is non-empty, and the default image when the list is empty |
| PropertyHelpers.EmptyFirstImageSkipsToGallery | lib/utils/property-helpers.ts:135-167 | a property whose only image is "" shows its gallery's first entry, while its image list is just [""] |
| DateUtils.MatchDmy | lib/utils/utils.ts:9-10 | matches exactly the ten-character strings of two digits, "/", two digits, "/", four digits, capturing the three fields' decimal values |
| DateUtils.ParseDateString | lib/utils/utils.ts:7-21 | a dd/mm/yyyy string gives local midnight of that day (month 1-based); any other string falls back to the native parse |
| DateUtils.IsPaymentOverdue | lib/utils/utils.ts:26-48 | PAID is never overdue, OVERDUE always; otherwise overdue exactly when a valid due date lies before today's midnight |
| DateUtils.NextDay | lib/utils/utils.ts:17 | the next day number is one more, whatever the month length |
| DateUtils.SplitDmy | lib/utils/utils.ts:9-10 | the fields of a built dd/mm/yyyy string are where the pattern expects them |
| DateUtils.ParsesDigits | lib/utils/utils.ts:9-15 | any two/two/four-digit string matches, with the fields' decimal values |
| DateUtils.DueTodayNotOverdue | lib/utils/utils.ts:44-47 | a payment due today is not overdue |
| DateUtils.DueYesterdayOverdue | lib/utils/utils.ts:44-47 | a payment due yesterday is overdue |
| DateUtils.GarbageNotOverdue | lib/utils/utils.ts:38-42 | an unparsable due date is not overdue |
| DateUtils.CarryOverYear | lib/utils/utils.ts:17 | month 13 of a year is January of the next, and day 0 is the previous month's last day |
| DateUtils.CarryOverDay | lib/utils/utils.ts:17 | 31 February 2025 is 3 March 2025 |
| DateUtils.Epoch | lib/utils/utils.ts:17 | 1 January 1970 is day 0 |
| Js.Utf16Length | schema/schema.ts:53-56 | a string's JavaScript length lies between its character count and twice that; it equals the count for text inside the Basic Multilingual Plane and is twice the count for text made only of characters outside it |
| Schema.RoomTypeValid | schema/schema.ts:38-49 | a valid room type has a name, an area above 0, a non-negative price, a count of at least 1 and at most 8 images; a missing name, an area below 0.1, a count below 1 or more than 8 images is rejected |
| Schema.FormFieldsValid | schema/schema.ts:51-98 | a valid object part has a 1-100 character title, the address fields filled, a listing kind, at most 8 gallery images, a description of at most 1500 characters and valid room types; a title over 100 UTF-16 code units is rejected |
| Schema.ApartmentRefine | schema/schema.ts:99-116 | any kind but an apartment passes; an apartment passes only with an area above 0 and a price |
| Schema.FormValid | schema/schema.ts:51-116 | a valid form passes the object part and has a listing kind; failing the object part fails the form |
| Schema.ApartmentNeedsAreaAndPrice | schema/schema.ts:99-116 | a valid apartment form has a positive area and a non-negative price; a valid boarding form stays valid with its area and price removed |
| Schema.RefineOnlyForApartments | schema/schema.ts:99-116 | for any kind but an apartment the form is valid exactly when its object part is; an apartment additionally needs the area and price |
| Schema.FreeFieldsIrrelevant | schema/schema.ts:63-93 | block, floor, unit, floor plan, furnishing, legal document and hero image never change the verdict |
| Schema.EmojiTitleTooLong | schema/schema.ts:53-56 | a 60-emoji title is rejected, being 120 UTF-16 code units long |
| Schema.FormBounds | schema/schema.ts:51-98 | a valid form has a title of 1-100 characters, the address fields filled, a description of at most 1500 characters, at most 8 gallery images and valid room types |
| Schema.MissingAreaRejected | schema/schema.ts:99-116 | an apartment without an area is rejected even when every field is valid |
| Schema.RoomTypeAreaFloor | schema/schema.ts:38-49 | a room type smaller than 0.1 is rejected |
| ApiIndex.HandleApiError | lib/api/index.ts:26-36 | the error's message when it has one, the error itself when it is a string, else the generic message |
| ApiIndex.EmptyMessagesPassThrough | lib/api/index.ts:26-36 | an empty message or string is returned as is; a plain object gets the generic message |
| ApiIndex.FormatApiResponse | lib/api/index.ts:41-57 | success, data and message follow JavaScript's `||` fallbacks |
| ApiIndex.FormatDefaults | lib/api/index.ts:41-57 | a non-object response is unsuccessful with no data and "Unknown error"; falsy data becomes null |
| ApiIndex.BuildQueryParams | lib/api/index.ts:62-76 | the loop builds exactly the specified query pairs |
| ApiIndex.QueryPairsSnoc | lib/api/index.ts:62-76 | each entry appends its own pairs after the earlier ones |
| ApiIndex.QueryPairsAppend | lib/api/index.ts:62-76 | the pairs of two parameter lists are those of each in turn |
| ApiIndex.SkippedEntryDropped | lib/api/index.ts:65-66 | an undefined, null or empty-string value adds nothing to the query |
| ApiIndex.SkippedSingleEmpty | lib/api/index.ts:65-66 | a single skipped entry gives no pairs |
| ApiIndex.PairsComeFromKeptEntries | lib/api/index.ts:62-76 | every query key belongs to an entry that was not skipped |
| ApiIndex.ArrayExpansion | lib/api/index.ts:67-69 | an array value adds one pair per element, each element as its string form |
| ApiIndex.ValidateFileUpload | lib/api/index.ts:81-116 | too large when over the limit (10 MiB by default), then unsupported when the type is not allowed, else valid |
| ApiIndex.UploadDefaults | lib/api/index.ts:81-116 | the default limit is inclusive, size is checked before type, and "image/jpg" is not a default type |
| ApiIndex.FormatArea | lib/api/index.ts:131-133 | the area's decimal digits, without leading zeros, followed by " m²"; a negative area gets a leading "-" |
| ApiClient.TransformResponse | lib/api/client.ts:120-134 | an envelope passes through unchanged; anything else is wrapped with the status; the result is always an envelope |
| ApiClient.TransformIdempotent | lib/api/client.ts:120-134 | transforming twice is the same as once |
| ApiClient.ErrorCode | lib/api/client.ts:139-169 | the body's code when it has one, else the HTTP status as a string; never empty |
| ApiClient.HandleError | lib/api/client.ts:139-169 | a response keeps its status and data; a request without a response has status 0 and the network message; otherwise the request-setup message |
| ApiClient.Settle | lib/api/client.ts:174-188 | a failed request rejects with the normalised error; a reply with a body resolves with the transformed body; a reply without one rejects |
| ApiClient.SettleShape | lib/api/client.ts:174-188 | a resolution is always an envelope; a rejection always has a non-empty code, and status 0 exactly when no response came back |
| ApiClient.ServerErrorFallbacks | lib/api/client.ts:139-169 | a 500 without a body uses axios's message and the code "500"; a numeric body code wins |
| ApiClient.RequestConfig.constructor | lib/api/client.ts:42-57 | the request starts with the given headers |
| ApiClient.RequestConfig.Intercept | lib/api/client.ts:42-57 | a non-empty token sets the bearer header; form data drops Content-Type; no other header changes |
| ApiClient.Client.constructor | lib/api/client.ts:25-36 | the instance sends JSON and has no common headers |
| ApiClient.Client.SetAuthToken | lib/api/client.ts:104-108 | the common headers gain the bearer token and nothing else changes |
| ApiClient.Client.RemoveAuthToken | lib/api/client.ts:113-115 | the common headers lose only the Authorization header |
| ApiClient.SetThenRemove | lib/api/client.ts:104-115 | setting and then removing the token restores the headers without Authorization |
| ErrorHandler.GetApiErrorMessage | lib/utils/error-handler.ts:14-33 | the fallback for a falsy error, the message when truthy or when the error is an Error, else the fallback |
| ErrorHandler.EmptyErrorMessageWins | lib/utils/error-handler.ts:14-33 | an Error with an empty message returns "" rather than the fallback; a bare string gets the fallback |
| ErrorHandler.IsApiError | lib/utils/error-handler.ts:38-45 | exactly the non-null objects that have both message and status |
| ErrorHandler.GetErrorStatus | lib/utils/error-handler.ts:50-55 | the status of an API error, undefined otherwise |
| ErrorHandler.IsValidationError | lib/utils/error-handler.ts:60-62 | exactly the API errors with status 400 |
| ErrorHandler.IsUnauthorizedError | lib/utils/error-handler.ts:67-69 | exactly the API errors with status 401 |
| ErrorHandler.IsForbiddenError | lib/utils/error-handler.ts:74-76 | exactly the API errors with status 403 |
| ErrorHandler.IsNotFoundError | lib/utils/error-handler.ts:81-83 | exactly the API errors with status 404 |
| ErrorHandler.IsConflictError | lib/utils/error-handler.ts:88-90 | exactly the API errors with status 409 |
| ErrorHandler.AtMostOneStatus | lib/utils/error-handler.ts:60-90 | an error falls in at most one status class |
| ErrorHandler.ThrownValue | lib/api/client.ts:139-169 | the client rejects with a plain object, not an Error |
| ErrorHandler.ClientErrorsClassified | lib/utils/error-handler.ts:38-90 | every error the client rejects with is an API error, classified by its HTTP status |
| ErrorHandler.ClientErrorMessageShown | lib/utils/error-handler.ts:14-33 | the message of a client error is what the user sees |
| Notifications.PendingCount | hooks/use-notifications.ts:40-42 | at most the list length; zero exactly when every notification is completed |
| Notifications.MarkCompleted | hooks/use-notifications.ts:66-83 | the notifications with the id become completed and the others are unchanged, in place |
| Notifications.MarkAllCompleted | hooks/use-notifications.ts:86-106 | every notification becomes completed, in place |
| Notifications.DeleteById | hooks/use-notifications.ts:109-120 | deletion never lengthens the list |
| Notifications.DeleteMembership | hooks/use-notifications.ts:109-120 | a notification remains exactly when it was there and has another id |
| Notifications.MarkCompletedIdempotent | hooks/use-notifications.ts:66-83 | marking twice is the same as once |
| Notifications.MarkAllClearsPending | hooks/use-notifications.ts:86-106 | afterwards, nothing is pending |
| Notifications.MarkCompletedCount | hooks/use-notifications.ts:40-42 | marking lowers the pending count by exactly the pending notifications with that id |
| Notifications.PendingWithId | hooks/use-notifications.ts:40-42 | the pending notifications with an id are among all pending ones |
| Notifications.DeleteAppend | hooks/use-notifications.ts:109-120 | deletion keeps the order of the survivors |
| Notifications.DeleteIdempotent | hooks/use-notifications.ts:109-120 | deleting twice is the same as once |
| Notifications.DeleteAbsent | hooks/use-notifications.ts:109-120 | deleting an absent id changes nothing |
| Notifications.ThrownMessage | hooks/use-notifications.ts:56-59 | an Error's message, otherwise the screen's default text |
| Notifications.NotificationsHook.constructor | hooks/use-notifications.ts:33-37 | no notifications, not loading, no error |
| Notifications.NotificationsHook.FetchNotifications | hooks/use-notifications.ts:45-63 | without a user nothing changes; otherwise loading ends with the list, the reply's message or the thrown message |
| Notifications.NotificationsHook.MarkAsCompleted | hooks/use-notifications.ts:66-83 | on code 200 the list is marked; a failed reply changes nothing; a throw records the error |
| Notifications.NotificationsHook.MarkAllAsCompleted | hooks/use-notifications.ts:86-106 | without a user nothing changes; on 200 all are completed; a throw records the error |
| Notifications.NotificationsHook.DeleteNotification | hooks/use-notifications.ts:109-120 | on 200 the notification is removed; a failed reply changes nothing; a throw records the error |
| ImageUpload.ValidationError | hooks/use-image-upload.ts:27-40 | wrong type first, then over 5 MiB; none exactly for an accepted type within the limit |
| ImageUpload.UploadResult | hooks/use-image-upload.ts:21-73 | refused files give null; a failed read rejects; otherwise the response describes the file and carries its data URL |
| ImageUpload.ValidationBoundaries | hooks/use-image-upload.ts:27-40 | exactly 5 MiB passes, one byte more fails, and GIF is refused at any size |
| ImageUpload.AcceptedResponses | hooks/use-image-upload.ts:75-81 | the kept responses never outnumber the uploads |
| ImageUpload.AcceptedMembership | hooks/use-image-upload.ts:75-81 | a response is kept exactly when some upload produced it |
| ImageUpload.Outcomes | hooks/use-image-upload.ts:75-81 | one upload result per file, in order |
| ImageUpload.ImageUploadHook.constructor | hooks/use-image-upload.ts:18-19 | not uploading, no error |
| ImageUpload.ImageUploadHook.UploadImage | hooks/use-image-upload.ts:21-73 | the result is the upload result; the error is the validation message; uploading ends |
| ImageUpload.ImageUploadHook.UploadMultiple | hooks/use-image-upload.ts:75-81 | rejects when any read fails; otherwise resolves with the non-null results in file order; the error is the last file's |
| ImageUpload.AllValidAllKept | hooks/use-image-upload.ts:75-81 | when every file passes, one response per file, each naming its own file |
| PropertyDetail.GetImages | components/properties/PropertyDetailView.tsx:66-82 | never empty; the collected images, or the placeholder alone; the hero image first |
| PropertyDetail.HiddenRoomNames | components/properties/PropertyDetailView.tsx:98-106 | exactly the names of the rooms that are not visible |
| PropertyDetail.GetUnits | components/properties/PropertyDetailView.tsx:98-106 | the free rooms of a room type, or the apartment's unit, or none |
| PropertyDetail.IsRented | components/properties/PropertyDetailView.tsx:163-165 | a room type is rented exactly when all its rooms are visible; an apartment exactly when it is visible |
| PropertyDetail.RentedIffNoUnits | components/properties/PropertyDetailView.tsx:98-165 | a room type is rented exactly when it offers no unit |
| PropertyDetail.GetPropertyId | components/properties/PropertyDetailView.tsx:108-113 | a room type gives its first room's parent id, or "" when that parent or its id is missing or empty; anything else gives its own id, or "" when missing or empty |
| PropertyDetail.GetLandlordId | components/properties/PropertyDetailView.tsx:91-96 | the parent's landlord for room types, the property's otherwise |
| PropertyDetail.GetTimeAgo | components/properties/PropertyDetailView.tsx:196-214 | "Không rõ" without a date, the NaN text for an invalid one, otherwise "just updated", hours, days, or the dd/mm/yyyy date, by the age |
| PropertyDetail.TimeAgoBands | components/properties/PropertyDetailView.tsx:196-214 | the hour band shows 1-23 hours and the day band 1-6 days |
| PropertyDetail.PaddedRoundTrip | components/properties/PropertyDetailView.tsx:196-214 | a padded two-digit field reads back as its number |
| PropertyDetail.FormattedDateParses | components/properties/PropertyDetailView.tsx:196-214 | the shown date is a dd/mm/yyyy string that parses back to the same day |
| PropertyDetail.NextIndex | components/properties/PropertyDetailView.tsx:258-261 | the next index wraps to 0 and stays in range |
| PropertyDetail.PrevIndex | components/properties/PropertyDetailView.tsx:263-268 | the previous index wraps to the last and stays in range |
| PropertyDetail.NextPrevInverse | components/properties/PropertyDetailView.tsx:258-268 | next and previous undo each other |
| PropertyDetail.FindRoomId | components/properties/PropertyDetailView.tsx:243-247 | the id of the first room with the name; none exactly when no room has it |
| PropertyDetail.DetailScreen.constructor | components/properties/PropertyDetailView.tsx:53-55 | the first image, no selected unit |
| PropertyDetail.DetailScreen.NextImage | components/properties/PropertyDetailView.tsx:258-261 | with more than one image, moves forward with wrap-around; otherwise nothing changes |
| PropertyDetail.DetailScreen.PrevImage | components/properties/PropertyDetailView.tsx:263-268 | with more than one image, moves back with wrap-around; otherwise nothing changes |
| PropertyDetail.DetailScreen.SelectUnit | components/properties/PropertyDetailView.tsx:498 | the selected unit is the tapped one |
| PropertyDetail.DetailScreen.HandleCreateBooking | components/properties/PropertyDetailView.tsx:227-256 | nothing without a landlord; an alert for boarding without a unit; otherwise a booking with the room found by name, and the selection is cleared once the booking call succeeds |
| PropertyDetail.OfferedUnitFindsRoom | components/properties/PropertyDetailView.tsx:243-247 | a unit offered by the screen always finds its room |
| Wallet.SortNewestFirst | app/wallet/index.tsx:46-50 | the array ends sorted newest first and is a permutation of the original |
| Wallet.Swapped | app/wallet/index.tsx:46-50 | a swap exchanges two neighbours and leaves the rest |
| Wallet.SwapKeepsElements | app/wallet/index.tsx:46-50 | a swap keeps the same transactions |
| Wallet.SwapKeepsSortedAround | app/wallet/index.tsx:46-50 | swapping a newer transaction forward keeps the prefix sorted around the gap |
| Wallet.SettledIsSorted | app/wallet/index.tsx:46-50 | once the inserted transaction is in place, the prefix is sorted |
| Wallet.InsertAt | app/wallet/index.tsx:46-50 | inserting one more transaction into a sorted prefix keeps it sorted and keeps the elements |
| Wallet.NewestIsFirst | app/wallet/index.tsx:46-50 | the first transaction of the sorted history is the newest |
| Wallet.LowerOpt | app/wallet/index.tsx:105-162 | lower-cases the ASCII letters of a present value and keeps an absent one |
| Wallet.TransactionIcon | app/wallet/index.tsx:105-118 | each of deposit, withdraw, payment and refund gets its own icon, anything else the default, ignoring case |
| Wallet.TransactionColor | app/wallet/index.tsx:120-131 | green exactly for deposit and refund, red exactly for withdraw and payment, otherwise grey |
| Wallet.StatusColor | app/wallet/index.tsx:133-146 | green for completed or success, orange for pending, red for failed or cancelled, otherwise grey |
| Wallet.StatusText | app/wallet/index.tsx:148-162 | the Vietnamese label of each known status, otherwise the raw status |
| Wallet.BackendStatusesLabelled | app/wallet/index.tsx:148-162 | the backend's upper-case statuses get their labels |
| Wallet.AmountSign | app/wallet/index.tsx:304-307 | "-" exactly for withdraw and payment, otherwise "+" |
| Wallet.BackendTypesNeverNegative | app/wallet/index.tsx:304-307 | the backend's types TOPUP, CONTRACT_PAYMENT and REFUND always show "+", even a debit |
| Wallet.AmountSignByDirection | app/wallet/index.tsx:304-307 | "-" exactly for debits |
| Wallet.DirectionSignDistinguishes | app/wallet/index.tsx:304-307 | debits show "-" and credits "+" |
| Wallet.ScreenBalance | app/wallet/index.tsx:30-35 | the screen's `balance` is always undefined |
| Wallet.ShownBalance | app/wallet/index.tsx:227 | the shown figure is the balance, or 0 when absent |
| Wallet.BalanceCardShowsZero | app/wallet/index.tsx:30-35 | the balance card always shows 0 |
| Wallet.CorrectedBalance | hooks/use-wallet.ts:83-89 | the balance is the hook's wallet figure |
| Wallet.CorrectedBalanceShown | hooks/use-wallet.ts:83-89 | with that figure, the card shows the real balance |
| Wallet.ScreenRefreshBalance | app/wallet/index.tsx:30-35 | the screen's `refreshBalance` is always undefined |
| Wallet.OnRefresh | app/wallet/index.tsx:76-85 | nothing is refetched when `refreshBalance` is undefined; both are refetched otherwise |
| Wallet.RefreshRefetchesNothing | app/wallet/index.tsx:76-85 | pull-to-refresh and retry refetch nothing |
| Wallet.OnRefreshCorrected | hooks/use-wallet.ts:83-89 | with the hook's refetch, both the balance and the history are refetched |
| Wallet.ShowErrorView | app/wallet/index.tsx:174 | the error view shows exactly when either error is a non-empty message |
| Wallet.WalletScreen.constructor | app/wallet/index.tsx:24-28 | no transactions, not loading, no error |
| Wallet.WalletScreen.FetchTransactions | app/wallet/index.tsx:38-65 | on success the history is the reply's transactions sorted newest first; a failed reply or a throw sets the message; loading ends; with no balance error, the error view then shows exactly after a failure other than a thrown error with an empty message |
| InvoicePayment.HandlePayment | components/contracts/InvoicePaymentModal.tsx:64-100 | nothing without an invoice; VNPAY proceeds directly; the wallet refuses a falsy or insufficient balance and otherwise confirms with the balance after payment |
| InvoicePayment.WalletNeedsCover | components/contracts/InvoicePaymentModal.tsx:68-95 | a wallet confirmation needs a balance that covers the total; VNPAY does not depend on the balance |
| InvoicePayment.ShowsInsufficientHint | components/contracts/InvoicePaymentModal.tsx:371 | the hint shows exactly for a truthy balance below the total |
| InvoicePayment.HintImpliesRefusal | components/contracts/InvoicePaymentModal.tsx:68-79 | a shown hint means the wallet refuses; an undefined balance refuses without a hint |
| InvoicePayment.WalletPaymentAlwaysRefused | components/contracts/InvoicePaymentModal.tsx:37 | with the modal's balance, wallet payment is always refused |
| InvoicePayment.CorrectedBalanceConfirms | hooks/use-wallet.ts:83-89 | with the wallet's real balance, a covered invoice reaches the confirmation |
| InvoicePayment.ItemsSumAppend | components/contracts/InvoicePaymentModal.tsx:321-324 | the sum of two item lists is the sum of each |
| InvoicePayment.ItemsSumBounds | components/contracts/InvoicePaymentModal.tsx:321-324 | with non-negative items, each item is at most the sum |
| InvoicePayment.ItemsSumNonNegative | components/contracts/InvoicePaymentModal.tsx:321-324 | non-negative items give a non-negative sum |
| InvoicePayment.Subtotal | components/contracts/InvoicePaymentModal.tsx:316-327 | the subtotal row shows exactly for more than one item, with the items' sum |
| InvoicePayment.SubtotalOfTwo | components/contracts/InvoicePaymentModal.tsx:316-327 | two items give their sum |
| InvoicePayment.ShowsPaymentMethods | components/contracts/InvoicePaymentModal.tsx:340 | the methods are offered exactly for unpaid invoices |
| InvoicePayment.ShowsActions | components/contracts/InvoicePaymentModal.tsx:440 | the buttons show exactly for a loaded, unpaid invoice |
| InvoicePayment.PaidHidesPayment | components/contracts/InvoicePaymentModal.tsx:340-440 | an invoice is paid exactly when both the methods and the buttons are hidden |
| InvoicePayment.PaymentOutcome | components/contracts/InvoicePaymentModal.tsx:102-178 | wallet success exactly on code 200 with data, for the invoice's total; a VNPAY redirect only with a non-empty URL; otherwise the reply's or the thrown message and code |
| InvoicePayment.InvoiceModal.constructor | components/contracts/InvoicePaymentModal.tsx:30-35 | no invoice, not loading, the wallet selected |
| InvoicePayment.InvoiceModal.LoadInvoiceDetail | components/contracts/InvoicePaymentModal.tsx:45-62 | stores the invoice on success, otherwise closes with the error; loading ends |
| InvoicePayment.InvoiceModal.SelectMethod | components/contracts/InvoicePaymentModal.tsx:33-35 | the selected method is the tapped one |
| InvoicePayment.InvoiceModal.Pay | components/contracts/InvoicePaymentModal.tsx:64-100 | the decision for the loaded invoice and the selected method; only the wallet can refuse |
| InvoicePayment.InvoiceModal.ProcessPayment | components/contracts/InvoicePaymentModal.tsx:102-178 | nothing without an invoice; otherwise the outcome of the reply, and payment loading ends |
| InvoicePayment.SwitchToVnPayProceeds | components/contracts/InvoicePaymentModal.tsx:64-100 | a refused wallet payment can always proceed through VNPAY |

## Left out

- Floating point: prices, areas and amounts are integers, and `parseFloat` of a deposit string is given as its result. NaN only appears where the code tests for it.
- Number formatting: `toFixed`, `toLocaleString` and the `Intl` currency formatter (`formatCurrency`, `formatBalance`, the invoice modal's `formatDate`) are left out. `FormatArea` shows integer areas only.
- URL encoding in `buildQueryParams`: the model yields the key/value pairs before `URLSearchParams` encodes them.
- The clock and the native `Date` parser are parameters: `today`, `nowMs`, and the `native` parse of strings that are not dd/mm/yyyy.
- The 401 handling of the response interceptor is not modelled. It clears `localStorage` and redirects the browser.
- The token store is not modelled. That covers `localStorage` in the request interceptor and AsyncStorage in `getToken` of the chat socket. The token is a parameter.
- Socket.IO transport options (reconnection attempts, delays, namespace URL) are passed through and not modelled. So are `getSocketId`, the room-joined, peer-presence and online/offline events, and the `useChat` outside-provider error.
- Timers are left out: the typing debounce of callers, the notifications' and wallet's auto-refresh intervals, and the `refreshing` spinner flags of the wallet screen.
- Zod's `coerce` and `default` are left out. The schema model checks values that are already coerced.
- Wallet.SortNewestFirst: an insertion sort, not the engine's `Array.prototype.sort`. Both give a newest-first permutation. The order among equal timestamps (stability) is not modelled. Unparsable dates (NaN keys) are excluded because keys are integers.
- ImageUpload.UploadResult: the `catch` in `uploadImage` cannot be reached because the promise is returned without `await`, so it is not modelled.
- `Promise.all` timing is not modelled. The uploads and invoice fetches are sequenced in input order, which matches the order of their results.
- React batching and stale state closures are not modelled. Each `setState` is an assignment that takes effect at once.
- Alert dialogs and navigation are not modelled. The model returns which dialog or action results (`BookingAction`, `PaymentDecision`) rather than its texts and buttons. The VNPAY redirect, still a TODO in the code, is the `VnPayRedirect` outcome.
- The invoice modal's status badge colours and date formatting are presentation only and are not modelled.
- Wallet.LowerOpt: folds only the ASCII letters A-Z, where `toLowerCase()` folds all of Unicode. The icon, colour and label results are unaffected, because the only non-ASCII character that folds into ASCII is the Kelvin sign (to 'k'), and no compared keyword contains 'k'.
- Wallet.OnRefreshCorrected: it states only what is refetched once the hook's `refetch` is used. It does not state the timing of the two requests.

## Findings

| source | as written | input that shows it | evidently intended | confidence | as-written member | corrected member |
|---|---|---|---|---|---|---|
| components/contracts/InvoicePaymentModal.tsx:37 | `balance` is read from `useWallet()`, which returns no `balance`, so it is always undefined and the wallet branch always shows the insufficient-funds alert | any invoice with method WALLET and a wallet holding 1,000,000 for a 100,000 invoice | use the hook's `wallet` balance; the success alert's buttons (lines 125 and 134) also call the undefined `refreshBalance()` from the same destructuring, so a complete fix also replaces those calls with the hook's `refetch`, or `onPaymentSuccess` and `onClose` never run (alerts are not modelled) | high (not executed) | InvoicePayment.WalletPaymentAlwaysRefused | InvoicePayment.CorrectedBalanceConfirms |
| app/wallet/index.tsx:30-35,227 | the screen destructures `balance` from `useWallet()`, which returns `wallet`, so the card shows `balance \|\| 0`, always 0 | a wallet holding 500,000 | show the hook's `wallet` figure | high (not executed) | Wallet.BalanceCardShowsZero | Wallet.CorrectedBalanceShown |
| app/wallet/index.tsx:304-307 | the sign is "-" only for the types "withdraw" and "payment", which the backend never sends (it sends TOPUP, CONTRACT_PAYMENT, REFUND), so payments show "+" | a CONTRACT_PAYMENT transaction with direction DEBIT | sign by the transaction's direction | medium (not executed) | Wallet.BackendTypesNeverNegative | Wallet.AmountSignByDirection |
| app/wallet/index.tsx:79 | `refreshBalance` is not returned by `useWallet()`, so calling it throws before `refreshTransactions` runs, and the surrounding `catch` hides the error | any pull-to-refresh or retry on the wallet screen | call the hook's `refetch` and then refetch the history | high (not executed) | Wallet.RefreshRefetchesNothing | Wallet.OnRefreshCorrected |
