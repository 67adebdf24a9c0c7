# Aquamarine notification lifecycle, in Dafny

Aquamarine is a SwiftUI library that shows transient "toast" notifications in
an overlay. This project models its lifecycle core and proves properties of
the model:

- **the store** `AQNotificationStore` (class `Store.NotificationStore`). It
  holds the ordered stack of live notifications, newest last, and the
  close delay. It appends, it removes by identifier, and it clears. The
  `@Published` wrapper is modelled as a log `emitted`. Each assignment of
  the array appends the new array to the log, so the `isEmpty` guards
  become statements about when observers are notified.
- **the per-notification controller** `AQNotificationViewModel` (class
  `ViewModel.NotificationViewModel`). It records its id and its store, plays
  the haptic once, and subscribes to a repeating timer. Each timer delivery
  is a call of `Tick`, and each delivery asks the store to remove the
  notification. `Release` models the last strong reference going away, after
  which the sink's `weak self` reads nil. `Deinit` models the `deinit` body,
  which cancels the subscription.
- **the notification value** `AQNotificationData` and `AQNotificationType`
  (module `Data`). These are the type presets, the type initializer, the eight
  public initializers, and the shape they guarantee (`WellFormed`).
- the tap path of the notification view (`View.Tap`). It runs the action if
  one is given, then removes the notification.

The model relies on one fact about removal. `Store.Without` is the
order-preserving filter that `removeAll(where:)` performs. The lemmas beside
it prove that removal:

- distributes over concatenation,
- leaves the stack unchanged when the id is absent,
- is idempotent,
- commutes with other removals,
- drops exactly the entries with that id,
- keeps identifiers unique.

The controller's repeating timer is safe because removal is idempotent.
`Scenarios` holds client methods that use only the contracts. They cover
auto-dismissal, removing the middle of three entries, tearing a controller
down before its timer fires, and a second timer tick.

Two facts about the source shape the model:

- `Timer.publish(every:)` (Sources/Aquamarine/ViewModel/AQNotificationViewModel.swift:20)
  is a repeating timer, so `Tick` may be called any number of times while the
  subscription is live.
- `removeNotification(forID:)` only checks for an empty stack
  (Sources/Aquamarine/Model/AQNotificationStore.swift:38). A non-empty stack is
  still reassigned and published when no entry carries the id, and
  `RemoveNotification` states exactly that.

## Model

| member | source | states |
|---|---|---|
| Data.MakeType | Sources/Aquamarine/Model/AQNotificationData.swift:57-60 | the type carries the given tint and haptic; both default to nil |
| Data.PresetsTable | Sources/Aquamarine/Model/AQNotificationData.swift:42-51 | error is red with the error haptic, warning is yellow with the warning haptic, success is green with the success haptic, info has neither tint nor haptic |
| Data.TypeEqualityIsStructural | Sources/Aquamarine/Model/AQNotificationData.swift:37-39 | two notification types are equal if and only if their tints and haptics are equal |
| Data.LocalizedSystemImage | Sources/Aquamarine/Model/AQNotificationData.swift:74-88 | localized title and description are the keys, title is the key's interpolation, plain description is nil, icon is the system image, type/action/id as given |
| Data.LocalizedImage | Sources/Aquamarine/Model/AQNotificationData.swift:96-110 | as above with a named image as icon |
| Data.LocalizedImageResource | Sources/Aquamarine/Model/AQNotificationData.swift:119-133 | as above with an image resource as icon |
| Data.Localized | Sources/Aquamarine/Model/AQNotificationData.swift:141-154 | localized text fields as above and no icon |
| Data.PlainSystemImage | Sources/Aquamarine/Model/AQNotificationData.swift:164-178 | title and description are the given strings, both localized fields are nil, icon is the system image |
| Data.PlainImage | Sources/Aquamarine/Model/AQNotificationData.swift:186-200 | as above with a named image as icon |
| Data.PlainImageResource | Sources/Aquamarine/Model/AQNotificationData.swift:209-223 | as above with an image resource as icon |
| Data.Plain | Sources/Aquamarine/Model/AQNotificationData.swift:231-244 | plain text fields as above and no icon |
| Data.InitializersCoverWellFormed | Sources/Aquamarine/Model/AQNotificationData.swift:74-244 | a value is well formed (a localized title never comes with a plain description, a plain title never with a localized description) if and only if one of the eight initializers rebuilds it from its own fields |
| Data.IdSource.Fresh | Sources/Aquamarine/Model/AQNotificationData.swift:12 | each notification receives an identifier this source never handed out before (one source per program stands for `UUID.init()`) |
| Store.Without | Sources/Aquamarine/Model/AQNotificationStore.swift:40 | the result contains exactly the entries of the input whose id differs from the removed one, and is no longer |
| Store.WithoutConcat | Sources/Aquamarine/Model/AQNotificationStore.swift:40 | removal distributes over concatenation, so the remaining entries keep their relative order |
| Store.WithoutSingleton | Sources/Aquamarine/Model/AQNotificationStore.swift:40 | a single entry is dropped exactly when its id matches |
| Store.WithoutAbsent | Sources/Aquamarine/Model/AQNotificationStore.swift:40 | removing an id no entry carries leaves the sequence unchanged |
| Store.WithoutIdempotent | Sources/Aquamarine/Model/AQNotificationStore.swift:40 | removing an id twice gives the same sequence as removing it once |
| Store.WithoutCommutes | Sources/Aquamarine/Model/AQNotificationStore.swift:40 | removals of two ids may happen in either order |
| Store.WithoutLength | Sources/Aquamarine/Model/AQNotificationStore.swift:40 | the length drops by the number of entries carrying the id |
| Store.UniqueCount | Sources/Aquamarine/Model/AQNotificationData.swift:12 | with unique identifiers an id occurs once if present and not at all otherwise |
| Store.WithoutRemovesOne | Sources/Aquamarine/Model/AQNotificationStore.swift:37-43 | with unique identifiers, removing a present id removes exactly one entry, an absent id none |
| Store.WithoutKeepsUnique | Sources/Aquamarine/Model/AQNotificationStore.swift:40 | removal keeps identifiers unique |
| Store.AppendKeepsUnique | Sources/Aquamarine/Model/AQNotificationStore.swift:31 | appending an entry with a fresh identifier keeps identifiers unique |
| Store.RemoveMiddle | Sources/Aquamarine/Model/AQNotificationStore.swift:37-43 | removing B's id from [A, B, C] gives [A, C] |
| Store.NotificationStore.constructor | Sources/Aquamarine/Model/AQNotificationStore.swift:19-22 | a new store is empty, has published nothing, and its duration is the close delay (default 3); `duration` is a constant |
| Store.NotificationStore.AddNotification | Sources/Aquamarine/Model/AQNotificationStore.swift:29-33 | the new stack is the old one with the entry appended at the tail, published once |
| Store.NotificationStore.RemoveNotification | Sources/Aquamarine/Model/AQNotificationStore.swift:37-43 | on an empty stack nothing changes and nothing is published; otherwise the stack becomes the filtered old stack and is published once; afterwards no entry has the id |
| Store.NotificationStore.RemoveAll | Sources/Aquamarine/Model/AQNotificationStore.swift:46-52 | the stack is empty afterwards; it is published once if it was non-empty and not at all otherwise |
| ViewModel.Cancel | Sources/Aquamarine/ViewModel/AQNotificationViewModel.swift:33-35 | a live subscription becomes cancelled; a cancelled or nil subscription is left as it is |
| ViewModel.CancelIdempotent | Sources/Aquamarine/ViewModel/AQNotificationViewModel.swift:34 | cancelling twice equals cancelling once |
| ViewModel.NotificationViewModel.constructor | Sources/Aquamarine/ViewModel/AQNotificationViewModel.swift:17-31 | id and store are recorded as given, the timer period is the store's duration, the subscription is live, the haptic is played exactly once if given and never otherwise, no removal is requested, and the store is untouched |
| ViewModel.NotificationViewModel.Tick | Sources/Aquamarine/ViewModel/AQNotificationViewModel.swift:20-26 | while subscribed and still referenced, a tick issues exactly one removal of its own id and does nothing else to the store; otherwise (cancelled, or `weak self` nil) it changes nothing |
| ViewModel.NotificationViewModel.Release | Sources/Aquamarine/ViewModel/AQNotificationViewModel.swift:22-23 | after release the sink's `weak self` is nil, so ticks are no longer delivered |
| ViewModel.NotificationViewModel.Deinit | Sources/Aquamarine/ViewModel/AQNotificationViewModel.swift:33-35 | the subscription is cancelled, so no later tick requests a removal |
| View.Tap | Sources/Aquamarine/View/AQNotificationView.swift:87-93 | the tap runs the notification's action if it has one, then removes the notification from the store exactly as `removeNotification` does |
| Scenarios.TickTwice | Sources/Aquamarine/ViewModel/AQNotificationViewModel.swift:20 | two ticks of the repeating timer leave the stack as one would, with two removal requests |

## Left out

- View.Tap: the action is an opaque token with no effect. The action's own
  effects, store mutations included, are not modelled, so the final stack is
  stated relative to the stack before the action ran.
- Time: the model has no clock. The timer's period is recorded (`period`),
  and each delivery is an explicit `Tick` call. It does not model that a tick
  comes only after `store.duration` seconds.
- `duration` is `real`, not IEEE double, and the store does not require it
  to be positive, matching the source.
- `withAnimation`, Combine's `Timer.publish`/`autoconnect`/`AnyCancellable`,
  and `UINotificationFeedbackGenerator` are framework calls. They are modelled
  as the events `Tick`/`Deinit` and the logs `hapticsPlayed` and `emitted`.
- Main-thread dispatch and concurrency: the host is assumed to make all calls
  from one thread, so calls are modelled as sequential.
- UUID randomness: identifiers come from a counter (`Data.IdSource`). Freshness
  holds per counter object, so the model assumes one `IdSource` per program;
  two instances would both hand out `Uuid(0)`.
- The text Swift's interpolation `"\(key)"` produces for a
  `LocalizedStringKey` is carried as the key's `interpolation` field, not
  computed.
- `AQNotificationStore.standard` (a process-wide default instance) has no
  behaviour beyond the default initializer, which the constructor covers.
- The view's layout, sizing and drag gesture. The drag threshold is
  CGFloat arithmetic run asynchronously on the main queue.
  `AquamarineOverlay` renders `notifications.reversed()`, and
  `aquamarineNotifications(store:)` attaches that overlay. Neither has logic
  beyond that.
