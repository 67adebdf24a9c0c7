/**
 * `AQNotificationViewModel` (Sources/Aquamarine/ViewModel/AQNotificationViewModel.swift):
 * the controller created for each displayed notification. It plays the
 * haptic once, and it owns a repeating timer whose every tick asks the store
 * to remove its notification.
 *
 * Time is not modelled: each delivery of the timer is one call of `Tick`.
 * Object lifetime is modelled by two events: `Release` (the last strong
 * reference is gone, so the sink's `weak self` now reads nil) and `Deinit`
 * (the `deinit` body, which cancels the subscription).
 */
module ViewModel {
  import opened Wrappers
  import opened Data
  import opened Store

  /** The `AnyCancellable?` held in `timerSubscription`. */
  datatype Subscription = NoSubscription | Active | Cancelled

  /**
   * `timerSubscription?.cancel()`: a live subscription becomes cancelled;
   * cancelling a cancelled subscription, or calling through nil, does nothing.
   */
  function Cancel(s: Subscription): (r: Subscription)
    ensures r != Active
    ensures s != Active ==> r == s
    ensures s == Active ==> r == Cancelled
  {
    if s == Active then Cancelled else s
  }

  /** Cancelling twice is the same as cancelling once. */
  lemma CancelIdempotent(s: Subscription)
    ensures Cancel(Cancel(s)) == Cancel(s)
  {
  }

  class NotificationViewModel {
    const id: Uuid
    const store: NotificationStore
    /** The timer's repeat interval, read from `store.duration` at construction. */
    const period: real
    var timerSubscription: Subscription
    /** True once no strong reference remains, so `weak self` reads nil. */
    var released: bool
    /** The haptics this controller has played, in order. */
    var hapticsPlayed: seq<FeedbackType>
    /** How many times the timer sink called `store.removeNotification(forID:)`. */
    var removeRequests: nat

    /** A timer tick reaches the store only while subscribed and still referenced. */
    predicate Delivers()
      reads this
    {
      timerSubscription == Active && !released
    }

    /**
     * `init(id:haptic:store:)`: records the id and the store, subscribes to a
     * timer repeating every `store.duration`, and plays the haptic once when
     * one is given. The store itself is not touched.
     */
    constructor (id: Uuid, haptic: Option<FeedbackType>, store: NotificationStore)
      ensures this.id == id && this.store == store && period == store.duration
      ensures timerSubscription == Active && !released && Delivers()
      ensures hapticsPlayed == (if haptic.Some? then [haptic.value] else [])
      ensures |hapticsPlayed| == (if haptic.Some? then 1 else 0)
      ensures removeRequests == 0
      ensures store.notifications == old(store.notifications) && store.emitted == old(store.emitted)
    {
      this.id := id;
      this.store := store;
      this.period := store.duration;
      timerSubscription := Active;
      released := false;
      removeRequests := 0;
      hapticsPlayed := [];
      if haptic.Some? {
        hapticsPlayed := [haptic.value];
      }
    }

    /**
     * One delivery of the repeating timer to the sink. While the subscription
     * is live and `self` is still referenced, it issues exactly one
     * `store.removeNotification(forID: id)` and nothing else; otherwise
     * nothing happens.
     */
    method Tick()
      modifies this`removeRequests, store
      ensures timerSubscription == old(timerSubscription) && released == old(released)
      ensures hapticsPlayed == old(hapticsPlayed)
      ensures old(Delivers()) ==> removeRequests == old(removeRequests) + 1
      ensures old(Delivers()) && old(store.notifications) == [] ==>
                store.notifications == [] && store.emitted == old(store.emitted)
      ensures old(Delivers()) && old(store.notifications) != [] ==>
                store.notifications == Without(old(store.notifications), id) &&
                store.emitted == old(store.emitted) + [store.notifications]
      ensures !old(Delivers()) ==> removeRequests == old(removeRequests) && unchanged(store)
      ensures forall e :: e in old(store.notifications) && e.id != id ==> e in store.notifications
    {
      if Delivers() {
        store.RemoveNotification(id);
        removeRequests := removeRequests + 1;
      }
    }

    /** The last strong reference is dropped; the sink's `weak self` capture becomes nil. */
    method Release()
      modifies this`released
      ensures released && !Delivers()
    {
      released := true;
    }

    /** `deinit`, which the runtime runs only after release: cancels the subscription. */
    method Deinit()
      requires released
      modifies this`timerSubscription
      ensures timerSubscription == Cancel(old(timerSubscription))
      ensures timerSubscription != Active && !Delivers()
    {
      timerSubscription := Cancel(timerSubscription);
    }
  }
}
