/**
 * The tap path of `AQNotificationView`
 * (Sources/Aquamarine/View/AQNotificationView.swift): the rest of the view is
 * layout and is not part of this model.
 */
module View {
  import opened Wrappers
  import opened Data
  import opened Store

  /**
   * `onTapGesture`: runs the notification's action when it has one, then asks
   * the store to remove the notification. The result is the action that was
   * run.
   */
  method Tap(store: NotificationStore, data: NotificationData) returns (performed: Option<Action>)
    modifies store
    ensures performed == data.action
    ensures old(store.notifications) == [] ==> store.notifications == [] && store.emitted == old(store.emitted)
    ensures old(store.notifications) != [] ==>
              store.notifications == Without(old(store.notifications), data.id) &&
              store.emitted == old(store.emitted) + [store.notifications]
  {
    performed := data.action;
    store.RemoveNotification(data.id);
  }
}
