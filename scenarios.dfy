/**
 * Clients of the store and the controller, in the style of the library's
 * callers: what they can conclude from the contracts alone.
 */
module Scenarios {
  import opened Wrappers
  import opened Data
  import opened Store
  import opened ViewModel

  /**
   * The timer repeats: a second tick asks for the same removal again and,
   * because removal is idempotent, leaves the stack as the first tick left it.
   */
  method TickTwice(vm: NotificationViewModel)
    modifies vm`removeRequests, vm.store
    ensures old(vm.Delivers()) ==>
              vm.store.notifications == Without(old(vm.store.notifications), vm.id) &&
              vm.removeRequests == old(vm.removeRequests) + 2
    ensures !old(vm.Delivers()) ==> unchanged(vm.store) && vm.removeRequests == old(vm.removeRequests)
  {
    vm.Tick();
    ghost var afterFirst := vm.store.notifications;
    vm.Tick();
    if old(vm.Delivers()) {
      WithoutIdempotent(old(vm.store.notifications), vm.id);
      assert vm.store.notifications == Without(afterFirst, vm.id);
    }
  }

  /** A store with the default delay; one info notification; one tick removes it. */
  method AutoDismiss() {
    var ids := new IdSource();
    var store := new NotificationStore();
    assert store.duration == 3.0;
    var id := ids.Fresh();
    var note := Plain(id, InfoType, "Title", Some("Desc"));
    store.AddNotification(note);
    assert |store.notifications| == 1;
    var vm := new NotificationViewModel(note.id, note.notificationType.haptic, store);
    assert vm.hapticsPlayed == [];
    vm.Tick();
    assert |store.notifications| == 0 && vm.removeRequests == 1;
    assert |store.emitted| == 2;
  }

  /** Removing B from [A, B, C] yields [A, C] and leaves A's and C's timers running. */
  method RemoveMiddleEntry() {
    var ids := new IdSource();
    var store := new NotificationStore(5.0);
    var idA := ids.Fresh();
    var idB := ids.Fresh();
    var idC := ids.Fresh();
    var a := Plain(idA, ErrorType, "A");
    var b := Plain(idB, WarningType, "B");
    var c := Plain(idC, SuccessType, "C");
    store.AddNotification(a);
    store.AddNotification(b);
    store.AddNotification(c);
    assert store.notifications == [a, b, c];
    var vmA := new NotificationViewModel(a.id, a.notificationType.haptic, store);
    var vmC := new NotificationViewModel(c.id, c.notificationType.haptic, store);
    assert vmA.hapticsPlayed == [FeedbackType.Error] && vmC.hapticsPlayed == [FeedbackType.Success];
    store.RemoveNotification(b.id);
    RemoveMiddle(a, b, c);
    assert store.notifications == [a, c];
    assert vmA.Delivers() && vmC.Delivers();
    vmA.Tick();
    WithoutConcat([a], [c], a.id);
    WithoutSingleton(a, a.id);
    WithoutSingleton(c, a.id);
    assert [a] + [c] == [a, c];
    assert store.notifications == [c];
  }

  /** A controller released and torn down before its timer fires never asks for a removal. */
  method CancelBeforeFire() {
    var ids := new IdSource();
    var store := new NotificationStore();
    var id := ids.Fresh();
    var note := Localized(id, InfoType, LocalizedStringKey("greeting", "greeting"));
    store.AddNotification(note);
    var vm := new NotificationViewModel(note.id, None, store);
    vm.Release();
    // A tick that arrives after release but before `deinit`: `weak self` is nil.
    vm.Tick();
    assert vm.timerSubscription == Active && vm.removeRequests == 0;
    vm.Deinit();
    assert vm.timerSubscription == Cancelled;
    vm.Tick();
    assert vm.removeRequests == 0 && store.notifications == [note];
  }

  /** Clearing an empty store, or removing from it, publishes nothing. */
  method QuietNoOps() {
    var store := new NotificationStore();
    store.RemoveAll();
    store.RemoveNotification(Uuid(7));
    assert store.emitted == [];
  }
}
