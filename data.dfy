/**
 * The notification value: `AQNotificationData` and its `AQNotificationType`
 * (Sources/Aquamarine/Model/AQNotificationData.swift).
 *
 * SwiftUI's `Color`, `Image`, `ImageResource` and `LocalizedStringKey` and the
 * tap closure are opaque to the library; they are modelled as plain values that
 * the core only stores and compares.
 */
module Data {
  import opened Wrappers

  /** A notification identifier (Foundation's `UUID`). */
  datatype Uuid = Uuid(value: nat)

  /** An icon tint; the three named colours the presets use, and any other colour. */
  datatype Color = Red | Yellow | Green | OtherColor(token: nat)

  /** `UINotificationFeedbackGenerator.FeedbackType`. */
  datatype FeedbackType = Success | Warning | Error

  /**
   * A localized string key. Its `interpolation` is the text Swift's string
   * interpolation `"\(key)"` produces for it, which is runtime behaviour the
   * model does not compute.
   */
  datatype LocalizedStringKey = LocalizedStringKey(key: string, interpolation: string)

  datatype ImageResource = ImageResource(name: string)

  /** The three ways the initializers build an icon. */
  datatype Image =
    | SystemImage(systemName: string)   // Image(systemName:)
    | NamedImage(name: string)          // Image(_: String)
    | ResourceImage(resource: ImageResource)

  /** The tap closure `() -> Void`, as an opaque token. */
  datatype Action = Action(token: nat)

  /** `AQNotificationType`: an optional icon tint and an optional haptic. */
  datatype NotificationType = NotificationType(color: Option<Color>, haptic: Option<FeedbackType>)

  /** `AQNotificationType.init(iconColor:haptic:)`, both arguments defaulting to nil. */
  function MakeType(color: Option<Color> := None, haptic: Option<FeedbackType> := None): (t: NotificationType)
    ensures t.color == color && t.haptic == haptic
  {
    NotificationType(color, haptic)
  }

  /** The four presets (`static let error`, `warning`, `success`, `info`). */
  const ErrorType: NotificationType := MakeType(Some(Red), Some(FeedbackType.Error))
  const WarningType: NotificationType := MakeType(Some(Yellow), Some(FeedbackType.Warning))
  const SuccessType: NotificationType := MakeType(Some(Green), Some(FeedbackType.Success))
  const InfoType: NotificationType := MakeType(None, None)

  /** What each preset tints and plays: info alone has neither a tint nor a haptic. */
  lemma PresetsTable()
    ensures ErrorType.color == Some(Red) && ErrorType.haptic == Some(FeedbackType.Error)
    ensures WarningType.color == Some(Yellow) && WarningType.haptic == Some(FeedbackType.Warning)
    ensures SuccessType.color == Some(Green) && SuccessType.haptic == Some(FeedbackType.Success)
    ensures InfoType.color == None && InfoType.haptic == None
  {
  }

  /** `Equatable` is synthesized: two types are equal exactly when tint and haptic are. */
  lemma TypeEqualityIsStructural(a: NotificationType, b: NotificationType)
    ensures a == b <==> (a.color == b.color && a.haptic == b.haptic)
  {
  }

  /**
   * `AQNotificationData`. Every field is a `let`, so a value never changes
   * once built; `id` is drawn fresh when the value is created.
   */
  datatype NotificationData = NotificationData(
    id: Uuid,
    notificationType: NotificationType,
    title: string,
    description: Option<string>,
    localizedTitle: Option<LocalizedStringKey>,
    localizedDescription: Option<LocalizedStringKey>,
    icon: Option<Image>,
    action: Option<Action>)

  /** The text fields a localized initializer sets. */
  predicate LocalizedText(d: NotificationData, titleKey: LocalizedStringKey, descriptionKey: Option<LocalizedStringKey>) {
    && d.localizedTitle == Some(titleKey)
    && d.localizedDescription == descriptionKey
    && d.title == titleKey.interpolation
    && d.description == None
  }

  /** The text fields a string initializer sets. */
  predicate PlainText(d: NotificationData, title: string, description: Option<string>) {
    && d.title == title
    && d.description == description
    && d.localizedTitle == None
    && d.localizedDescription == None
  }

  /**
   * The shape every public initializer produces: a localized title comes with
   * its interpolation as `title` and no plain description; a plain title comes
   * with no localized description.
   */
  predicate WellFormed(d: NotificationData) {
    match d.localizedTitle
    case Some(k) => d.title == k.interpolation && d.description == None
    case None => d.localizedDescription == None
  }

  // Localized initializers

  function LocalizedSystemImage(id: Uuid, notificationType: NotificationType, titleKey: LocalizedStringKey,
                                systemImage: string, descriptionKey: Option<LocalizedStringKey> := None,
                                action: Option<Action> := None): (d: NotificationData)
    ensures d.id == id && d.notificationType == notificationType && d.action == action
    ensures LocalizedText(d, titleKey, descriptionKey) && WellFormed(d)
    ensures d.icon == Some(SystemImage(systemImage))
  {
    NotificationData(id, notificationType, titleKey.interpolation, None, Some(titleKey), descriptionKey,
                     Some(SystemImage(systemImage)), action)
  }

  function LocalizedImage(id: Uuid, notificationType: NotificationType, titleKey: LocalizedStringKey,
                          image: string, descriptionKey: Option<LocalizedStringKey> := None,
                          action: Option<Action> := None): (d: NotificationData)
    ensures d.id == id && d.notificationType == notificationType && d.action == action
    ensures LocalizedText(d, titleKey, descriptionKey) && WellFormed(d)
    ensures d.icon == Some(NamedImage(image))
  {
    NotificationData(id, notificationType, titleKey.interpolation, None, Some(titleKey), descriptionKey,
                     Some(NamedImage(image)), action)
  }

  function LocalizedImageResource(id: Uuid, notificationType: NotificationType, titleKey: LocalizedStringKey,
                                  image: ImageResource, descriptionKey: Option<LocalizedStringKey> := None,
                                  action: Option<Action> := None): (d: NotificationData)
    ensures d.id == id && d.notificationType == notificationType && d.action == action
    ensures LocalizedText(d, titleKey, descriptionKey) && WellFormed(d)
    ensures d.icon == Some(ResourceImage(image))
  {
    NotificationData(id, notificationType, titleKey.interpolation, None, Some(titleKey), descriptionKey,
                     Some(ResourceImage(image)), action)
  }

  function Localized(id: Uuid, notificationType: NotificationType, titleKey: LocalizedStringKey,
                     descriptionKey: Option<LocalizedStringKey> := None,
                     action: Option<Action> := None): (d: NotificationData)
    ensures d.id == id && d.notificationType == notificationType && d.action == action
    ensures LocalizedText(d, titleKey, descriptionKey) && WellFormed(d)
    ensures d.icon == None
  {
    NotificationData(id, notificationType, titleKey.interpolation, None, Some(titleKey), descriptionKey,
                     None, action)
  }

  // String initializers

  function PlainSystemImage(id: Uuid, notificationType: NotificationType, title: string,
                            systemImage: string, description: Option<string> := None,
                            action: Option<Action> := None): (d: NotificationData)
    ensures d.id == id && d.notificationType == notificationType && d.action == action
    ensures PlainText(d, title, description) && WellFormed(d)
    ensures d.icon == Some(SystemImage(systemImage))
  {
    NotificationData(id, notificationType, title, description, None, None, Some(SystemImage(systemImage)), action)
  }

  function PlainImage(id: Uuid, notificationType: NotificationType, title: string,
                      image: string, description: Option<string> := None,
                      action: Option<Action> := None): (d: NotificationData)
    ensures d.id == id && d.notificationType == notificationType && d.action == action
    ensures PlainText(d, title, description) && WellFormed(d)
    ensures d.icon == Some(NamedImage(image))
  {
    NotificationData(id, notificationType, title, description, None, None, Some(NamedImage(image)), action)
  }

  function PlainImageResource(id: Uuid, notificationType: NotificationType, title: string,
                              image: ImageResource, description: Option<string> := None,
                              action: Option<Action> := None): (d: NotificationData)
    ensures d.id == id && d.notificationType == notificationType && d.action == action
    ensures PlainText(d, title, description) && WellFormed(d)
    ensures d.icon == Some(ResourceImage(image))
  {
    NotificationData(id, notificationType, title, description, None, None, Some(ResourceImage(image)), action)
  }

  function Plain(id: Uuid, notificationType: NotificationType, title: string,
                 description: Option<string> := None,
                 action: Option<Action> := None): (d: NotificationData)
    ensures d.id == id && d.notificationType == notificationType && d.action == action
    ensures PlainText(d, title, description) && WellFormed(d)
    ensures d.icon == None
  {
    NotificationData(id, notificationType, title, description, None, None, None, action)
  }

  /** The initializer call that would have produced `d`, read off its fields. */
  function Rebuild(d: NotificationData): NotificationData {
    match (d.localizedTitle, d.icon)
    case (Some(k), Some(SystemImage(n))) => LocalizedSystemImage(d.id, d.notificationType, k, n, d.localizedDescription, d.action)
    case (Some(k), Some(NamedImage(n))) => LocalizedImage(d.id, d.notificationType, k, n, d.localizedDescription, d.action)
    case (Some(k), Some(ResourceImage(r))) => LocalizedImageResource(d.id, d.notificationType, k, r, d.localizedDescription, d.action)
    case (Some(k), None) => Localized(d.id, d.notificationType, k, d.localizedDescription, d.action)
    case (None, Some(SystemImage(n))) => PlainSystemImage(d.id, d.notificationType, d.title, n, d.description, d.action)
    case (None, Some(NamedImage(n))) => PlainImage(d.id, d.notificationType, d.title, n, d.description, d.action)
    case (None, Some(ResourceImage(r))) => PlainImageResource(d.id, d.notificationType, d.title, r, d.description, d.action)
    case (None, None) => Plain(d.id, d.notificationType, d.title, d.description, d.action)
  }

  /**
   * The eight initializers produce exactly the well-formed values: a value is
   * well formed if and only if it is what its own initializer call rebuilds.
   */
  lemma InitializersCoverWellFormed(d: NotificationData)
    ensures WellFormed(d) <==> Rebuild(d) == d
  {
  }

  /**
   * Fresh identifiers (`UUID.init()` at each value's creation), drawn from a
   * counter so that no identifier is handed out twice.
   */
  class IdSource {
    var next: nat
    ghost var issued: set<Uuid>

    ghost predicate Valid()
      reads this
    {
      forall u :: u in issued ==> u.value < next
    }

    constructor ()
      ensures Valid() && issued == {}
    {
      next := 0;
      issued := {};
    }

    method Fresh() returns (u: Uuid)
      requires Valid()
      modifies this
      ensures Valid()
      ensures u !in old(issued) && issued == old(issued) + {u}
    {
      u := Uuid(next);
      issued := issued + {u};
      next := next + 1;
    }
  }
}
