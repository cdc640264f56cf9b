/** The settings store: the theme preference and the notification
    switches, restored from device storage at start-up. */
module SettingsModel {
  import opened Wrappers
  import opened Theme

  datatype NotificationSettings = NotificationSettings(enabled: bool, grades: bool, homework: bool, announcements: bool)

  /** The keys of `NotificationSettings`. */
  datatype NotificationKey = Enabled | Grades | Homework | Announcements

  /** `Exclude<keyof NotificationSettings, 'enabled'>`: the per-type switches. */
  type NotificationType = k: NotificationKey | k != Enabled witness Grades

  function Get(n: NotificationSettings, k: NotificationKey): bool {
    match k
    case Enabled => n.enabled
    case Grades => n.grades
    case Homework => n.homework
    case Announcements => n.announcements
  }

  /** `{ ...n, [k]: v }`. */
  function WithKey(n: NotificationSettings, k: NotificationKey, v: bool): (r: NotificationSettings)
    ensures Get(r, k) == v
    ensures forall k' :: k' != k ==> Get(r, k') == Get(n, k')
  {
    match k
    case Enabled => n.(enabled := v)
    case Grades => n.(grades := v)
    case Homework => n.(homework := v)
    case Announcements => n.(announcements := v)
  }

  /** `Partial<NotificationSettings>`: the keys a patch carries. */
  datatype NotificationPatch = NotificationPatch(
    enabled: Option<bool>,
    grades: Option<bool>,
    homework: Option<bool>,
    announcements: Option<bool>)

  const EmptyPatch: NotificationPatch := NotificationPatch(None, None, None, None)

  function PatchValue(p: NotificationPatch, k: NotificationKey): Option<bool> {
    match k
    case Enabled => p.enabled
    case Grades => p.grades
    case Homework => p.homework
    case Announcements => p.announcements
  }

  /** `{ ...n, ...patch }`: a key the patch carries takes its value, every
      other key keeps its own. */
  function Merge(n: NotificationSettings, p: NotificationPatch): (r: NotificationSettings)
    ensures forall k :: PatchValue(p, k).Some? ==> Get(r, k) == PatchValue(p, k).value
    ensures forall k :: PatchValue(p, k).None? ==> Get(r, k) == Get(n, k)
  {
    NotificationSettings(
      p.enabled.GetOr(n.enabled),
      p.grades.GetOr(n.grades),
      p.homework.GetOr(n.homework),
      p.announcements.GetOr(n.announcements))
  }

  /** Two settings records with the same value at every key are equal. */
  lemma Extensionality(a: NotificationSettings, b: NotificationSettings)
    requires forall k :: Get(a, k) == Get(b, k)
    ensures a == b
  {
    assert Get(a, Enabled) == Get(b, Enabled) && Get(a, Grades) == Get(b, Grades);
    assert Get(a, Homework) == Get(b, Homework) && Get(a, Announcements) == Get(b, Announcements);
  }

  /** An empty patch changes nothing. */
  lemma MergeEmptyIsIdentity(n: NotificationSettings)
    ensures Merge(n, EmptyPatch) == n
  {
    Extensionality(Merge(n, EmptyPatch), n);
  }

  /** Applying the same patch twice is applying it once. */
  lemma MergeIdempotent(n: NotificationSettings, p: NotificationPatch)
    ensures Merge(Merge(n, p), p) == Merge(n, p)
  {
    Extensionality(Merge(Merge(n, p), p), Merge(n, p));
  }

  /** `q` over `p`: the later patch wins where both carry a key. */
  function Combine(p: NotificationPatch, q: NotificationPatch): (r: NotificationPatch)
    ensures forall k :: PatchValue(r, k) == if PatchValue(q, k).Some? then PatchValue(q, k) else PatchValue(p, k)
  {
    NotificationPatch(
      if q.enabled.Some? then q.enabled else p.enabled,
      if q.grades.Some? then q.grades else p.grades,
      if q.homework.Some? then q.homework else p.homework,
      if q.announcements.Some? then q.announcements else p.announcements)
  }

  /** Two patches in a row act as their combination. */
  lemma MergeComposes(n: NotificationSettings, p: NotificationPatch, q: NotificationPatch)
    ensures Merge(Merge(n, p), q) == Merge(n, Combine(p, q))
  {
    Extensionality(Merge(Merge(n, p), q), Merge(n, Combine(p, q)));
  }

  /** Setting one switch is a patch carrying only that key. */
  lemma WithKeyIsSingleKeyPatch(n: NotificationSettings, k: NotificationKey, v: bool)
    ensures WithKey(n, k, v) == Merge(n, SingleKeyPatch(k, v))
  {
    Extensionality(WithKey(n, k, v), Merge(n, SingleKeyPatch(k, v)));
  }

  function SingleKeyPatch(k: NotificationKey, v: bool): (p: NotificationPatch)
    ensures PatchValue(p, k) == Some(v)
    ensures forall k' :: k' != k ==> PatchValue(p, k') == None
  {
    match k
    case Enabled => EmptyPatch.(enabled := Some(v))
    case Grades => EmptyPatch.(grades := Some(v))
    case Homework => EmptyPatch.(homework := Some(v))
    case Announcements => EmptyPatch.(announcements := Some(v))
  }

  const InitialNotifications: NotificationSettings := NotificationSettings(true, true, true, true)

  /** What `partialize` hands to storage, and what rehydration restores. */
  datatype PersistedSettings = PersistedSettings(themeMode: ThemeMode, notifications: NotificationSettings)

  const InitialState: PersistedSettings := PersistedSettings(System, InitialNotifications)

  class SettingsStore {
    var themeMode: ThemeMode
    var notifications: NotificationSettings

    /** `createInitialState()`: follow the system theme, every switch on. */
    constructor()
      ensures themeMode == System
      ensures forall k :: Get(notifications, k)
    {
      themeMode := InitialState.themeMode;
      notifications := InitialState.notifications;
    }

    /** `partialize`: exactly the theme and the notification switches. */
    function Partialize(): (p: PersistedSettings)
      reads this
      ensures p.themeMode == themeMode && p.notifications == notifications
    {
      PersistedSettings(themeMode, notifications)
    }

    /** The persist middleware writing a stored state back at start-up. */
    method Rehydrate(stored: PersistedSettings)
      modifies this
      ensures Partialize() == stored
    {
      themeMode := stored.themeMode;
      notifications := stored.notifications;
    }

    method SetThemeMode(mode: ThemeMode)
      modifies this`themeMode
      ensures themeMode == mode
    {
      themeMode := mode;
    }

    /** The master switch; the per-type switches keep their values. */
    method SetNotificationsEnabled(enabled: bool)
      modifies this`notifications
      ensures notifications.enabled == enabled
      ensures forall t: NotificationType :: Get(notifications, t) == Get(old(notifications), t)
    {
      notifications := notifications.(enabled := enabled);
    }

    /** One per-type switch; never the master switch. */
    method SetNotificationType(t: NotificationType, enabled: bool)
      modifies this`notifications
      ensures notifications == WithKey(old(notifications), t, enabled)
      ensures notifications.enabled == old(notifications).enabled
    {
      notifications := WithKey(notifications, t, enabled);
    }

    method SetNotifications(patch: NotificationPatch)
      modifies this`notifications
      ensures notifications == Merge(old(notifications), patch)
    {
      notifications := Merge(notifications, patch);
    }

    method ResetSettings()
      modifies this
      ensures Partialize() == InitialState
    {
      themeMode := InitialState.themeMode;
      notifications := InitialState.notifications;
    }
  }
}
