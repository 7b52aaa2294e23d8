/**
 * The settings screen (`screens/Settings.tsx`): interface language, three
 * notification switches, a developer-mode switch and a save button whose
 * simulated 0.8-second request calls the application's `onSave` once. The save
 * timer is modelled as an explicit completion step.
 */
module Settings {
  import opened Types

  /** The language select's three options. */
  datatype Language = Es | En | Fr
  {
    /** The option's `value`. */
    function Code(): string
    {
      match this
      case Es => "es"
      case En => "en"
      case Fr => "fr"
    }
  }

  /** Reads a select value back; any value the select does not offer is rejected. */
  function LanguageOf(code: string): Option<Language>
  {
    if code == "es" then Some(Es)
    else if code == "en" then Some(En)
    else if code == "fr" then Some(Fr)
    else None
  }

  /** The select produces exactly the codes "es", "en" and "fr", one per language. */
  lemma LanguageCodes(l: Language, code: string)
    ensures LanguageOf(l.Code()) == Some(l)
    ensures LanguageOf(code).Some? <==> code in {"es", "en", "fr"}
    ensures LanguageOf(code).Some? ==> LanguageOf(code).value.Code() == code
  {
  }

  datatype NotificationKey = EmailAlerts | PushAlerts | WeeklyReports

  /** The notifications record. */
  datatype Notifications = Notifications(email: bool, push: bool, reports: bool)
  {
    function Get(k: NotificationKey): bool
    {
      match k
      case EmailAlerts => email
      case PushAlerts => push
      case WeeklyReports => reports
    }

    /** `{...notifications, [k]: !notifications[k]}`. */
    function Toggled(k: NotificationKey): Notifications
    {
      match k
      case EmailAlerts => this.(email := !email)
      case PushAlerts => this.(push := !push)
      case WeeklyReports => this.(reports := !reports)
    }
  }

  const InitialNotifications: Notifications := Notifications(true, false, true)

  /** A record is determined by its three switches. */
  lemma NotificationsExtensional(a: Notifications, b: Notifications)
    requires forall k :: a.Get(k) == b.Get(k)
    ensures a == b
  {
    assert a.Get(EmailAlerts) == b.Get(EmailAlerts);
    assert a.Get(PushAlerts) == b.Get(PushAlerts);
    assert a.Get(WeeklyReports) == b.Get(WeeklyReports);
  }

  /** A switch flips only its own key, and flipping it twice restores the record. */
  lemma ToggledSpec(n: Notifications, k: NotificationKey)
    ensures n.Toggled(k).Get(k) == !n.Get(k)
    ensures forall j :: j != k ==> n.Toggled(k).Get(j) == n.Get(j)
    ensures n.Toggled(k).Toggled(k) == n
  {
  }

  /** Switches commute: the order in which two switches are flipped does not matter. */
  lemma ToggledCommute(n: Notifications, j: NotificationKey, k: NotificationKey)
    ensures n.Toggled(j).Toggled(k) == n.Toggled(k).Toggled(j)
  {
    forall i
      ensures n.Toggled(j).Toggled(k).Get(i) == n.Toggled(k).Toggled(j).Get(i)
    {
      ToggledSpec(n, j);
      ToggledSpec(n, k);
      ToggledSpec(n.Toggled(j), k);
      ToggledSpec(n.Toggled(k), j);
    }
    NotificationsExtensional(n.Toggled(j).Toggled(k), n.Toggled(k).Toggled(j));
  }

  class SettingsForm {
    var language: Language
    var notifications: Notifications
    var devMode: bool
    var isSaving: bool

    constructor ()
      ensures language == Es && notifications == InitialNotifications
      ensures !devMode && !isSaving
    {
      language, notifications, devMode, isSaving := Es, InitialNotifications, false, false;
    }

    method SetLanguage(l: Language)
      modifies this`language
      ensures language == l
    {
      language := l;
    }

    /** A notification checkbox's change handler. */
    method ToggleNotification(k: NotificationKey)
      modifies this`notifications
      ensures notifications == old(notifications).Toggled(k)
      ensures notifications.Get(k) == !old(notifications).Get(k)
      ensures forall j :: j != k ==> notifications.Get(j) == old(notifications).Get(j)
    {
      ToggledSpec(notifications, k);
      notifications := notifications.Toggled(k);
    }

    /** The developer-mode switch: flips `devMode` and nothing else. */
    method ToggleDevMode()
      modifies this`devMode
      ensures devMode == !old(devMode)
    {
      devMode := !devMode;
    }

    /** `handleSave`. The button is disabled while saving, so a press then does nothing. */
    method Save()
      modifies this`isSaving
      ensures isSaving
    {
      isSaving := true;
    }

    /** The save timer firing: saving ends and `onSave` is called once. */
    method SaveCompletes() returns (onSaveCalls: nat)
      requires isSaving
      modifies this`isSaving
      ensures !isSaving && onSaveCalls == 1
    {
      isSaving := false;
      onSaveCalls := 1;
    }
  }

  /**
   * Flipping a switch twice and saving: the preferences are as they started, the form
   * is usable again and the application hears of the save once.
   */
  method ToggleTwiceAndSave(k: NotificationKey) returns (n: Notifications, saving: bool, calls: nat)
    ensures n == InitialNotifications && !saving && calls == 1
  {
    var form := new SettingsForm();
    form.ToggleNotification(k);
    form.ToggleNotification(k);
    ToggledSpec(InitialNotifications, k);
    form.Save();
    calls := form.SaveCompletes();
    n, saving := form.notifications, form.isSaving;
  }
}
