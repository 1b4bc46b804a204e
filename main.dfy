/**
 * The start-up script (src/main.tsx): the theme chosen before the first
 * render, and the console helpers `testNotification` and
 * `resetNotifications`.
 */
module Main {
  import opened Config
  import opened Browser
  import ServiceWorker
  import Notifications

  // ---------------------------------------------------------------------------
  // Theme

  /** The storage key `initTheme` reads. */
  const THEME_KEY: string := "theme"
  const DARK: string := "dark"
  const LIGHT: string := "light"

  /** The theme: the stored one when it is a non-empty string, otherwise the
      one the user's colour-scheme preference calls for. */
  function ThemeFor(stored: Option<string>, prefersDark: bool): (theme: string)
    ensures stored.Some? && stored.value != "" ==> theme == stored.value
    ensures stored.None? || stored.value == "" ==>
      (theme == DARK || theme == LIGHT) && (theme == DARK <==> prefersDark)
  {
    if stored.Some? && stored.value != "" then stored.value
    else if prefersDark then DARK else LIGHT
  }

  /** The document's classes once the theme is applied. */
  function WithTheme(classes: set<string>, theme: string): set<string>
  {
    if theme == DARK then classes + {DARK} else classes - {DARK}
  }

  /** Applying a theme sets the `dark` class exactly for the dark theme and
      leaves every other class as it was. */
  lemma WithThemeMeaning(classes: set<string>, theme: string)
    ensures DARK in WithTheme(classes, theme) <==> theme == DARK
    ensures forall c :: c != DARK ==> (c in WithTheme(classes, theme) <==> c in classes)
  {
  }

  /** A stored theme other than `dark` (say `light`) removes the class even
      when the user prefers a dark scheme. */
  lemma StoredThemeWins(classes: set<string>, prefersDark: bool)
    ensures DARK !in WithTheme(classes, ThemeFor(Some(LIGHT), prefersDark))
    ensures DARK in WithTheme(classes, ThemeFor(Some(DARK), prefersDark))
    ensures DARK in WithTheme(classes, ThemeFor(None, true)) && DARK !in WithTheme(classes, ThemeFor(None, false))
  {
  }

  /** `initTheme`. */
  method InitTheme(storage: LocalStorage, prefersDark: bool, root: ClassList)
    modifies root
    ensures root.classes == WithTheme(old(root.classes), ThemeFor(storage.GetItem(THEME_KEY), prefersDark))
  {
    var stored := storage.GetItem(THEME_KEY);
    var theme := ThemeFor(stored, prefersDark);
    if theme == DARK {
      root.Add(DARK);
    } else {
      root.Remove(DARK);
    }
  }

  // ---------------------------------------------------------------------------
  // Test notifications

  datatype TestKind = RainTest | TempTest | CustomTest

  /** The options of `testNotification`; an empty string is a missing field. */
  datatype TestOptions = TestOptions(title: string, body: string, city: string)

  /** The title, body and tag chosen by the `switch`. */
  datatype TestMessage = TestMessage(title: string, body: string, tag: string)

  const TEST_CITY: string := "Test City"
  const DEFAULT_TEST_TITLE: string := "🔔 Notification de test"
  const DEFAULT_TEST_BODY: string := "Ceci est une notification de test"
  const TEST_RAIN_BODY: string := "De la pluie est attendue dans 1 heure."
  /** The fixed heat text, the real heat body for a maximum of 25°C. */
  const TEST_HEAT_BODY: string := Notifications.HEAT_BODY_START + "25" + Notifications.HEAT_BODY_END
  const RAIN_TAG: string := "rain-alert"
  const TEMP_TAG: string := "temp-alert"
  const CUSTOM_TAG: string := "test-notification"
  const TEST_ICON: string := "/icons/icon-192.png"
  const TEST_BADGE: string := "/icons/icon-72.png"

  function CityOf(options: TestOptions): string
  {
    if options.city != "" then options.city else TEST_CITY
  }

  /** The message table of `testNotification`. */
  function TestMessageFor(kind: TestKind, options: TestOptions): (r: TestMessage)
    ensures r.title != "" && r.body != "" && r.tag != ""
    ensures kind != CustomTest ==>
      |CityOf(options)| < |r.title| && r.title[|r.title| - |CityOf(options)|..] == CityOf(options)
  {
    match kind
    case RainTest =>
      TestMessage(Notifications.RAIN_TITLE + CityOf(options), TEST_RAIN_BODY, RAIN_TAG)
    case TempTest =>
      TestMessage(Notifications.HEAT_TITLE + CityOf(options), TEST_HEAT_BODY, TEMP_TAG)
    case CustomTest =>
      TestMessage(if options.title != "" then options.title else DEFAULT_TEST_TITLE,
                  if options.body != "" then options.body else DEFAULT_TEST_BODY,
                  CUSTOM_TAG)
  }

  /** Each kind has its own tag. */
  lemma TestTags(options: TestOptions)
    ensures TestMessageFor(RainTest, options).tag == RAIN_TAG
    ensures TestMessageFor(TempTest, options).tag == TEMP_TAG
    ensures TestMessageFor(CustomTest, options).tag == CUSTOM_TAG
    ensures RAIN_TAG != TEMP_TAG && TEMP_TAG != CUSTOM_TAG && RAIN_TAG != CUSTOM_TAG
  {
    assert RAIN_TAG[0] != TEMP_TAG[0] && RAIN_TAG[0] != CUSTOM_TAG[0];
    assert TEMP_TAG[2] != CUSTOM_TAG[2];
  }

  /** A custom test falls back to fixed texts, and the city of the other
      kinds falls back to `Test City`. */
  lemma TestDefaults(options: TestOptions)
    ensures options.title == "" ==> TestMessageFor(CustomTest, options).title == DEFAULT_TEST_TITLE
    ensures options.body == "" ==> TestMessageFor(CustomTest, options).body == DEFAULT_TEST_BODY
    ensures options.title != "" ==> TestMessageFor(CustomTest, options).title == options.title
    ensures options.body != "" ==> TestMessageFor(CustomTest, options).body == options.body
    ensures options.city == "" ==> CityOf(options) == TEST_CITY
    ensures options.city != "" ==> CityOf(options) == options.city
  {
  }

  /** A test rain alert has the title of a real rain alert for the same city. */
  lemma TestRainLikeAlert(options: TestOptions)
    ensures TestMessageFor(RainTest, options).title == Notifications.RainAlert(CityOf(options)).title
  {
  }

  /** A test heat alert is exactly the real heat alert for a maximum of 25°C. */
  lemma TestHeatLikeAlert(options: TestOptions)
    ensures TestMessageFor(TempTest, options).title == Notifications.HeatAlert(CityOf(options), 25.0).title
    ensures TestMessageFor(TempTest, options).body == Notifications.HeatAlert(CityOf(options), 25.0).body
  {
    TwentyFive();
  }

  lemma TwentyFive()
    ensures IntToString(Round(25.0)) == "25"
  {
    assert Round(25.0) == 25;
    assert NatToString(2) == "2";
    assert NatToString(25) == NatToString(2) + [Digit(5)];
  }

  /** The service-worker side of the environment: not offered by the
      navigator, never becoming ready, failing while it is used, or ready
      with or without a controlling worker once the wait is over. */
  datatype WorkerEnv = WorkerUnsupported | WorkerNeverReady | WorkerFails | WorkerReady(controlled: bool)

  /** Where a test notification goes. */
  datatype Delivery = NotDelivered | ViaWorker(message: ServiceWorker.Message) | Direct(notice: Notice)

  /** The permission after asking for it when it is not already granted. */
  function PermissionAfterAsking(before: Permission, answer: Permission): Permission
  {
    if before == Default then answer else before
  }

  /** The channel `testNotification` uses when notifications are supported. */
  function DeliveryFor(kind: TestKind, options: TestOptions, before: Permission, answer: Permission,
                       env: WorkerEnv): (d: Delivery)
    ensures !d.NotDelivered? ==> PermissionAfterAsking(before, answer) == Granted
    ensures d.ViaWorker? ==> env == WorkerReady(true) && d.message.ShowNotificationMessage?
                             && d.message.tag == TestMessageFor(kind, options).tag
    ensures d.Direct? ==> d.notice.title == TestMessageFor(kind, options).title
                          && d.notice.tag == TestMessageFor(kind, options).tag && !d.notice.requireInteraction
  {
    var m := TestMessageFor(kind, options);
    if PermissionAfterAsking(before, answer) != Granted then NotDelivered
    else match env
      case WorkerNeverReady => NotDelivered
      case WorkerReady(true) =>
        ViaWorker(ServiceWorker.ShowNotificationMessage(m.title, m.body, m.tag, TEST_ICON, TEST_BADGE))
      case _ => Direct(Notice(m.title, m.body, TEST_ICON, TEST_BADGE, m.tag, false))
  }

  /** Without a granted permission nothing is delivered. With one, a
      controlled ready worker receives the message and nothing is created
      directly; any other worker state except one that never becomes ready
      leads to exactly one direct notification. */
  lemma DeliveryChannels(kind: TestKind, options: TestOptions, before: Permission, answer: Permission, env: WorkerEnv)
    ensures var d := DeliveryFor(kind, options, before, answer, env);
      var granted := before == Granted || (before == Default && answer == Granted);
      (d.ViaWorker? <==> granted && env == WorkerReady(true))
      && (d.Direct? <==> granted && (env.WorkerUnsupported? || env.WorkerFails? || env == WorkerReady(false)))
      && (d.NotDelivered? <==> !granted || env.WorkerNeverReady?)
  {
  }

  /** The worker displays a posted test message with the same title, body,
      tag, icon and badge as the direct path would. */
  lemma WorkerShowsSameNotification(base: string, kind: TestKind, options: TestOptions, before: Permission,
                                    answer: Permission)
    requires PermissionAfterAsking(before, answer) == Granted
    ensures var shown := ServiceWorker.MessageCalls(base, DeliveryFor(kind, options, before, answer, WorkerReady(true)).message);
      var direct := DeliveryFor(kind, options, before, answer, WorkerReady(false)).notice;
      |shown| == 1 && shown[0].ShowNotification?
      && shown[0].title == direct.title && shown[0].options.body == direct.body
      && shown[0].options.tag == direct.tag && shown[0].options.icon == direct.icon
      && shown[0].options.badge == direct.badge
      && shown[0].options.requireInteraction == direct.requireInteraction
  {
    var m := TestMessageFor(kind, options);
    assert |m.tag| > 0 by {
      assert |RAIN_TAG| > 0 && |TEMP_TAG| > 0 && |CUSTOM_TAG| > 0;
    }
    assert |TEST_ICON| > 0 && |TEST_BADGE| > 0;
  }

  /** The storage key `resetNotifications` clears. */
  const SENT_KEY: string := "meteo-pwa-notifications-sent"

  /** The console helpers and the parts of the page they act on. */
  class DevConsole {
    const api: NotificationApi
    const storage: LocalStorage
    /** Messages posted to the controlling service worker, oldest first. */
    var posted: seq<ServiceWorker.Message>

    constructor(api: NotificationApi, storage: LocalStorage)
      ensures this.api == api && this.storage == storage && posted == []
    {
      this.api := api;
      this.storage := storage;
      posted := [];
    }

    /** `testNotification(kind, options)`: checks support and permission,
        then posts to the worker or creates the notification directly, never
        both. A throwing constructor is swallowed. */
    method TestNotification(kind: TestKind, options: TestOptions, answer: Permission, env: WorkerEnv)
      modifies this, api
      ensures !api.supported ==>
        posted == old(posted) && api.shown == old(api.shown) && api.permission == old(api.permission)
      ensures api.supported ==>
        api.permission == (if old(api.permission) == Granted then Granted else PermissionAfterAsking(old(api.permission), answer))
        && match DeliveryFor(kind, options, old(api.permission), answer, env)
           case NotDelivered => posted == old(posted) && api.shown == old(api.shown)
           case ViaWorker(m) => posted == old(posted) + [m] && api.shown == old(api.shown)
           case Direct(n) =>
             posted == old(posted)
             && api.shown == old(api.shown) + if api.constructorThrows then [] else [n]
    {
      if !api.supported {
        return;
      }
      if api.permission != Granted {
        var permission := api.RequestPermission(answer);
        if permission != Granted {
          return;
        }
      }
      var m := TestMessageFor(kind, options);
      if !env.WorkerUnsupported? {
        if env.WorkerNeverReady? {
          // `await navigator.serviceWorker.ready` never settles.
          return;
        }
        if env == WorkerReady(true) {
          posted := posted + [ServiceWorker.ShowNotificationMessage(m.title, m.body, m.tag, TEST_ICON, TEST_BADGE)];
          return;
        }
      }
      var created := api.Create(Notice(m.title, m.body, TEST_ICON, TEST_BADGE, m.tag, false));
    }

    /** `resetNotifications`: forgets the record of sent notifications and
        nothing else. */
    method ResetNotifications()
      modifies storage
      ensures storage.items == old(storage.items) - {SENT_KEY}
    {
      storage.RemoveItem(SENT_KEY);
    }
  }

  /** Resetting removes exactly the record of sent notifications. */
  lemma ResetKeepsOtherItems(items: map<string, string>)
    ensures SENT_KEY !in items - {SENT_KEY}
    ensures forall k :: k != SENT_KEY ==> (k in items - {SENT_KEY} <==> k in items)
    ensures forall k :: k != SENT_KEY && k in items ==> (items - {SENT_KEY})[k] == items[k]
  {
  }
}
