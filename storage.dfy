/** The browser's key-value store as the application uses it: four independent
    keys, each holding one typed value or nothing, and the service that reads,
    writes and seeds them (src/services/localStorage.service.ts). */
module LocalStorageService {
  import opened Types

  /** The four storage keys. */
  datatype Key = UsersKey | PromotionsKey | SessionKey | SettingsKey

  /** The key's name in the browser store. */
  function KeyName(k: Key): string {
    match k
    case UsersKey => "petstore:users"
    case PromotionsKey => "petstore:promotions"
    case SessionKey => "petstore:session"
    case SettingsKey => "petstore:settings"
  }

  /** No two keys share a name, so a write under one key never touches another. */
  lemma KeyNamesDistinct(a: Key, b: Key)
    requires a != b
    ensures KeyName(a) != KeyName(b)
  {
  }

  /** What the session key holds: a session record, or text that does not parse
      (written by something other than this application). */
  datatype SessionEntry = Stored(user: AuthUser) | Unparsable

  /** Accessibility settings. */
  datatype Settings = Settings(contrast: int, fontSize: int)

  /** The contents of the store: one optional entry per key; `None` is an absent key.
      Field `users` is the key `KeyName(UsersKey)`, `promotions` is
      `KeyName(PromotionsKey)`, and so on. The hooks name their keys by literal
      strings equal to these names, so they reach the same fields as the service. */
  datatype Slots = Slots(
    users: Option<seq<User>>,
    promotions: Option<seq<Promotion>>,
    session: Option<SessionEntry>,
    settings: Option<Settings>)

  /** A store in which no key is present. */
  const NoKeys := Slots(None, None, None, None)

  /** The browser store, a single mutable object shared by the service and the hooks. */
  class LocalStore {
    var slots: Slots

    /** The store as the previous page loads left it. */
    constructor (persisted: Slots)
      ensures slots == persisted
    {
      slots := persisted;
    }
  }

  /** What reading the session key yields: nothing, a session, or a parse failure
      (the source's `JSON.parse` throws). */
  datatype SessionRead = NoSession | Session(user: AuthUser) | ParseFailure

  const DefaultSettings := Settings(50, 50)

  // ---- reads: each looks at its own key only ----

  /** The stored user list, or `[]` when the key is absent. */
  function GetUsers(s: Slots): (users: seq<User>)
    ensures s.users.Some? ==> users == s.users.value
    ensures s.users.None? ==> users == []
  {
    s.users.GetOr([])
  }

  /** The stored session; text that does not parse is reported as `ParseFailure`
      where the source's `JSON.parse` throws. */
  function GetSession(s: Slots): (r: SessionRead)
    ensures r == NoSession <==> s.session.None?
    ensures r == ParseFailure <==> s.session == Some(Unparsable)
    ensures r.Session? ==> s.session == Some(Stored(r.user))
  {
    match s.session
    case None => NoSession
    case Some(Stored(u)) => Session(u)
    case Some(Unparsable) => ParseFailure
  }

  /** The stored promotion list, or `[]` when the key is absent. */
  function GetPromotions(s: Slots): (promotions: seq<Promotion>)
    ensures s.promotions.Some? ==> promotions == s.promotions.value
    ensures s.promotions.None? ==> promotions == []
  {
    s.promotions.GetOr([])
  }

  /** The stored settings, or contrast 50 and font size 50 when the key is absent. */
  function GetSettings(s: Slots): (settings: Settings)
    ensures s.settings.Some? ==> settings == s.settings.value
    ensures s.settings.None? ==> settings == DefaultSettings
  {
    s.settings.GetOr(DefaultSettings)
  }

  /** A read of an absent key yields the documented default. */
  lemma AbsentKeysReadDefaults(s: Slots)
    ensures s.users.None? ==> GetUsers(s) == []
    ensures s.promotions.None? ==> GetPromotions(s) == []
    ensures s.session.None? ==> GetSession(s) == NoSession
    ensures s.settings.None? ==> GetSettings(s) == Settings(50, 50)
  {
  }

  // ---- writes: each overwrites its own key and leaves the other three alone ----

  method SaveUsers(st: LocalStore, users: seq<User>)
    modifies st
    ensures st.slots == old(st.slots).(users := Some(users))
    ensures GetUsers(st.slots) == users
  {
    st.slots := st.slots.(users := Some(users));
  }

  method SaveSession(st: LocalStore, session: AuthUser)
    modifies st
    ensures st.slots == old(st.slots).(session := Some(Stored(session)))
    ensures GetSession(st.slots) == Session(session)
  {
    st.slots := st.slots.(session := Some(Stored(session)));
  }

  method ClearSession(st: LocalStore)
    modifies st
    ensures st.slots == old(st.slots).(session := None)
    ensures GetSession(st.slots) == NoSession
  {
    st.slots := st.slots.(session := None);
  }

  method SavePromotions(st: LocalStore, promotions: seq<Promotion>)
    modifies st
    ensures st.slots == old(st.slots).(promotions := Some(promotions))
    ensures GetPromotions(st.slots) == promotions
  {
    st.slots := st.slots.(promotions := Some(promotions));
  }

  method SaveSettings(st: LocalStore, settings: Settings)
    modifies st
    ensures st.slots == old(st.slots).(settings := Some(settings))
    ensures GetSettings(st.slots) == settings
  {
    st.slots := st.slots.(settings := Some(settings));
  }

  // ---- seeding ----

  const AdminUser := User("admin@petstore.com", "admin123")

  /** The two sample promotions the service seeds (dates: 2024-01-15 = day 19737,
      2024-02-15 = 19768, 2024-01-10 = 19732, 2024-01-31 = 19753). */
  const SamplePromotions: seq<Promotion> := [
    Promotion("1", "Descuento Alimento Premium",
              "Obtén 20% de descuento en alimentos premium para perros y gatos",
              "alimento", 20, 19737, 19768, "dog-products", Some(true), Some(["1", "2"])),
    Promotion("2", "Juguetes para Gatos",
              "Compra 2 y llévate 1 gratis en toda la línea de juguetes para gatos",
              "juguetes", 33, 19732, 19753, "cat-products", Some(true), Some(["5", "6"]))
  ]

  /** The store after `initializeDefaults`: an empty (or absent) user list gets the
      admin user, an empty (or absent) promotion list gets the samples; a non-empty
      collection, the session and the settings are left as they were. */
  function SeedDefaults(s: Slots): (r: Slots)
    ensures r.session == s.session && r.settings == s.settings
    ensures GetUsers(s) != [] ==> r.users == s.users
    ensures GetUsers(s) == [] ==> GetUsers(r) == [AdminUser]
    ensures GetPromotions(s) != [] ==> r.promotions == s.promotions
    ensures GetPromotions(s) == [] ==> GetPromotions(r) == SamplePromotions
    ensures GetUsers(r) != [] && GetPromotions(r) != []
  {
    var users := if |GetUsers(s)| == 0 then Some([AdminUser]) else s.users;
    var promotions := if |GetPromotions(s)| == 0 then Some(SamplePromotions) else s.promotions;
    s.(users := users, promotions := promotions)
  }

  /** Seeding twice leaves the store as seeding once does. */
  lemma SeedDefaultsIdempotent(s: Slots)
    ensures SeedDefaults(SeedDefaults(s)) == SeedDefaults(s)
  {
  }

  method InitializeDefaults(st: LocalStore)
    modifies st
    ensures st.slots == SeedDefaults(old(st.slots))
  {
    var users := GetUsers(st.slots);
    if |users| == 0 {
      SaveUsers(st, [AdminUser]);
    }
    var promotions := GetPromotions(st.slots);
    if |promotions| == 0 {
      SavePromotions(st, SamplePromotions);
    }
  }
}
