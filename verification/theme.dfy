/** The theme provider: a theme string shared with every consumer, a flag
    telling whether the provider has mounted, and the browser storage the
    theme is loaded from and saved to (a string-to-string map here). Each
    event is followed by the persistence effect that React runs after the
    resulting render; writes to the document element are not modelled. */
module Theme {
  import opened Optional

  /** The storage key the preference lives under. */
  const StorageKey: string := "admybrand-theme"

  type Storage = map<string, string>

  /** `ThemeProvider`'s state together with the storage it sees. */
  datatype Provider = Provider(theme: string, mounted: bool, storage: Storage)

  /** The first render: dark, not mounted, storage as the browser holds it. */
  function Initial(storage: Storage): Provider {
    Provider("dark", false, storage)
  }

  /** `localStorage.getItem(key) || 'dark'`: the saved string unchecked, or
      dark when nothing (or the empty string) is saved. */
  function SavedTheme(storage: Storage): (t: string)
    ensures t != ""
    ensures StorageKey in storage && storage[StorageKey] != "" ==> t == storage[StorageKey]
    ensures !(StorageKey in storage && storage[StorageKey] != "") ==> t == "dark"
  {
    if StorageKey in storage && storage[StorageKey] != "" then storage[StorageKey] else "dark"
  }

  /** `toggleTheme`'s updater: dark becomes light, anything else becomes dark. */
  function ToggleTheme(t: string): (r: string)
    ensures r == "dark" || r == "light"
    ensures r == "light" <==> t == "dark"
  {
    if t == "dark" then "light" else "dark"
  }

  /** Toggling twice restores either of the two themes the toggle produces. */
  lemma ToggleTwiceRestores(t: string)
    requires t == "dark" || t == "light"
    ensures ToggleTheme(ToggleTheme(t)) == t
  {
  }

  /** An unrecognised saved theme is not restored by two toggles. */
  lemma ToggleTwiceNormalises()
    ensures ToggleTheme(ToggleTheme("blue")) == "light"
  {
  }

  /** The persistence effect: once mounted, save the theme under the key. */
  function Persist(p: Provider): (q: Provider)
    ensures q.theme == p.theme && q.mounted == p.mounted
    ensures !p.mounted ==> q.storage == p.storage
    ensures p.mounted ==> StorageKey in q.storage && q.storage[StorageKey] == p.theme
    ensures forall k :: k in p.storage && k != StorageKey ==> k in q.storage && q.storage[k] == p.storage[k]
    ensures q.storage.Keys <= p.storage.Keys + {StorageKey}
  {
    if p.mounted then p.(storage := p.storage[StorageKey := p.theme]) else p
  }

  /** What can happen to a provider: the mount effect, or a toggle. */
  datatype Event = LoadEffect | Toggle

  /** The mount effect has no dependencies, so only its first run does anything. */
  function Load(p: Provider): (q: Provider)
    ensures q.mounted && q.storage == p.storage
    ensures !p.mounted ==> q.theme == SavedTheme(p.storage)
    ensures p.mounted ==> q == p
  {
    if p.mounted then p else p.(theme := SavedTheme(p.storage), mounted := true)
  }

  /** One event and the persistence effect after it. The mount effect mounts
      for good; a toggle flips the theme; once mounted, storage holds the
      current theme; before mounting nothing is written; no other key changes. */
  function Step(p: Provider, e: Event): (q: Provider)
    ensures q.mounted <==> p.mounted || e == LoadEffect
    ensures e == Toggle ==> q.theme == ToggleTheme(p.theme)
    ensures q.mounted ==> StorageKey in q.storage && q.storage[StorageKey] == q.theme
    ensures !q.mounted ==> q.storage == p.storage
    ensures forall k :: k in p.storage && k != StorageKey ==> k in q.storage && q.storage[k] == p.storage[k]
    ensures q.storage.Keys <= p.storage.Keys + {StorageKey}
  {
    match e
    case LoadEffect => Persist(Load(p))
    case Toggle => Persist(p.(theme := ToggleTheme(p.theme)))
  }

  /** The provider after a sequence of events from its first render: it is
      consistent with the storage it started from, and mounted exactly when the
      mount effect has run. */
  function Run(storage: Storage, events: seq<Event>): (p: Provider)
    ensures Consistent(p, storage)
    ensures p.mounted <==> LoadEffect in events
    decreases |events|
  {
    if |events| == 0 then Initial(storage)
    else
      assert events == events[..|events| - 1] + [events[|events| - 1]];
      Step(Run(storage, events[..|events| - 1]), events[|events| - 1])
  }

  /** What the provider keeps true: nothing is written before mounting, after
      mounting the stored theme is the current theme, and no other key changes. */
  ghost predicate Consistent(p: Provider, original: Storage) {
    && (!p.mounted ==> p.storage == original)
    && (p.mounted ==> StorageKey in p.storage && p.storage[StorageKey] == p.theme)
    && (forall k :: k in original && k != StorageKey ==> k in p.storage && p.storage[k] == original[k])
    && p.storage.Keys <= original.Keys + {StorageKey}
  }

  /** Every event preserves consistency. */
  lemma StepConsistent(p: Provider, e: Event, original: Storage)
    requires Consistent(p, original)
    ensures Consistent(Step(p, e), original)
    ensures p.mounted ==> Step(p, e).mounted
  {
  }

  /** Once mounted, the provider stays mounted whatever happens next. */
  lemma MountedStays(storage: Storage, events: seq<Event>, later: seq<Event>)
    requires Run(storage, events).mounted
    ensures Run(storage, events + later).mounted
  {
    assert LoadEffect in events;
  }

  /** Before the mount effect the theme is dark and storage is untouched;
      after it the theme is the saved one and it has been written back. */
  lemma MountLoadsSavedTheme(storage: Storage)
    ensures Run(storage, []) == Provider("dark", false, storage)
    ensures Run(storage, [LoadEffect]).theme == SavedTheme(storage)
    ensures Run(storage, [LoadEffect]).mounted
    ensures Run(storage, [LoadEffect]).storage == storage[StorageKey := SavedTheme(storage)]
  {
    assert [LoadEffect][..0] == [];
  }

  /** Mounting with nothing saved and toggling twice ends dark, and dark is
      what storage holds. */
  lemma ToggleTwiceAfterMount(storage: Storage)
    requires StorageKey !in storage
    ensures Run(storage, [LoadEffect, Toggle, Toggle]).theme == "dark"
    ensures var s := Run(storage, [LoadEffect, Toggle, Toggle]).storage;
            StorageKey in s && s[StorageKey] == "dark"
  {
    var evs := [LoadEffect, Toggle, Toggle];
    assert evs[..2] == [LoadEffect, Toggle];
    assert evs[..2][..1] == [LoadEffect];
    assert [LoadEffect][..0] == [];
  }

  // ---------------------------------------------------------------------------
  // Context access

  /** What consumers receive: the theme and the mounted flag (and the toggle). */
  datatype ThemeValue = ThemeValue(theme: string, mounted: bool)

  /** `useTheme`: the provider's value, or an error outside any provider. */
  function UseTheme(context: Option<ThemeValue>): (r: Result<ThemeValue>)
    ensures r.Failure? <==> context.None?
    ensures r.Success? ==> r.value == context.value
    ensures r.Failure? ==> r.error == "useTheme must be used within a ThemeProvider"
  {
    match context
    case None => Failure("useTheme must be used within a ThemeProvider")
    case Some(v) => Success(v)
  }
}
