/**
 * The theme provider: a two-valued display mode that is read once from
 * local storage, changed by `toggleTheme` and `setTheme`, and mirrored by an
 * effect into the root element's `dark` class and back into storage.
 */
module Theme {
  import opened Common

  datatype Mode = Recruiter | Geek

  /** The storage key under which the mode is persisted. */
  const ThemeStorageKey: string := "portfolio-theme-mode"

  /** The provider's `defaultMode` when none is given. */
  const DefaultTheme: Mode := Recruiter

  /** The string stored for each mode. */
  function ModeName(m: Mode): string {
    match m
    case Recruiter => "recruiter"
    case Geek => "geek"
  }

  /** What `localStorage.getItem` produced: an exception, or the stored value if any. */
  datatype StorageRead = ReadThrew | ReadValue(stored: Option<string>)

  /** The read the initializer performs against a store that may refuse access. */
  function ReadTheme(store: map<string, string>, readFails: bool): StorageRead {
    if readFails then ReadThrew
    else if ThemeStorageKey in store then ReadValue(Some(store[ThemeStorageKey]))
    else ReadValue(None)
  }

  /** The `useState` initializer: the stored mode when the stored string is
      exactly one of the two mode names, otherwise `defaultMode` (also when
      the read throws, which is caught and not propagated). */
  function InitialMode(read: StorageRead, defaultMode: Mode): (m: Mode)
    ensures forall k: Mode :: read == ReadValue(Some(ModeName(k))) ==> m == k
    ensures read != ReadValue(Some(ModeName(Recruiter))) && read != ReadValue(Some(ModeName(Geek))) ==> m == defaultMode
  {
    if read == ReadValue(Some("recruiter")) then Recruiter
    else if read == ReadValue(Some("geek")) then Geek
    else defaultMode
  }

  /** The `toggleTheme` updater: always the other mode. */
  function Toggled(m: Mode): (r: Mode)
    ensures r != m
  {
    if m == Recruiter then Geek else Recruiter
  }

  /** Toggling twice restores the original mode. */
  lemma ToggleTwice(m: Mode)
    ensures Toggled(Toggled(m)) == m
  {
  }

  /** The mode after `n` toggles from `m`. */
  function ToggledTimes(m: Mode, n: nat): Mode {
    if n == 0 then m else Toggled(ToggledTimes(m, n - 1))
  }

  /** An even number of toggles returns to the start; an odd number gives the other mode. */
  lemma {:induction false} ToggleParity(m: Mode, n: nat)
    ensures ToggledTimes(m, n) == if n % 2 == 0 then m else Toggled(m)
  {
    if n > 0 {
      ToggleParity(m, n - 1);
    }
  }

  /** The store after the effect's write: the mode under the theme key, or,
      when the write throws, the store as it was (the error is swallowed). */
  function SyncedStore(store: map<string, string>, m: Mode, writeFails: bool): map<string, string> {
    if writeFails then store else store[ThemeStorageKey := ModeName(m)]
  }

  /** A successful write survives a reload: a fresh provider reading the same
      store starts in the written mode, whatever its own default. */
  lemma ReloadRestoresMode(store: map<string, string>, m: Mode, defaultMode: Mode)
    ensures InitialMode(ReadTheme(SyncedStore(store, m, false), false), defaultMode) == m
  {
  }

  /** What consumers read from the context. */
  datatype ThemeContextValue = ThemeContextValue(mode: Mode, isRecruiterMode: bool, isGeekMode: bool)

  /** The value the provider publishes for a mode: exactly one of the two flags holds. */
  function ContextValueOf(m: Mode): (v: ThemeContextValue)
    ensures v.mode == m
    ensures v.isRecruiterMode != v.isGeekMode
    ensures v.isGeekMode <==> m == Geek
  {
    ThemeContextValue(m, m == Recruiter, m == Geek)
  }

  const OutsideProviderMessage: string :=
    "useTheme must be used within a ThemeProvider. Please wrap your component tree with <ThemeProvider>."

  /** `useTheme`: the nearest provider's value, or the error it throws when
      there is no provider above the caller. */
  function UseTheme(context: Option<ThemeContextValue>): (r: Result<ThemeContextValue>)
    ensures context.None? <==> r.Err?
    ensures r.Err? ==> r.message == OutsideProviderMessage
    ensures context.Some? ==> r.Ok? && r.value == context.value
  {
    match context
    case None => Err(OutsideProviderMessage)
    case Some(v) => Ok(v)
  }

  /** The provider instance: its mode state, the root element's `dark` class,
      and the local storage it persists to. */
  class ThemeProvider {
    var mode: Mode
    var darkFlag: bool
    var store: map<string, string>

    /** The rendered state agrees with the mode: `dark` is present iff the mode is geek. */
    ghost predicate Synced()
      reads this
    {
      darkFlag == (mode == Geek)
    }

    /** Mounting: the initializer runs against the current store; nothing is
        written and the root class is untouched until the effect runs. */
    constructor (initialStore: map<string, string>, readFails: bool, initialDark: bool, defaultMode: Mode)
      ensures mode == InitialMode(ReadTheme(initialStore, readFails), defaultMode)
      ensures store == initialStore && darkFlag == initialDark
    {
      mode := InitialMode(ReadTheme(initialStore, readFails), defaultMode);
      store := initialStore;
      darkFlag := initialDark;
    }

    /** The effect that runs after each render in which the mode changed (and
        after the first): set or clear `dark`, then try to persist the mode. */
    method SyncEffect(writeFails: bool)
      modifies this
      ensures Synced()
      ensures mode == old(mode)
      ensures store == SyncedStore(old(store), mode, writeFails)
      ensures !writeFails ==> ThemeStorageKey in store && store[ThemeStorageKey] == ModeName(mode)
    {
      if mode == Geek {
        darkFlag := true;
      } else {
        darkFlag := false;
      }
      if !writeFails {
        store := store[ThemeStorageKey := ModeName(mode)];
      }
    }

    /** `toggleTheme`: the mode always changes, so the effect follows. */
    method ToggleTheme(writeFails: bool)
      modifies this
      ensures mode == Toggled(old(mode))
      ensures Synced()
      ensures store == SyncedStore(old(store), mode, writeFails)
    {
      mode := Toggled(mode);
      SyncEffect(writeFails);
    }

    /** `setTheme(newMode)`: the mode becomes `newMode`; the effect runs only
        when that changed it, since an unchanged state does not re-render. */
    method SetTheme(newMode: Mode, writeFails: bool)
      requires Synced()
      modifies this
      ensures mode == newMode
      ensures Synced()
      ensures store == if newMode == old(mode) then old(store) else SyncedStore(old(store), newMode, writeFails)
    {
      if newMode != mode {
        mode := newMode;
        SyncEffect(writeFails);
      }
    }

    /** The context value published for the current state. */
    function Value(): (v: ThemeContextValue)
      reads this
      ensures v == ContextValueOf(mode)
    {
      ContextValueOf(mode)
    }
  }

  /** Fresh storage, default recruiter: the provider starts in recruiter mode,
      a toggle makes it geek, and a reload restores geek. */
  method ToggleThenReload()
  {
    var p := new ThemeProvider(map[], false, false, Recruiter);
    assert p.mode == Recruiter;
    p.SyncEffect(false);
    p.ToggleTheme(false);
    assert p.mode == Geek && p.Value().isGeekMode && p.darkFlag;
    var reloaded := new ThemeProvider(p.store, false, p.darkFlag, Recruiter);
    assert reloaded.mode == Geek;
  }

  /** A stored garbage string is ignored in favour of the default. */
  method GarbageIgnored()
  {
    var p := new ThemeProvider(map[ThemeStorageKey := "xyz"], false, false, Recruiter);
    assert p.mode == Recruiter;
  }
}
