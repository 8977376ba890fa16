/**
 * The client-side locale loader (providers/i18n-provider.tsx): which locale
 * to load, a flag that refuses a second load while one is in flight, what a
 * load does when its fetch succeeds or fails, and when a switch is ignored.
 * A load is split into its synchronous start and the settling of its fetch,
 * which is where the flag matters.
 */
module I18nProvider {
  import opened Wrappers

  type Messages = map<string, string>

  const AvailableLocales: seq<string> := ["en", "zh"]
  const DefaultLocale: string := "zh"
  const LocaleStorageKey: string := "csoj_locale"

  /** An unavailable target falls back to the default locale. */
  function ResolveLocale(target: string): (r: string)
    ensures r in AvailableLocales
    ensures target in AvailableLocales ==> r == target
    ensures target !in AvailableLocales ==> r == "zh"
  {
    if target in AvailableLocales then target else DefaultLocale
  }

  /** The locale loaded on mount: the saved one when it is available, else the default. */
  function InitialLocale(storage: map<string, string>): (r: string)
    ensures r in AvailableLocales
    ensures LocaleStorageKey in storage && storage[LocaleStorageKey] in AvailableLocales ==> r == storage[LocaleStorageKey]
    ensures !(LocaleStorageKey in storage && storage[LocaleStorageKey] in AvailableLocales) ==> r == "zh"
  {
    if LocaleStorageKey in storage && storage[LocaleStorageKey] != "" && storage[LocaleStorageKey] in AvailableLocales
    then storage[LocaleStorageKey]
    else DefaultLocale
  }

  /** The fetch in flight: the locale it fetches and whether to remember it. */
  datatype PendingLoad = PendingLoad(finalLocale: string, updateStorage: bool)

  datatype IntlState = IntlState(
    locale: Option<string>,
    messages: Option<Messages>,
    isLoading: bool,
    loadingRef: bool,
    pending: Option<PendingLoad>,
    storage: map<string, string>)

  /** The state before the mount effect runs. */
  function Initial(storage: map<string, string>): IntlState {
    IntlState(None, None, true, false, None, storage)
  }

  /**
   * The synchronous start of `loadMessages`; the flag says whether a fetch
   * was started. While a load is in flight nothing changes.
   */
  function BeginLoad(s: IntlState, target: string, updateStorage: bool): (r: (IntlState, bool))
    ensures s.loadingRef ==> r == (s, false)
    ensures !s.loadingRef ==> r.1 && r.0 == s.(isLoading := true, loadingRef := true,
                                                pending := Some(PendingLoad(ResolveLocale(target), updateStorage)))
  {
    if s.loadingRef then (s, false)
    else (s.(isLoading := true, loadingRef := true,
             pending := Some(PendingLoad(ResolveLocale(target), updateStorage))), true)
  }

  /**
   * The fetch of the pending load settled with the parsed messages, or with
   * `None` when it failed. Success installs the locale and its messages and
   * writes storage only when asked to; failure keeps a loaded locale, or
   * falls back to the default locale with no messages. Either way the load
   * is over.
   */
  function Settle(s: IntlState, fetched: Option<Messages>): (r: (IntlState, bool))
    requires s.pending.Some?
    ensures r.1 <==> fetched.Some?
    ensures !r.0.isLoading && !r.0.loadingRef && r.0.pending.None?
    ensures fetched.Some? ==> r.0.locale == Some(s.pending.value.finalLocale) && r.0.messages == fetched
    ensures fetched.Some? && s.pending.value.updateStorage ==>
      r.0.storage == s.storage[LocaleStorageKey := s.pending.value.finalLocale]
    ensures !(fetched.Some? && s.pending.value.updateStorage) ==> r.0.storage == s.storage
    ensures fetched.None? && Truthy(s.locale) ==> r.0.locale == s.locale && r.0.messages == s.messages
    ensures fetched.None? && !Truthy(s.locale) ==> r.0.locale == Some("zh") && r.0.messages == Some(map[])
  {
    var load := s.pending.value;
    var done := s.(isLoading := false, loadingRef := false, pending := None);
    match fetched
    case Some(m) =>
      var storage := if load.updateStorage then s.storage[LocaleStorageKey := load.finalLocale] else s.storage;
      (done.(messages := Some(m), locale := Some(load.finalLocale), storage := storage), true)
    case None =>
      if Truthy(s.locale) then (done, false)
      else (done.(messages := Some(map[]), locale := Some(DefaultLocale)), false)
  }

  /** `switchLocale`: ignored for an unavailable locale, the current locale, or while a load is in flight. */
  function Switch(s: IntlState, newLocale: string): (r: (IntlState, bool))
    ensures newLocale !in AvailableLocales || s.locale == Some(newLocale) || s.loadingRef ==> r == (s, false)
    ensures newLocale in AvailableLocales && s.locale != Some(newLocale) && !s.loadingRef ==>
      r.1 && r.0.pending == Some(PendingLoad(newLocale, true)) && r.0.locale == s.locale
    ensures newLocale in AvailableLocales && s.locale != Some(newLocale) && !s.loadingRef ==>
      r == BeginLoad(s, newLocale, true)
  {
    if newLocale !in AvailableLocales || s.locale == Some(newLocale) || s.loadingRef then (s, false)
    else BeginLoad(s, newLocale, true)
  }

  /** The full-screen loader shows while nothing is loaded yet and a load is running. */
  predicate ShowsLoader(s: IntlState) {
    (s.locale.None? || s.messages.None?) && s.isLoading
  }

  /** What holds in every reachable state. */
  predicate IntlValid(s: IntlState) {
    && (s.loadingRef <==> s.pending.Some?)
    && (s.pending.Some? ==> s.isLoading && s.pending.value.finalLocale in AvailableLocales)
    && (s.locale.Some? ==> s.locale.value in AvailableLocales)
    && (s.locale.Some? <==> s.messages.Some?)
  }

  /** What happens to the provider. */
  datatype IntlEvent = Mount | SwitchTo(newLocale: string) | FetchDone(fetched: Option<Messages>)

  function Step(s: IntlState, e: IntlEvent): IntlState {
    match e
    case Mount => BeginLoad(s, InitialLocale(s.storage), true).0
    case SwitchTo(l) => Switch(s, l).0
    case FetchDone(fetched) => if s.pending.Some? then Settle(s, fetched).0 else s
  }

  function Run(s: IntlState, events: seq<IntlEvent>): IntlState
    decreases |events|
  {
    if events == [] then s else Run(Step(s, events[0]), events[1..])
  }

  lemma StepValid(s: IntlState, e: IntlEvent)
    requires IntlValid(s)
    ensures IntlValid(Step(s, e))
  {
  }

  /**
   * From any starting storage, every reachable state keeps the invariant:
   * a loaded locale is always "en" or "zh", it always comes with messages,
   * and at most one fetch is in flight, exactly while the flag is set.
   */
  lemma {:induction false} RunValid(s: IntlState, events: seq<IntlEvent>)
    requires IntlValid(s)
    ensures IntlValid(Run(s, events))
    decreases |events|
  {
    if events != [] {
      StepValid(s, events[0]);
      RunValid(Step(s, events[0]), events[1..]);
    }
  }

  lemma InitialValid(storage: map<string, string>)
    ensures IntlValid(Initial(storage))
    ensures ShowsLoader(Initial(storage))
  {
  }

  /** Once a locale is loaded it never goes away, and the loader never shows again. */
  lemma {:induction false} LocaleStaysLoaded(s: IntlState, events: seq<IntlEvent>)
    requires IntlValid(s) && s.locale.Some?
    ensures Run(s, events).locale.Some? && !ShowsLoader(Run(s, events))
    decreases |events|
  {
    if events != [] {
      StepValid(s, events[0]);
      LocaleStaysLoaded(Step(s, events[0]), events[1..]);
    }
  }

  class ClientIntlProvider {
    var locale: Option<string>
    var messages: Option<Messages>
    var isLoading: bool
    var loadingRef: bool
    var pending: Option<PendingLoad>
    var storage: map<string, string>

    function State(): IntlState
      reads this
    {
      IntlState(locale, messages, isLoading, loadingRef, pending, storage)
    }

    constructor(storage: map<string, string>)
      ensures State() == Initial(storage)
    {
      locale := None;
      messages := None;
      isLoading := true;
      loadingRef := false;
      pending := None;
      this.storage := storage;
    }

    method LoadMessages(targetLocale: string, updateStorage: bool) returns (started: bool)
      modifies this
      ensures (State(), started) == BeginLoad(old(State()), targetLocale, updateStorage)
    {
      if loadingRef {
        return false;
      }
      loadingRef := true;
      isLoading := true;
      var finalLocale := if targetLocale in AvailableLocales then targetLocale else DefaultLocale;
      pending := Some(PendingLoad(finalLocale, updateStorage));
      return true;
    }

    /** The mount effect: load the saved locale, or the default, and remember it. */
    method OnMount() returns (started: bool)
      modifies this
      ensures (State(), started) == BeginLoad(old(State()), InitialLocale(old(storage)), true)
    {
      var initialLocale := DefaultLocale;
      if LocaleStorageKey in storage {
        var savedLocale := storage[LocaleStorageKey];
        if savedLocale != "" && savedLocale in AvailableLocales {
          initialLocale := savedLocale;
        }
      }
      started := LoadMessages(initialLocale, true);
    }

    method FetchSettled(fetched: Option<Messages>) returns (success: bool)
      requires pending.Some?
      modifies this
      ensures (State(), success) == Settle(old(State()), fetched)
    {
      var load := pending.value;
      match fetched {
        case Some(m) =>
          messages := Some(m);
          locale := Some(load.finalLocale);
          if load.updateStorage {
            storage := storage[LocaleStorageKey := load.finalLocale];
          }
          success := true;
        case None =>
          if !(locale.Some? && locale.value != "") {
            messages := Some(map[]);
            locale := Some(DefaultLocale);
          }
          success := false;
      }
      isLoading := false;
      loadingRef := false;
      pending := None;
    }

    method SwitchLocale(newLocale: string) returns (started: bool)
      modifies this
      ensures (State(), started) == Switch(old(State()), newLocale)
    {
      if newLocale !in AvailableLocales || locale == Some(newLocale) || loadingRef {
        return false;
      }
      started := LoadMessages(newLocale, true);
    }
  }
}
