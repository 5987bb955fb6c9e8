/**
 * Localization (l10n/l10n.go): per-language bundles of message texts, and a
 * localizer that picks the bundle for a request, falling back to one default
 * language.
 */
module L10n {
  import opened Wrappers

  /**
   * One language's messages. Bundles are never changed once loaded, so a
   * bundle is a value here.
   */
  datatype Bundle = Bundle(localeCode: string, displayName: string, messages: map<string, string>) {

    /** `L10nBundle.Get`: the message text for `key`, or `key` itself when the bundle lacks it. */
    function Get(key: string): (text: string)
      ensures key in messages ==> text == messages[key]
      ensures key !in messages ==> text == key
    {
      if key in messages then messages[key] else key
    }
  }

  /** `NewBundle`: a placeholder bundle that translates every key to itself. */
  function NewBundle(): (b: Bundle)
    ensures b.localeCode == "empty" && b.displayName == "Inexistent language"
    ensures forall key :: b.Get(key) == key
  {
    Bundle("empty", "Inexistent language", map[])
  }

  datatype L10nError = AlreadyAdded

  /** A set of bundles indexed by locale code, with a fallback locale. */
  class Localizer {
    const fallbackLocale: string
    var bundles: map<string, Bundle>

    /** Every bundle is registered under its own locale code. */
    ghost predicate Valid()
      reads this
    {
      forall code :: code in bundles ==> bundles[code].localeCode == code
    }

    /** `NewLocalizer(fallbackLocale)`: no bundles yet. */
    constructor (fallbackLocale: string)
      ensures Valid()
      ensures this.fallbackLocale == fallbackLocale && bundles == map[]
    {
      this.fallbackLocale := fallbackLocale;
      bundles := map[];
    }

    /**
     * `AddBundle(bundle)`: register the bundle under its locale code, unless
     * that code is already taken; then report an error and keep the first.
     */
    method AddBundle(bundle: Bundle) returns (err: Option<L10nError>)
      requires Valid()
      modifies this`bundles
      ensures Valid()
      ensures err.Some? <==> bundle.localeCode in old(bundles)
      ensures bundle.localeCode in old(bundles) ==> bundles == old(bundles)
      ensures bundle.localeCode !in old(bundles) ==> bundles == old(bundles)[bundle.localeCode := bundle]
    {
      if bundle.localeCode in bundles {
        return Some(AlreadyAdded);
      }
      bundles := bundles[bundle.localeCode := bundle];
      err := None;
    }

    /**
     * `Get(key, lng)`: the text for `key` in language `lng`. A registered
     * language answers on its own, with `key` for a message it lacks; the
     * fallback bundle is consulted only for an unregistered language; with
     * neither, the key itself is the text.
     */
    function Get(key: string, lng: string): (text: string)
      reads this
      ensures lng in bundles ==> text == bundles[lng].Get(key)
      ensures lng in bundles && key !in bundles[lng].messages ==> text == key
      ensures lng !in bundles && fallbackLocale in bundles ==> text == bundles[fallbackLocale].Get(key)
      ensures lng !in bundles && fallbackLocale !in bundles ==> text == key
    {
      if lng in bundles then bundles[lng].Get(key)
      else if fallbackLocale in bundles then bundles[fallbackLocale].Get(key)
      else key
    }
  }

  /**
   * A localizer without bundles, as `NewLocalizer` returns it, answers every
   * request with the key; once a bundle is registered for the fallback
   * locale, every unregistered language is answered from it. In a valid
   * localizer the bundle that answers carries the requested locale code, or
   * the fallback's.
   */
  lemma LocalizerResolution(loc: Localizer, key: string, lng: string)
    ensures loc.bundles == map[] ==> loc.Get(key, lng) == key
    ensures lng !in loc.bundles && loc.fallbackLocale in loc.bundles ==>
              loc.Get(key, lng) == loc.bundles[loc.fallbackLocale].Get(key)
    ensures loc.Get(key, lng) == key
            || (lng in loc.bundles && loc.Get(key, lng) in loc.bundles[lng].messages.Values)
            || (lng !in loc.bundles && loc.fallbackLocale in loc.bundles
                && loc.Get(key, lng) in loc.bundles[loc.fallbackLocale].messages.Values)
    ensures loc.Valid() && lng in loc.bundles ==> loc.bundles[lng].localeCode == lng
    ensures loc.Valid() && lng !in loc.bundles && loc.fallbackLocale in loc.bundles ==>
              loc.bundles[loc.fallbackLocale].localeCode == loc.fallbackLocale
  {
  }
}
