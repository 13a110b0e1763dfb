/** The translation lookup of src/context/i18n-context.tsx: `getNested`
    walks a dot-separated key through a translation table, `t` falls back
    from the current language to English and then to the key itself, and
    the provider picks its initial language from the browser.  The four
    translation tables are parameters: their data files are not part of
    this model. */
module I18nContext {
  import opened Wrappers
  import opened Strings
  import opened JsObjects

  datatype Language = En | Zh | Ja | Ko

  function LanguageCode(language: Language): string
  {
    match language
    case En => "en"
    case Zh => "zh"
    case Ja => "ja"
    case Ko => "ko"
  }

  /** `['en', 'zh', 'ja', 'ko'].includes(code)`, with the language it names. */
  function ParseLanguage(code: string): (r: Option<Language>)
    ensures forall language :: r == Some(language) <==> LanguageCode(language) == code
  {
    if code == "en" then Some(En)
    else if code == "zh" then Some(Zh)
    else if code == "ja" then Some(Ja)
    else if code == "ko" then Some(Ko)
    else None
  }

  /** A value reached from a translation table: missing (`undefined`), a
      string, a nested object with its own keys, or the member `name` a
      table object inherits from `Object.prototype` (a function, or the
      prototype object for `__proto__`). */
  datatype Value = Undefined | Str(s: string) | Obj(fields: map<string, Value>) | Inherited(name: string)

  /** JavaScript truthiness: objects and inherited members always, strings
      when non-empty. */
  predicate Truthy(v: Value)
  {
    v.Obj? || v.Inherited? || (v.Str? && v.s != "")
  }

  /** The property `part` of `v`, when it has one: an own key first, then
      an inherited name. */
  function Lookup(v: Value, part: string): (r: Option<Value>)
    ensures r.Some? <==> v.Obj? && (part in v.fields || part in InheritedNames)
    ensures v.Obj? && part in v.fields ==> r == Some(v.fields[part])
    ensures v.Obj? && part !in v.fields && part in InheritedNames ==> r == Some(Inherited(part))
  {
    if v.Obj? && part in v.fields then Some(v.fields[part])
    else if v.Obj? && part in InheritedNames then Some(Inherited(part))
    else None
  }

  /** `acc[part]` on a value. */
  function Index(v: Value, part: string): Value
  {
    match Lookup(v, part)
    case Some(x) => x
    case None => Undefined
  }

  /** `parts.reduce((acc, part) => acc && acc[part], v)`. */
  function Walk(v: Value, parts: seq<string>): Value
    decreases |parts|
  {
    if parts == [] then v
    else Walk(if Truthy(v) then Index(v, parts[0]) else v, parts[1..])
  }

  /** `getNested(obj, path)`. */
  function GetNested(obj: Value, path: string): Value
  {
    Walk(obj, Split(path, '.'))
  }

  /** The strict reading of a path: every step must have the next key as
      a property. */
  function Resolve(v: Value, parts: seq<string>): Option<Value>
    decreases |parts|
  {
    if parts == [] then Some(v)
    else
      match Lookup(v, parts[0])
      case Some(next) => Resolve(next, parts[1..])
      case None => None
  }

  /** Once the accumulator is falsy, the walk carries it unchanged to the end. */
  lemma {:induction false} WalkStaysFalsy(v: Value, parts: seq<string>)
    requires !Truthy(v)
    ensures Walk(v, parts) == v
    decreases |parts|
  {
    if parts != [] {
      WalkStaysFalsy(v, parts[1..]);
    }
  }

  /** The walk yields a truthy value exactly when the path resolves step by
      step to a truthy value, and then it yields that value; as soon as a
      step is missing, the result is falsy. */
  lemma {:induction false} WalkMatchesResolve(v: Value, parts: seq<string>)
    ensures Truthy(Walk(v, parts)) <==> Resolve(v, parts).Some? && Truthy(Resolve(v, parts).value)
    ensures Truthy(Walk(v, parts)) ==> Resolve(v, parts) == Some(Walk(v, parts))
    decreases |parts|
  {
    if parts != [] {
      if Lookup(v, parts[0]).Some? {
        WalkMatchesResolve(Lookup(v, parts[0]).value, parts[1..]);
      } else {
        var next := if Truthy(v) then Index(v, parts[0]) else v;
        assert !Truthy(next);
        WalkStaysFalsy(next, parts[1..]);
      }
    }
  }

  /** The four bundled tables, `translations[language]`. */
  datatype Translations = Translations(en: Value, zh: Value, ja: Value, ko: Value)
  {
    function Table(language: Language): Value
    {
      match language
      case En => en
      case Zh => zh
      case Ja => ja
      case Ko => ko
    }
  }

  /** `t(key)`: the current language's entry if truthy, else the English
      entry if truthy, else the key itself. */
  function Translate(tables: Translations, language: Language, key: string): (r: Value)
    ensures Truthy(r) || r == Str(key)
  {
    var translation := GetNested(tables.Table(language), key);
    if Truthy(translation) then translation
    else
      var fallback := GetNested(tables.en, key);
      if Truthy(fallback) then fallback else Str(key)
  }

  /** A key that resolves to a truthy entry of the current table is
      translated by that entry. */
  lemma TranslateUsesCurrentLanguage(tables: Translations, language: Language, key: string, entry: Value)
    requires Resolve(tables.Table(language), Split(key, '.')) == Some(entry) && Truthy(entry)
    ensures Translate(tables, language, key) == entry
  {
    WalkMatchesResolve(tables.Table(language), Split(key, '.'));
  }

  /** A key with no truthy entry in the current table (missing, or an empty
      string) takes the English entry when that one is truthy. */
  lemma TranslateFallsBackToEnglish(tables: Translations, language: Language, key: string, entry: Value)
    requires var current := Resolve(tables.Table(language), Split(key, '.'));
             current.None? || !Truthy(current.value)
    requires Resolve(tables.en, Split(key, '.')) == Some(entry) && Truthy(entry)
    ensures Translate(tables, language, key) == entry
  {
    WalkMatchesResolve(tables.Table(language), Split(key, '.'));
    WalkMatchesResolve(tables.en, Split(key, '.'));
  }

  /** A one-segment key naming an inherited member that the current table
      does not define itself is translated to that member, a function, not
      to a string. */
  lemma TranslateInheritedName(tables: Translations, language: Language, name: string)
    requires tables.Table(language).Obj? && name in InheritedNames && name !in tables.Table(language).fields
    ensures Translate(tables, language, name) == Inherited(name)
  {
    SingleSegment(name);
    var table := tables.Table(language);
    assert Walk(table, [name]) == Walk(Index(table, name), []);
    assert GetNested(table, name) == Inherited(name);
  }

  /** An inherited name is a key of one path segment. */
  lemma SingleSegment(name: string)
    requires name in InheritedNames
    ensures Split(name, '.') == [name]
  {
    NoDotInInheritedNames(name);
    SplitSeparatorFree(name, [], '.');
    assert name + [] == name;
  }

  /** A key with no truthy entry in either table is returned unchanged. */
  lemma TranslateReturnsKey(tables: Translations, language: Language, key: string)
    requires var current := Resolve(tables.Table(language), Split(key, '.'));
             current.None? || !Truthy(current.value)
    requires var english := Resolve(tables.en, Split(key, '.'));
             english.None? || !Truthy(english.value)
    ensures Translate(tables, language, key) == Str(key)
  {
    WalkMatchesResolve(tables.Table(language), Split(key, '.'));
    WalkMatchesResolve(tables.en, Split(key, '.'));
  }

  /** The language after the provider mounts: the prefix of
      `navigator.language` before the first '-' when it is one of the four
      supported codes, otherwise the initial 'en'. */
  function MountedLanguage(navigatorLanguage: string): (language: Language)
    ensures language == En || LanguageCode(language) == Split(navigatorLanguage, '-')[0]
    ensures ParseLanguage(Split(navigatorLanguage, '-')[0]).Some? ==>
              language == ParseLanguage(Split(navigatorLanguage, '-')[0]).value
    ensures ParseLanguage(Split(navigatorLanguage, '-')[0]).None? ==> language == En
  {
    match ParseLanguage(Split(navigatorLanguage, '-')[0])
    case Some(l) => l
    case None => En
  }

  /** The provider's state: the current language, starting at English. */
  class I18nProvider {
    const translations: Translations
    var language: Language

    constructor (translations: Translations)
      ensures this.translations == translations && language == En
    {
      this.translations := translations;
      language := En;
    }

    /** The mount effect: adopt the browser language when it is supported. */
    method DetectBrowserLanguage(navigatorLanguage: string)
      modifies this
      ensures ParseLanguage(Split(navigatorLanguage, '-')[0]).Some? ==>
                language == ParseLanguage(Split(navigatorLanguage, '-')[0]).value
      ensures ParseLanguage(Split(navigatorLanguage, '-')[0]).None? ==> language == old(language)
    {
      var browserLang := Split(navigatorLanguage, '-')[0];
      var parsed := ParseLanguage(browserLang);
      if parsed.Some? {
        language := parsed.value;
      }
    }

    method SetLanguage(language: Language)
      modifies this
      ensures this.language == language
    {
      this.language := language;
    }

    function T(key: string): Value
      reads this
    {
      Translate(translations, language, key)
    }
  }

  /** `useI18n()`: the provider's context, or the error thrown outside it. */
  function UseI18n(context: Option<I18nProvider>): (r: Result<I18nProvider, string>)
    ensures r.Ok? <==> context.Some?
    ensures r.Ok? ==> r.value == context.value
    ensures r.Err? ==> r.error == "useI18n must be used within an I18nProvider"
  {
    match context
    case Some(provider) => Ok(provider)
    case None => Err("useI18n must be used within an I18nProvider")
  }
}
