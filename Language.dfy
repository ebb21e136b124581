/**
 * The language layer (src/i18n/LanguageContext.jsx): the en/fr preference,
 * its persistence under `portfolio-language`, and `t`, the dotted-path lookup
 * into the nested translation table that falls back to the key itself.
 */
module Language {
  import opened Wrappers
  import opened Strings

  datatype Lang = En | Fr

  /** The code stored in localStorage and written to `<html lang>`. */
  function Code(l: Lang): string
  {
    match l
    case En => "en"
    case Fr => "fr"
  }

  const StorageKey := "portfolio-language"

  /**
   * The initial language: a stored value of exactly "en" or "fr" wins;
   * otherwise French exactly when the browser language starts with "fr".
   */
  function InitialLanguage(saved: Option<string>, browserLanguage: string): (l: Lang)
    ensures saved == Some("en") ==> l == En
    ensures saved == Some("fr") ==> l == Fr
    ensures saved != Some("en") && saved != Some("fr") ==>
              (l == Fr <==> StartsWith(browserLanguage, "fr"))
  {
    if saved == Some("en") then En
    else if saved == Some("fr") then Fr
    else
      var prefix := if |browserLanguage| < 2 then browserLanguage else browserLanguage[..2];
      if prefix == "fr" then Fr else En
  }

  /** A language written to storage is the one chosen on the next load, whatever the browser says. */
  lemma ReloadRestores(l: Lang, browserLanguage: string)
    ensures InitialLanguage(Some(Code(l)), browserLanguage) == l
  {
  }

  /** `prev === 'en' ? 'fr' : 'en'`. */
  function Toggle(l: Lang): (r: Lang)
    ensures r != l
  {
    if l == En then Fr else En
  }

  /** Two toggles restore the original language. */
  lemma ToggleTwice(l: Lang)
    ensures Toggle(Toggle(l)) == l
  {
  }

  /** A translation table entry: a string, or a nested table (a JavaScript object). */
  datatype Value = Str(text: string) | Table(entries: map<string, Value>)

  /** `value[k]` on an object: `undefined` (None) when the key is absent. */
  function Member(m: map<string, Value>, k: string): Option<Value>
  {
    if k in m then Some(m[k]) else None
  }

  /**
   * The loop of `t`: descend one key at a time while the current value is an
   * object. `Err` is the early `return key` taken when a non-object (a string
   * or `undefined`) is reached before the keys are used up.
   */
  function Descend(value: Option<Value>, keys: seq<string>): Result<Option<Value>, ()>
    decreases |keys|
  {
    if keys == [] then Ok(value)
    else match value
      case Some(Table(m)) => Descend(Member(m, keys[0]), keys[1..])
      case _ => Err(())
  }

  /** Where `t` starts: `translations[language]`. */
  function Start(translations: Value, l: Lang): Option<Value>
  {
    match translations
    case Table(m) => Member(m, Code(l))
    case Str(_) => None
  }

  /** What `t(key)` returns: the value at the dotted path, or the key when the path fails or ends at "" or `undefined`. */
  function Translate(translations: Value, l: Lang, key: string): Value
  {
    match Descend(Start(translations, l), Split(key, "."))
    case Ok(Some(v)) => if v == Str("") then Str(key) else v
    case _ => Str(key)
  }

  /**
   * `t` never yields `undefined` or the empty string (unless the key itself is
   * empty): it returns either the key or the non-empty value the path reaches.
   */
  lemma TranslateDefined(translations: Value, l: Lang, key: string)
    ensures Translate(translations, l, key) == Str(key) ||
            Descend(Start(translations, l), Split(key, ".")) == Ok(Some(Translate(translations, l, key)))
    ensures Translate(translations, l, key) == Str("") ==> key == ""
  {
  }

  /** A path that reaches a non-object before its last segment falls back to the key. */
  lemma {:induction false} BlockedPathGivesKey(value: Option<Value>, keys: seq<string>, i: nat)
    requires i < |keys|
    requires Descend(value, keys[..i]).Ok?
    requires !(Descend(value, keys[..i]).value.Some? && Descend(value, keys[..i]).value.value.Table?)
    ensures Descend(value, keys) == Err(())
    decreases i
  {
    if i == 0 {
      assert keys[..0] == [];
    } else {
      assert keys[..i][1..] == keys[1..][..i - 1];
      match value
      case Some(Table(m)) => BlockedPathGivesKey(Member(m, keys[0]), keys[1..], i - 1);
      case _ =>
    }
  }

  /** The language context value; `useLanguage` reads it from the nearest provider. */
  datatype Context = Context(language: Lang)

  /** `useLanguage`: the provider's value, or the error it throws outside a LanguageProvider. */
  function UseLanguage(context: Option<Context>): (r: Result<Context, string>)
    ensures r.Err? <==> context.None?
    ensures r.Ok? ==> r.value == context.value
    ensures r.Err? ==> r.error == "useLanguage must be used within a LanguageProvider"
  {
    match context
    case Some(c) => Ok(c)
    case None => Err("useLanguage must be used within a LanguageProvider")
  }

  /**
   * The provider: the `language` state plus the two places the persistence
   * effect writes it (localStorage and `document.documentElement.lang`).
   */
  class LanguageProvider {
    const translations: Value
    var language: Lang
    var stored: Option<string>
    var documentLang: string

    /** The effect has mirrored the current language into storage and the document. */
    ghost predicate Valid()
      reads this
    {
      stored == Some(Code(language)) && documentLang == Code(language)
    }

    /** Mounting: the lazy initializer followed by the persistence effect. */
    constructor (translations: Value, saved: Option<string>, browserLanguage: string)
      ensures Valid()
      ensures this.translations == translations
      ensures language == InitialLanguage(saved, browserLanguage)
    {
      this.translations := translations;
      var l := InitialLanguage(saved, browserLanguage);
      language := l;
      stored := Some(Code(l));
      documentLang := Code(l);
    }

    /** `toggleLanguage` and the effect run that follows it. */
    method ToggleLanguage()
      requires Valid()
      modifies this
      ensures Valid()
      ensures language == Toggle(old(language))
    {
      language := Toggle(language);
      stored := Some(Code(language));
      documentLang := Code(language);
    }

    /** `setLanguage` (also exported by the context) and the effect run that follows it. */
    method SetLanguage(l: Lang)
      requires Valid()
      modifies this
      ensures Valid() && language == l
    {
      language := l;
      stored := Some(Code(l));
      documentLang := Code(l);
    }

    /** `t(key)`: split the key on '.' and walk the table for the current language. */
    method T(key: string) returns (r: Value)
      ensures r == Translate(translations, language, key)
      ensures r == Str("") ==> key == ""
    {
      var keys := Split(key, ".");
      var value := Start(translations, language);
      var i := 0;
      while i < |keys|
        invariant 0 <= i <= |keys|
        invariant Descend(value, keys[i..]) == Descend(Start(translations, language), keys)
      {
        assert keys[i..][1..] == keys[i + 1..];
        match value {
          case Some(Table(m)) =>
            value := Member(m, keys[i]);
          case _ =>
            return Str(key);
        }
        i := i + 1;
      }
      assert keys[i..] == [];
      if value.None? || value == Some(Str("")) {
        return Str(key);
      }
      return value.value;
    }
  }

  /** A few entries of the shipped table (src/i18n/translations.js), for the lemmas below. */
  function ShippedTable(): Value
  {
    Table(map["en" := EnStrings(), "fr" := FrStrings()])
  }

  function EnStrings(): Value
  {
    Table(map["nav" := Table(map["home" := Str("Home"), "about" := Str("About")]),
              "loading" := Table(map["text" := Str("Loading experience...")])])
  }

  function FrStrings(): Value
  {
    Table(map["nav" := Table(map["home" := Str("Accueil"), "about" := Str("À propos")]),
              "loading" := Table(map["text" := Str("Chargement...")])])
  }

  /** `t('nav.home')` is "Home" in English and "Accueil" in French, so toggling twice shows "Home" again. */
  lemma NavHome()
    ensures Translate(ShippedTable(), En, "nav.home") == Str("Home")
    ensures Translate(ShippedTable(), Toggle(En), "nav.home") == Str("Accueil")
    ensures Translate(ShippedTable(), Toggle(Toggle(En)), "nav.home") == Str("Home")
  {
    SplitNavHome();
    assert Start(ShippedTable(), En) == Some(EnStrings());
    assert Start(ShippedTable(), Fr) == Some(FrStrings());
    DescendPath(EnStrings(), "nav", "home", Str("Home"));
    DescendPath(FrStrings(), "nav", "home", Str("Accueil"));
  }

  /** A path that stops at an inner table returns the table itself, not the key. */
  lemma InnerTable()
    ensures Translate(ShippedTable(), En, "nav").Table?
  {
    SplitNoChar("nav", '.');
    assert Start(ShippedTable(), En) == Some(EnStrings());
    var nav := EnStrings().entries["nav"];
    assert Member(EnStrings().entries, "nav") == Some(nav);
    assert ["nav"][0] == "nav" && ["nav"][1..] == [];
    assert Descend(Some(EnStrings()), ["nav"]) == Descend(Some(nav), []);
  }

  /** A key whose first segment is missing (there is no `blog` section) falls back to the key. */
  lemma MissingKey()
    ensures Translate(ShippedTable(), Fr, "blog.title") == Str("blog.title")
  {
    SplitBlogTitle();
    assert Start(ShippedTable(), Fr) == Some(FrStrings());
    assert Member(FrStrings().entries, "blog") == None;
    var keys := ["blog", "title"];
    assert keys[0] == "blog" && keys[1..] == ["title"];
    assert Descend(Some(FrStrings()), keys) == Descend(None, ["title"]);
  }

  /** A path that continues past a string falls back to the key. */
  lemma PathThroughString()
    ensures Translate(ShippedTable(), En, "nav.home.x") == Str("nav.home.x")
  {
    SplitNavHomeX();
    assert Start(ShippedTable(), En) == Some(EnStrings());
    DescendPath(EnStrings(), "nav", "home", Str("Home"));
    var keys := ["nav", "home", "x"];
    assert keys[..2] == ["nav", "home"];
    BlockedPathGivesKey(Some(EnStrings()), keys, 2);
  }

  /** Descending two levels of literal tables. */
  lemma DescendPath(root: Value, k1: string, k2: string, v: Value)
    requires root.Table? && k1 in root.entries && root.entries[k1].Table?
    requires k2 in root.entries[k1].entries && root.entries[k1].entries[k2] == v
    ensures Descend(Some(root), [k1, k2]) == Ok(Some(v))
  {
    var inner := root.entries[k1];
    assert Member(root.entries, k1) == Some(inner);
    assert Member(inner.entries, k2) == Some(v);
    assert [k1, k2][0] == k1 && [k1, k2][1..] == [k2];
    assert Descend(Some(root), [k1, k2]) == Descend(Some(inner), [k2]);
    assert [k2][0] == k2 && [k2][1..] == [];
    assert Descend(Some(inner), [k2]) == Descend(Some(v), []);
  }

  lemma SplitNavHome()
    ensures Split("nav.home", ".") == ["nav", "home"]
  {
    SplitNoChar("home", '.');
    assert "nav.home" == "nav" + ['.'] + "home";
    SplitAtChar("nav", '.', "home");
  }

  lemma SplitBlogTitle()
    ensures Split("blog.title", ".") == ["blog", "title"]
  {
    SplitNoChar("title", '.');
    assert "blog.title" == "blog" + ['.'] + "title";
    SplitAtChar("blog", '.', "title");
  }

  lemma SplitNavHomeX()
    ensures Split("nav.home.x", ".") == ["nav", "home", "x"]
  {
    SplitThree("nav", "home", "x", '.');
    assert "nav.home.x" == "nav" + ['.'] + "home" + ['.'] + "x";
  }
}
