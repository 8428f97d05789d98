/** The category values in each language: per category, an English list
    and a Turkish list that are parallel (the value at index i of one list
    is the translation of the value at index i of the other), and the
    translation of a value between the two languages by index. */
module CategoriesI18n {
  import opened Types
  import opened Language

  /** The category keys that have translated lists. */
  const TranslatedCategories: set<string> := {"technology", "context", "monetization", "targetAudience"}

  /** The value list of `category` in `lang`, or None for a category with
      no list (JavaScript reads `undefined`). */
  function CategoryList(lang: Lang, category: string): (r: Option<seq<string>>)
    ensures r.Some? <==> category in TranslatedCategories
  {
    if category == "technology" then Some(Technology(lang))
    else if category == "context" then Some(Context(lang))
    else if category == "monetization" then Some(Monetization(lang))
    else if category == "targetAudience" then Some(TargetAudience(lang))
    else None
  }

  function Technology(lang: Lang): seq<string> {
    match lang
    case En => ["iOS", "Android", "Web", "Desktop", "Cross-platform", "AR/VR", "IoT", "Blockchain", "AI/ML"]
    case Tr => ["iOS", "Android", "Web", "Masaüstü", "Çapraz Platform", "AR/VR", "IoT", "Blockchain", "Yapay Zeka/ML"]
  }

  function Context(lang: Lang): seq<string> {
    match lang
    case En => ["Health & Fitness", "Education", "Entertainment", "Productivity", "Social", "Finance",
                "Travel", "Food & Drink", "Shopping", "Business", "Gaming", "Lifestyle"]
    case Tr => ["Sağlık ve Fitness", "Eğitim", "Eğlence", "Verimlilik", "Sosyal", "Finans",
                "Seyahat", "Yemek ve İçecek", "Alışveriş", "İş", "Oyun", "Yaşam Tarzı"]
  }

  function Monetization(lang: Lang): seq<string> {
    match lang
    case En => ["Free", "Freemium", "Subscription", "One-time Purchase", "In-app Purchases", "Ads",
                "Affiliate", "Enterprise"]
    case Tr => ["Ücretsiz", "Freemium", "Abonelik", "Tek Seferlik Satın Alma", "Uygulama İçi Satın Alma",
                "Reklamlar", "İştirak", "Kurumsal"]
  }

  function TargetAudience(lang: Lang): seq<string> {
    match lang
    case En => ["Students", "Professionals", "Seniors", "Parents", "Teenagers", "Children",
                "Small Business", "Enterprise", "General Public"]
    case Tr => ["Öğrenciler", "Profesyoneller", "Yaşlılar", "Ebeveynler", "Gençler", "Çocuklar",
                "Küçük İşletme", "Kurumsal", "Genel Halk"]
  }

  /** No value occurs twice in the list. */
  predicate NoDuplicates(xs: seq<string>) {
    forall i, j :: 0 <= i < j < |xs| ==> xs[i] != xs[j]
  }

  /** `xs.indexOf(v)`: the first index holding `v`, or -1. */
  function IndexOf(xs: seq<string>, v: string): (r: int)
    ensures r == -1 <==> v !in xs
    ensures r != -1 ==> 0 <= r < |xs| && xs[r] == v && forall j :: 0 <= j < r ==> xs[j] != v
  {
    if xs == [] then -1
    else if xs[0] == v then 0
    else
      var k := IndexOf(xs[1..], v);
      if k == -1 then -1 else k + 1
  }

  /** In a list without duplicates, the index of the value at position i
      is i. */
  lemma IndexOfDistinct(xs: seq<string>, i: nat)
    requires NoDuplicates(xs) && i < |xs|
    ensures IndexOf(xs, xs[i]) == i
  {
  }

  /** The names every object literal inherits from `Object.prototype`.
      Indexing a language's lists with one of them reads a function (or,
      for `__proto__`, the prototype object), which is truthy but has no
      `indexOf`. */
  const InheritedKeys: set<string> := {
    "constructor", "__defineGetter__", "__defineSetter__", "hasOwnProperty",
    "__lookupGetter__", "__lookupSetter__", "isPrototypeOf", "propertyIsEnumerable",
    "toString", "valueOf", "__proto__", "toLocaleString"
  }

  /** `getCategoryTranslation(category, value, targetLang, currentLang)`,
      with None for the TypeError it throws: the value unchanged when the
      languages agree; a throw when the category names an inherited
      member; the value unchanged when the category has no list or the
      value is not in the current-language list; otherwise the
      target-language value at the same index, or the value itself when
      that entry is missing or empty. */
  function CategoryTranslation(category: string, value: string, targetLang: Lang, currentLang: Lang): (r: Option<string>)
    ensures targetLang == currentLang ==> r == Some(value)
    ensures r.None? <==> targetLang != currentLang && category in InheritedKeys
    ensures category !in TranslatedCategories && category !in InheritedKeys ==> r == Some(value)
    ensures CategoryList(currentLang, category).Some? && value !in CategoryList(currentLang, category).value ==>
      r == Some(value)
    ensures (targetLang != currentLang && category in TranslatedCategories &&
             value in CategoryList(currentLang, category).value) ==>
      var i := IndexOf(CategoryList(currentLang, category).value, value);
      var target := CategoryList(targetLang, category).value;
      r == Some(if i < |target| && target[i] != "" then target[i] else value)
  {
    if targetLang == currentLang then Some(value)
    else if category in InheritedKeys then None
    else match (CategoryList(currentLang, category), CategoryList(targetLang, category))
      case (Some(current), Some(target)) =>
        var i := IndexOf(current, value);
        if i == -1 then Some(value)
        else if i < |target| && target[i] != "" then Some(target[i])
        else Some(value)
      case _ => Some(value)
  }

  /** `getCategoriesInLanguage(lang)`: the lists of that language, keyed by
      category. */
  function CategoriesInLanguage(lang: Lang): (r: map<string, seq<string>>)
    ensures r.Keys == TranslatedCategories
    ensures forall c :: c in r ==> r[c] == CategoryList(lang, c).value
  {
    map c | c in TranslatedCategories :: CategoryList(lang, c).value
  }

  /** The two lists of a category: the same length, no value twice in
      either, and no empty value. */
  predicate Parallel(en: seq<string>, tr: seq<string>) {
    |en| == |tr| && NoDuplicates(en) && NoDuplicates(tr) &&
    (forall i :: 0 <= i < |en| ==> en[i] != "") && (forall i :: 0 <= i < |tr| ==> tr[i] != "")
  }

  lemma TechnologyParallel()
    ensures Parallel(Technology(En), Technology(Tr))
  {
  }

  lemma ContextParallel()
    ensures Parallel(Context(En), Context(Tr))
  {
  }

  lemma MonetizationParallel()
    ensures Parallel(Monetization(En), Monetization(Tr))
  {
  }

  lemma TargetAudienceParallel()
    ensures Parallel(TargetAudience(En), TargetAudience(Tr))
  {
  }

  /** Every translated category has parallel lists. */
  lemma ListsParallel(category: string)
    requires category in TranslatedCategories
    ensures Parallel(CategoryList(En, category).value, CategoryList(Tr, category).value)
  {
    TechnologyParallel();
    ContextParallel();
    MonetizationParallel();
    TargetAudienceParallel();
  }

  /** The value at index i of the current-language list translates to the
      value at index i of the target-language list. */
  lemma SameIndex(category: string, i: nat, targetLang: Lang, currentLang: Lang)
    requires category in TranslatedCategories && targetLang != currentLang
    requires i < |CategoryList(currentLang, category).value|
    ensures i < |CategoryList(targetLang, category).value|
    ensures CategoryTranslation(category, CategoryList(currentLang, category).value[i], targetLang, currentLang)
      == Some(CategoryList(targetLang, category).value[i])
  {
    ListsParallel(category);
    IndexOfDistinct(CategoryList(currentLang, category).value, i);
  }

  /** Translating a listed value to the other language and back gives the
      value again (en to tr to en, and tr to en to tr). */
  lemma RoundTrip(category: string, value: string, from: Lang, to: Lang)
    requires category in TranslatedCategories && value in CategoryList(from, category).value
    ensures CategoryTranslation(category, value, to, from).Some?
    ensures CategoryTranslation(category, CategoryTranslation(category, value, to, from).value, from, to) == Some(value)
  {
    if from != to {
      var i := IndexOf(CategoryList(from, category).value, value);
      SameIndex(category, i, to, from);
      SameIndex(category, i, from, to);
    }
  }
}
