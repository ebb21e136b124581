/**
 * The skills section (src/components/sections/Skills.jsx): the category tabs
 * and the one panel they show, the logo of a skill card and of a marquee
 * entry, the marquee list and its React keys, and a card's entrance delay.
 */
module Skills {
  import opened Wrappers
  import opened Strings

  datatype Skill = Skill(name: string, icon: string)
  datatype Category = Category(key: string, skills: seq<Skill>)

  /** The icons `TechLogos` has a component for. */
  const Logos: set<string> := {"angular", "react", "typescript", "javascript", "html5", "tailwind", "rxjs",
    "java", "spring", "nodejs", "postgresql", "oracle", "mongodb", "redis", "docker", "kubernetes",
    "git", "gitlab", "jenkins", "sonarqube", "api", "microservices"}

  /** `TechLogos[skill.icon] || TechLogos.api`: a card always has a logo. */
  function CardLogo(icon: string): (logo: string)
    ensures logo in Logos
    ensures icon in Logos ==> logo == icon
    ensures icon !in Logos ==> logo == "api"
  {
    if icon in Logos then icon else "api"
  }

  /** `TechLogos[skill.icon]` in the marquee, with no fallback: None renders a dot. */
  function MarqueeLogo(icon: string): (logo: Option<string>)
    ensures logo.Some? <==> icon in Logos
  {
    if icon in Logos then Some(icon) else None
  }

  /** The card and the marquee agree on every known icon and differ exactly on the unknown ones. */
  lemma LogosAgree(icon: string)
    ensures MarqueeLogo(icon).Some? ==> MarqueeLogo(icon).value == CardLogo(icon)
    ensures MarqueeLogo(icon).None? <==> CardLogo(icon) == "api" && icon != "api"
  {
  }

  /** The keys of the categories, in tab order. */
  function Keys(categories: seq<Category>): seq<string>
  {
    seq(|categories|, i requires 0 <= i < |categories| => categories[i].key)
  }

  /** No two categories share a key. */
  predicate DistinctKeys(categories: seq<Category>)
  {
    forall i, j :: 0 <= i < j < |categories| ==> categories[i].key != categories[j].key
  }

  /** The panels rendered by `categories.map(c => activeCategory === c.key && ...)`: the indices whose key matches. */
  function Panels(categories: seq<Category>, active: string): (shown: seq<nat>)
    ensures forall k :: 0 <= k < |shown| ==> shown[k] < |categories| && categories[shown[k]].key == active
    ensures forall i :: 0 <= i < |categories| && categories[i].key == active ==> i in shown
    ensures forall k, m :: 0 <= k < m < |shown| ==> shown[k] < shown[m]
    decreases |categories|
  {
    if categories == [] then []
    else
      var n := |categories| - 1;
      var init := Panels(categories[..n], active);
      assert forall i :: 0 <= i < n ==> categories[..n][i] == categories[i];
      if categories[n].key == active then init + [n] else init
  }

  /** With distinct keys, exactly the active category's panel is rendered. */
  lemma OnePanel(categories: seq<Category>, active: string, i: nat)
    requires DistinctKeys(categories)
    requires i < |categories| && categories[i].key == active
    ensures Panels(categories, active) == [i]
  {
    var shown := Panels(categories, active);
    assert i in shown;
    forall k | 0 <= k < |shown| ensures shown[k] == i {
      var j := shown[k];
      assert categories[j].key == categories[i].key;
    }
    IncreasingSpread(shown);
    assert shown[0] == i && shown[|shown| - 1] == i;
  }

  /** A strictly increasing sequence of naturals spans at least its length. */
  lemma {:induction false} IncreasingSpread(s: seq<nat>)
    requires |s| > 0
    requires forall k, m :: 0 <= k < m < |s| ==> s[k] < s[m]
    ensures s[|s| - 1] >= s[0] + |s| - 1
  {
    if |s| > 1 {
      var init := s[..|s| - 1];
      assert forall k, m :: 0 <= k < m < |init| ==> init[k] < init[m];
      IncreasingSpread(init);
      assert s[|s| - 2] < s[|s| - 1];
    }
  }

  /** The tabs of the section: `activeCategory` and the categories it selects among. */
  class SkillsSection {
    const categories: seq<Category>
    var activeCategory: string

    ghost predicate Valid()
      reads this
    {
      DistinctKeys(categories) && activeCategory in Keys(categories)
    }

    /** The section starts on the `frontend` tab. */
    constructor (categories: seq<Category>)
      requires DistinctKeys(categories) && "frontend" in Keys(categories)
      ensures Valid() && this.categories == categories && activeCategory == "frontend"
    {
      this.categories := categories;
      activeCategory := "frontend";
    }

    /** A click on tab `i`: `setActiveCategory(category.key)`. */
    method SelectTab(i: nat)
      requires Valid() && i < |categories|
      modifies this
      ensures Valid() && activeCategory == categories[i].key
    {
      activeCategory := categories[i].key;
      assert Keys(categories)[i] == activeCategory;
    }

    /** The panel shown now is the one of the tab last clicked (or `frontend`), and only that one. */
    method ShownPanels() returns (shown: seq<nat>)
      requires Valid()
      ensures |shown| == 1 && shown[0] < |categories| && categories[shown[0]].key == activeCategory
    {
      var i :| 0 <= i < |categories| && categories[i].key == activeCategory;
      OnePanel(categories, activeCategory, i);
      shown := Panels(categories, activeCategory);
    }
  }

  /** `[...frontend, ...backend, ...database, ...devops]`. */
  function MarqueeSkills(frontend: seq<Skill>, backend: seq<Skill>, database: seq<Skill>, devops: seq<Skill>): seq<Skill>
  {
    frontend + backend + database + devops
  }

  /** The React keys of the marquee: `${name}-${i}` for the first copy, `${name}-dup-${i}` for the second. */
  function MarqueeKeys(items: seq<Skill>): (keys: seq<string>)
    ensures |keys| == 2 * |items|
  {
    seq(|items|, i requires 0 <= i < |items| => items[i].name + "-" + Decimal(i)) +
    seq(|items|, i requires 0 <= i < |items| => items[i].name + "-dup-" + Decimal(i))
  }

  /** Splitting a first-copy key on `-` gives back the name and the index digits. */
  lemma FirstKeyParts(name: string, i: nat)
    requires '-' !in name
    ensures Split(name + "-" + Decimal(i), "-") == [name, Decimal(i)]
  {
    var d := Decimal(i);
    assert '-' !in d by { assert forall k :: 0 <= k < |d| ==> IsDigit(d[k]); }
    SplitNoChar(d, '-');
    SplitAtChar(name, '-', d);
  }

  /** Splitting a second-copy key on `-` gives back the name, `dup` and the index digits. */
  lemma DupKeyParts(name: string, i: nat)
    requires '-' !in name
    ensures Split(name + "-dup-" + Decimal(i), "-") == [name, "dup", Decimal(i)]
  {
    var d := Decimal(i);
    assert '-' !in d by { assert forall k :: 0 <= k < |d| ==> IsDigit(d[k]); }
    SplitThree(name, "dup", d, '-');
    assert name + "-dup-" + d == name + ['-'] + "dup" + ['-'] + d;
  }

  /** Different indices give different digits. */
  lemma DecimalInjective(i: nat, j: nat)
    requires i != j
    ensures Decimal(i) != Decimal(j)
  {
    DecimalValue(i);
    DecimalValue(j);
  }

  /** When no skill name contains `-`, the marquee's keys are pairwise different, across both copies. */
  lemma MarqueeKeysDistinct(items: seq<Skill>)
    requires forall k :: 0 <= k < |items| ==> '-' !in items[k].name
    ensures forall p, q :: 0 <= p < q < |MarqueeKeys(items)| ==> MarqueeKeys(items)[p] != MarqueeKeys(items)[q]
  {
    var keys := MarqueeKeys(items);
    var n := |items|;
    forall p, q | 0 <= p < q < |keys| ensures keys[p] != keys[q] {
      if q < n {
        FirstKeyParts(items[p].name, p);
        FirstKeyParts(items[q].name, q);
        DecimalInjective(p, q);
        assert Split(keys[p], "-")[1] != Split(keys[q], "-")[1];
      } else if p < n {
        FirstKeyParts(items[p].name, p);
        DupKeyParts(items[q - n].name, q - n);
        assert |Split(keys[p], "-")| != |Split(keys[q], "-")|;
      } else {
        DupKeyParts(items[p - n].name, p - n);
        DupKeyParts(items[q - n].name, q - n);
        DecimalInjective(p - n, q - n);
        assert Split(keys[p], "-")[2] != Split(keys[q], "-")[2];
      }
    }
  }

  const CardStagger: real := 0.08

  /** A card sets up no animation until it is in view; then it waits `index * 0.08` seconds. */
  function CardDelay(isInView: bool, index: nat): (delay: Option<real>)
    ensures delay.Some? <==> isInView
  {
    if isInView then Some(index as real * CardStagger) else None
  }

  /** Cards further along the grid start strictly later, by 0.08 s per place. */
  lemma CardsStagger(i: nat, j: nat)
    requires i < j
    ensures CardDelay(true, i).value < CardDelay(true, j).value
    ensures CardDelay(true, j).value - CardDelay(true, i).value == (j - i) as real * CardStagger
  {
  }
}
