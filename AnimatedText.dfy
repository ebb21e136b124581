/**
 * The text effects of src/components/ui/AnimatedText.jsx: words and
 * characters revealed one span at a time, a typewriter that appends one
 * character per timeout, and the parallax wrapper with its cleanup.
 */
module AnimatedText {
  import opened Wrappers
  import opened Strings
  import opened Registry

  /** `children.split(' ')`: the words `TextReveal` wraps, one span each. */
  function Words(children: string): (words: seq<string>)
    ensures |words| >= 1
    ensures forall k :: 0 <= k < |words| ==> ' ' !in words[k]
  {
    var words := Split(children, " ");
    SplitPartsFree(children, " ");
    forall k, j | 0 <= k < |words| && 0 <= j < |words[k]| ensures words[k][j] != ' ' {
      assert !OccursAt(words[k], " ", j);
      assert words[k][j..j + 1] == [words[k][j]];
    }
    words
  }

  /** The spans put back together with single spaces give the original text, spaces and all. */
  lemma WordsRoundTrip(children: string)
    ensures Join(Words(children), " ") == children
  {
    JoinSplit(children, " ");
  }

  /** `delay + index * 0.1`: each word starts a tenth of a second after the one before. */
  function WordDelay(delay: real, index: nat): (d: real)
    ensures d >= delay
  {
    delay + index as real * 0.1
  }

  lemma WordsStagger(delay: real, i: nat, j: nat)
    requires i < j
    ensures WordDelay(delay, j) - WordDelay(delay, i) == (j - i) as real * 0.1
    ensures WordDelay(delay, i) < WordDelay(delay, j)
  {
  }

  const Nbsp: char := '\U{00A0}'

  /** One character of `CharacterReveal`: a space becomes a no-break space so that it keeps its width. */
  function Glyph(c: char): char
  {
    if c == ' ' then Nbsp else c
  }

  /** The characters `CharacterReveal` renders, one span each. */
  function Glyphs(children: string): (r: string)
    ensures |r| == |children|
    ensures ' ' !in r
  {
    seq(|children|, i requires 0 <= i < |children| => Glyph(children[i]))
  }

  /** Reading the spans back, with no-break spaces as spaces. */
  function Unglyph(r: string): (s: string)
    ensures |s| == |r|
    ensures Nbsp !in s
  {
    seq(|r|, i requires 0 <= i < |r| => if r[i] == Nbsp then ' ' else r[i])
  }

  /**
   * Nothing but spaces changes: a text without no-break spaces of its own is
   * recovered from its spans, and the spans show exactly as many no-break
   * spaces as the text has spaces (at the same places).
   */
  lemma GlyphsRoundTrip(children: string)
    requires Nbsp !in children
    ensures Unglyph(Glyphs(children)) == children
    ensures forall i :: 0 <= i < |children| ==> (Glyphs(children)[i] == Nbsp <==> children[i] == ' ')
  {
    var r := Glyphs(children);
    forall i | 0 <= i < |children| ensures Unglyph(r)[i] == children[i] {
      assert children[i] != Nbsp;
    }
  }

  /**
   * `TypewriterText`: `currentIndex` characters shown; while in view and not
   * finished, one timeout of `speed` ms is pending, which appends the next
   * character and advances the index.
   */
  class AppendTypewriter {
    const text: string
    var isInView: bool
    var displayedText: string
    var currentIndex: nat
    var timeoutPending: bool

    /** The text shown is the first `currentIndex` characters, and a timeout is pending exactly while typing. */
    ghost predicate Valid()
      reads this
    {
      currentIndex <= |text| && displayedText == text[..currentIndex] &&
      (timeoutPending <==> isInView && currentIndex < |text|)
    }

    constructor (text: string)
      ensures Valid() && this.text == text && !isInView && currentIndex == 0 && displayedText == ""
    {
      this.text := text;
      isInView := false;
      displayedText := "";
      currentIndex := 0;
      timeoutPending := false;
    }

    /** The element comes into view (once); the effect schedules the first character. */
    method EnterView()
      requires Valid() && !isInView
      modifies this
      ensures Valid() && isInView && currentIndex == old(currentIndex) && displayedText == old(displayedText)
      ensures timeoutPending <==> currentIndex < |text|
    {
      isInView := true;
      timeoutPending := currentIndex < |text|;
    }

    /** The timeout fires: `prev + text[currentIndex]`, `prev + 1`, and the effect runs again for the new index. */
    method Fire()
      requires Valid() && timeoutPending
      modifies this
      ensures Valid()
      ensures displayedText == old(displayedText) + [text[old(currentIndex)]]
      ensures currentIndex == old(currentIndex) + 1 && isInView == old(isInView)
    {
      assert text[..currentIndex + 1] == text[..currentIndex] + [text[currentIndex]];
      displayedText := displayedText + [text[currentIndex]];
      currentIndex := currentIndex + 1;
      timeoutPending := currentIndex < |text|;
    }

    /** `currentIndex < text.length && <span>|</span>`. */
    function CaretShown(): (shown: bool)
      reads this
      requires Valid()
      ensures shown <==> displayedText != text
    {
      assert currentIndex < |text| ==> |displayedText| < |text|;
      currentIndex < |text|
    }
  }

  /** The typewriter run to the end: each frame one character longer, ending on the whole text with no caret. */
  method TypeByAppending(text: string) returns (frames: seq<string>, caret: bool)
    ensures |frames| == |text| + 1
    ensures forall k :: 0 <= k < |frames| ==> frames[k] <= text && |frames[k]| == k
    ensures frames[|text|] == text && !caret
  {
    var t := new AppendTypewriter(text);
    t.EnterView();
    frames := [t.displayedText];
    while t.timeoutPending
      invariant t.Valid() && t.isInView && t.text == text
      invariant |frames| == t.currentIndex + 1
      invariant forall k :: 0 <= k < |frames| ==> frames[k] == text[..k]
      decreases |text| - t.currentIndex
      modifies t
    {
      t.Fire();
      frames := frames + [t.displayedText];
    }
    assert text[..|text|] == text;
    caret := t.CaretShown();
  }

  /**
   * `ParallaxText` as written: mounting registers one tween and trigger on the
   * element; the cleanup kills every trigger of the page.
   */
  class ParallaxText {
    var element: Option<nat>
    var registered: Option<nat>

    ghost predicate Valid()
      reads this
    {
      registered.Some? ==> element.Some?
    }

    constructor (element: Option<nat>)
      ensures Valid() && this.element == element && registered.None?
    {
      this.element := element;
      registered := None;
    }

    method Mount(g: Gsap)
      requires Valid() && g.Valid() && registered.None?
      modifies this, g
      ensures Valid() && g.Valid() && element == old(element)
      ensures element.None? ==> registered.None? && g.triggers == old(g.triggers)
      ensures element.Some? ==> registered.Some? && g.triggers == old(g.triggers) + [Trigger(registered.value, element.value)]
    {
      if element.Some? {
        var id := g.Register(element.value);
        registered := Some(id);
      }
    }

    /** `ScrollTrigger.getAll().forEach((trigger) => trigger.kill())`. */
    method Cleanup(g: Gsap)
      requires Valid() && g.Valid()
      modifies this, g
      ensures Valid() && g.Valid() && registered.None?
      ensures old(registered).Some? ==> g.triggers == [] && g.tweens == old(g.tweens) - AllIds(old(g.triggers))
      ensures old(registered).None? ==> g.triggers == old(g.triggers)
    {
      if registered.Some? {
        g.KillAll();
        registered := None;
      }
    }
  }

  /** The cleanup as evidently intended, scoped to the element like the hooks of useScrollAnimations. */
  function ParallaxCleanup(ts: seq<Trigger>, element: nat): (r: seq<Trigger>)
    ensures Untargeted(r, element)
  {
    Without(ts, element)
  }

  /**
   * Unmounting a parallax text while another section's animation is live:
   * the cleanup as written leaves the page with no trigger at all, the other
   * section's included; the scoped cleanup would have left exactly that one.
   */
  method ParallaxCleanupKillsOthers(element: nat, other: nat)
    returns (otherTrigger: Trigger, asWritten: seq<Trigger>, scoped: seq<Trigger>)
    requires element != other
    ensures otherTrigger.target == other
    ensures asWritten == [] && otherTrigger !in asWritten
    ensures scoped == [otherTrigger]
  {
    var g := new Gsap();
    var id := g.Register(other);
    otherTrigger := Trigger(id, other);
    var text := new ParallaxText(Some(element));
    text.Mount(g);
    var mine := Trigger(text.registered.value, element);
    assert g.triggers == [otherTrigger] + [mine];
    WithoutAppend([otherTrigger], mine, element);
    WithoutUntargeted([otherTrigger], element);
    scoped := ParallaxCleanup(g.triggers, element);
    text.Cleanup(g);
    asWritten := g.triggers;
  }

  /** The scoped cleanup keeps every trigger of another element and restores the list a mount extended. */
  lemma ParallaxCleanupScoped(ts: seq<Trigger>, element: nat, id: nat, t: Trigger)
    requires Untargeted(ts, element)
    requires t in ts
    ensures t in ParallaxCleanup(ts + [Trigger(id, element)], element)
    ensures ParallaxCleanup(ts + [Trigger(id, element)], element) == ts
  {
    MountCleanupRestores(ts, id, element);
  }
}
