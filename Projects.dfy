/**
 * The projects section (src/components/sections/Projects.jsx): localized
 * fields, the technology tags of a card, the entrance direction of a card,
 * and the modal with its scroll lock.
 */
module Projects {
  import opened Wrappers
  import opened Strings
  import opened Dom
  import opened Language

  /** A field that is either one string for both languages or an object keyed by language code. */
  datatype Localized = Text(text: string) | PerLanguage(byCode: map<string, string>)

  /** `typeof f === 'object' ? f[language] : f`; a missing language gives `undefined` (None). */
  function Resolve(f: Localized, l: Lang): (r: Option<string>)
    ensures f.Text? ==> r == Some(f.text)
    ensures f.PerLanguage? ==> (r.Some? <==> Code(l) in f.byCode)
    ensures f.PerLanguage? && r.Some? ==> r.value == f.byCode[Code(l)]
  {
    match f
    case Text(t) => Some(t)
    case PerLanguage(m) => if Code(l) in m then Some(m[Code(l)]) else None
  }

  /** A field translated into both languages shows each language's text, and a toggle switches between them. */
  lemma ResolveBilingual(f: Localized, l: Lang)
    requires f.PerLanguage? && "en" in f.byCode && "fr" in f.byCode
    ensures Resolve(f, l).Some? && Resolve(f, Toggle(l)).Some?
    ensures Resolve(f, Toggle(Toggle(l))) == Resolve(f, l)
    ensures Resolve(f, l).value == f.byCode[Code(l)]
  {
  }

  /** `features`: an array, or an object of arrays keyed by language code. */
  datatype Features = List(items: seq<string>) | PerLanguageList(byCode: map<string, seq<string>>)

  /** An array is used as it is; only a non-array object is indexed by language. */
  function ResolveFeatures(f: Features, l: Lang): (r: Option<seq<string>>)
    ensures f.List? ==> r == Some(f.items)
    ensures f.PerLanguageList? ==> (r.Some? <==> Code(l) in f.byCode)
    ensures f.PerLanguageList? && r.Some? ==> r.value == f.byCode[Code(l)]
  {
    match f
    case List(items) => Some(items)
    case PerLanguageList(m) => if Code(l) in m then Some(m[Code(l)]) else None
  }

  const MaxTags := 4

  /** The tags a card shows: the first four technologies, then `+N` for the rest when there are more. */
  function VisibleTags(technologies: seq<string>): (r: (seq<string>, Option<string>))
  {
    var shown := if |technologies| <= MaxTags then technologies else technologies[..MaxTags];
    var more := if |technologies| > MaxTags then Some("+" + Decimal(|technologies| - MaxTags)) else None;
    (shown, more)
  }

  /**
   * Every technology is accounted for: the shown tags are a prefix of at most
   * four, the `+N` tag appears exactly when more than four exist, and `N` reads
   * back as the number of hidden ones.
   */
  lemma TagsAccountForAll(technologies: seq<string>)
    ensures VisibleTags(technologies).0 <= technologies
    ensures |VisibleTags(technologies).0| == if |technologies| < MaxTags then |technologies| else MaxTags
    ensures VisibleTags(technologies).1.Some? <==> |technologies| > MaxTags
    ensures VisibleTags(technologies).1.Some? ==>
              ParseInt(VisibleTags(technologies).1.value[1..]) == Some(|technologies| - |VisibleTags(technologies).0|)
  {
    if |technologies| > MaxTags {
      var n := |technologies| - MaxTags;
      var plus := VisibleTags(technologies).1.value;
      assert plus[1..] == Decimal(n);
      ParseIntDecimal(n, []);
      assert Decimal(n) + [] == Decimal(n);
    }
  }

  /** The starting offset of a card's entrance: `x` and `rotateY`. */
  datatype Entrance = Entrance(x: int, rotateY: int)

  /** Cards in the left column (even index) come from the left and turn one way; the others mirror them. */
  function CardEntrance(index: nat): Entrance
  {
    if index % 2 == 0 then Entrance(-50, -10) else Entrance(50, 10)
  }

  /** Neighbouring cards mirror each other, and cards two apart enter alike. */
  lemma CardsAlternate(index: nat)
    ensures CardEntrance(index + 1) == Entrance(-CardEntrance(index).x, -CardEntrance(index).rotateY)
    ensures CardEntrance(index + 2) == CardEntrance(index)
    ensures CardEntrance(index).x < 0 <==> index % 2 == 0
  {
  }

  /** A key press on a card opens it when it is Enter or Space. */
  predicate OpensCard(key: string)
  {
    key == "Enter" || key == " "
  }

  /** `-${scrollY}px`, the value saved into `body.style.top`. */
  function SavedTop(scrollY: nat): string
  {
    "-" + Decimal(scrollY) + "px"
  }

  /** `parseInt(top || '0') * -1`, the position scrolled to on close; None is NaN. */
  function RestoredScroll(top: string): Option<int>
  {
    match ParseInt(if top == "" then "0" else top)
    case Some(v) => Some(-v)
    case None => None
  }

  /**
   * Where `window.scrollTo(0, y)` leaves the page: a negative or NaN target
   * scrolls to the top.
   */
  function ScrollAfterClose(top: string): nat
  {
    var target := RestoredScroll(top);
    if target.None? || target.value < 0 then 0 else target.value
  }

  /** Closing the modal scrolls back to where the page was when it opened. */
  lemma ScrollLockRoundTrip(scrollY: nat)
    ensures RestoredScroll(SavedTop(scrollY)) == Some(scrollY)
    ensures ScrollAfterClose(SavedTop(scrollY)) == scrollY
  {
    var top := SavedTop(scrollY);
    assert top != "" by { assert top[0] == '-'; }
    assert !IsDigit("px"[0]);
    ParseIntNegated(scrollY, "px");
    assert ParseInt(if top == "" then "0" else top) == Some(-(scrollY as int));
  }

  /** An empty `top` scrolls to 0. */
  lemma EmptyTopScrollsHome()
    ensures RestoredScroll("") == Some(0)
  {
    var zero := Decimal(0);
    assert zero == [DigitChar(0)];
    assert zero == "0";
    ParseIntDecimal(0, []);
    assert zero + [] == zero;
    assert ParseInt("0") == Some(0);
  }

  /** The touchmove handler of the document. */
  const TouchMoveListener := Listener("touchmove", 1)

  /**
   * The section with its selected project, plus the document state the modal
   * touches: the root's class list, `body.style.top`, the document's
   * listeners and the window's scroll position.
   */
  class ProjectsSection {
    var selectedProject: Option<nat>
    var classList: set<string>
    var bodyTop: string
    var documentListeners: seq<Listener>
    var scrollY: nat

    /** The modal is mounted exactly when a project is selected, and the lock is in place exactly then. */
    ghost predicate Valid()
      reads this
    {
      ("modal-open" in classList <==> selectedProject.Some?) &&
      (TouchMoveListener in documentListeners <==> selectedProject.Some?)
    }

    constructor (scrollY: nat, classList: set<string>, documentListeners: seq<Listener>)
      requires "modal-open" !in classList && TouchMoveListener !in documentListeners
      ensures Valid() && selectedProject.None?
      ensures this.scrollY == scrollY && this.classList == classList && this.documentListeners == documentListeners
      ensures bodyTop == ""
    {
      selectedProject := None;
      this.classList := classList;
      bodyTop := "";
      this.documentListeners := documentListeners;
      this.scrollY := scrollY;
    }

    /** The page scrolls while no modal is open. */
    method Scroll(y: nat)
      requires Valid() && selectedProject.None?
      modifies this
      ensures Valid() && scrollY == y
      ensures selectedProject == old(selectedProject) && classList == old(classList)
      ensures bodyTop == old(bodyTop) && documentListeners == old(documentListeners)
    {
      scrollY := y;
    }

    /**
     * A click (or Enter/Space) on card `p`: `setSelectedProject`. When no modal
     * was open, the modal mounts and its effect locks the page: the class, the
     * saved position and the touchmove handler.
     */
    method Open(p: nat)
      requires Valid()
      modifies this
      ensures Valid() && selectedProject == Some(p) && scrollY == old(scrollY)
      ensures old(selectedProject).None? ==>
                classList == old(classList) + {"modal-open"} && bodyTop == SavedTop(old(scrollY)) &&
                documentListeners == AddListener(old(documentListeners), TouchMoveListener)
      ensures old(selectedProject).Some? ==>
                classList == old(classList) && bodyTop == old(bodyTop) && documentListeners == old(documentListeners)
    {
      if selectedProject.None? {
        classList := classList + {"modal-open"};
        bodyTop := SavedTop(scrollY);
        documentListeners := AddListener(documentListeners, TouchMoveListener);
      }
      selectedProject := Some(p);
    }

    /**
     * `onClose`: the selection is cleared and the modal's cleanup runs: the
     * handler and the class go, `top` is emptied and the page scrolls back.
     */
    method Close()
      requires Valid() && selectedProject.Some?
      modifies this
      ensures Valid() && selectedProject.None?
      ensures documentListeners == RemoveListener(old(documentListeners), TouchMoveListener)
      ensures classList == old(classList) - {"modal-open"} && bodyTop == ""
      ensures scrollY == ScrollAfterClose(old(bodyTop))
    {
      documentListeners := RemoveListener(documentListeners, TouchMoveListener);
      classList := classList - {"modal-open"};
      var top := bodyTop;
      bodyTop := "";
      scrollY := ScrollAfterClose(top);
      selectedProject := None;
    }

    /**
     * `onKeyDown` on card `p`: Enter or Space cancels the key's default
     * action and opens the card, as a click does; any other key does nothing.
     */
    method KeyDown(p: nat, key: string) returns (prevented: bool)
      requires Valid()
      modifies this
      ensures Valid() && scrollY == old(scrollY)
      ensures prevented <==> key == "Enter" || key == " "
      ensures OpensCard(key) ==> selectedProject == Some(p)
      ensures OpensCard(key) && old(selectedProject).None? ==>
                classList == old(classList) + {"modal-open"} && bodyTop == SavedTop(old(scrollY)) &&
                documentListeners == AddListener(old(documentListeners), TouchMoveListener)
      ensures !OpensCard(key) ==>
                selectedProject == old(selectedProject) && classList == old(classList) && bodyTop == old(bodyTop) &&
                documentListeners == old(documentListeners)
    {
      prevented := OpensCard(key);
      if prevented {
        Open(p);
      }
    }

    /** The touchmove handler: the event is cancelled unless it happens inside the modal's scrolling content. */
    method HandleTouchMove(insideContent: bool) returns (prevented: bool)
      requires Valid() && selectedProject.Some?
      ensures prevented <==> !insideContent
    {
      prevented := !insideContent;
    }
  }

  /** Adding the lock class and taking it away gives the class list back. */
  lemma LockClassRoundTrip(classList: set<string>)
    requires "modal-open" !in classList
    ensures classList + {"modal-open"} - {"modal-open"} == classList
  {
  }

  /** Opening a project and closing it leaves the page where it was, with no lock left behind. */
  method OpenThenClose(y: nat, p: nat, classList: set<string>, documentListeners: seq<Listener>)
    returns (restoredY: nat, restoredClasses: set<string>, restoredListeners: seq<Listener>)
    requires "modal-open" !in classList && TouchMoveListener !in documentListeners
    ensures restoredY == y && restoredClasses == classList && restoredListeners == documentListeners
  {
    var section := new ProjectsSection(y, classList, documentListeners);
    section.Open(p);
    ScrollLockRoundTrip(y);
    LockClassRoundTrip(classList);
    AddThenRemove(documentListeners, TouchMoveListener);
    section.Close();
    restoredY := section.scrollY;
    restoredClasses := section.classList;
    restoredListeners := section.documentListeners;
  }
}
