# A verified model of the bilingual portfolio's behaviour

This project models, in Dafny, the behaviour of a bilingual (English/French)
React portfolio site. Its markup and styling are left aside. The model has one
module per source file of the core:

- **Language** (`src/i18n/LanguageContext.jsx`): the language provider. It
  picks the initial language from storage or from the browser, persists each
  change and toggles between the two languages. It also has the dotted-key
  translation function `t` and the `useLanguage` guard.
- **About**: the bio formatter. It splits the text into paragraphs, bold runs
  and bullet lists.
- **Navbar**: scroll state and the active section, the mobile menu, and
  navigation clicks.
- **Contact**: the contact form, its simulated submission, and the
  contact-method links.
- **Projects**: localized fields, the slide direction, and the tag list. It
  also has the modal's body-scroll lock and how that lock is restored.
- **Skills**: technology logos, card delays, category selection, and the
  marquee.
- **Loading** (`src/App.jsx`): the loading screen's progress and the app
  shell around it.
- **SectionTransition**: the terminal command typing and the compilation bar.
- **CodeTransition**: the typewriter, brackets, line numbers, the compilation
  loader, and the code section.
- **AnimatedText**: word and character reveal, the appending typewriter, and
  the parallax text.
- **ScrollAnimations** (`src/hooks/useScrollAnimations.js`): animation
  presets and ScrollTrigger registration and cleanup.
- **SmoothScroll** (`src/hooks/useLenis.js`): touch detection, the Lenis
  configuration, the frame loop, and the debounced resize.
- **Pointer** (`src/hooks/useMousePosition.js`): the pointer position and the
  normalised position.
- **Particles** (`src/components/ui/ParticleBackground.jsx`): the canvas
  particle field.
- **Network** (`src/components/3d/NetworkBackground.jsx`): the three.js grid,
  its segments, the binary rain, and the floating symbols.

Shared helper modules:

- **Wrappers**: `Option`/`Result`.
- **Strings**: the JavaScript string operations the source uses.
- **Dom**: window and document listener lists.
- **Registry**: GSAP's global ScrollTrigger registry.
- **Pairs**: the `i < j` nearby-pair scan shared by both backgrounds.

How the model stands in for what it cannot compute:

- Components whose fields change over time are classes with `modifies`
  clauses.
- `Math.random()` values are parameters in [0, 1).
- Timers, animation frames and browser events are method calls made in the
  order they fire.
- `Math.sqrt`, `Math.atan2`, `Math.sin`, `Math.cos` and vector distances are
  given as their results.

## Model

| member | source | states |
|---|---|---|
| Language.InitialLanguage | src/i18n/LanguageContext.jsx:7-15 | a stored "en" or "fr" wins; otherwise French exactly when the browser language starts with "fr" |
| Language.ReloadRestores | src/i18n/LanguageContext.jsx:7-20 | a language the effect persisted is the one chosen on the next load, whatever the browser says |
| Language.Toggle | src/i18n/LanguageContext.jsx:22-24 | toggling always changes the language |
| Language.ToggleTwice | src/i18n/LanguageContext.jsx:22-24 | two toggles restore the original language |
| Language.TranslateDefined | src/i18n/LanguageContext.jsx:26-39 | `t` returns either the key itself or the value its dotted path reaches, never `undefined`, and never "" unless the key is "" |
| Language.BlockedPathGivesKey | src/i18n/LanguageContext.jsx:30-35 | a path that reaches a string or a missing entry before its last segment falls back to the key |
| Language.UseLanguage | src/i18n/LanguageContext.jsx:48-54 | the hook fails, with the source's message, exactly when there is no provider, and otherwise returns the provider's value |
| Language.LanguageProvider.constructor | src/i18n/LanguageContext.jsx:6-20 | after mounting, the language is the initial choice and is mirrored into storage and `<html lang>` |
| Language.LanguageProvider.ToggleLanguage | src/i18n/LanguageContext.jsx:17-24 | the language flips and storage and document stay in step with it |
| Language.LanguageProvider.SetLanguage | src/i18n/LanguageContext.jsx:17-20 | the language becomes the given one and storage and document stay in step with it |
| Language.LanguageProvider.T | src/i18n/LanguageContext.jsx:26-39 | the loop's result equals the table lookup `Translate` and is never "" for a non-empty key |
| Language.NavHome | src/i18n/translations.js:6-7 | `t('nav.home')` is "Home" in English and "Accueil" in French (lines 132-133), and two toggles bring "Home" back |
| Language.InnerTable | src/i18n/LanguageContext.jsx:38 | a path that stops at a nested table returns that table, not the key |
| Language.MissingKey | src/i18n/LanguageContext.jsx:31-34 | a key with no entry in the table falls back to the key |
| Language.PathThroughString | src/i18n/LanguageContext.jsx:31-34 | a path that continues past a string ("nav.home.x") falls back to the key |
| Language.Descend | src/i18n/LanguageContext.jsx:28-36 | the walk down the dotted path; BlockedPathGivesKey, InnerTable and PathThroughString state where it stops |
| Language.Translate | src/i18n/LanguageContext.jsx:26-39 | `t`; TranslateDefined, NavHome and MissingKey state what it returns |
| About.NonBlank | src/components/sections/About.jsx:140 | every kept line is a non-blank line of the input, every non-blank input line is kept, and no more lines come out than went in |
| About.SectionRoundTrip | src/components/sections/About.jsx:131-162 | a section without a list stretch is recovered by joining its spans with `**` |
| About.BioRoundTrip | src/components/sections/About.jsx:128-163 | a bio without a list stretch is recovered from its blocks joined by blank lines: the blocks are its sections, in order |
| About.HighlightParity | src/components/sections/About.jsx:131-137 | in a section with `**`, a span is highlighted exactly when its index is odd, there are at least two, and none holds `**` |
| About.ItemShape | src/components/sections/About.jsx:143-152 | a line is a bullet exactly when its trimmed form starts with `-`; a bullet's text is trimmed; other lines are kept as written |
| About.ListLines | src/components/sections/About.jsx:139-153 | a list stretch has one item per non-blank line, and item k is the k-th non-blank line, formatted |
| About.NonBlankCounts | src/components/sections/About.jsx:140 | each non-blank line is kept exactly as many times as it occurs, and blank lines are dropped |
| About.NonBlankAppend | src/components/sections/About.jsx:140 | filtering two runs of lines is filtering each and concatenating, so the kept lines stay in their order |
| About.FormatItem | src/components/sections/About.jsx:143-152 | a list line as rendered; ItemShape states when it is a bullet and what text it keeps |
| About.FormatPart | src/components/sections/About.jsx:135-157 | one `**`-separated part as rendered; HighlightParity and ListLines state its shape |
| About.FormatSection | src/components/sections/About.jsx:130-162 | one section as rendered; SectionRoundTrip states that it is recovered from its spans |
| About.FormatBio | src/components/sections/About.jsx:128-163 | `formatBio`; BioRoundTrip states that its blocks are the bio's sections, in order |
| AnimatedText.Words | src/components/ui/AnimatedText.jsx:13 | at least one word, and no word contains a space |
| AnimatedText.WordsRoundTrip | src/components/ui/AnimatedText.jsx:13-32 | the words joined with single spaces give back the text, repeated spaces included |
| AnimatedText.WordDelay | src/components/ui/AnimatedText.jsx:25 | no word starts before the component's delay |
| AnimatedText.WordsStagger | src/components/ui/AnimatedText.jsx:25 | later words start later, by exactly a tenth of a second per word |
| AnimatedText.Glyphs | src/components/ui/AnimatedText.jsx:42-58 | one glyph per character, and no plain space is rendered |
| AnimatedText.Unglyph | src/components/ui/AnimatedText.jsx:58 | the inverse reading has the same length and turns every no-break space back into a space |
| AnimatedText.GlyphsRoundTrip | src/components/ui/AnimatedText.jsx:42-58 | only spaces change: the text is recovered from its glyphs, and glyph i is a no-break space exactly when character i is a space |
| AnimatedText.AppendTypewriter.constructor | src/components/ui/AnimatedText.jsx:66-70 | the typewriter starts out of view with nothing shown |
| AnimatedText.AppendTypewriter.EnterView | src/components/ui/AnimatedText.jsx:72-77 | coming into view schedules a timeout exactly when text remains |
| AnimatedText.AppendTypewriter.Fire | src/components/ui/AnimatedText.jsx:74-77 | a firing appends the next character and advances the index by one; the shown text stays the prefix of that length |
| AnimatedText.AppendTypewriter.CaretShown | src/components/ui/AnimatedText.jsx:86-88 | the caret shows exactly while the shown text is not yet the whole text |
| AnimatedText.TypeByAppending | src/components/ui/AnimatedText.jsx:72-88 | run to the end, the frames are the prefixes of every length in order, the last is the whole text, and the caret is gone |
| AnimatedText.ParallaxText.constructor | src/components/ui/AnimatedText.jsx:94-95 | nothing is registered before mounting |
| AnimatedText.ParallaxText.Mount | src/components/ui/AnimatedText.jsx:97-110 | with an element, one trigger on it is appended; without one, nothing changes |
| AnimatedText.ParallaxText.Cleanup | src/components/ui/AnimatedText.jsx:112-114 | as written, the cleanup leaves no trigger at all and kills every trigger's tween |
| AnimatedText.ParallaxCleanup | src/components/ui/AnimatedText.jsx:112-114 | the scoped cleanup leaves no trigger on the element |
| AnimatedText.ParallaxCleanupKillsOthers | src/components/ui/AnimatedText.jsx:112-114 | mounting a parallax text beside another section's live trigger and unmounting it leaves the page with no trigger at all, while the scoped cleanup would leave exactly the other section's |
| AnimatedText.ParallaxCleanupScoped | src/components/ui/AnimatedText.jsx:97-114 | the scoped cleanup keeps every other trigger and restores the list the mount extended |
| AnimatedText.Glyph | src/components/ui/AnimatedText.jsx:58 | the glyph rendered for one character; GlyphsRoundTrip states that it loses nothing |
| CodeTransition.CleanupAsWritten | src/components/ui/CodeTransition.jsx:28-42 | as written, unmounting clears the start delay and leaves a running interval running |
| CodeTransition.Cleanup | src/components/ui/CodeTransition.jsx:28-42 | the intended cleanup leaves no timer, and agrees with the written one whenever typing had not started |
| CodeTransition.TypingOutlivesUnmount | src/components/ui/CodeTransition.jsx:39 | a typewriter unmounted while typing keeps its interval as written, and would not with the intended cleanup |
| CodeTransition.Typewriter.constructor | src/components/ui/CodeTransition.jsx:18-22 | the typewriter starts out of view, incomplete, with nothing shown and no timer |
| CodeTransition.Typewriter.EnterView | src/components/ui/CodeTransition.jsx:24-28 | entering the view starts the delay, with nothing shown yet |
| CodeTransition.Typewriter.StartTyping | src/components/ui/CodeTransition.jsx:27-29 | when the delay ends the interval starts at index 0, with the shown text still empty |
| CodeTransition.Typewriter.Tick | src/components/ui/CodeTransition.jsx:29-37 | while the index is within the text, a tick shows the prefix of that length and advances; past it, the interval stops and the whole text shows as complete; the shown text is always a prefix |
| CodeTransition.Typewriter.Unmount | src/components/ui/CodeTransition.jsx:39-42 | unmounting as written cancels the delay and keeps the interval, exactly as `CleanupAsWritten` |
| CodeTransition.Typewriter.CursorShown | src/components/ui/CodeTransition.jsx:48 | the cursor shows exactly while in view and not complete; once complete the whole text is shown |
| CodeTransition.TypeAll | src/components/ui/CodeTransition.jsx:24-48 | a full run shows the prefixes of lengths 0 … n in order, ends on the whole text, and hides the cursor |
| CodeTransition.CompilationLoader.constructor | src/components/ui/CodeTransition.jsx:208-228 | the loader starts at step 0 with the first advance scheduled and no completion |
| CodeTransition.CompilationLoader.Advance | src/components/ui/CodeTransition.jsx:217-228 | each 400 ms firing adds one to the step; reaching step 4 calls `onComplete` once and schedules nothing more, and before that the next step is scheduled |
| CodeTransition.CompilationLoader.Rerender | src/components/ui/CodeTransition.jsx:217-228 | a new `onComplete` identity re-runs the effect: at the end it is called once more, otherwise nothing changes |
| CodeTransition.LogLines | src/components/ui/CodeTransition.jsx:232-240 | min(step+1, 4) lines are shown, line i being the i-th log message |
| CodeTransition.LogMarkers | src/components/ui/CodeTransition.jsx:239 | a line is marked running exactly when it is the current step and step < 3; then it is the last line shown; from step 3 on all lines are done |
| CodeTransition.BracketsFor | src/components/ui/CodeTransition.jsx:58-65 | a known type gets its own brackets, an unknown one falls back to curly; every opening bracket is one character |
| CodeTransition.BracketShapes | src/components/ui/CodeTransition.jsx:58-65 | the closing bracket is "/>" exactly for `angle`, and one character for every other type |
| CodeTransition.LineNumberRows | src/components/ui/CodeTransition.jsx:108 | exactly `count` rows |
| CodeTransition.LineNumberRowsRead | src/components/ui/CodeTransition.jsx:108-116 | every row is at least three wide and parses back to `startFrom + i` |
| CodeTransition.IntStringStart | src/components/ui/CodeTransition.jsx:116 | a number's text never starts with white space, so the padding is the only leading space |
| CodeTransition.PaddingIgnored | src/components/ui/CodeTransition.jsx:116 | parsing ignores the spaces `padStart` puts in front |
| CodeTransition.CodeSection.constructor | src/components/ui/CodeTransition.jsx:248-251 | the wrapper starts out of view with content hidden |
| CodeTransition.CodeSection.EnterView | src/components/ui/CodeTransition.jsx:253-258 | entering the view schedules the content, which is still hidden |
| CodeTransition.CodeSection.Reveal | src/components/ui/CodeTransition.jsx:255 | the 200 ms timer shows the content |
| CodeTransition.CodeSection.Unmount | src/components/ui/CodeTransition.jsx:256 | unmounting clears the pending timer and changes nothing else |
| CodeTransition.CodeSection.Shown | src/components/ui/CodeTransition.jsx:264-290 | line numbers show exactly when in view, and content never shows without them |
| CodeTransition.Typewriter.UnmountCorrected | src/components/ui/CodeTransition.jsx:28-42 | the corrected unmount clears both the start delay and the typing interval, as Cleanup specifies |
| CodeTransition.UnmountWhileTyping | src/components/ui/CodeTransition.jsx:28-42 | unmounted after any number of typed characters, the written cleanup leaves the interval running and the corrected one leaves no timer |
| CodeTransition.LineMarker | src/components/ui/CodeTransition.jsx:239 | the marker of one log line; LogMarkers states which lines are running and which done |
| Contact.EmptyForm | src/components/sections/Contact.jsx:18-23 | the form has exactly the four fields name, email, subject and message, all empty |
| Contact.WithField | src/components/sections/Contact.jsx:126-129 | the named field takes the new value and every other field keeps its old one |
| Contact.ButtonState | src/components/sections/Contact.jsx:335-359 | the button is enabled exactly when it offers to send; "sending" shows exactly while submitting and wins over "sent" |
| Contact.ContactForm.constructor | src/components/sections/Contact.jsx:18-25 | the form starts empty, not submitting, not submitted, with no timer pending |
| Contact.ContactForm.HandleChange | src/components/sections/Contact.jsx:125-130 | only the input's own field changes; the flags and timers do not |
| Contact.ContactForm.HandleSubmit | src/components/sections/Contact.jsx:132-137 | submitting is raised and one 2000 ms wait starts; the fields stay |
| Contact.ContactForm.CompleteSubmission | src/components/sections/Contact.jsx:137-144 | after the wait: not submitting, submitted, all four fields cleared, and one 5000 ms reset scheduled |
| Contact.ContactForm.ClearSubmitted | src/components/sections/Contact.jsx:144 | the reset lowers only the submitted flag |
| Contact.SubmissionCycle | src/components/sections/Contact.jsx:132-145 | one submission shows "sending", then "sent" with the button disabled, then the invitation to send again |
| Contact.LinkAttrsAsWritten | src/components/sections/Contact.jsx:203-204 | as written, a missing href throws; otherwise a link opens in a new tab exactly when its href starts with "http", and gets `noopener noreferrer` exactly then |
| Contact.LinkAttrsFor | src/components/sections/Contact.jsx:203-204 | the corrected rule never throws, agrees with the written one on every present href, and treats a missing one as a same-tab link |
| Contact.RenderLinksAsWritten | src/components/sections/Contact.jsx:199-204 | the list renders exactly when every href is present, with one entry per contact method |
| Contact.ContactRenderThrows | src/components/sections/Contact.jsx:161 | with the shipped data (`personalInfo` has no `github`, src/data/portfolio.js:4-16) the section throws while rendering |
| Contact.ContactLinksCorrected | src/components/sections/Contact.jsx:148-171 | with the corrected rule LinkedIn opens in a new tab and GitHub and the location stay in the page |
| Contact.Disabled | src/components/sections/Contact.jsx:335 | whether the submit button is disabled; ButtonState states when |
| Contact.ButtonLabel | src/components/sections/Contact.jsx:344-359 | the submit button's label; ButtonState states which label shows in which state |
| Dom.AddListener | src/components/ui/Navbar.jsx:48 | after adding, the pair is registered, nothing else is, and no pair is registered twice |
| Dom.RemoveListener | src/components/ui/Navbar.jsx:49 | after removing, that pair is gone and every other registration stays |
| Dom.RemoveAbsent | src/hooks/useMousePosition.js:15 | removing a pair that is not registered changes nothing |
| Dom.RemoveLast | src/hooks/useMousePosition.js:14-15 | removing the most recent registration leaves the ones before it, in order |
| Dom.AddThenRemove | src/components/ui/Navbar.jsx:48-49 | adding a listener on mount and removing it on unmount gives back the registrations as they were |
| Registry.Without | src/hooks/useScrollAnimations.js:103-105 | the surviving triggers are triggers of the list, none attached to the element |
| Registry.WithoutKeeps | src/hooks/useScrollAnimations.js:103-105 | every trigger attached to another element survives |
| Registry.WithoutUntargeted | src/hooks/useScrollAnimations.js:103-105 | killing the triggers of an element that has none changes nothing, order included |
| Registry.WithoutAppend | src/hooks/useScrollAnimations.js:103-105 | the survivors keep their order, and a new trigger survives exactly when it is attached elsewhere |
| Registry.WithoutCommutes | src/hooks/useScrollAnimations.js:101-106 | two hooks on different elements can clean up in either order with the same result |
| Registry.MountCleanupRestores | src/hooks/useScrollAnimations.js:86-106 | registering one trigger on an element nothing else watches, then cleaning it up, restores the list exactly |
| Registry.TargetIdsAppend | src/hooks/useScrollAnimations.js:103-105 | the animations killed with an element's triggers grow by a new trigger's exactly when it is on that element |
| Registry.TargetIdsFresh | src/hooks/useScrollAnimations.js:86-106 | after a fresh element's trigger is added, its cleanup kills that trigger's animation and no other |
| Registry.Gsap.constructor | src/hooks/useScrollAnimations.js:5 | the page starts with no trigger and no tween |
| Registry.Gsap.Register | src/hooks/useScrollAnimations.js:86-99 | one tween and one trigger on the element are added, with an identity not in use |
| Registry.Gsap.KillTween | src/hooks/useScrollAnimations.js:102 | the tween leaves the set of live tweens and nothing else changes; its trigger is removed by the element-trigger kill that follows it in every cleanup |
| Registry.Gsap.KillTriggersOf | src/hooks/useScrollAnimations.js:103-105 | the loop leaves exactly `Without` of the old triggers and kills exactly their animations |
| Registry.Gsap.KillAll | src/components/ui/AnimatedText.jsx:113 | every trigger goes, with its animation |
| Registry.SubsequenceDistinct | src/hooks/useScrollAnimations.js:103-105 | killing some triggers never makes two survivors share an identity |
| ScrollAnimations.PresetFor | src/hooks/useScrollAnimations.js:82 | a known name gets its own preset, and an unknown one gets `fadeInUp` |
| ScrollAnimations.PresetsWellFormed | src/hooks/useScrollAnimations.js:29-82 | whatever name is asked for, in either table, the element tweens from opacity 0 to 1 and tweens back every property it set |
| ScrollAnimations.ScrollPresetsWellFormed | src/hooks/useScrollAnimations.js:29-80 | every preset of the single-element table is well formed |
| ScrollAnimations.StaggerPresetsWellFormed | src/hooks/useScrollAnimations.js:135-142 | every preset of the group table is well formed |
| ScrollAnimations.UnknownNameRises | src/hooks/useScrollAnimations.js:82-144 | an unknown name falls back to `fadeInUp` in both preset tables (lines 82 and 144): it rises 80 px for one element and 50 px for a group |
| ScrollAnimations.ToggleActions | src/hooks/useScrollAnimations.js:97 | "play none none none" exactly when `once`, and "play reverse play reverse" exactly otherwise |
| ScrollAnimations.ScrollHook.constructor | src/hooks/useScrollAnimations.js:12 | a hook starts with nothing registered |
| ScrollAnimations.ScrollHook.Mount | src/hooks/useScrollAnimations.js:25-99 | with no element (or no matching child) nothing is registered; otherwise one new tween and one trigger on the element are added |
| ScrollAnimations.ScrollHook.Cleanup | src/hooks/useScrollAnimations.js:101-106 | the hook's tween dies and exactly the triggers on its element are killed, other triggers untouched |
| ScrollAnimations.MountAndCleanUp | src/hooks/useScrollAnimations.js:25-107 | a mount and its cleanup on an element nothing else watches leave the triggers and tweens exactly as they were |
| ScrollAnimations.RemountCycles | src/hooks/useScrollAnimations.js:107 | any number of dependency-driven remounts beside another live hook leave exactly that hook's trigger and tween |
| ScrollAnimations.ParallaxTween | src/hooks/useScrollAnimations.js:189-205 | the tween moves `y` exactly when vertical and `x` otherwise, symmetrically around 0 over 200·speed |
| ScrollAnimations.RevealStart | src/hooks/useScrollAnimations.js:282-290 | a section starts 100 px to one side and tilted 3 degrees toward the same side |
| ScrollAnimations.RevealAlternates | src/hooks/useScrollAnimations.js:282-295 | consecutive sections come in from opposite sides with opposite tilts; even indices come from the right |
| ScrollAnimations.SectionReveal | src/hooks/useScrollAnimations.js:282-295 | the `gsap.set` start and the `gsap.to` target of a section reveal; RevealSettles states them |
| ScrollAnimations.RevealSettles | src/hooks/useScrollAnimations.js:282-295 | every reveal fades from 0 to 1 and ends at x 0, rotation 0 for every index, travelling 100 px and untilting 3 degrees, leftward for even indices and rightward for odd ones |
| Navbar.RemoveFirst | src/components/ui/Navbar.jsx:35 | `replace` with a one-character pattern removes exactly one occurrence (the first), or nothing when there is none |
| Navbar.SectionIds | src/components/ui/Navbar.jsx:35 | the ids scanned are the navigation hrefs of src/data/portfolio.js:388-395 with the `#` removed |
| Navbar.LastQualifying | src/components/ui/Navbar.jsx:36-45 | the chosen index, if any, is a position of the list |
| Navbar.LastQualifyingIsLast | src/components/ui/Navbar.jsx:36-45 | the chosen section exists and has top ≤ 150, no later section does, and there is none exactly when no section qualifies |
| Navbar.FindActive | src/components/ui/Navbar.jsx:36-45 | the reversed loop with `break` finds the last qualifying section, or none exactly when none qualifies |
| Navbar.OneHighlight | src/components/ui/Navbar.jsx:96-103 | at most one link is highlighted at a time, by the rule the desktop links use and the mobile links repeat at line 182 |
| Navbar.DistinctInitials | src/data/portfolio.js:389-394 | the ids' initials tell the sections apart |
| Navbar.InitialsDiffer | src/data/portfolio.js:389-394 | every section id is non-empty and starts with its own letter |
| Navbar.NavbarState.constructor | src/components/ui/Navbar.jsx:25-48 | the bar starts unscrolled, menu closed, `home` active, with its scroll handler registered |
| Navbar.NavbarState.HandleScroll | src/components/ui/Navbar.jsx:31-46 | scrolled exactly when scrollY > 50; the active section becomes the last qualifying one and stays put when none qualifies; the menu and listeners do not change |
| Navbar.NavbarState.HandleNavClick | src/components/ui/Navbar.jsx:52-58 | any nav click closes the menu and scrolls exactly when the target element exists |
| Navbar.NavbarState.ToggleMenu | src/components/ui/Navbar.jsx:137 | the menu button flips the menu and nothing else |
| Navbar.NavbarState.CloseMenu | src/components/ui/Navbar.jsx:158 | a backdrop click closes the menu and changes nothing else |
| Navbar.NavbarState.Unmount | src/components/ui/Navbar.jsx:49 | unmounting removes the scroll handler |
| Navbar.MountUnmount | src/components/ui/Navbar.jsx:48-49 | mounting and unmounting leave `window`'s listeners exactly as they were |
| Navbar.IsHighlighted | src/components/ui/Navbar.jsx:96-103 | whether a link is highlighted; OneHighlight states that at most one is |
| Loading.Shown | src/App.jsx:79 | the bar's width never exceeds 100 and equals progress up to 100 |
| Loading.PercentInRange | src/App.jsx:91 | the printed percentage lies in [0, 100] for every non-negative progress |
| Loading.StepInvariant | src/App.jsx:35-42 | one tick keeps progress in [0, 115), never moves the bar back, pins a progress of 100 or more to exactly 100, and otherwise adds less than 15 |
| Loading.RunInterval | src/App.jsx:33-45 | the interval run tick by tick ends at the progress `Run` gives; it stops only with progress exactly 100, and otherwise has used every tick |
| Loading.RunBounds | src/App.jsx:34-43 | over any run, progress stays in [0, 115), the bar never moves back, and progress grows by less than 15 per tick |
| Loading.LoadingScreen.constructor | src/App.jsx:30-34 | progress starts at 0 with the interval running and no completion scheduled |
| Loading.LoadingScreen.Tick | src/App.jsx:35-42 | one tick applies the updater; the interval stops, and `onComplete` is scheduled, exactly when the tick finds 100 or more |
| Loading.AppShell.constructor | src/App.jsx:102 | the application starts loading |
| Loading.AppShell.OnComplete | src/App.jsx:120 | completion clears the loading flag |
| Loading.AppShell.ContentOpacity | src/App.jsx:138 | the main content is transparent exactly while loading and opaque exactly afterwards |
| Loading.Step | src/App.jsx:35-42 | one interval tick's updater; StepInvariant states its bounds |
| Loading.Run | src/App.jsx:34-43 | a run of ticks; RunBounds states its bounds and RunInterval that the interval computes it |
| Loading.Round | src/App.jsx:91 | `Math.round`; PercentInRange states the range of the percentage it yields |
| Loading.Percent | src/App.jsx:91 | the printed percentage; PercentInRange states that it lies in [0, 100] |
| Projects.Resolve | src/components/sections/Projects.jsx:15-17 | the helper, and its second copy at lines 223-225, behave alike: a plain string is used as is; a per-language object yields the current language's text, and `undefined` exactly when that language is missing |
| Projects.ResolveBilingual | src/components/sections/Projects.jsx:15-17 | a field with both languages always resolves, to each language's own text, and two toggles resolve it as before |
| Projects.ResolveFeatures | src/components/sections/Projects.jsx:226 | an array of features is used directly; only a non-array object is indexed by language |
| Projects.TagsAccountForAll | src/components/sections/Projects.jsx:165-177 | the card shows the first min(n, 4) technologies, a `+N` tag exactly when n > 4, and N reads back as the number hidden |
| Projects.CardsAlternate | src/components/sections/Projects.jsx:20-34 | even cards enter from the left, neighbours mirror each other in x and rotateY, and cards two apart enter alike |
| Projects.ScrollLockRoundTrip | src/components/sections/Projects.jsx:196-217 | the saved `-Npx` parses back, so closing the modal scrolls to the position it opened at, for every whole-pixel scroll position |
| Projects.EmptyTopScrollsHome | src/components/sections/Projects.jsx:217 | an empty saved `top` scrolls to 0 |
| Projects.ProjectsSection.constructor | src/components/sections/Projects.jsx:377 | no project is selected and no lock is in place |
| Projects.ProjectsSection.Scroll | src/components/sections/Projects.jsx:196 | scrolling with no modal open changes only the scroll position |
| Projects.ProjectsSection.Open | src/components/sections/Projects.jsx:194-209 | selecting a project when none was open adds `modal-open`, saves `-scrollY px` and adds the touchmove handler; the lock holds exactly while a project is selected |
| Projects.ProjectsSection.Close | src/components/sections/Projects.jsx:211-218 | closing clears the selection, removes the handler and the class, empties `top` and scrolls to the saved position |
| Projects.ProjectsSection.HandleTouchMove | src/components/sections/Projects.jsx:201-207 | a touchmove is cancelled exactly when it is outside the modal content |
| Projects.LockClassRoundTrip | src/components/sections/Projects.jsx:197-213 | adding and removing `modal-open` gives the class list back |
| Projects.OpenThenClose | src/components/sections/Projects.jsx:194-219 | opening and closing a project restores the scroll position, the class list and the document's listeners |
| Projects.VisibleTags | src/components/sections/Projects.jsx:165-177 | the tags a card shows and its `+N` tag; TagsAccountForAll states them |
| Projects.CardEntrance | src/components/sections/Projects.jsx:20-34 | a card's entrance offset; CardsAlternate states how it alternates |
| Projects.OpensCard | src/components/sections/Projects.jsx:85 | the keys that open a card; ProjectsSection.KeyDown states what they do |
| Projects.ProjectsSection.KeyDown | src/components/sections/Projects.jsx:85 | Enter or Space cancels the key's default and opens the card exactly as a click does; any other key changes nothing |
| Projects.SavedTop | src/components/sections/Projects.jsx:198 | the saved `body.style.top`; ScrollLockRoundTrip states that it reads back |
| Projects.RestoredScroll | src/components/sections/Projects.jsx:217 | the scroll target computed on close; ScrollLockRoundTrip and EmptyTopScrollsHome state its values |
| Projects.ScrollAfterClose | src/components/sections/Projects.jsx:217 | where `scrollTo` leaves the page on close; ScrollLockRoundTrip states that it is the position the modal opened at |
| Skills.CardLogo | src/components/sections/Skills.jsx:14-175 | a card always gets a logo: its own icon's when one exists, else the `api` logo |
| Skills.MarqueeLogo | src/components/sections/Skills.jsx:428-435 | a marquee entry has a logo exactly when its icon has one (else a dot is drawn) |
| Skills.LogosAgree | src/components/sections/Skills.jsx:426-436 | the marquee's logo rule and the card's rule at line 175 agree on every known icon and differ exactly on the unknown ones |
| Skills.Panels | src/components/sections/Skills.jsx:364-366 | the panels rendered are exactly the categories whose key is active, in tab order |
| Skills.OnePanel | src/components/sections/Skills.jsx:364-366 | with distinct keys, exactly the active category's panel is rendered |
| Skills.IncreasingSpread | src/components/sections/Skills.jsx:364-366 | (helper for `OnePanel`) a strictly increasing list of indices spans at least its length |
| Skills.SkillsSection.constructor | src/components/sections/Skills.jsx:245 | the section starts on the `frontend` tab |
| Skills.SkillsSection.SelectTab | src/components/sections/Skills.jsx:343 | a tab click makes that tab's key active, and the active key is always one of the tabs |
| Skills.SkillsSection.ShownPanels | src/components/sections/Skills.jsx:364-366 | exactly one panel shows, the active category's |
| Skills.MarqueeKeys | src/components/sections/Skills.jsx:426-448 | the marquee has two keys per skill, one per copy |
| Skills.FirstKeyParts | src/components/sections/Skills.jsx:431 | a first-copy key splits back into the name and the index |
| Skills.DupKeyParts | src/components/sections/Skills.jsx:448 | a second-copy key splits back into the name, `dup` and the index |
| Skills.DecimalInjective | src/components/sections/Skills.jsx:431-448 | different indices give different key suffixes |
| Skills.MarqueeKeysDistinct | src/components/sections/Skills.jsx:426-458 | when no skill name contains `-`, all the marquee's keys differ, across both copies |
| Skills.CardDelay | src/components/sections/Skills.jsx:180-198 | a card sets up its animation exactly when in view |
| Skills.CardsStagger | src/components/sections/Skills.jsx:198 | later cards start strictly later, by 0.08 s per place |
| Skills.MarqueeSkills | src/components/sections/Skills.jsx:426 | the four categories in order; MarqueeKeys and MarqueeKeysDistinct state the keys built over it |
| SectionTransition.TerminalCommandText | src/components/ui/SectionTransition.jsx:163-184 | a given non-empty command is typed as it is; a missing or empty one gives `render --section <id>` |
| SectionTransition.PartsShown | src/components/ui/SectionTransition.jsx:160-162 | an absent prop turns the terminal and the tags on and the compilation bar off; a given one decides |
| SectionTransition.ReplayViews | src/components/ui/SectionTransition.jsx:178-182 | replayed over any sequence of renders, `hasEntered` is true exactly when some render was in view, and it rises at most once |
| SectionTransition.LatchStays | src/components/ui/SectionTransition.jsx:178-182 | once entered, later renders cannot undo the latch |
| SectionTransition.TerminalCommand.constructor | src/components/ui/SectionTransition.jsx:9-11 | the terminal starts hidden with the cursor on |
| SectionTransition.TerminalCommand.Show | src/components/ui/SectionTransition.jsx:19-20 | becoming visible starts typing from index 0 with nothing shown |
| SectionTransition.TerminalCommand.Hide | src/components/ui/SectionTransition.jsx:14-30 | becoming invisible stops typing and empties the text |
| SectionTransition.TerminalCommand.Tick | src/components/ui/SectionTransition.jsx:21-27 | while the index is within the command a tick shows the prefix of that length and advances; past it, typing stops on the whole command and the cursor's hiding is scheduled; the text is always a prefix |
| SectionTransition.TerminalCommand.HideCursor | src/components/ui/SectionTransition.jsx:26 | the uncleared 500 ms timeout hides the cursor and changes nothing else |
| SectionTransition.TypeOut | src/components/ui/SectionTransition.jsx:19-30 | while visible the terminal shows the prefixes of lengths 0 … n in order, ending on the whole command |
| SectionTransition.CompilationBar.constructor | src/components/ui/SectionTransition.jsx:87-88 | the bar starts hidden at 0, compiling |
| SectionTransition.CompilationBar.Show | src/components/ui/SectionTransition.jsx:97 | becoming visible starts the interval at 0 |
| SectionTransition.CompilationBar.Hide | src/components/ui/SectionTransition.jsx:91-108 | becoming invisible stops the interval and resets progress to 0 and status to compiling |
| SectionTransition.CompilationBar.Tick | src/components/ui/SectionTransition.jsx:98-105 | a tick at 100 or more pins progress to exactly 100, marks it complete and stops; otherwise it adds less than 30; the bar never moves back |
| SectionTransition.CompilationBar.ShownPercent | src/components/ui/SectionTransition.jsx:123 | the percentage shown is in [0, 100], and 100 once complete |
| SectionTransition.BarCaption | src/components/ui/SectionTransition.jsx:121 | the caption reads `[OK]` exactly when complete |
| SmoothScroll.TouchSigns | src/hooks/useLenis.js:9-16 | without a window the device is not touch; with none of the three signs it is not; a touch point makes it touch |
| SmoothScroll.ConfigFor | src/hooks/useLenis.js:30-44 | the Lenis built never smooths or syncs touch, and smooths the wheel |
| SmoothScroll.SameConfigEverywhere | src/hooks/useLenis.js:27-44 | `isTouch` is never read: touch and non-touch devices get the same configuration |
| SmoothScroll.RafTime | src/hooks/useLenis.js:51-53 | the ticker's seconds are passed to Lenis as milliseconds |
| SmoothScroll.BurstRefreshesOnce | src/hooks/useLenis.js:59-65 | a burst of resizes less than 200 ms apart yields a single refresh, 200 ms after the last one |
| SmoothScroll.RefreshesFollowResizes | src/hooks/useLenis.js:59-65 | every refresh comes exactly 200 ms after some resize, and there are never more refreshes than resizes |
| SmoothScroll.LenisHook.constructor | src/hooks/useLenis.js:23-24 | before the effect nothing is held and no refresh has run |
| SmoothScroll.LenisHook.Setup | src/hooks/useLenis.js:26-67 | the effect creates Lenis, adds the ticker callback and registers the resize handler, with no refresh pending |
| SmoothScroll.LenisHook.HandleResize | src/hooks/useLenis.js:60-65 | a resize cancels the pending refresh and schedules one 200 ms later |
| SmoothScroll.LenisHook.RunRefresh | src/hooks/useLenis.js:62-64 | the due timeout runs one refresh and clears the pending one |
| SmoothScroll.LenisHook.Settle | src/hooks/useLenis.js:62-64 | letting time pass runs the pending refresh exactly when it is due |
| SmoothScroll.LenisHook.Teardown | src/hooks/useLenis.js:70-75 | the cleanup clears the pending timeout, destroys Lenis, removes the ticker callback and the resize handler |
| SmoothScroll.SettleStep | src/hooks/useLenis.js:59-65 | settling one resize's timeout adds exactly the refresh `RefreshesFrom` counts for it |
| SmoothScroll.ResizeAt | src/hooks/useLenis.js:60-65 | a resize first lets the previous timeout run if it fell due, then schedules its own |
| SmoothScroll.ReplayResizes | src/hooks/useLenis.js:26-76 | over a mount, a sequence of resizes and an unmount, the refreshes are exactly those `RefreshesFrom` predicts, nothing stays pending, and the window's listeners are restored |
| SmoothScroll.IsTouchDevice | src/hooks/useLenis.js:9-16 | the touch test; TouchSigns states its outcomes |
| SmoothScroll.Fires | src/hooks/useLenis.js:59-65 | whether a resize's timer survives to fire; BurstRefreshesOnce states when |
| SmoothScroll.RefreshesFrom | src/hooks/useLenis.js:59-65 | the refresh times the debounce yields; RefreshesFollowResizes and ReplayResizes state them |
| Pointer.NormalizeInverse | src/hooks/useMousePosition.js:9-10 | the mapping loses nothing: the client point is recovered from the normalised one |
| Pointer.Scaled | src/hooks/useMousePosition.js:9-10 | dividing by a positive size and multiplying back is the identity, and a coordinate is inside exactly when its ratio is in [0, 1] |
| Pointer.NormalizeRange | src/hooks/useMousePosition.js:9-10 | a point is inside the window exactly when both normalised coordinates lie in [-1, 1] |
| Pointer.NormalizeLandmarks | src/hooks/useMousePosition.js:9-10 | the left and right edges are x = -1 and 1, the top and bottom edges y = 1 and -1, the centre (0, 0) |
| Pointer.NormalizeMonotone | src/hooks/useMousePosition.js:9-10 | moving right increases x and moving down decreases y |
| Pointer.MousePositionHook.constructor | src/hooks/useMousePosition.js:4 | the position starts at (0, 0) |
| Pointer.MousePositionHook.Mount | src/hooks/useMousePosition.js:14 | the effect registers the mousemove handler and changes nothing else |
| Pointer.MousePositionHook.OnMouseMove | src/hooks/useMousePosition.js:7-11 | a move overwrites the ref with the normalised position and causes no render |
| Pointer.MousePositionHook.Unmount | src/hooks/useMousePosition.js:15 | the cleanup removes the handler |
| Pointer.TrackMoves | src/hooks/useMousePosition.js:3-19 | after a mount, moves inside the window and an unmount, the ref holds the last move (or (0, 0)) within [-1, 1]², no render happened, and the window's listeners are restored |
| Pointer.HookResult | src/hooks/useMousePosition.js:18 | the hook returns an object with the single key `normalizedPositionRef` |
| Pointer.SceneProp | src/App.jsx:103-127 | destructuring the name the hook returns gives the ref |
| Pointer.ScenePropUndefined | src/App.jsx:103 | as written, the scene always receives `undefined`; with the returned name it would receive the ref |
| Pointer.Normalize | src/hooks/useMousePosition.js:9-10 | the normalised position; NormalizeInverse, NormalizeRange, NormalizeLandmarks and NormalizeMonotone state its properties |
| Pointer.ScenePropAsWritten | src/App.jsx:103 | the prop as written; ScenePropUndefined states that it is always missing |
| Pairs.RowShape | src/components/ui/ParticleBackground.jsx:117-122 | every pair the inner loop emits for particle i has i < j below the count and lies within the distance limit |
| Pairs.Rows | src/components/ui/ParticleBackground.jsx:116-122 | every pair of the first m rows has a first index below m, a strictly larger second index below the count, and a distance below the limit |
| Pairs.RowSorted | src/components/ui/ParticleBackground.jsx:117 | one row's pairs come out with strictly increasing second index |
| Pairs.RowsSorted | src/components/ui/ParticleBackground.jsx:116-117 | all pairs come out in strict lexicographic order of (i, j) |
| Pairs.RowComplete | src/components/ui/ParticleBackground.jsx:117-122 | no close partner of particle i beyond it is skipped by the inner loop |
| Pairs.RowsComplete | src/components/ui/ParticleBackground.jsx:116-122 | no close pair (i < j) is skipped by the double loop |
| Pairs.ConnectionsExact | src/components/ui/ParticleBackground.jsx:116-122 | a pair is drawn if and only if i < j < count and the two particles are closer than the limit, and no pair is drawn twice |
| Pairs.Scan | src/components/ui/ParticleBackground.jsx:112-133 | the nested loops produce exactly the connection list specified by the reference definition |
| Pairs.Connections | src/components/ui/ParticleBackground.jsx:116-122 | the nearby pairs; ConnectionsExact states exactly which pairs they are |
| Particles.Scale | src/components/ui/ParticleBackground.jsx:50-51 | a draw in [0,1) times a canvas length lands in [0, length), or at 0 on an empty canvas |
| Particles.Scaled | src/components/ui/ParticleBackground.jsx:50-51 | a scaled coordinate lies on the canvas |
| Particles.Spawned | src/components/ui/ParticleBackground.jsx:49-58 | a reset particle is on the canvas, has size in [1.5, 3), each speed in [-0.15, 0.15) and opacity in [0.3, 0.5) |
| Particles.Wrap | src/components/ui/ParticleBackground.jsx:81-84 | the wrapped coordinate is on [0, limit]; inside values are kept, values below 0 jump to the far edge and values past the edge jump to 0 |
| Particles.WrapIdempotent | src/components/ui/ParticleBackground.jsx:81-84 | wrapping a wrapped coordinate changes nothing |
| Particles.Force | src/components/ui/ParticleBackground.jsx:70-73 | the repulsion force inside the 100 px radius is in (0, 1] |
| Particles.Push | src/components/ui/ParticleBackground.jsx:66-77 | there is no push when the pointer is unknown, on mobile or 100 px or more away; otherwise the push is at most 0.5 and nonzero in any nonzero direction |
| Particles.PushBounds | src/components/ui/ParticleBackground.jsx:75-76 | a push of force in (0,1] along a unit component stays within ±0.5 and is nonzero when the component is |
| Particles.PushGrowsCloser | src/components/ui/ParticleBackground.jsx:72-76 | a closer pointer pushes harder in the same direction |
| Particles.NudgeStrict | src/components/ui/ParticleBackground.jsx:75-76 | for a positive direction the push grows strictly with the force |
| Particles.Particle.constructor | src/components/ui/ParticleBackground.jsx:45-58 | a new particle holds the reset state drawn for the canvas and lies on it |
| Particles.Particle.Update | src/components/ui/ParticleBackground.jsx:60-85 | one update moves by the speed plus the repulsion push, then wraps each axis; the particle stays on the canvas |
| Particles.LineOpacity | src/components/ui/ParticleBackground.jsx:123 | a connection's opacity is in (0, 0.1] |
| Particles.LineOpacities | src/components/ui/ParticleBackground.jsx:114-123 | every drawn connection has opacity in (0, 0.1], and closer pairs get a strictly more opaque line |
| Particles.Shift | src/components/ui/ParticleBackground.jsx:140 | the gradient shift is in [0, 1] |
| Particles.Background | src/components/ui/ParticleBackground.jsx:143-145 | the outer colour has red equal to green in [10, 26] and blue in [10, 46] |
| Particles.Centre | src/components/ui/ParticleBackground.jsx:156 | the inner colour stop is 5 brighter in red and green and 10 in blue |
| Particles.BackgroundRange | src/components/ui/ParticleBackground.jsx:140-157 | the colour runs from #0a0a0a at shift 0 to #1a1a2e at shift 1, grows with the shift, and every channel of the inner stop is a valid byte |
| Particles.ParticleBackground.constructor | src/components/ui/ParticleBackground.jsx:13-18 | the component starts unmounted, without particles, with an unknown pointer and phase 0 |
| Particles.ParticleBackground.InitParticles | src/components/ui/ParticleBackground.jsx:102-109 | the particle list is replaced by 15 (mobile) or 40 fresh, distinct particles, each in its reset state on the canvas |
| Particles.ParticleBackground.Resize | src/components/ui/ParticleBackground.jsx:37-41 | the canvas takes the window size and the particles are re-created for it |
| Particles.ParticleBackground.Mount | src/components/ui/ParticleBackground.jsx:20-200 | mobile detection always runs; without a canvas nothing else happens; with one the canvas is sized, particles created and the three window listeners added |
| Particles.ParticleBackground.MouseMove | src/components/ui/ParticleBackground.jsx:183-186 | the pointer becomes the event's client position and nothing else changes |
| Particles.ParticleBackground.MouseLeave | src/components/ui/ParticleBackground.jsx:188-191 | the pointer becomes unknown and nothing else changes |
| Particles.ParticleBackground.Frame | src/components/ui/ParticleBackground.jsx:136-180 | a frame advances the phase by 0.002, paints the background for its shift, draws no connections on mobile and exactly the close pairs within 120 px otherwise, updates every particle, and requests the next frame |
| Particles.ParticleBackground.Cleanup | src/components/ui/ParticleBackground.jsx:203-210 | unmounting cancels the pending frame and removes exactly the three listeners it added |
| Particles.UpdateAll | src/components/ui/ParticleBackground.jsx:174-177 | each particle in the list is updated once, by its own sense data |
| Particles.ListenersRestored | src/components/ui/ParticleBackground.jsx:198-209 | removing the three listeners after adding them restores the window's listener list |
| Particles.RemoveMiddle | src/components/ui/ParticleBackground.jsx:207-209 | removing a listener added once takes out only that listener |
| Particles.Run | src/components/ui/ParticleBackground.jsx:20-211 | over a whole mount, any frames and unmount, the particle count is the one for the device, every particle stays on the canvas, and the window ends with the listeners it had |
| Particles.IsMobile | src/components/ui/ParticleBackground.jsx:22-25 | the mobile test; Mount states that it decides the particle count and Frame that it turns connections off |
| Particles.ParticleCount | src/components/ui/ParticleBackground.jsx:103 | 15 particles on mobile and 40 otherwise; InitParticles and Run state that this is the count created |
| Network.GridPoint | src/components/3d/NetworkBackground.jsx:32-39 | a grid point lies within 0.75 of its cell's place on x and y and at depth in [-17.5, -12.5) |
| Network.IndexRoundTrip | src/components/3d/NetworkBackground.jsx:35-40 | the push order (x outer, y inner) numbers the 64 cells one to one |
| Network.GeneratePoints | src/components/3d/NetworkBackground.jsx:31-42 | the nested loops push 64 points, the one at position 8x + y being cell (x, y) with its own jitter |
| Network.Endpoints | src/components/3d/NetworkBackground.jsx:50 | the segment list holds two vertices per connection |
| Network.EndpointsOf | src/components/3d/NetworkBackground.jsx:50 | entries 2k and 2k + 1 of the segment list are the two points of the k-th connection |
| Network.EndpointsAppend | src/components/3d/NetworkBackground.jsx:50 | one more connection appends exactly its two points |
| Network.EndpointsConcat | src/components/3d/NetworkBackground.jsx:45-53 | the segments of two runs of connections are those of the first followed by those of the second |
| Network.ConnectPoints | src/components/3d/NetworkBackground.jsx:45-53 | the loops produce the endpoints of exactly the close pairs, in (i, j) order |
| Network.RowsStep | src/components/3d/NetworkBackground.jsx:46-47 | one more outer iteration appends the segments of that point's row |
| Network.ConnectRow | src/components/3d/NetworkBackground.jsx:47-52 | the inner loop appends the segments of row i to what the earlier rows pushed |
| Network.RowStep | src/components/3d/NetworkBackground.jsx:48-51 | a close pair adds its two points and any other pair adds nothing |
| Network.SegmentsExact | src/components/3d/NetworkBackground.jsx:45-53 | two cells are joined if and only if i < j and they are closer than 4.5, and the segment list has two entries per connection |
| Network.Flatten | src/components/3d/NetworkBackground.jsx:55-60 | the buffer has three entries per point, point i at entries 3i, 3i + 1 and 3i + 2 |
| Network.Unflatten | src/components/3d/NetworkBackground.jsx:85-89 | a stride-3 buffer reads back as a third as many points |
| Network.FlattenRoundTrip | src/components/3d/NetworkBackground.jsx:55-89 | reading the buffer back as points gives the points again |
| Network.FillBuffer | src/components/3d/NetworkBackground.jsx:55-67 | the filled Float32Array holds exactly the stride-3 layout of the points |
| Network.BuildGrid | src/components/3d/NetworkBackground.jsx:30-107 | the position buffer reads back as the 64 grid points (count 64), and the connection buffer has six entries and two drawn vertices per connection |
| Network.Sway | src/components/3d/NetworkBackground.jsx:75-76 | the group never tilts more than 0.1 about y or 0.05 about x |
| Network.FloorRemainder | src/components/3d/NetworkBackground.jsx:246 | removing whole multiples of m from a non-negative number leaves something in [0, m) |
| Network.JsMod | src/components/3d/NetworkBackground.jsx:246 | JavaScript's `%` leaves a remainder in [0, m) for a non-negative dividend and in (-m, 0] for a negative one |
| Network.RainLoops | src/components/3d/NetworkBackground.jsx:246 | a falling digit stays in (-15, 15], starts at 15 and repeats every 30 units of fall |
| Network.JsModPeriod | src/components/3d/NetworkBackground.jsx:246 | one more period of 30 does not change the remainder |
| Network.RainColumn | src/components/3d/NetworkBackground.jsx:219-225 | column i sits within 1 of (i - 6) · 4, falls at speed in [0.3, 0.5) from an offset in [0, 20), and shows '0' or '1' |
| Network.ColumnInBand | src/components/3d/NetworkBackground.jsx:243-248 | at any non-negative time a column's digit is inside the band (-15, 15] |
| Network.PickSymbol | src/components/3d/NetworkBackground.jsx:128-133 | the drawn symbol is always one of the fifteen code symbols |
| Network.EverySymbolDrawn | src/components/3d/NetworkBackground.jsx:133 | each of the fifteen symbols is reachable by some draw |
| Network.MakeSymbol | src/components/3d/NetworkBackground.jsx:132-142 | a symbol item is a code symbol placed in [-15, 15) × [-12.5, 12.5) × [-20, -10), with speed in [0.2, 0.5), phase in [0, 2π) and spin in [-0.01, 0.01) |
| Network.GenerateSymbols | src/components/3d/NetworkBackground.jsx:127-146 | the loop makes exactly fifteen items, item k from draw k |
| Network.Drift | src/components/3d/NetworkBackground.jsx:164-167 | a floating symbol never drifts more than 0.5 vertically or 0.25 horizontally from its place |
| Network.SymbolSprite.constructor | src/components/3d/NetworkBackground.jsx:158-200 | a sprite starts unrotated with its item's spin speed |
| Network.SymbolSprite.Frame | src/components/3d/NetworkBackground.jsx:170 | each frame adds the spin speed to the rotation about z |
| Network.Spin | src/components/3d/NetworkBackground.jsx:161-172 | after n frames the sprite has turned by n times its speed, at most 0.01 per frame either way |
| Network.Cell | src/components/3d/NetworkBackground.jsx:32-37 | a cell's unjittered place; GridPoint states how far a point lies from it |
| Network.RainY | src/components/3d/NetworkBackground.jsx:246 | a falling digit's height; RainLoops and ColumnInBand state its band and period |
| Strings.IndexOf | src/i18n/LanguageContext.jsx:27 | the search finds the first occurrence of the separator, or reports that there is none |
| Strings.SplitPartsFree | src/i18n/LanguageContext.jsx:27 | `split` leaves no separator inside any part |
| Strings.JoinSplit | src/components/sections/About.jsx:129-132 | joining the parts of a `split` with the same separator gives back the original text |
| Strings.TrimEmpty | src/components/sections/About.jsx:140 | `trim()` is empty exactly when the text is all white space, which is what drops blank list lines |
| Strings.PadStart | src/components/ui/CodeTransition.jsx:116 | `padStart` reaches the target width (or keeps a longer text), ends with the text and pads only with the fill character |
| Strings.ParseIntString | src/components/sections/Projects.jsx:217 | `parseInt` reads back any integer written in decimal, whatever non-digit text follows it |

## Left out

- Rendering is not modelled: JSX markup, CSS classes and styling, SVG and canvas drawing calls, and text layout.
- GSAP, framer-motion, three.js, react-three-fiber and Lenis internals are left out. Only the calls the source makes into them are modelled: registrations, kills, configuration objects and `raf`.
- Timers (`setTimeout`, `setInterval`, `requestAnimationFrame`) and DOM events are modelled as discrete method calls, and concurrency is not modelled. When a resize arrives exactly as the previous debounce timer falls due, the timer is modelled as firing first.
- Projects.ScrollLockRoundTrip: scroll positions are whole pixels (`nat`). A fractional `window.scrollY`, as smooth scrolling or page zoom can produce, is saved as `-123.5px` and read back by `parseInt` truncated to 123, so the page returns to within one pixel of where it was, not exactly there.
- Numbers other than scroll positions are exact reals: there is no floating-point or Float32 rounding. `Math.sqrt`, `Math.atan2`, `Math.sin`, `Math.cos` and `distanceTo` are inputs that satisfy their ranges, not computations.
- `localStorage`, `navigator.language`, `window` sizes, touch capabilities and `Math.random()` are parameters. Nothing in the model reads them itself.
- `split('')` and string indexing work per UTF-16 code unit in JavaScript, but per character here. Nothing in the shipped data depends on the difference.
- The translation tables are represented by a few entries of `src/i18n/translations.js`, not the whole file.
- Loading.LoadingScreen.Tick: no bound is proved on the number of ticks before completion. A random increment can be 0, so the code has no such bound. The code is followed.
- SectionTransition.CompilationBar.Tick: no bound is proved on the number of ticks to completion either, for the same reason.
- SmoothScroll.SameConfigEverywhere: the configuration is the same on touch devices as elsewhere, because the hook computes its touch flag (src/hooks/useLenis.js:27) and never uses it. Touch input is left alone on every device only through `smoothTouch: false` and `syncTouch: false`, the options the comment at src/hooks/useLenis.js:36 calls critical; the model states that these options are the same for every device, not what Lenis does with them.
- The mobile connection distance of 80 in `src/components/ui/ParticleBackground.jsx` is not modelled. Connections are never drawn on mobile, so it is never used.
- The re-run of the particle effect when `isMobile` changes is not modelled. The model mounts once.
- `reset` is called only from the `Particle` constructor, as in the code.
- The loading screen's effect depends on `onComplete`. A new callback identity recreates the interval; the model keeps one interval for the whole load.
- framer-motion's `AnimatePresence` delays the project modal's unmount, and so its cleanup, until the exit animation ends. The model runs the cleanup at close.
- Registry.Gsap.KillTween: does not model the library also killing the tween's own ScrollTrigger, because every cleanup in the source kills the element's triggers right after the tween, so the combined state is the same either way.
- The following components only produce markup and are not modelled:
  - `GlitchText`, `CodeComment` and `TerminalHeader` in `src/components/ui/CodeTransition.jsx`;
  - `GlitchText` in `src/components/ui/AnimatedText.jsx`;
  - `CodeTags`, `FunctionSignature` and the `padStart(2, '0')` gutter in `src/components/ui/SectionTransition.jsx`.
- In `CharacterReveal`, the per-character delay `delay + index * stagger` is not modelled. Only the word reveal's delays are.
- `lenis.on('scroll', ScrollTrigger.update)` is library wiring and is left out.
- The Skills header count is `skills.length` read directly, so it has no member of its own.
- Navbar.NavbarState.HandleScroll scans the section names. Navbar.SectionIds proves that these names are the navigation hrefs with the leading `#` removed.
- Skills.MarqueeKeysDistinct requires that technology names contain no `-`. This holds for every name in the shipped data, and the code's keys would collide without it.
- Scene.jsx is not part of this model. It declares a `mousePosition` prop but never reads it.

## Findings

| source | as written | input that shows it | evidently intended | confidence | as-written member | corrected member |
|---|---|---|---|---|---|---|
| src/components/sections/Contact.jsx:161,203-204 | the GitHub entry's `href` is `personalInfo.github`, which `src/data/portfolio.js` does not define, and the link markup calls `href.startsWith('http')` on it | rendering the contact section with the shipped data | every contact method has a defined link, or links without one are rendered without calling `startsWith` | high (not executed) | Contact.RenderLinksAsWritten, Contact.ContactRenderThrows | Contact.LinkAttrsFor, Contact.ContactLinksCorrected |
| src/components/ui/AnimatedText.jsx:112-114 | the `ParallaxText` cleanup kills every ScrollTrigger on the page | unmounting one `ParallaxText` while another section's trigger is registered | the cleanup kills only the trigger this component created | high (not executed) | AnimatedText.ParallaxText.Cleanup, AnimatedText.ParallaxCleanupKillsOthers | AnimatedText.ParallaxCleanup, AnimatedText.ParallaxCleanupScoped |
| src/App.jsx:103 and src/hooks/useMousePosition.js:18 | `App` destructures `normalizedPosition`, but the hook returns `normalizedPositionRef`, so the scene receives `undefined` | any render of `App` | the scene receives the hook's normalized-position ref | high (not executed) | Pointer.ScenePropUndefined | Pointer.SceneProp |
| src/components/ui/CodeTransition.jsx:39 | the typing interval's cleanup is returned from inside the `setTimeout` callback, where React never sees it; the effect's own cleanup clears only the timeout | unmounting the typewriter after its start delay and before the text is complete | unmounting stops the typing interval | high (not executed) | CodeTransition.CleanupAsWritten, CodeTransition.TypingOutlivesUnmount | CodeTransition.Cleanup |
