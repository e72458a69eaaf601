# Packaging-company marketing site: its logic modelled in Dafny

This project models the logic of a single-page marketing site for a packaging company. The site is mostly animation. What it models are the small state machines and calculations behind the animation, one module per source file:

- **`UsePreloader`** (`src/lib/usePreloader.js`):
  - the one-tick progress update `Tick`, a pure function of the previous value, the elapsed time and the load flag;
  - the DOMContentLoaded bump to 60;
  - the hook as a class, `PreloaderHook`. Its methods are the page's callbacks: the 50 ms interval, the 100 ms completion poll, the 5000 ms timeout, the load events and the delayed `setIsLoading(false)` calls.

  The effect depends on `progress`. So every change of `progress` tears the callbacks down and runs the effect again (`RunEffect`), which resets `loadComplete` and `startTime`. The locals and callbacks of the current run form one value, `run`. Each re-run replaces it whole.

  Time is the field `clock`. Each callback fires only once it is due:
  - the interval every 50 ms, and the poll every 100 ms, counted from the effect run that armed them;
  - the timeout 5000 ms after that run;
  - each bump and each hide at the time it was scheduled for.

  Every method states the hook's whole new state through `Snapshot()`.
- **`Preloader`** (`src/components/Preloader.jsx`): the phase `entering → loading → exiting` as a class, `PreloaderView`. Its methods are specified by a pure step function on a state value. The module also covers the exit gate and the render gate.
- **`Customize`** (`src/sections/Customize.jsx`):
  - the option tables;
  - the price estimate, with its fallbacks for unknown ids;
  - the display rounded to cents;
  - the single-key update of the selection record.
- **`Reviews`** (`src/sections/Reviews.jsx`):
  - next, previous and auto-advance modulo the number of reviews;
  - go-to;
  - the active dot;
  - the five-star row.
- **`FAQs`** (`src/sections/FAQs.jsx`):
  - the single-open toggle;
  - the category list with repeats removed;
  - the category jump to the first matching question;
  - the "All Questions" reset.
- **`Contact`** (`src/sections/Contact.jsx`):
  - the field update;
  - the status machine `idle → sending → success | error → idle`;
  - the button label and disabled state;
  - the contact-card dispatch.
- **`Header`** (`src/components/Header.jsx`):
  - the scroll-threshold flag;
  - the mobile-menu flag (toggle, Escape, backdrop);
  - the active section, set by clicks and by the section observer.
- **`Benefits`** (`src/sections/Benefits.jsx`): digit extraction and the thousands ("K") format of the stat counters.

Three modules are shared helpers:
- `Wrappers` provides `Option`.
- `Numerals` covers decimal numerals, in both directions, with both round trips proved.
- `Counting` counts occurrences.

Progress and prices are exact `real`s. Indices and counters are `nat`s. Clocks, document events, clicks, key presses and scroll offsets are inputs.

The comment at `src/lib/usePreloader.js:83` calls the 5000 ms timeout a minimum display time, but the code does not enforce one. The completion poll alone can hide the preloader earlier. The model follows the code: `UsePreloader.RevealBeforeMinimumTime` builds a run where the document is already loaded at mount and `isLoading` turns false at 4050 ms.

While the document is interactive, every effect run schedules another 60% bump, because `handleDOMContentLoaded` is called directly at `src/lib/usePreloader.js:75-76`. The bumps pile up, but each one is a `max`, so once progress reaches 60 they change nothing (`UsePreloader.PageBecomesInteractive`).

A visitor who prefers reduced motion never gets past the preloader. Without an entrance timeline (`src/components/Preloader.jsx:130`) the phase never leaves entering, so the exit never starts and `onComplete` is never called (`Preloader.RunKeeps`). The site's content is shown only after `onComplete` (`src/App.jsx:39-42`).

The contact form has a similar quirk. A 3 s reset left over from one submission can fire while a later submission is being sent. That sets the status back to idle and re-enables the button (`Contact.StaleResetDuringSending`). A success empties the form, so the second submission needs the four required fields retyped within the 3 s window.

## Model

| member | source | states |
|---|---|---|
| `UsePreloader.TimeProgress` | src/lib/usePreloader.js:33-34 | the time-based target never exceeds 85, is non-negative for non-negative elapsed time, and is exactly 85 from the 5000 ms mark on |
| `UsePreloader.TimeProgressMonotone` | src/lib/usePreloader.js:34 | a later instant never has a lower time-based target |
| `UsePreloader.Tick` | src/lib/usePreloader.js:31-54 | the tick stops the interval exactly when loaded at 95 or more, and then returns 100; loaded below 95 it returns exactly min(prev + 2, 95); unloaded it never passes 85 and below 85 rises by at least min(0.5, 85 − prev); unloaded it eases toward the time target: never beyond max(target, prev + 0.5), and from below the target at least a tenth of the gap (capped at 85); in [0,85] unloaded or [0,100] loaded it never decreases and never exceeds 100 |
| `UsePreloader.UnloadedTickAfterRestart` | src/lib/usePreloader.js:26-27 | within 250 ms of an effect restart an unloaded tick adds exactly 0.5 (capped at 85), because the restart resets `startTime` |
| `UsePreloader.DomReadyBump` | src/lib/usePreloader.js:65-70 | the DOMContentLoaded bump yields max(prev, 60): at least 60, never lower than before, and either unchanged or exactly 60 |
| `UsePreloader.PreloaderHook.constructor` | src/lib/usePreloader.js:4-5 | mounting starts with `isLoading` true and `progress` 0, runs the effect once, schedules a bump only when the document is interactive, and schedules nothing to hide the preloader |
| `UsePreloader.PreloaderHook.RunEffect` | src/lib/usePreloader.js:24-111 | cleanup then effect body: the new state is `Restarted` of the old one. `startTime` is now, and `loadComplete` is true exactly when the document is already complete. Both intervals and the timeout are re-armed from now, and the listeners match the ready state. When the document is interactive, a bump is scheduled 100 ms from now. Nothing else changes |
| `UsePreloader.PreloaderHook.SetProgress` | src/lib/usePreloader.js:5 | setting the current value changes nothing; setting a new value stores it and re-runs the effect, since the effect depends on `progress`, and nothing else changes |
| `UsePreloader.PreloaderHook.Elapse` | src/lib/usePreloader.js:33 | time moves forward and the hook's invariant holds |
| `UsePreloader.PreloaderHook.IntervalTick` | src/lib/usePreloader.js:31-57 | fires only at its 50 ms due time. It sets `progress` to `Tick` of the previous value, the time since the current effect run and the load flag. Progress never decreases. A changed value re-runs the effect. Otherwise only the interval moves on to its next period, or is cleared when the tick says so |
| `UsePreloader.PreloaderHook.DocumentInteractive` | src/lib/usePreloader.js:65-79 | DOMContentLoaded schedules one 60% bump 100 ms later; nothing else changes but the ready state |
| `UsePreloader.PreloaderHook.DocumentComplete` | src/lib/usePreloader.js:60-62 | the load event makes `loadComplete` true; nothing else changes but the ready state |
| `UsePreloader.PreloaderHook.DomBumpFires` | src/lib/usePreloader.js:67-69 | a bump fires only at its due time. It sets `progress` to `DomReadyBump` of its value and is used up. A changed value re-runs the effect; otherwise nothing else changes |
| `UsePreloader.PreloaderHook.MinTimerFires` | src/lib/usePreloader.js:84-91 | 5000 ms after the current effect run, the timeout forces 100 and schedules a hide 1000 ms later when loaded with the captured progress at 95 or more. Forcing a new value re-runs the effect. Otherwise it only disarms, and nothing else changes |
| `UsePreloader.PreloaderHook.CompleteCheckFires` | src/lib/usePreloader.js:94-101 | fires only at its 100 ms due time. Once the captured progress is 100, the poll stops and schedules a hide 1500 ms later. Otherwise it only moves on to its next period. Nothing else changes |
| `UsePreloader.PreloaderHook.HideFires` | src/lib/usePreloader.js:87-99 | a hide fires only at its due time and is used up. It is the only way `isLoading` becomes false, and by then progress is 100 and has been for at least 1000 ms. Nothing else changes |
| `UsePreloader.RevealBeforeMinimumTime` | src/lib/usePreloader.js:83-101 | with the document complete at mount, the preloader is hidden at 4050 ms, before the 5000 ms mark |
| `UsePreloader.PageBecomesInteractive` | src/lib/usePreloader.js:57-81 | in a load that starts before DOMContentLoaded, with the document interactive at 50 ms, the ticks at 50 and 100 ms reach 1.0, and two bumps are pending by then, due at 150 and 200 ms. The effect re-run at 100 ms finds the document interactive and schedules a bump of its own |
| `UsePreloader.PageLoadSequence` | src/lib/usePreloader.js:42-81 | in that load, the first bump lifts progress to 60 at 150 ms and schedules yet another. After the load event, the tick at 200 ms adds 2, reaching 62 |
| `Preloader.MarkupGoneOnceExitStarts` | src/components/Preloader.jsx:234-288 | in every reachable state the component renders its markup exactly while no exit timeline has been built, so the markup is gone as soon as the exit starts and the exit timeline animates nodes no longer on the page |
| `Preloader.Initial` | src/components/Preloader.jsx:9 | the initial state satisfies the invariant, starts in the entering phase, and is loading |
| `Preloader.PreloaderView.constructor` | src/components/Preloader.jsx:129-136 | the phase starts as entering; the entrance timeline is built only with a logo container and without reduced motion |
| `Preloader.PreloaderView.ExitEffect` | src/components/Preloader.jsx:234-236 | the exit starts (phase exiting, exit timeline running) exactly when loading is over and the phase is loading; otherwise nothing changes |
| `Preloader.PreloaderView.EntranceCompletes` | src/components/Preloader.jsx:132-136 | completion of the entrance timeline moves the phase to loading, and on to exiting at once when loading is already over |
| `Preloader.PreloaderView.LoadingFinished` | src/components/Preloader.jsx:234-236 | `isLoading` turning false starts the exit when the phase is loading, and otherwise leaves the phase |
| `Preloader.PreloaderView.ExitCompletes` | src/components/Preloader.jsx:238-241 | completion of the exit timeline calls `onComplete` (once in all) and the component renders nothing |
| `Preloader.StepKeeps` | src/components/Preloader.jsx:132-136 | every event keeps the invariant; the phase never moves back; loading never resumes; the exit starts only with loading over and after an entrance; `onComplete` is called only by a running exit timeline's completion; an entrance never built stays unbuilt |
| `Preloader.RunKeeps` | src/components/Preloader.jsx:130-136 | over any sequence of events the phase only moves forward and `onComplete` is called at most once; without an entrance timeline the phase stays entering and `onComplete` is never called |
| `Customize.Find` | src/sections/Customize.jsx:110-115 | `find` yields nothing exactly when no row has the id, and otherwise the factor of the first row with that id |
| `Customize.FactorOr` | src/sections/Customize.jsx:117-122 | `row?.field \|\| fallback`: a missing row gives the fallback, a non-zero factor gives itself |
| `Customize.OptionChange` | src/sections/Customize.jsx:128-133 | the changed key holds the new value, the keys are the old ones plus that key, and every other key keeps its value |
| `Customize.PriceIgnoresUnpricedKeys` | src/sections/Customize.jsx:109-124 | changing a key the price does not read leaves every factor and the estimate unchanged |
| `Customize.ColorNeverAffectsPrice` | src/sections/Customize.jsx:81-88 | choosing any colour leaves the estimate unchanged |
| `Customize.FactorsOfWithin` | src/sections/Customize.jsx:26-122 | each factor of any selection, fallbacks included, lies within its table's range |
| `Customize.PriceBounds` | src/sections/Customize.jsx:26-124 | every selection, unknown ids included, is estimated strictly above 0, between the cheapest and dearest combination of the tables |
| `Customize.UnknownIdFallsBack` | src/sections/Customize.jsx:117-122 | an id no row carries, or a missing key, contributes the fallback factor |
| `Customize.UnknownBoxTypePricedAtFallback` | src/sections/Customize.jsx:117 | an unknown box type is priced from the base 3.50 |
| `Customize.QuantityTiersNonIncreasing` | src/sections/Customize.jsx:100-106 | the quantity multipliers never rise from one tier to a later one |
| `Customize.ChangeKeepsOtherFactors` | src/sections/Customize.jsx:109-133 | changing one key changes at most the factor read from that key |
| `Customize.ChooseQuantityTier` | src/sections/Customize.jsx:115-133 | choosing tier k replaces the quantity multiplier by that tier's and keeps the other factors |
| `Customize.LargerTierNeverDearer` | src/sections/Customize.jsx:100-133 | choosing a later quantity tier never raises the estimate per unit |
| `Customize.Cents` | src/sections/Customize.jsx:124 | the displayed price is the estimate rounded to the nearest cent, halves up |
| `Customize.PriceText` | src/sections/Customize.jsx:124 | the two-decimal text reads back as the whole units before the point and exactly two digits after it that give the cents |
| `Customize.DefaultFactors` | src/sections/Customize.jsx:15-23 | the default selection's factors are 4.25, 1.0, 1.2, 1.0, 1.5 and 1.0 |
| `Customize.DefaultPrice` | src/sections/Customize.jsx:15-124 | the default selection is estimated at exactly 7.65, which is 765 cents |
| `Customize.DefaultDisplayedPrice` | src/sections/Customize.jsx:124 | the default selection is displayed as "7.65" |
| `Reviews.Next` | src/sections/Reviews.jsx:160-162 | `(i+1) mod n` stays in [0,n), steps up by one and wraps the last index to 0 |
| `Reviews.Prev` | src/sections/Reviews.jsx:164-166 | `(i−1+n) mod n` stays in [0,n), steps down by one and wraps 0 to n−1 |
| `Reviews.PrevNextInverse` | src/sections/Reviews.jsx:160-166 | previous after next, and next after previous, return the original index |
| `Reviews.Advance` | src/sections/Reviews.jsx:94-97 | any number of auto-advance ticks keeps the index in range |
| `Reviews.AdvanceWithinCycle` | src/sections/Reviews.jsx:96 | within one cycle, k ticks move the index k places forward, wrapping once past the last review |
| `Reviews.FullCycleReturns` | src/sections/Reviews.jsx:94-97 | n ticks return to the starting review, so auto-advance has period n |
| `Reviews.Dots` | src/sections/Reviews.jsx:288-294 | one dot per review |
| `Reviews.ExactlyOneActiveDot` | src/sections/Reviews.jsx:292 | the dot marked active is exactly the one whose index is the current review, so exactly one is active |
| `Reviews.Stars` | src/sections/Reviews.jsx:168-176 | five stars are drawn |
| `Reviews.StarsFilled` | src/sections/Reviews.jsx:175 | the number of filled stars is the rating clamped to [0,5] |
| `Reviews.EveryReviewShowsFiveStars` | src/sections/Reviews.jsx:14-80 | every testimonial on the page is rated 5 and shows five filled stars |
| `Reviews.Carousel.constructor` | src/sections/Reviews.jsx:11 | the carousel starts at the first review |
| `Reviews.Carousel.NextSlide` | src/sections/Reviews.jsx:160-162 | the next arrow sets the index to `Next` of the old one |
| `Reviews.Carousel.PrevSlide` | src/sections/Reviews.jsx:164-166 | the previous arrow sets the index to `Prev` of the old one |
| `Reviews.Carousel.GoToSlide` | src/sections/Reviews.jsx:156-158 | a dot sets the index to exactly its own index |
| `Reviews.Carousel.AutoAdvance` | src/sections/Reviews.jsx:94-97 | one 6 s tick moves to the following review, wrapping from the last to the first |
| `FAQs.DedupeCorrect` | src/sections/FAQs.jsx:93 | the deduplicated list has no repeats, holds exactly the input's values, and lists them in order of first occurrence |
| `FAQs.DedupeOfDistinct` | src/sections/FAQs.jsx:93 | a list without repeats is left as it is |
| `FAQs.CategoryButtons` | src/sections/FAQs.jsx:93 | the category buttons have no repeats and name exactly the categories some question uses |
| `FAQs.PageHasOneButtonPerQuestion` | src/sections/FAQs.jsx:17-93 | the page's twelve questions each have their own category, so there are twelve category buttons in question order |
| `FAQs.Filter` | src/sections/FAQs.jsx:216 | the filter keeps exactly the questions of the category |
| `FAQs.FilterHeadIsFirst` | src/sections/FAQs.jsx:216-218 | the first filtered question is the first question of that category in list order |
| `FAQs.Toggled` | src/sections/FAQs.jsx:95-97 | toggling closes everything exactly when the question is the open one, and otherwise opens that question |
| `FAQs.ToggleTwiceFromClosed` | src/sections/FAQs.jsx:96 | toggling the same question twice from all-closed returns to all-closed |
| `FAQs.CategoryClickOpensFirst` | src/sections/FAQs.jsx:215-218 | a category click opens the first question of that category in list order, and changes nothing when no question has it |
| `FAQs.OpenFlags` | src/sections/FAQs.jsx:239 | a question carries the open class exactly when its id is the open one |
| `FAQs.PageShowsAtMostOneOpen` | src/sections/FAQs.jsx:17-90 | on the page's own twelve questions, at most one is shown open, and exactly one when the open id is 1 to 12 |
| `FAQs.AtMostOneOpen` | src/sections/FAQs.jsx:14 | with distinct ids at most one question is shown open, and exactly one when the open id is on the list |
| `FAQs.Accordion.constructor` | src/sections/FAQs.jsx:14 | every question starts closed |
| `FAQs.Accordion.Toggle` | src/sections/FAQs.jsx:95-97 | a question's button sets the open id to `Toggled` of the old one |
| `FAQs.Accordion.ShowAll` | src/sections/FAQs.jsx:206 | "All Questions" closes every question |
| `FAQs.Accordion.CategoryClick` | src/sections/FAQs.jsx:215-218 | a category button opens the first question of its category, if any |
| `Contact.EmptyForm` | src/sections/Contact.jsx:14-22 | the form has the seven fields, all empty |
| `Contact.WithField` | src/sections/Contact.jsx:188-194 | an edit sets the named field and leaves every other field as it was |
| `Contact.EditKeepsFields` | src/sections/Contact.jsx:188-194 | editing one of the form's fields keeps the set of fields |
| `Contact.DisabledExactlyWhenLabelSending` | src/sections/Contact.jsx:404-416 | the submit button is disabled exactly when its label reads "Sending..." |
| `Contact.DisabledMeansInFlight` | src/sections/Contact.jsx:196-198 | under the form's invariant, a disabled button always has a submission in flight behind it (the converse fails, see `StaleResetDuringSending`) |
| `Contact.ButtonLabelsDistinct` | src/sections/Contact.jsx:413-416 | each status has its own button label |
| `Contact.ContactForm.constructor` | src/sections/Contact.jsx:14-24 | the form starts empty and idle |
| `Contact.ContactForm.InputChange` | src/sections/Contact.jsx:188-194 | a keystroke replaces one field and nothing else |
| `Contact.ContactForm.Submit` | src/sections/Contact.jsx:196-198 | with the button enabled and the four required fields filled, submitting sets the status to sending before anything else and starts one submission |
| `Contact.ContactForm.Settle` | src/sections/Contact.jsx:202-223 | success empties all seven fields; failure keeps them and shows error; either way a reset to idle is scheduled |
| `Contact.ContactForm.ResetFires` | src/sections/Contact.jsx:219 | a scheduled reset sets the status to idle |
| `Contact.StaleResetDuringSending` | src/sections/Contact.jsx:196-225 | a reset from an earlier submission can make the status idle while a later submission is still being sent, in a run where every submission has its required fields filled |
| `Contact.ContactAction` | src/sections/Contact.jsx:227-244 | ids 1 to 4 have a target and every other id has none; ids 1 and 4 open a new tab, while 2 and 3 navigate the current one |
| `Contact.ContactActionSchemes` | src/sections/Contact.jsx:229-240 | the four cards lead to a map, an e-mail, a phone call and a WhatsApp chat, in that order |
| `Header.ObservedSection` | src/components/Header.jsx:104 | an element with an id stands for that section; one without stands for home |
| `Header.ActiveLinks` | src/components/Header.jsx:220-222 | one flag per navigation item |
| `Header.OneActiveLink` | src/components/Header.jsx:220-222 | exactly the link whose id is the active section is marked, so one link is marked when the section is a navigation item and none otherwise |
| `Header.HeaderState.constructor` | src/components/Header.jsx:8-10 | not scrolled, home active, menu closed |
| `Header.HeaderState.OnScroll` | src/components/Header.jsx:31-37 | after a scroll event the flag equals `scrollY > 50`, and it is written exactly when that value changes |
| `Header.HeaderState.ToggleMenu` | src/components/Header.jsx:170-172 | the hamburger flips the menu flag |
| `Header.HeaderState.KeyDown` | src/components/Header.jsx:175-179 | Escape closes an open menu; any other key, or a closed menu, changes nothing |
| `Header.HeaderState.NavClick` | src/components/Header.jsx:152-167 | after a navigation click the menu is closed and the clicked item's section is active |
| `Header.HeaderState.BackdropClick` | src/components/Header.jsx:310-315 | the backdrop exists only while the menu is open, and clicking it closes the menu and removes it |
| `Header.HeaderState.ObserverIntersect` | src/components/Header.jsx:101-107 | an intersecting section becomes the active one |
| `Benefits.StripNonDigits` | src/sections/Benefits.jsx:165 | the stripped text is all digits and no longer than the original |
| `Benefits.StripConcat` | src/sections/Benefits.jsx:165 | the digits of a concatenation are the digits of the parts |
| `Benefits.StripKeepsDigitsDropsOthers` | src/sections/Benefits.jsx:165 | all-digit text is kept whole and digit-free text vanishes |
| `Benefits.TweenTarget` | src/sections/Benefits.jsx:160-165 | an all-digit stat is tweened to the number it spells |
| `Benefits.PlainCounterReadsBack` | src/sections/Benefits.jsx:178-179 | for a stat without `K` the counter shows the current value itself |
| `Benefits.SmallKCounterHasNoSuffix` | src/sections/Benefits.jsx:177 | below 1000 a `K` counter shows the plain number, without a suffix |
| `Benefits.KCounterTruncatesToHundreds` | src/sections/Benefits.jsx:177 | from 1000 on a `K` counter ends in `K`; whole thousands show the thousands alone; otherwise it shows thousands, a point and one digit, reading as the value truncated to its hundreds |
| `Benefits.FinalDisplay` | src/sections/Benefits.jsx:160-179 | a stat without `K` ends on the numeral of its digits |
| `Benefits.KStatLosesSuffix` | src/sections/Benefits.jsx:165-177 | as written, a `K` stat whose digits read below 1000 ends on the bare number, without `K` |
| `Benefits.BoxesDeliveredEndsOn500` | src/sections/Benefits.jsx:102-177 | as written, "500K+" is tweened to 500 and ends on "500" |
| `Benefits.CorrectedTweenTarget` | src/sections/Benefits.jsx:165 | corrected: a `K` stat counts up to its digits in thousands; other stats are unchanged |
| `Benefits.CorrectedFinalDisplay` | src/sections/Benefits.jsx:160-179 | corrected: a stat without `K` ends as before |
| `Benefits.CorrectedKStatKeepsSuffix` | src/sections/Benefits.jsx:165-177 | corrected: a `K` stat with a non-zero number ends on that number followed by `K` |
| `Benefits.BoxesDeliveredEndsOn500K` | src/sections/Benefits.jsx:102 | corrected: "500K+" ends on "500K" |
| `Benefits.PlainStatsEndOnTheirText` | src/sections/Benefits.jsx:103-105 | the stats "98", "15" and "24" end on their own text, as written and as corrected |

## Left out

- GSAP timelines, ScrollTrigger reveals, easing and hover tweens everywhere. They belong to a third-party animation library. A timeline is a state (not built, running, done) and its completion is an event.
- The preloader's particle canvas (`src/components/Preloader.jsx:26-126`) and its progress-bar and label tweens (lines 138-231). These are floating-point drawing driven by animation frames. Removing the preloader's DOM node on exit (lines 241-243) is left out too.
- The body scroll lock in `src/lib/usePreloader.js:7-22`. It only writes styles.
- `src/lib/scroll.js`, `src/lib/motion.js`, Hero, FloatingActions, App and the catalogue-only sections. They are wrappers, static data or composition.
- `window.open`, `location.href`, `scrollIntoView`, `scrollToElement`, `encodeURIComponent` and the WhatsApp quote and support handlers. These are foreign calls. `Contact.ContactAction` returns only the target chosen.
- Outside the preloader hook: timer durations, `Date.now` and IntersectionObserver options. There a timer firing or an observer report is a method call. The hook has an explicit `clock` and due times.
- IEEE-754 arithmetic. Division, multiplication and `toFixed(2)` are on exact reals, and `Math.ceil` of the tweened counter is a `nat` input.
- Focus management and menu animations in the header, and the carousel track's `translateX` offset. These are DOM side effects.
- The 2 s fake delay and `console.log` in the contact form. The handler's wait never fails, so whether a submission is rejected is an input to `Settle`.
- Preloader.PreloaderView.ExitEffect: assumes the preloader element is always mounted (`preloaderRef.current` at line 235).
- Reviews.Carousel.GoToSlide: requires an index below the number of reviews. The source accepts any index, but its only callers are the dots, one per review.
- Contact.ContactForm.Submit: requires the button to be enabled. The disabled button is what keeps a second submission from starting while one is being sent.
- Contact.ContactForm.Submit: the browser's constraint validation is modelled only as non-empty required fields (name, email, projectType, message at `src/sections/Contact.jsx:292-395`). The e-mail format check of `type="email"` is not modelled.
- UsePreloader.PreloaderHook.SetProgress: requires a value between the current one and 100, and above 85 only once the document is complete. These are the values the hook's own callers pass. It is not a general setter.

## Findings

| source | as written | input that shows it | evidently intended | confidence | as-written member | corrected member |
|---|---|---|---|---|---|---|
| src/sections/Benefits.jsx:165 | the counter is tweened to the stat's digits alone, so "500K+" counts to 500; the thousands branch at line 177 needs 1000 or more and is never reached, so the counter ends on "500" and loses its `K`; the `+` is lost as well, because line 165 strips it with the `K` and no branch puts it back | the stat text "500K+" (line 102) | a `K` stat counts up to its digits in thousands and ends on "500K" (the corrected counter still drops the `+`) | medium, not executed | `Benefits.BoxesDeliveredEndsOn500` | `Benefits.CorrectedKStatKeepsSuffix` |
