# Portfolio site: typing animation, device-adaptive scene and project resolver

A model of the little logic in a React portfolio site, with proofs about it:

- **Typing animation** (`Home` page). The hero text types a phrase one character every
  100 ms. At the end of the phrase it arms a 1500 ms pause, then deletes it one character
  every 50 ms. Then it moves on to the next phrase, cyclically. Module `Typing` is the pure
  state machine over any phrase list. Class `Home.Home` holds the component's five state
  fields and has one method per callback: `HandleTyping`, `FinishPause` and `CheckDevice`.
- **Device classifier and scene branch** (`Device`). The page counts as desktop when the
  pointer is fine and the viewport is wider than 1024. Only then does it mount the 3D scene;
  otherwise it shows a static two-line notice and requests no scene file.
- **Error boundary** (`ErrorBoundary`). A latch that trips on the first error a child throws
  and never resets for the life of one mounted instance. Once tripped it renders "3D preview unavailable" instead of its children.
- **Project detail resolver** (`ProjectDetail`, over the JavaScript values of `Json`). It
  finds the first stored record whose id, under `String()`, equals the route id. It
  normalises `TechStack` and `Features` to arrays and defaults a falsy `Github` to the
  owner's profile URL. It also decides whether a GitHub click is intercepted ("Private"),
  which counts the page shows, and which icon a technology gets.

Inputs that come from the browser are parameters: the pointer precision and the viewport
width, the stored project list, and `JSON.parse`. `JSON.parse` is a function
`string -> Option<Value>`, where `None` means that it throws.

Two behaviours of the source are worth stating:
- When the route id changes and no record matches, the effect returns early, so the
  project shown before stays on screen. Only on a first visit does the page stay on
  "Loading project..." (`Load`, `LoadNoMatch`).
- The step at the end of a phrase changes no state. So the effect that schedules steps does
  not run again, and the animation idles until the pause timer fires (`Step`, `Reschedules`).
  Every other step changes one of that effect's dependencies, so the loop never stalls
  there, not even with a single phrase.

## Model

| member | source | states |
|---|---|---|
| `Typing.Step` | src/Pages/Home.jsx:89-108 | the step only arms the pause exactly when typing is done with the phrase; every other step changes a dependency of the scheduling effect (so another step is scheduled) and keeps the phrase index in range |
| `Typing.Reschedules` | src/Pages/Home.jsx:108-113 | the scheduling effect runs again exactly when the character index, the phrase index or the mode changed; a change of the text alone does not re-run it |
| `Typing.PauseResumes` | src/Pages/Home.jsx:97-113 | after the pause a step is scheduled again, because the mode flips, and that step updates the state |
| `Typing.StepPreservesInv` | src/Pages/Home.jsx:89-108 | every step keeps the invariant: phrase index in range, character index within the phrase, text equal to that prefix of the phrase |
| `Typing.FinishPause` | src/Pages/Home.jsx:97 | the pause callback switches to deleting and changes nothing else |
| `Typing.FinishPausePreservesInv` | src/Pages/Home.jsx:97 | the pause callback keeps the invariant |
| `Typing.Delay` | src/Pages/Home.jsx:111 | the next step is scheduled after 100 ms while typing and 50 ms while deleting |
| `Typing.DropLast` | src/Pages/Home.jsx:101 | `slice(0, -1)` removes the last character, and leaves an empty text empty |
| `Typing.Iterate` | src/Pages/Home.jsx:110-113 | any number of steps from a state satisfying the invariant ends in one satisfying it |
| `Typing.TypesOutWord` | src/Pages/Home.jsx:92-95 | in typing mode, the remaining characters of the phrase are appended one per step until the whole phrase shows |
| `Typing.ErasesWord` | src/Pages/Home.jsx:100-102 | in deleting mode, as many steps as characters shown erase the text to empty, keeping the phrase index |
| `Typing.RoundAdvances` | src/Pages/Home.jsx:89-113 | from an empty text at phrase w: typing shows the whole phrase, the next step only arms the pause, and after the pause the phrase is erased and typing restarts at phrase (w + 1) mod the number of phrases |
| `Typing.WordsCycle` | src/Pages/Home.jsx:104 | round k after mount shows phrase k mod the number of phrases, so the phrases cycle with that period |
| `Home.Home.constructor` | src/Pages/Home.jsx:64-68 | the component starts with empty text at phrase 0, typing, not desktop, and satisfying the invariant |
| `Home.Home.HandleTyping` | src/Pages/Home.jsx:89-108 | typing below the phrase's end appends the next character and advances the character index; at the end it changes nothing and arms the 1500 ms pause; deleting above 0 drops the last character; deleting at 0 advances the phrase index modulo the number of phrases and resumes typing on empty text; the invariant holds afterwards |
| `Home.Home.FinishPause` | src/Pages/Home.jsx:97 | the pause timer only switches the mode to deleting, keeping the invariant |
| `Home.Home.CheckDevice` | src/Pages/Home.jsx:72-77 | the desktop flag becomes fine-pointer-and-wider-than-1024, and the animation state is untouched |
| `Device.IsDesktop` | src/Pages/Home.jsx:73-76 | desktop exactly when the pointer is fine and the width is above 1024 |
| `Device.RightPanel` | src/Pages/Home.jsx:177-204 | the 3D scene with its loading placeholder is rendered exactly when desktop; otherwise exactly the two-line mobile notice |
| `Device.NarrowOrCoarseFetchesNothing` | src/Pages/Home.jsx:73-76 | a width of at most 1024 or a coarse pointer is never desktop; off desktop no scene asset is requested, on desktop exactly the scene URL |
| `ErrorBoundary.DerivedStateFromError` | src/components/SplineErrorBoundary.jsx:9-11 | the state derived from any error is tripped, whatever it was before |
| `ErrorBoundary.View` | src/components/SplineErrorBoundary.jsx:17-26 | the boundary renders the "3D preview unavailable" notice exactly when tripped, and its children otherwise |
| `ErrorBoundary.TrippedIsAbsorbing` | src/components/SplineErrorBoundary.jsx:9-11 | a tripped boundary stays tripped after any sequence of errors and re-renders |
| `ErrorBoundary.TrippedIffThrown` | src/components/SplineErrorBoundary.jsx:4-11 | a boundary that starts clear is tripped after a sequence of events exactly when a child threw in it |
| `ErrorBoundary.SplineErrorBoundary.constructor` | src/components/SplineErrorBoundary.jsx:4-7 | the boundary starts clear and renders its children |
| `ErrorBoundary.SplineErrorBoundary.Catch` | src/components/SplineErrorBoundary.jsx:9-11 | a caught error trips the boundary, which then renders the notice |
| `ErrorBoundary.SplineErrorBoundary.Render` | src/components/SplineErrorBoundary.jsx:17-26 | the mounted boundary renders the "3D preview unavailable" notice exactly when its flag is set, and its children otherwise |
| `Json.Truthy` | src/components/ProjectDetail.jsx:99-100 | `undefined` and `null` are falsy; a string is truthy exactly when non-empty, a number exactly when non-zero; arrays and objects are always truthy |
| `Json.Decimal` | src/components/ProjectDetail.jsx:90 | `String()` of a non-negative integer id is a non-empty numeral of decimal digits with no leading zero whose digits denote that integer |
| `Json.ToJsString` | src/components/ProjectDetail.jsx:90 | `String()` gives the decimal numeral of a number (with a minus sign when negative), a string itself, "null" for null and "[object Object]" for an object |
| `Json.DecimalInjective` | src/components/ProjectDetail.jsx:90 | two numbers have the same numeral exactly when they are equal |
| `ProjectDetail.NormalizeArray` | src/components/ProjectDetail.jsx:32-43 | an array passes through unchanged; a string that parses to an array gives that array; a non-empty result always comes from the value itself or from its parse, so non-strings, non-arrays, failed parses and non-array parses give the empty list |
| `ProjectDetail.Matches` | src/components/ProjectDetail.jsx:90 | a record without an id matches only the route id "undefined"; a string id matches when equal to the route id; a non-negative numeric id matches its decimal numeral |
| `ProjectDetail.FindIndex` | src/components/ProjectDetail.jsx:89-91 | the result is the position of a record whose stringified id equals the route id with none before it, or nothing when no record matches |
| `ProjectDetail.FindsFirstMatch` | src/components/ProjectDetail.jsx:89-91 | any first matching record is the one the search returns |
| `ProjectDetail.Resolve` | src/components/ProjectDetail.jsx:95-102 | the published project has the found record's keys plus the three rewritten ones; every other field is unchanged; both lists are normalised; a truthy `Github` is kept and a falsy or missing one becomes the profile URL |
| `ProjectDetail.ResolveIdempotent` | src/components/ProjectDetail.jsx:95-102 | normalising a published project again gives the same project |
| `ProjectDetail.Load` | src/components/ProjectDetail.jsx:83-103 | whenever the effect changes the project, the new project is the normalised form of some record matching the route id |
| `ProjectDetail.LoadFirstMatch` | src/components/ProjectDetail.jsx:89-102 | when a record matches, the effect publishes the normalised first match |
| `ProjectDetail.LoadNoMatch` | src/components/ProjectDetail.jsx:93 | when no record matches, the effect leaves the current project as it was |
| `ProjectDetail.LoadNormalized` | src/components/ProjectDetail.jsx:95 | every project the effect publishes has array-valued lists and a truthy link |
| `ProjectDetail.Render` | src/components/ProjectDetail.jsx:105-160 | with no project the page is the loading view; otherwise it shows the project with counters equal to the lengths of its two lists |
| `ProjectDetail.FirstVisitNoMatch` | src/components/ProjectDetail.jsx:105-111 | on a first visit with no matching record the page shows the loading view |
| `ProjectDetail.FirstVisitMatch` | src/components/ProjectDetail.jsx:157-160 | on a first visit with a match the page shows the first match, with counters equal to the lengths of its normalised technology and feature lists |
| `ProjectDetail.NumericIdAndEncodedList` | src/components/ProjectDetail.jsx:86-102 | a record with numeric id 3 and technologies stored as encoded text is found by route id "3", with the decoded list, an empty feature list and the default link |
| `ProjectDetail.GithubClick` | src/components/ProjectDetail.jsx:113-125 | the click is intercepted exactly when the link is the string "Private", and proceeds otherwise |
| `ProjectDetail.ResolvedClick` | src/components/ProjectDetail.jsx:113-114 | for a published project the click is intercepted exactly when the stored link was "Private"; the default link is never intercepted |
| `ProjectDetail.IconFor` | src/components/ProjectDetail.jsx:47 | a technology whose property key is in the icon table gets that icon, and any other gets the default icon |

## Left out

- Real timers and React scheduling: `setTimeout`, `clearTimeout` and the effect re-runs are not modelled. Each timer callback is a method call, the next step's delay is a returned number, and the pause is a returned delay. The uncancelled 1500 ms timer firing after unmount is not modelled.
- Browser APIs are left out: `matchMedia`, `innerWidth`, the resize listener, `localStorage`, `window.scrollTo` and `navigate(-1)`. Their values are parameters, or they are dropped because they only move the view.
- `JSON.parse` is a parameter. Reading the stored list also goes through it, and that `|| []` default is not modelled: the stored list is already a sequence of records.
- The stored list is a sequence of objects. Stored entries that are not objects (`null`, numbers, strings, booleans, arrays), and a stored value that is not an array, are not modelled.
- `Json.Value`: numbers are unbounded integers. Fractions, `NaN`, `Infinity`, `-0`, the exponent form `String()` uses from 1e21 up (such as "1e+21"), and the precision lost above 2^53 are not modelled.
- `Typing`: JavaScript's `length`, indexing and `slice` count UTF-16 code units, while the model's strings count Unicode characters. The two agree on the ASCII phrases of `WORDS`, but not on every phrase list the lemmas cover.
- `ProjectDetail.IconFor`: keys inherited from `Object.prototype` (such as "toString") are treated as absent. In the source they are truthy and would be rendered as the icon.
- The `Spline` scene, the asynchronous loading behind `Suspense`, `AOS.init` and `console.error` in `componentDidCatch` are not modelled. They are third-party code that is not visible here. The `Suspense` placeholder text is modelled, as part of `Device.Panel`.
- The `Swal.fire` dialog is reduced to the `Intercepted` outcome; its contents are not modelled.
- JSX markup, styling, `StatusBadge`, `CTAButton` and the static link lists are presentational only, and are not modelled. `TechBadge` and `FeatureItem` are modelled only through `IconFor` and the counters.
- ProjectDetail.Render: the source throws during render when `Title` or `Description`, or an element of `TechStack` or `Features`, is an object, because React refuses an object as a child. The model shows the page in that case.
- Json.ToJsString: an object that carries its own "toString" key (or "valueOf" key) is not modelled. For such an object `String()` can throw a TypeError, so at the id comparison the effect would throw instead of skipping the record, while the model gives "[object Object]".
- The error boundary inside the desktop panel is not composed with `Device.Panel`. The two are modelled separately.
