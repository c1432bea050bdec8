# ADmyBRAND analytics dashboard — the rules behind the UI

The dashboard is a client-side page whose numbers come from a handful of small,
deterministic rules once randomness and time are taken as inputs. This project
models those rules in Dafny and proves what they promise:

- **Dashboard data pipeline** (module `Dashboard`, `dashboard.dfy`): the
  period resolver (`'1w'`, `'1m'`, `'3m'`, `'6m'`, anything else), the
  countdown of day offsets the series is sampled at, the metric record built
  for each offset, the traffic-mix and team tables with their `'1m'`
  fallback, the revenue/visitor/conversion totals, the average CTR, and the
  seven-record window of the CTR chart. `Math.random()` values are the
  `Draws` a caller supplies (each in [0, 1)), `Math.sin` is a caller-supplied
  function bounded by [-1, 1], and dates are whole days before today.
- **ROI calculator** (module `Pricing`, `pricing.dfy`): plan prices, monthly
  and annual revenue, annual plan cost and ROI, over exact reals.
- **Demo player** (module `DemoPlayback`, `demo_video.dfy`): the playback
  clock as a state machine (`Tick`, `TogglePlay`, `Reset`), the progress
  bar, `formatTime`, the current-step lookup and the timeline highlight.
- **Blog filter** (module `Blog`, `blog.dfy`): the post list, the category
  tabs and the "all"-or-category filter.
- **Theme provider** (module `Theme`, `theme.dfy`): the theme and mounted
  state, the load-on-mount and persist-after-render effects over a storage
  map, `toggleTheme`, and the `useTheme` guard.

Two supporting modules hold what several components share: `Optional`
(`optional.dfy`: `Option`, `Result`) and `JsNumber` (`js_number.dfy`:
`Math.round`, the numeric value of `toFixed`, `toString` of a natural
number and `padStart(2, '0')`). `Math.round(x)` is modelled exactly as
`floor(x + 0.5)`, and `x.toFixed(k)` read back by `parseFloat` as `x`
rounded to `k` decimals, with ties away from zero (`toFixed` rounds the
magnitude and restores the sign).

Each operation carries a contract stating what its result means; the lemmas
below relate operations to each other, to reference definitions (such as the
plain sum `SumOf` behind the `reduce` totals) and to concrete inputs.

The model follows the code as written, including where it is easy to assume
otherwise: conversions are not clamped and can be negative; the traffic-mix
rows do sum to 100 in every case, although nothing enforces it; the
theme is written to storage on mount as well as after every toggle, and never
before mount; a saved theme string is used unvalidated.

## Model

| member | source | states |
|---|---|---|
| Dashboard.ResolvePeriod | components/Dashboard.js:40-61 | every token resolves to a window with at least one sample step, `1 <= interval <= days` |
| Dashboard.PeriodSamples | components/Dashboard.js:40-63 | the four periods sample 8, 31, 31 and 26 points; 1w/1m/3m end today, 6m ends 5 days before today |
| Dashboard.Countdown | components/Dashboard.js:63 | the `for` loop visits no offset exactly when it starts below zero |
| Dashboard.CountdownShape | components/Dashboard.js:63 | the loop's offsets start at `days`, fall by exactly `interval`, stay in [0, days], number `days / interval + 1` and end at `days % interval` |
| Dashboard.SampleOffsets | components/Dashboard.js:63-82 | running the `for` loop as written yields the countdown, with `days / interval + 1` offsets ending at `days % interval` |
| Dashboard.RawBounds | components/Dashboard.js:67-80 | before rounding: revenue in [500, 3500), visitors in [200, 1800), conversions in [-50, 350), ctr in [2, 5), bounce rate in [30, 50) |
| Dashboard.RoundedInRange | components/Dashboard.js:76-80 | with valid draws and a bounded sine, `Math.round`/`toFixed` of each raw value lies in its closed range |
| Dashboard.MakeRecord | components/Dashboard.js:71-81 | the record pushed for offset `i` is labelled `i` days ago and, with valid draws and a bounded sine, lies in the closed ranges, so revenue and visitors are always positive |
| Dashboard.ConversionsMayBeNegative | components/Dashboard.js:69-78 | with the lowest draw and a sine near -1 the conversions field is -50: it is not clamped |
| Dashboard.GenerateData | components/Dashboard.js:36-85 | the series has one record per offset (`days / interval + 1`); record `j` is built for the `j`-th offset of the loop, starting `days` ago, each `interval` days after the previous one, ending `days % interval` ago, strictly chronological |
| Dashboard.SeriesInRange | components/Dashboard.js:63-82 | every record of every generated series is in range |
| Dashboard.MixRow | components/Dashboard.js:89-96 | the row chosen for any token has three shares summing to 100 with the last one 25 |
| Dashboard.TrafficMix | components/Dashboard.js:88-103 | exactly Organic, Paid, Direct in that order, summing to 100, Direct always 25 |
| Dashboard.Multipliers | components/Dashboard.js:108-115 | the multiplier row for any token has four entries, each in [0.8, 1.3] |
| Dashboard.TeamData | components/Dashboard.js:106-122 | four records named Marketing, Sales, Support, Development in that order, each with target 2500 |
| Dashboard.TeamPerformanceBounds | components/Dashboard.js:119 | performance is in [2000, 5900]: the multiplier scales only the random part |
| Dashboard.UnknownTokenFallsBack | components/Dashboard.js:58-115 | an unknown token yields the 1-month window, mix and team multipliers |
| Dashboard.Fold | components/Dashboard.js:191-193 | the `reduce` left fold from `acc` yields `acc` plus the sum of the field over the series |
| Dashboard.TotalAppend | components/Dashboard.js:191-193 | appending a record raises each total by that record's field |
| Dashboard.Total | components/Dashboard.js:191-193 | each total, the fold started at 0, equals the arithmetic sum of its field over the series |
| Dashboard.RevenueTotalExample | components/Dashboard.js:191 | revenues 100, 200 and 300 total 600 |
| Dashboard.AverageCtr | components/Dashboard.js:181-194 | the average is undefined exactly on the empty series the page starts with; otherwise it times the count is the ctr sum |
| Dashboard.AverageCtrWithin | components/Dashboard.js:194 | the average of a non-empty in-range series lies in [2, 5] |
| Dashboard.TakeLast | components/Dashboard.js:435 | `slice(-k)` keeps the last `min(k, n)` elements in their original order, and the whole array when `k` is 0 (`slice(-0)` is `slice(0)`) |
| Dashboard.CtrWindow | components/Dashboard.js:435 | the CTR chart shows the last `min(7, n)` records in their original order |
| JsNumber.Round | components/Dashboard.js:76-78 | `Math.round(x)` is the integer within half a unit of `x`, halves rounded up |
| JsNumber.Fixed | components/Dashboard.js:79-80 | the number `x.toFixed(k)` denotes is a whole number of `10^-k` units (at most `k` decimals) within half a unit of `x`, with a tie rounded up for non-negative `x` and down for negative `x` |
| JsNumber.FixedTies | components/Dashboard.js:79-80 | `toFixed` ties go away from zero: 2.5 and 0.125 give 3 and 0.13, -2.5 and -0.125 give -3 and -0.13 |
| JsNumber.FixedWithin | components/Dashboard.js:79-80 | a value in [lo, hi) with integer bounds, of either sign, keeps `toFixed(1)`/`toFixed(2)` within [lo, hi] |
| JsNumber.DecimalString | components/DemoVideo.js:52 | `toString` of a natural number below 10^21 is a non-empty digit string without a leading zero |
| JsNumber.ParseDecimalString | components/DemoVideo.js:52 | reading the decimal string of `n` back gives `n` |
| JsNumber.PadTwo | components/DemoVideo.js:52 | `padStart(2, '0')` of a number below 100 is two digits denoting that number |
| Pricing.Price | components/PricingCalculator.js:13-17 | every plan price is in [29, 299] |
| Pricing.MonthlyRevenue | components/PricingCalculator.js:19 | monthly revenue is non-negative for non-negative inputs and zero when visitors, conversion rate or order value is zero |
| Pricing.AnnualRevenue | components/PricingCalculator.js:20 | annual revenue is zero exactly when monthly revenue is, and never below it for non-negative inputs |
| Pricing.PlanCost | components/PricingCalculator.js:21 | the annual plan cost is at least 348, so the ROI division is always defined |
| Pricing.Roi | components/PricingCalculator.js:21 | ROI is positive exactly when annual revenue exceeds the annual plan cost, zero exactly at break-even, and equals revenue/cost·100 − 100 |
| Pricing.MakeQuote | components/PricingCalculator.js:19-21 | annual revenue is twelve months' revenue, plan cost is twelve monthly prices and positive, ROI positive iff annual revenue exceeds plan cost |
| Pricing.RoiPrefix | components/PricingCalculator.js:131-132 | the "+" sign is shown exactly when ROI is positive |
| Pricing.PlusShownIffProfit | components/PricingCalculator.js:131-132 | "+" is shown exactly when annual revenue exceeds 12 × plan price |
| Pricing.DefaultQuote | components/PricingCalculator.js:8-21 | the initial sliders give 2500 a month, 30000 a year, plan cost 1188 and ROI about 2425.25 % |
| Pricing.MonthlyRevenueMonotone | components/PricingCalculator.js:19 | with non-negative inputs monthly revenue never decreases when any slider moves up |
| Pricing.RevenuePositiveOnSliders | components/PricingCalculator.js:44-77 | anywhere within the slider ranges monthly revenue is at least 1 |
| DemoPlayback.Tick | components/DemoVideo.js:32-47 | a tick happens only while playing below the duration, adds one second, clamps at the duration and stops there, and keeps `0 <= currentTime <= duration` |
| DemoPlayback.Ticks | components/DemoVideo.js:32-47 | any number of ticks keeps the duration and the clock invariant, never moves the clock back, and advances it at most one second per tick |
| DemoPlayback.PlaysToEnd | components/DemoVideo.js:34-43 | a running player reaches exactly the duration, stopped, after the remaining number of ticks |
| DemoPlayback.IdleTicksChangeNothing | components/DemoVideo.js:34 | without a running interval no number of ticks changes the state |
| DemoPlayback.FullPlayback | components/DemoVideo.js:8-43 | from the initial state, play plus 120 ticks ends paused at 120 seconds |
| DemoPlayback.TogglePlay | components/DemoVideo.js:97 | play/pause flips only the playing flag and keeps the clock invariant |
| DemoPlayback.PlayAtEndDoesNotMove | components/DemoVideo.js:97 | pressing play at the end sets playing but no tick ever moves the clock |
| DemoPlayback.Reset | components/DemoVideo.js:126-129 | restart sets the clock to 0 and pauses, whatever the state before |
| DemoPlayback.Progress | components/DemoVideo.js:107 | the progress width lies in [0, 100] and is 100 exactly at the end |
| DemoPlayback.FormatTime | components/DemoVideo.js:49-53 | the label is a digit field, a colon and two digits; the first field reads as the whole minutes and the last two as the seconds below 60 |
| DemoPlayback.SplitTime | components/DemoVideo.js:50-51 | minutes·60 + seconds recovers the time, with seconds below 60 |
| DemoPlayback.FormatTimeRoundTrip | components/DemoVideo.js:49-53 | reading a label back gives the seconds it was made from |
| DemoPlayback.ParseTimeRejectsSeconds | components/DemoVideo.js:49-53 | labels with a seconds field of 60 or more, such as "0:99", are not read; "1:59" reads as 119 |
| DemoPlayback.FormatTimeExamples | components/DemoVideo.js:49-53 | 120 s is "2:00", 105 s is "1:45", 0 s is "0:00" |
| DemoPlayback.DemoStepsAscending | components/DemoVideo.js:21-30 | step times strictly increase |
| DemoPlayback.FindReached | components/DemoVideo.js:55 | `find` returns the first reached step, with no earlier step reached, or nothing when none is reached |
| DemoPlayback.CurrentStep | components/DemoVideo.js:55 | the shown step is a step of the timeline, and for every time ≥ 0 it is the first step |
| DemoPlayback.LitStepsFormPrefix | components/DemoVideo.js:222-228 | on an ascending timeline a step is highlighted iff its index is below the highlighted count: the highlighted steps form a prefix |
| DemoPlayback.LitStepsDownwardClosed | components/DemoVideo.js:222-228 | a highlighted step implies every earlier step is highlighted |
| DemoPlayback.CurrentStepLagsTimeline | components/DemoVideo.js:55 | at 50 s the lookup shows "Dashboard Overview" while the last highlighted step is "Real-time Updates" |
| DemoPlayback.CurrentStepIntended | components/DemoVideo.js:55 | the corrected lookup always names a step of the timeline |
| DemoPlayback.CurrentStepIntendedIsLatestReached | components/DemoVideo.js:55 | the corrected step is highlighted and no later step is |
| Blog.FilterCategory | components/BlogSection.js:89 | the filter keeps exactly the posts of the category, with their multiplicities, as a subsequence of the list |
| Blog.FilteredPosts | components/BlogSection.js:87-89 | "all" returns the list unchanged; any other category returns exactly its posts in original order; never longer than the list |
| Blog.UnknownCategoryIsEmpty | components/BlogSection.js:89 | a category no post carries lists nothing |
| Blog.ThreeCategoriesPartition | components/BlogSection.js:89 | when every post has one of three categories, the three filters together list every post exactly once |
| Blog.BlogPartition | components/BlogSection.js:17-89 | analytics, marketing and tutorials each list 2 posts and together list all 6 |
| Blog.CountMatchesFilter | components/BlogSection.js:89 | counting posts of a category equals the length of its filter |
| Blog.DerivedCount | components/BlogSection.js:10-15 | the corrected tab count equals the number of posts the tab lists |
| Blog.CountedTabs | components/BlogSection.js:10-15 | corrected tabs keep ids and captions and count exactly the posts each lists |
| Blog.DeclaredCountsDisagree | components/BlogSection.js:10-15 | the written counts 8 and 3 differ from the 6 and 2 posts listed |
| Theme.SavedTheme | contexts/ThemeContext.js:21 | the loaded theme is the saved string when one is non-empty, otherwise "dark"; never empty |
| Theme.ToggleTheme | contexts/ThemeContext.js:38-43 | the toggle yields "dark" or "light", and "light" exactly from "dark" |
| Theme.ToggleTwiceRestores | contexts/ThemeContext.js:38-43 | two toggles from "dark" or "light" are the identity |
| Theme.ToggleTwiceNormalises | contexts/ThemeContext.js:40 | an unrecognised saved theme becomes "light" after two toggles, not itself |
| Theme.Persist | contexts/ThemeContext.js:26-36 | after mount the theme is stored under the key; before mount nothing is written; no other key changes |
| Theme.Load | contexts/ThemeContext.js:19-24 | the mount effect loads the saved theme and sets mounted, only on its first run |
| Theme.Step | contexts/ThemeContext.js:19-43 | the mount effect mounts for good, a toggle flips the theme, storage holds the theme once mounted and is untouched before, and no other key changes |
| Theme.StepConsistent | contexts/ThemeContext.js:19-43 | every event keeps storage untouched before mount and equal to the theme after, and never unmounts |
| Theme.Run | contexts/ThemeContext.js:16-43 | every run keeps storage agreeing with the theme once mounted, untouched before, and other keys unchanged; the provider is mounted exactly when the mount effect has run |
| Theme.MountedStays | contexts/ThemeContext.js:17-23 | mounted goes from false to true and never back |
| Theme.MountLoadsSavedTheme | contexts/ThemeContext.js:16-24 | the first render is dark and unmounted; after the mount effect the theme is the saved one and it is written back |
| Theme.ToggleTwiceAfterMount | contexts/ThemeContext.js:16-43 | with nothing saved, mounting and toggling twice ends dark with "dark" stored |
| Theme.UseTheme | contexts/ThemeContext.js:7-13 | outside a provider `useTheme` fails with its message; inside it returns the provider's value |

## Left out

- Rendering: all JSX, the recharts charts and the framer-motion animations are presentation through foreign libraries; `ThemeToggle.js`, `tailwind.config.js` and `app/layout.js` hold only visuals and configuration.
- `Math.random` and `Math.sin` are inputs: draws in [0, 1) and a sine function bounded by [-1, 1]; their actual values are not modelled.
- Dates: `new Date()`, `setDate` and `toLocaleDateString` are replaced by the whole number of days before today.
- Number formatting: `toLocaleString` and the strings produced by `toFixed` are not modelled, only the number `toFixed` denotes.
- Dashboard.AverageCtr: returns the exact mean; the final `toFixed(2)` applied for display is not modelled.
- IEEE double arithmetic: every formula is over exact reals (so `3000 * 1.1` is exact here).
- Table lookups with `||`: only the four own keys of each table are modelled; a token naming an inherited JavaScript object property is not.
- `setInterval` scheduling and its cleanup are replaced by the discrete `Tick`; the mute and "show details" toggles change only icons and visibility and are not modelled.
- The demo duration is a field initialised to 120 seconds; nothing in the component ever changes it.
- DemoPlayback.Progress: requires a positive duration; a zero duration would give NaN but never occurs.
- JsNumber.DecimalString: models `toString` only below 10^21; from there on JavaScript writes exponent notation ("1e+21"), which the component never reaches since it formats at most a few minutes.
- DemoPlayback.FormatTime: takes a natural number; the component never formats a negative time.
- Slider step sizes (100 visitors, 0.1 %, 10 per order) are not modelled, only the slider ranges.
- Plan feature lists and the post fields excerpt, read time, author, date and image are display text.
- Theme: the writes to the document element's `data-theme` attribute and class list, and any coordination between browser tabs.

## Findings

| source | as written | input that shows it | evidently intended | confidence | as-written member | corrected member |
|---|---|---|---|---|---|---|
| components/DemoVideo.js:55 | `find(step => currentTime >= step.time)` returns the first step whose time has been reached; the first step is at time 0, so that is always the first step | currentTime = 50: the timeline highlights four steps up to "Real-time Updates", the step panel shows "Dashboard Overview" | show the last highlighted step | high; not executed | DemoPlayback.CurrentStepLagsTimeline | DemoPlayback.CurrentStepIntended |
| components/BlogSection.js:10-15 | the tab counts are written in as 8, 3, 2, 3 | the six posts: "All" lists 6, "Analytics" 2, "Tutorials" 2 | each tab shows how many posts it lists (6, 2, 2, 2) | medium; not executed | Blog.DeclaredCountsDisagree | Blog.CountedTabs |
