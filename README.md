# Portfolio site: mobile menu controller and base-path links, in Dafny

This project models the two parts of the portfolio site whose behaviour can
be stated precisely, and proves properties of them.

- **The mobile menu controller** (`src/utils/menu.ts`). It opens and closes a
  slide-out panel. The only state is whether the panel's class set holds
  `"open"`. Opening adds that class and sets the body's `overflow` to
  `"hidden"`. Closing removes it and sets `overflow` to `""`. Toggling reads
  the class, flips it, and then sets three things on the trigger button:
  `aria-expanded`, `aria-label` (from the two-entry `ARIA_LABELS` table) and
  the `active` class. Every operation turns an absent element or a throwing
  DOM call into a `false` result or a closed snapshot, never an exception.
- **Base-path resolution and link prefixing** (`src/config/links.ts`).
  `getBasePath` picks the deployment base from the environment.
  `applyBasePath` leaves external links alone; otherwise it prefixes the base
  and collapses every run of `/` into one. `SITE_URL` appends the base to the
  site URL. The link tables call `applyBasePath` on literal paths.

Files:

- `dom.dfy`, module `Dom`: the DOM surface the controller uses. `Element` is
  a class with a class set, an attribute map and three failure flags:
  `classListThrows`, `setAttributeThrows` and `containsThrows`. `Body` holds
  `overflow` and a `styleThrows` flag. A call that would throw changes nothing
  and reports `threw`.
- `menu.dfy`, module `Menu`: the controller as methods over `Element?` handles
  (`null` is an absent element) and a `Body`. Each method has a `modifies`
  clause naming exactly the fields it may write. `MenuView`, `Opened`,
  `Closed`, `Synced` and `Toggled` describe, as values, what successful calls
  do. The lemmas about repeated calls are proved on those values.
  The contracts of `OpenMenu`, `CloseMenu` and `ToggleMenu` tie the methods
  to `Opened`, `Closed` and `Toggled`.
- `links.dfy`, module `Links`: pure functions. The environment is a `Runtime`
  value. `client` stands for "`window` and `import.meta.env` exist". `server`
  stands for "`process.env` exists". The regex replace `/\/+/g → '/'` is the
  recursive function `CollapseSlashes`.

Behaviour of `menu.ts` worth knowing, which the contracts state:

- `toggleMenu` reports the target state even when `openMenu`, `closeMenu` or
  `updateButtonAria` threw inside, because each of them catches its own
  error. The snapshot can then say `isOpen: true` while the panel is still
  closed. Only an absent handle or a throwing `classList.contains` forces
  `isOpen: false` whatever the target.
- A throwing `classList.add` skips `setBodyScroll`, so a failed `openMenu`
  changes nothing; the same holds for `classList.remove` in `closeMenu`.

## Model

| member | source | states |
|---|---|---|
| `Dom.WithClass` | src/utils/menu.ts:34 | after `classList.toggle(name, force)` (and `add`/`remove`, which are `force` true/false) the class is present iff requested, and every other class is unchanged |
| `Dom.Element.ClassListAdd` | src/utils/menu.ts:47 | `classList.add`: the class set becomes `WithClass(old, name, true)`, or is unchanged when the call throws |
| `Dom.Element.ClassListRemove` | src/utils/menu.ts:63 | `classList.remove`: the class set becomes `WithClass(old, name, false)`, or is unchanged when the call throws |
| `Dom.Element.ClassListContains` | src/utils/menu.ts:79 | `classList.contains`: reports whether the class is present, or that the call threw (and then `present` is false); it changes nothing |
| `Dom.Element.SetAttribute` | src/utils/menu.ts:32-33 | `setAttribute`: the attribute map becomes `old[name := value]`, or is unchanged when the call throws |
| `Dom.Body.SetOverflow` | src/utils/menu.ts:21 | assigning `document.body.style.overflow`: the overflow becomes the value, or is unchanged when the assignment throws |
| `Dom.Element.ClassListToggle` | src/utils/menu.ts:34 | `classList.toggle(name, force)`: the class set becomes `WithClass(old, name, force)`, or is unchanged when the call throws |
| `Menu.AriaLabel` | src/utils/menu.ts:11-14 | the label is the close label exactly when the panel is (to be) open, else the open label |
| `Menu.BoolText` | src/utils/menu.ts:32 | `String(isOpen)` is `"true"` iff `isOpen` and `"false"` iff not |
| `Menu.OverflowFor` | src/utils/menu.ts:21 | the body overflow is `"hidden"` iff scrolling is disabled and `""` iff it is enabled |
| `Menu.AriaAttributes` | src/utils/menu.ts:32-33 | after the two `setAttribute` calls, `aria-expanded` and `aria-label` match the state, and every other attribute keeps its value |
| `Menu.SetBodyScroll` | src/utils/menu.ts:19-25 | overflow becomes `"hidden"` or `""`; a throwing assignment is swallowed and changes nothing |
| `Menu.UpdateButtonAria` | src/utils/menu.ts:30-38 | sets both ARIA attributes and puts `active` in the classes iff open; the first throwing call ends the update; nothing escapes |
| `Menu.OpenMenu` | src/utils/menu.ts:40-54 | an absent panel gives `false` and changes nothing; a throwing `add` gives `false` and changes nothing; otherwise `true`, `"open"` added, other classes kept, overflow `"hidden"` unless that assignment threw. On success the panel and overflow are those of `Opened` of the old view |
| `Menu.CloseMenu` | src/utils/menu.ts:56-70 | the mirror of `OpenMenu`: `"open"` removed, overflow `""`, same failure results. On success the panel and overflow are those of `Closed` of the old view |
| `Menu.ToggleMenu` | src/utils/menu.ts:72-95 | echoes both handles. Absent handle or throwing read: `isOpen` false and nothing changes. Otherwise `isOpen` is the negation of the old marker, even when inner mutations threw. Panel, overflow, `aria-expanded`, `aria-label` and `active` are then set to match, also when trigger and panel are the same element. With no failures the new view is `Toggled` of the old one |
| `Menu.IsMenuOpen` | src/utils/menu.ts:97-106 | true iff the panel is present, its read does not throw, and `"open"` is among its classes; it changes nothing |
| `Menu.GetMenuState` | src/utils/menu.ts:111-117 | the snapshot holds `IsMenuOpen`'s answer and both handles unchanged; it changes nothing |
| `Menu.Opened` | src/utils/menu.ts:46-47 | a successful open: panel open, overflow `"hidden"`, other panel classes and the trigger untouched |
| `Menu.Closed` | src/utils/menu.ts:62-63 | a successful close: panel closed, overflow `""`, other panel classes and the trigger untouched |
| `Menu.Synced` | src/utils/menu.ts:30-34 | a successful ARIA update: `active` present iff open, other button classes kept, attributes as `AriaAttributes` |
| `Menu.Toggled` | src/utils/menu.ts:79-90 | a toggle with no failures flips the panel and leaves trigger, label and scroll lock consistent with it, whatever the trigger showed before; other classes and other attributes are kept |
| `Menu.ToggleLifecycle` | tests/menu.test.ts:48-61 | from a closed panel with a well-behaved trigger, a first toggle reports open and a second reports closed, both with the same handles; the body also asserts that after each toggle `active`, `aria-expanded`, `aria-label` and overflow follow the panel |
| `Menu.OpenCloseIdempotent` | tests/menu.test.ts:84-98 | a second consecutive open (close) leaves exactly the state of the first |
| `Menu.OpenMenuTwice` | tests/menu.test.ts:84-98 | calling `OpenMenu` twice: both calls report `true` unless `add` throws, the same result each time, and the panel and overflow end as after the first call |
| `Menu.CloseMenuTwice` | tests/menu.test.ts:84-98 | the same for two `CloseMenu` calls |
| `Menu.OpenCloseFollowsLastCall` | tests/menu.test.ts:100-112 | after any sequence of opens and closes, the panel is open iff the last call was an open; the scroll lock agrees; no other class and nothing on the trigger changes |
| `Menu.TogglesParity` | tests/menu.test.ts:209-221 | after `n` toggles the panel is flipped iff `n` is odd; classes other than `open`/`active` are kept |
| `Menu.RapidToggles` | tests/menu.test.ts:223-232 | from a closed panel, `n > 0` toggles leave it open iff `n` is odd; `aria-expanded` is `"true"` iff odd; trigger and scroll lock agree |
| `Links.GetBasePath` | src/config/links.ts:9-34 | the base is never empty. It is `"/"`, `"/staging"`, the client `BASE_URL`, or the server's `BASE_PATH` or `PROD_BASE_PATH` |
| `Links.BasePathTable` | src/config/links.ts:11-33 | client: `BASE_URL`, or `"/"` if empty. Server: a non-empty `BASE_PATH` wins. Otherwise by `NODE_ENV`, defaulting to development: production gives `PROD_BASE_PATH` or `"/"`, staging gives `"/staging"`, anything else `"/"`. No environment gives `"/"` |
| `Links.CollapseSlashes` | src/config/links.ts:48 | the collapse never lengthens a string and keeps its first character |
| `Links.CollapseNoDoubleSlash` | src/config/links.ts:48 | the collapsed string contains no `"//"` |
| `Links.CollapseKeepsClean` | src/config/links.ts:48 | a string without `"//"` is a fixed point |
| `Links.CollapseIdempotent` | src/config/links.ts:48 | collapsing twice equals collapsing once |
| `Links.CollapseKeepsNonSlash` | src/config/links.ts:48 | the non-slash characters survive, all of them and in order |
| `Links.CollapseRun` | src/config/links.ts:48 | a run of `k >= 1` slashes collapses exactly as a single slash |
| `Links.CollapseAppend` | src/config/links.ts:48 | where no slash run spans the seam, collapsing distributes over concatenation; with `CollapseRun` this says each maximal run becomes one `/` |
| `Links.CollapseKeepsTail` | src/config/links.ts:48 | whatever precedes it, a tail starting with `/` keeps its collapsed form at the end |
| `Links.ApplyBasePath` | src/config/links.ts:37-49 | an external path or a `"/"` base returns the path unchanged. Otherwise the result is the collapse of base then path, has no `"//"`, is collapse-stable, and its non-slash characters are those of base then path |
| `Links.ApplyBasePathKeepsSitePath` | src/config/links.ts:37-49 | for a path starting with `/` and free of `"//"`, the result has no `"//"` and ends with the path |
| `Links.SiteBaseUrl` | src/config/links.ts:56-58 | the site URL is the client's `SITE` whenever it is non-empty, and the default domain when there is no client or its `SITE` is empty |
| `Links.SiteUrl` | src/config/links.ts:54-65 | `SITE_URL` starts with the site URL, followed by nothing when the base is `"/"` and by the base verbatim otherwise: unlike `applyBasePath`, nothing is collapsed |
| `Links.SiteUrlKeepsScheme` | src/config/links.ts:54-65 | without client configuration `SITE_URL` starts with `"https://"`, so it contains `"//"`, which no prefixed `applyBasePath` result does |
| `Links.PrefixedLinks` | src/config/links.ts:67-85 | a labelled table has one item per entry, each href `applyBasePath` of its path, with its label and no icon |
| `Links.NavItemsPrefixed` | src/config/links.ts:67-74 | `NavItems` (the `navItems` table, built by `PrefixedLinks` over `NavEntries`): every href is `applyBasePath` of its literal path, has no `"//"` and ends with that path |
| `Links.FooterLinksPrefixed` | src/config/links.ts:76-85 | `FooterLinks` (the `footerLinks` table, built by `PrefixedLinks` over `FooterEntries`): the same |
| `Links.PageLinksPrefixed` | src/config/links.ts:95-105 | `GetPageLinks` (the `PAGE_LINKS` record): each of its nine entries is `applyBasePath` of its literal path, has no `"//"` and ends with that path |
| `Links.CtaLinksPrefixed` | src/config/links.ts:108-115 | `GetCtaLinks` (the `CTA_LINKS` record): every href is the matching `PAGE_LINKS` entry, so it is prefixed the same way |
| `Links.AssetsPrefixed` | src/config/links.ts:118-135 | `GetAssets` (the `ASSETS` record): each of its nine entries is prefixed like a `PAGE_LINKS` entry |
| `Links.SocialLinksUnprefixed` | src/config/links.ts:87-90 | `SocialLinks` (the `socialLinks` table, written out in full): both hrefs are external, so `applyBasePath` would leave them unchanged under any base |

## Left out

- `console.warn` and `console.error` calls: logging only, no effect on results or state.
- JavaScript exceptions are flags on the element or body, not control flow. A throwing call changes nothing.
- `Menu.UpdateButtonAria`: both `setAttribute` calls share one flag. So the case where `aria-expanded` is written and then `aria-label` throws is not modelled.
- DOM identity, detachment from the document and CSS animation: a detached element behaves exactly like an attached one, as in `menu.ts`.
- `Links.GetBasePath`: an unset environment variable and an empty one are both written `""`. `links.ts` reads them only through truthiness tests (`||` and `if`), which treat them the same, so nothing is lost.
- `Links.GetBasePath`: "`window` defined" and "`import.meta.env` present" are one condition, the `client` field, because `links.ts` only tests them together.
- `LinkItem.label` is named `linkLabel`, because `label` is a reserved word in Dafny.
- `SITE_NAME` and `contactEmail` are modelled as the bare constants `SiteName` and `ContactEmail`; there is nothing about them to prove.
- `Dom.Element`: one `classListThrows` flag covers `add`, `remove` and `toggle`. So an element whose `add` throws while its `remove` and `toggle` succeed is not modelled. This matters only when the trigger and the panel are the same element.
- The end-to-end browser tests, the unit-test harness, `astro.config.mjs`, `playwright.config.ts`, `tailwind.config.mjs` and `src/env.d.ts`: browser automation, build configuration and type declarations, with no logic of the core. The `getBasePath` copies in the configuration files duplicate `links.ts`.
