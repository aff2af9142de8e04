# Chef website: menu, SEO head and language selector

A Dafny model of the three pieces of logic in a single-page marketing site for a chef and
catering business:

- **Menu** (`menu.dfy`, module `Menu`). The menu component fetches categories from the backend.
  Each category row comes with its translation rows and its item rows, and each item row with its
  own translation rows. The component reshapes these rows into categories that hold items, keeps
  four pieces of state (`categories`, `loading`, `activeTab`, `selectedImage`) and renders one of
  three things: a spinner, an empty-state notice, or a tab bar with the items of the shown
  category and an optional image overlay. The reshape and the derived view are functions. The
  state is the class `MenuComponent`, with one method per event: a fetch settling, a tab click, a
  thumbnail click and a click inside the overlay.
- **SEO head** (`seo.dfy`, module `Seo`). Pure functions derive the page title, the absolute
  image URL, the canonical URL, the `og:site_name`, the conditional `twitter:creator` tag and the
  keyed list of JSON-LD schemas from the component's props and the site configuration constants.
- **Language selector** (`language_selector.dfy`, module `LanguageSelector`). It holds a fixed
  table of three languages. It computes the button label (with a `Language` fallback), which
  option is highlighted, and the language change a click requests.

`js.dfy` (module `Js`) holds the JavaScript semantics these components rely on:
- truthiness of an optional string;
- `startsWith`;
- `Array.prototype.find`;
- `split(sep)[0]`;
- capitalising the first character;
- the decimal text of an index in a template string.

`wrappers.dfy` defines `Option` and `Result`.

The model follows the code, not the intended design, in these places:
- **A failed fetch still ends loading.** The `finally` block always clears `loading`. A failed
  first fetch therefore shows the empty-state notice, not an endless spinner. See
  `MenuComponent.FetchSettled` and `Scenarios`.
- **Nothing sets `loading` back to `true`.** A language change starts a new fetch, but the old
  view stays up until that fetch settles.
- **A first successful load starts a second fetch.** Defaulting `activeTab` to the first
  category's id changes an effect dependency, so the fetch runs once more
  (`MenuComponent.FetchSettled` reports it, and `Scenarios` shows it).
- **A tab click can trigger a new fetch.** The fetch effect depends on the language and on
  `activeTab`, so a click that changes the active tab starts one.
- **The language filter applies to categories only.** The query filters category translations
  by language. Item translations come back unfiltered, and the reshape takes row 0 whatever its
  language. The backend applies the filter, so the model takes the rows as given.
- **A missing translation row makes the reshape throw.** The throw is caught. The categories
  and the active tab stay as they were, and loading ends.
- **The active tab is defaulted only when falsy.** A fetch sets `activeTab` to the first
  category's id only when `activeTab` is falsy (`null` or `""`). A stale id can therefore
  survive a reload. In that case no tab is highlighted and the first category is shown
  (`ShownIsHighlightedIff`).
- **The section can be any string.** The page passes the section it observes, and that includes
  `"gallery"`, which the prop type leaves out. The model's section is any string.

## Model

| member | source | states |
|---|---|---|
| `Js.Truthy` | src/components/SEO.tsx:27-39 | An optional string is truthy iff it is present and not the empty string; `null`, `undefined` and `""` are falsy. |
| `Js.StartsWith` | src/components/SEO.tsx:34 | `s.startsWith(prefix)` holds iff `s` is `prefix` followed by some string. |
| `Js.Find` | src/components/Menu.tsx:128-129 | The index found is the first element that satisfies the predicate. `None` means no element does. |
| `Js.FirstOccurrence` | src/components/SEO.tsx:79 | The index returned is the first occurrence of the separator at or after `from`. `None` means there is none. |
| `Js.SplitHead` | src/components/SEO.tsx:79 | `split(sep)[0]` is a prefix of the string that contains no occurrence of the separator. It is either the whole string or it stops exactly where the first occurrence begins. |
| `Js.SplitHeadOfJoin` | src/components/SEO.tsx:79 | Splitting `head + sep + tail` on `sep` gives `head` when no occurrence of `sep` starts inside `head`. |
| `Js.UpperChar` | src/components/SEO.tsx:29 | `a`-`z` map to `A`-`Z`. Every other character is unchanged. |
| `Js.UpperFirst` | src/components/SEO.tsx:29 | Capitalising keeps the length and the tail, and upper-cases only the first character. |
| `Js.UpperFirstIdempotent` | src/components/SEO.tsx:29 | Capitalising twice equals capitalising once. |
| `Js.DecimalDigit` | src/components/SEO.tsx:55 | A digit below ten prints as a character from `0` to `9`. |
| `Js.Decimal` | src/components/SEO.tsx:55 | The decimal text of an index is non-empty, and it is one character long exactly when the index is below ten. |
| `Js.DecimalInjective` | src/components/SEO.tsx:53-55 | Different indices print differently. |
| `Menu.ReshapeItem` | src/components/Menu.tsx:73-82 | An item row reshapes iff it has a translation row. The item keeps the row's id, price and image URL, points back to its category, and takes its name and description from translation row 0. |
| `Menu.ReshapeItems` | src/components/Menu.tsx:64-83 | The item list reshapes iff every item row has a translation row. The result has one item per row, in order, each reshaped from its own row. |
| `Menu.ReshapeCategory` | src/components/Menu.tsx:59-84 | A category row reshapes iff it and all its item rows have translation rows. The category keeps its id, takes its name from translation row 0 and has one item per item row, in order. |
| `Menu.ReshapeCategories` | src/components/Menu.tsx:58-84 | The rows reshape iff every category is fully translated. The result has one category per row, in order. |
| `Menu.Reshape` | src/components/Menu.tsx:58-84 | `null` data gives the empty list. Otherwise the reshape succeeds iff every translation array it reads is non-empty. |
| `Menu.ReshapePreservesOrder` | src/components/Menu.tsx:58-84 | Categories and the items within each category keep their number and order. Ids, prices and image URLs are carried over. Names and descriptions come from translation row 0. |
| `Menu.ReshapeBackReferenced` | src/components/Menu.tsx:64-75 | Every reshaped item's category id equals the id of the category it is nested under. |
| `Menu.Loaded` | src/components/Menu.tsx:56-84 | A failed query yields nothing. `null` data yields the empty list. Returned rows yield categories iff the reshape does not throw, and those categories are back-referenced. |
| `Menu.RenderBranch` | src/components/Menu.tsx:102-125 | The spinner is shown iff loading. The empty notice is shown iff not loading and no categories are loaded. The tabbed menu is shown otherwise. |
| `Menu.ActiveCategory` | src/components/Menu.tsx:128-129 | The shown category is always one of the categories. If the active tab names some category, it is the first one it names. Otherwise it is the first category. |
| `Menu.HighlightedTabs` | src/components/Menu.tsx:148-152 | A tab is highlighted iff its category id equals the active tab. |
| `Menu.AtMostOneHighlighted` | src/components/Menu.tsx:144-152 | With distinct ids at most one tab is highlighted, and a highlighted tab's category is the one shown. |
| `Menu.ShownIsHighlightedIff` | src/components/Menu.tsx:128-152 | The shown category's tab is highlighted iff some tab is highlighted. When the active tab names no category, the first category is shown without a highlight. |
| `Menu.DefaultTab` | src/components/Menu.tsx:88-91 | After a successful fetch the active tab becomes the first category's id only when it was falsy and the list is non-empty. Otherwise it is unchanged. |
| `Menu.DefaultTabShowsFirst` | src/components/Menu.tsx:88-91 | When the tab is defaulted, the first category is both shown and highlighted. |
| `Menu.Bubble` | src/components/Menu.tsx:204-219 | A click in the overlay always reaches the backdrop's dismiss handler last, unless propagation stops on the way. |
| `Menu.Dismissed` | src/components/Menu.tsx:209-211 | The overlay is dismissed iff a dismiss handler runs before any handler that stops propagation. |
| `Menu.OverlayDismissal` | src/components/Menu.tsx:204-219 | A backdrop click or a close-button click dismisses the overlay. A click on its content, the image included, does not. |
| `Menu.MenuComponent.OverlayShown` | src/components/Menu.tsx:202-205 | The image overlay is shown iff the menu itself is shown (not loading, some categories) and the selected image is truthy. |
| `Menu.MenuComponent.constructor` | src/components/Menu.tsx:27-30 | The component starts loading, with no categories, no active tab and no selected image. The spinner is rendered. |
| `Menu.MenuComponent.FetchSettled` | src/components/Menu.tsx:86-100 | Every settled fetch ends loading. Success replaces the categories and defaults the tab. A query error or a throwing reshape leaves the categories and the tab unchanged, so a failed first fetch renders the empty notice. The selected image is never touched. The result says whether a new fetch starts: exactly when the active tab changed, which can only happen when the load succeeded with categories and the old tab was falsy, since the effect depends on the tab (line 100). |
| `Menu.MenuComponent.SelectTab` | src/components/Menu.tsx:144-152 | A tab click sets the active tab to that category's id and changes nothing else. The clicked tab is then highlighted and its category shown (exactly that category when ids are distinct). A new fetch starts iff the active tab changed, since the effect depends on it (line 100). |
| `Menu.MenuComponent.OpenImage` | src/components/Menu.tsx:168-172 | A click on a shown item's thumbnail, offered only for a truthy image URL, selects that URL and opens the overlay. Nothing else changes. |
| `Menu.MenuComponent.OverlayClick` | src/components/Menu.tsx:204-219 | A backdrop or close-button click clears the selected image. A content click leaves it, so the overlay stays open iff the click was on its content. Nothing else changes. |
| `Seo.OrDefault` | src/components/SEO.tsx:18-23 | A destructured prop takes its default only when it is undefined; a given value, the empty string included, is kept. |
| `Seo.SiteUrlIsHttp` | src/lib/seo-config.ts:7 | The configured site URL starts with `http`. |
| `Seo.SeoTitle` | src/components/SEO.tsx:27-31 | With a truthy section the title is the default title, the title separator (a vertical bar between spaces), the upper-cased first character of the section and the rest of the section, whatever the title prop. Otherwise it is the title prop, defaulting to the default title. |
| `Seo.AbsoluteImage` | src/components/SEO.tsx:34-36 | An image starting with `http` is kept. Any other image is prefixed with the site URL. The result always starts with `http`. |
| `Seo.AbsoluteImageIdempotent` | src/components/SEO.tsx:34-36 | Making an image URL absolute twice equals doing it once. |
| `Seo.CanonicalUrl` | src/components/SEO.tsx:39 | The canonical URL is the site URL followed by `/#` and the section when the section is truthy. Otherwise it is the site URL. |
| `Seo.CanonicalUrlInjective` | src/components/SEO.tsx:39 | Two props give the same canonical URL only if both have no truthy section or both have the same section. |
| `Seo.Schemas` | src/components/SEO.tsx:44-51 | The local-business schema always comes first. The person schema is added iff the section is `about`, the food-establishment schema iff it is `menu`. The list has one or two entries. |
| `Seo.StructuredData` | src/components/SEO.tsx:53-59 | There is one script per schema, in schema order, and the `structured-data-<index>` keys are pairwise distinct. |
| `Seo.SiteName` | src/components/SEO.tsx:79 | `og:site_name` is the part of the default title before its first ` - `, or the whole title when there is none. |
| `Seo.NoSeparatorInChefName` | src/lib/seo-config.ts:3 | In the configured default title, no ` - ` starts inside the chef's name that opens it. |
| `Seo.SiteNameIsChefName` | src/components/SEO.tsx:79 | With the configured default title, `og:site_name` is `Chef Valerio Carlos`. |
| `Seo.TwitterCreator` | src/components/SEO.tsx:88-90 | The `twitter:creator` tag is emitted iff the handle is non-empty, and it carries the handle. |
| `Seo.RenderHead` | src/components/SEO.tsx:18-95 | The head uses the derived title. The description and `og:type` are the props, defaulting to the default description and `website`. The canonical URL is the derived one and starts with the site URL. The image is the absolute image URL and starts with `http`. The locale is `en_US`. The site name is the derived `og:site_name`, which is the chef's name. The configured handle is emitted. The scripts are the structured data: one or two schemas, the local business first. |
| `Seo.UrlPropIgnored` | src/components/SEO.tsx:22-39 | The `url` prop has no effect on the head. |
| `Seo.TitlePropIgnoredWithSection` | src/components/SEO.tsx:19-31 | With a truthy section the `title` prop has no effect on the head. |
| `LanguageSelector.TableWellFormed` | src/components/LanguageSelector.tsx:5-9 | The codes `en`, `fr` and `pt` are pairwise distinct and every name is non-empty. |
| `LanguageSelector.CurrentName` | src/components/LanguageSelector.tsx:20 | The button shows the name of the entry whose code is the current language. When no entry matches (for example `en-US`), it shows `Language`. |
| `LanguageSelector.Options` | src/components/LanguageSelector.tsx:24-30 | There is one option per table entry, in table order, with its code and name. An option is highlighted iff its code is the current language. |
| `LanguageSelector.Highlighted` | src/components/LanguageSelector.tsx:28-30 | An option index is highlighted iff its code equals the current language. |
| `LanguageSelector.HighlightCount` | src/components/LanguageSelector.tsx:28-30 | Exactly one option is highlighted when the current language is listed, and none otherwise. |
| `LanguageSelector.OnSelect` | src/components/LanguageSelector.tsx:27 | A click on an option requests that option's code, which is a listed code, and whose option is the one highlighted once it is current. |
| `LanguageSelector.SelectThenShow` | src/components/LanguageSelector.tsx:20-30 | Once the requested change takes effect, the button shows the chosen language and only its option is highlighted. |

## Left out

- The backend query and the network call are external. A fetch enters the model as its outcome: an error, or the rows it returned (`null` included). Which rows come back, and the language filter on category translations, are up to the backend.
- Asynchronous interleaving is not modelled. That covers two overlapping fetches resolving out of order and the effect's closure capturing an older `activeTab`. Each settled fetch is one atomic event on the current state.
- The language switch itself is left out. It only starts a fetch: component state does not change until that fetch settles (`MenuComponent.FetchSettled`).
- Prices are an opaque type. They are carried through unchanged and printed raw, a floating-point concern the model does not enter.
- The section tracking on the page (intersection observers) is not modelled. Only the fact that the section can be `"gallery"` is kept.
- The JSON-LD object bodies and the other configuration literals are constant data, so schemas are opaque tags.
- i18next initialisation and language detection are foreign-library code. The selector takes the current language as a string and assumes `changeLanguage` makes the requested code current.
- JSX markup, Helmet, styling and `console.error` logging are not modelled.
- Js.UpperChar: only `a`-`z` are upper-cased. JavaScript's `toUpperCase` also maps non-ASCII letters, and some of them (`ß` to `SS`) change the length. The sections the page passes are lower-case ASCII.
- Js.SplitHead: requires a non-empty separator. The only separator used is ` - `, and `split("")` behaves differently.
- Js.Decimal: prints only non-negative integers, which covers the array indices it is used for.
