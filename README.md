# The Fixer Flow blog: listing, search, metadata, share links and dark mode

This project is a Dafny model of the logic in the Next.js blog "The Fixer Flow". Most of that site is markup. The logic modelled here is:

- **The blog listing controller** (`BlogLayout`). It holds a search query, a sort order and a view mode. It shows the posts the query matches, sorted by publication date. The in-place array sort is modelled by `PostOrder.SortInPlace`, which is proved equal to a stable insertion sort on sequences.
- **The search widget** (`BlogSearch`). The query field, the `isSearching` flag and the reports sent to `onSearchResults` are modelled as a class. A blank query is reported at once. Any other query is reported in a second step, the debounced callback. The `SearchResultsInfo` header choice is a function.
- **The SEO metadata builders** (`lib/metadata.ts`). These cover the Open Graph, Twitter and canonical record of a page and its blog-post variant, the JSON-LD `Article` record, and the JSON-LD breadcrumb list.
- **The share links** (`BlogShareButton` and `FloatingSocialShare`). These cover the category hashtag, the share message, each component's platform URLs, which buttons are rendered, what a click does, and the floating bar's icon list.
- **The dark-mode switches** (`DarkModeToggle` and `DarkModeIconButton`). These are modelled as classes over a shared browser state: the root `dark` class, the stored theme and the system preference. The mount effect and `toggleDarkMode` are proved equal to transition functions.

Module layout:

| file | module | contents |
|---|---|---|
| `text.dfy` | `Wrappers`, `Text` | `Option`; `toLowerCase`, `trim`, `includes`, `startsWith` and `replace(/\s+/g, "")` |
| `posts.dfy` | `Posts` | the post record, the shared match predicate, the filter |
| `sorting.dfy` | `PostOrder` | the date comparator, the stable sort and the in-place array sort |
| `blog_layout.dfy` | `BlogListing` | the listing controller class |
| `blog_search.dfy` | `BlogSearch` | the search widget class and the results header |
| `metadata.dfy` | `Metadata` | the metadata and JSON-LD builders |
| `share.dfy` | `Share` | the share links and buttons |
| `dark_mode.dfy` | `DarkMode` | the dark-mode switches |

The listing and the search widget use the same match test. The query is lower-cased and then trimmed. A post matches when the normalised query is empty, or when it occurs in the lower-cased title, excerpt or category. `BlogSearch.SearchOutcomeResults` proves that the widget's blank-query shortcut reports the same list the filter would produce.

What the model shows about the source, beyond the stated contracts:

- The popover's `native` entry has the URL `""`. The `url &&` render filter drops it, so no button ever reaches the `navigator.share` branch of `handleShare` (`Share.PopoverButtonsOpenLinks`).
- The header renders two `DarkModeToggle` instances, and each keeps its own `isDark`. After one is clicked, the first click on the other writes the mode the page already shows (`DarkMode.SecondSwitchFirstClick`).
- `DarkModeIconButton`'s mount never removes the `dark` class. A stored "light" theme can therefore show the light icon on a dark page (`DarkMode.IconButtonMountMayLeaveClass`).
- The code accepts any sort order and any view mode. Every sort value other than "latest" sorts oldest first, and every view mode other than "grid" lays posts out as a list (`PostOrder.SortDirection`, `BlogListing.LayoutFor`).

## Model

| member | source | states |
|---|---|---|
| Text.Lower | app/blog/BlogLayout.tsx:20-25 | lower-casing keeps the length and lower-cases each character in place |
| Text.Trim | app/blog/BlogLayout.tsx:20 | only white space is removed, at either end: the result is a prefix of what follows the leading white space (`Text.TrimStartShape`), everything after it is white space, and it neither starts nor ends with white space |
| Text.Includes | app/blog/BlogLayout.tsx:23-25 | every string includes the empty string and each of its prefixes, and nothing longer than itself |
| Text.LowerTrimCommute | app/blog/BlogLayout.tsx:20 | lower-casing then trimming equals trimming then lower-casing, so the two orders normalise a query alike |
| Text.TrimEmptyIff | components/BlogSearch.tsx:42 | `trim()` gives `""` exactly when every character is ECMAScript white space |
| Text.IncludesIff | app/blog/BlogLayout.tsx:23-25 | `includes` is true exactly when the query occurs at some position |
| Text.RemoveWhitespace | components/BlogShareButton.tsx:27 | the result has no white space, contains every other character of the input and no character the input lacks |
| Text.RemoveWhitespaceAppend | components/BlogShareButton.tsx:27 | deleting white space from a concatenation is the concatenation of the two deletions, so the kept characters stay in order |
| Text.RemoveWhitespaceChar | components/BlogShareButton.tsx:27 | a single character is deleted iff it is white space |
| Text.RemoveWhitespaceCounts | components/BlogShareButton.tsx:27 | each character that is not white space occurs in the result as often as in the input |
| Posts.Matches | app/blog/BlogLayout.tsx:19-26 | the `!query` shortcut changes nothing: a post matches iff its lower-cased title, excerpt or present category includes the normalised query (the search widget's callback at components/BlogSearch.tsx:54-60 is the same test) |
| Posts.MatchesIff | app/blog/BlogLayout.tsx:20-26 | for a non-blank normalised query, a post matches iff the query occurs in its lower-cased title, excerpt or present category |
| Posts.BlankQueryMatchesAll | app/blog/BlogLayout.tsx:20-21 | a query made only of white space matches every post |
| Posts.FilterPosts | app/blog/BlogLayout.tsx:19-27 | the filtered list is no longer than the input |
| Posts.FilterKeepsMatches | app/blog/BlogLayout.tsx:19-27 | a post is kept iff it is in the input and matches, and each kept post appears as often as in the input |
| Posts.FilterBlankQuery | app/blog/BlogLayout.tsx:20-21 | a blank normalised query returns the input list unchanged |
| Posts.FilterIsSubsequence | app/blog/BlogLayout.tsx:19 | the filtered list is an order-preserving subsequence of the input |
| Posts.FilterEmptyIff | app/blog/BlogLayout.tsx:19-27 | the filtered list is empty iff no post matches |
| PostOrder.CompareOrder | app/blog/BlogLayout.tsx:31-33 | `a` may stay before `b` iff `a` is not older for "latest" and not newer otherwise; the comparator is zero iff the dates are equal |
| PostOrder.SortPosts | app/blog/BlogLayout.tsx:30-34 | the sorted list is a permutation of its input |
| PostOrder.SortPostsSorted | app/blog/BlogLayout.tsx:30-34 | the comparator allows every element of the sorted list to precede every later one |
| PostOrder.SortDirection | app/blog/BlogLayout.tsx:33 | with "latest", adjacent timestamps never increase; with any other string they never decrease |
| PostOrder.SortPostsStable | app/blog/BlogLayout.tsx:30-34 | posts with equal timestamps keep their input order (the engine's sort is stable) |
| PostOrder.SortPostsIdempotent | app/blog/BlogLayout.tsx:30-34 | sorting a sorted list changes nothing |
| PostOrder.SortInPlace | app/blog/BlogLayout.tsx:30-34 | sorting the array in place leaves exactly the stable sort of its old contents |
| PostOrder.InsertInPlace | app/blog/BlogLayout.tsx:30-34 | one pass moves the next element into the sorted prefix and leaves the rest of the array alone |
| BlogListing.VisiblePosts | app/blog/BlogLayout.tsx:17-35 | the shown list holds the filtered posts, each as often, and is no longer than the input |
| BlogListing.ComputeVisible | app/blog/BlogLayout.tsx:17-35 | the memo callback returns the sort of the filtered posts |
| BlogListing.VisibleContents | app/blog/BlogLayout.tsx:17-35 | the shown list holds exactly the matching posts, each as often as in the input, sorted in the selected direction and stable |
| BlogListing.BlankQueryShowsAll | app/blog/BlogLayout.tsx:20-21 | a blank query shows every post, only reordered by date |
| BlogListing.LayoutFor | app/blog/BlogLayout.tsx:101-105 | the grid is chosen iff the view mode is exactly "grid" |
| BlogListing.BlogLayout.constructor | app/blog/BlogLayout.tsx:13-15 | the state starts with query "", order "latest", mode "grid" and an up-to-date list |
| BlogListing.BlogLayout.SetSearchQuery | app/blog/BlogLayout.tsx:13-35 | setting the query recomputes the list and keeps the order and the mode |
| BlogListing.BlogLayout.SetSortOrder | app/blog/BlogLayout.tsx:14-35 | any order string is accepted; the list is recomputed and the query and mode are kept |
| BlogListing.BlogLayout.SetViewMode | app/blog/BlogLayout.tsx:15-35 | changing the mode leaves the list, and so its count, unchanged |
| BlogListing.CountConsistency | app/blog/BlogLayout.tsx:85-90 | the count is the list length and at most the hero count; "No posts found" shows iff no post matches |
| BlogSearch.PopularSearchStartsSearch | components/BlogSearch.tsx:33-39 | every suggestion is a non-blank query, so clicking one starts the debounced search |
| BlogSearch.SearchOutcome | components/BlogSearch.tsx:41-67 | the report carries `""` iff the query is blank, and otherwise carries the raw query |
| BlogSearch.NormalizeBlankIff | components/BlogSearch.tsx:42-52 | a query is blank iff its lower-cased, trimmed form is empty |
| BlogSearch.SearchOutcomeResults | components/BlogSearch.tsx:42-62 | the reported posts are exactly what the shared filter keeps, blank query included |
| BlogSearch.SearchOutcomeContents | components/BlogSearch.tsx:52-60 | for a non-blank query, a post is reported iff the query occurs in one of its fields, in input order |
| BlogSearch.SearchWidget.constructor | components/BlogSearch.tsx:29-45 | mounting runs the effect for "" and reports every post |
| BlogSearch.SearchWidget.RunEffect | components/BlogSearch.tsx:41-49 | a blank query reports every post and stops the spinner; otherwise the spinner starts and the second step is scheduled |
| BlogSearch.SearchWidget.SetSearchQuery | components/BlogSearch.tsx:41-67 | the effect runs only when the query changes |
| BlogSearch.SearchWidget.TimerFires | components/BlogSearch.tsx:51-63 | the second step reports the filtered posts with the raw query and stops the spinner |
| BlogSearch.SearchWidget.HandlePopularSearch | components/BlogSearch.tsx:74-76 | sets the query to the term; the effect then runs as for any query change |
| BlogSearch.SearchWidget.HandleClear | components/BlogSearch.tsx:69-72 | the query becomes "" and every post is reported |
| BlogSearch.ResultsInfo | components/BlogSearch.tsx:147-189 | the spinner wins, then "All Articles (n)" for an empty query, else "Search Results" with "article" iff one result |
| BlogSearch.HeaderForOutcome | components/BlogSearch.tsx:152-186 | a settled blank query shows "All Articles" with every post; otherwise "Search Results" counts the matches |
| Metadata.OrElse | lib/metadata.ts:117-120 | JavaScript's logical-or fallback: a non-empty value wins; an absent or empty one gives the fallback |
| Metadata.Default | lib/metadata.ts:26-28 | a destructuring default replaces only an absent value |
| Metadata.BaseUrl | lib/metadata.ts:5 | a set, non-empty variable is the base URL; an unset or empty one falls back to the default site URL |
| Metadata.AbsoluteUrl | lib/metadata.ts:36 | an image starting with "http" is kept; anything else is appended to the base URL |
| Metadata.AbsoluteUrlIdempotent | lib/metadata.ts:36 | with an "http" base, the result is an "http" URL and absolutising again changes nothing |
| Metadata.BaseUrlIsHttp | lib/metadata.ts:5 | the base URL is an "http" URL when the variable is one or is unset |
| Metadata.GenerateSEO | lib/metadata.ts:23-89 | canonical and Open Graph URL are base + path; both titles carry the site suffix; one image URL is shared; article fields appear iff the type is article |
| Metadata.GenerateBlogPostSEO | lib/metadata.ts:94-124 | path "/blog/" + slug, type article, modified time `updatedAt` or else `publishedAt`, tags iff a category, default author |
| Metadata.GenerateArticleSchema | lib/metadata.ts:129-171 | the image follows the "http" rule; the modified date is a non-empty `updatedAt`, else the published date; the author defaults only when absent; `@id` is base + "/blog/" + slug |
| Metadata.ArticleSchemaAgreesWithSEO | lib/metadata.ts:113-168 | for one post, the JSON-LD `@id`, dates, author and image agree with the page metadata |
| Metadata.BreadcrumbItems | lib/metadata.ts:230-235 | one item per crumb, in order, with position index + 1 and base + url |
| Metadata.GenerateBreadcrumbSchema | lib/metadata.ts:224-237 | the breadcrumb list has one item per input, with 1-based positions |
| Share.CategoryTag | components/BlogShareButton.tsx:27 | the tag is "" iff the category is absent or empty; otherwise "#" and the category without white space |
| Share.CategoryTagStable | components/BlogShareButton.tsx:27 | making a tag from a tag's own text gives the same tag |
| Share.CategoryTagHasText | components/BlogShareButton.tsx:27 | a category with a non-space character gives more than a bare "#" |
| Share.ShareMessage | components/BlogShareButton.tsx:29 | the message starts with the book, title and excerpt, ends with "Read more: " + url, and includes the tag and a space iff there is a tag |
| Share.WhatsAppUrl | components/BlogShareButton.tsx:33 | the WhatsApp link carries the encoded share message |
| Share.TelegramUrl | components/BlogShareButton.tsx:34-36 | the Telegram link carries the encoded post URL, then the encoded message |
| Share.FacebookUrl | components/BlogShareButton.tsx:37-39 | the Facebook link carries only the encoded post URL |
| Share.XUrl | components/BlogShareButton.tsx:160-162 | the X link carries the encoded post URL and the encoded book, title and hashtag, without the excerpt |
| Share.LinkedInUrl | components/BlogShareButton.tsx:45-49 | the LinkedIn link carries the encoded URL, title and excerpt |
| Share.ImageParam | components/BlogShareButton.tsx:43 | the X image parameter is `&image=` with the encoded image iff the image is truthy, and empty otherwise |
| Share.PinterestUrl | components/BlogShareButton.tsx:50-56 | the Pinterest link is defined iff the image is truthy, and then carries the encoded URL, image and share message |
| Share.ShareLinks | components/BlogShareButton.tsx:31-57 | every fixed link is non-empty, and Pinterest is defined iff there is an image |
| Share.UrlFor | components/BlogShareButton.tsx:30-57 | `shareUrls[platform]` in either component (the floating bar's object is at :156-179): undefined only for native in the floating bar and for Pinterest without an image; native is `""`; the popover's X link extends the floating bar's |
| Share.Keys | components/BlogShareButton.tsx:104 | the popover lists all seven platforms, the floating bar all but native, each once |
| Share.Rendered | components/BlogShareButton.tsx:104-106 | every platform that gets a button has a truthy URL, and there are no more buttons than keys |
| Share.RenderedIff | components/BlogShareButton.tsx:104-106 | a platform gets a button iff it is a key and its URL is truthy |
| Share.PopoverButtonsFor | components/BlogShareButton.tsx:104-106 | the popover's buttons are WhatsApp, Telegram, Facebook, X, LinkedIn, then Pinterest with a link |
| Share.FloatingButtonsFor | components/BlogShareButton.tsx:156-179 | the floating bar's links are truthy for Facebook, X, LinkedIn, WhatsApp, Telegram, and Pinterest with a link |
| Share.Buttons | components/BlogShareButton.tsx:31-57 | for a post, each component's buttons include Pinterest iff an image is given, and never native |
| Share.PopoverMatchesFloating | components/BlogShareButton.tsx:156-179 | both components build the same links, except the popover's X link adds the image parameter and only the popover has native |
| Share.PopoverShareAction | components/BlogShareButton.tsx:59-73 | native with `navigator.share` shares natively; otherwise a truthy URL opens a window and anything else does nothing |
| Share.FloatingShareAction | components/BlogShareButton.tsx:181-185 | a window opens iff the URL is truthy; native sharing never happens |
| Share.PopoverButtonsOpenLinks | components/BlogShareButton.tsx:59-106 | every rendered popover button opens its own link; native is never rendered |
| Share.BuildSocialIcons | components/BlogShareButton.tsx:204-223 | facebook, x, linkedin, whatsapp, telegram, then pinterest iff there is an image |
| Share.FloatingIconsOpenLinks | components/BlogShareButton.tsx:181-223 | the icons are exactly the floating bar's buttons in order, and each opens a window |
| DarkMode.ThemeName | components/DarkModeToggle.tsx:37-43 | a click stores "dark" iff the new mode is dark, else "light" |
| DarkMode.ShouldBeDark | components/DarkModeToggle.tsx:21-22 | a stored "dark" means dark; any other non-empty stored theme means light; otherwise the system preference decides |
| DarkMode.Mounted | components/DarkModeToggle.tsx:12-31 | mounting sets `mounted` and the mode from storage; the toggle's class then matches the mode |
| DarkMode.Toggled | components/DarkModeToggle.tsx:33-44 | a click flips the mode and leaves class and stored theme matching it |
| DarkMode.ToggleTwice | components/DarkModeToggle.tsx:33-44 | two clicks restore the mode and the class, with the matching theme stored |
| DarkMode.ReloadRestoresChoice | components/DarkModeToggle.tsx:16-22 | after a click, a fresh mount restores the picked mode whatever the system preference |
| DarkMode.IconButtonMountMayLeaveClass | components/DarkModeToggle.tsx:118-120 | the icon button's mount can leave the class set while the mode is light |
| DarkMode.IconButtonMountInStep | components/DarkModeToggle.tsx:108-121 | without a class set beforehand, the icon button's mount leaves class and mode matching |
| DarkMode.SecondSwitchFirstClick | components/DarkModeToggle.tsx:33-44 | with two switches, the second one's first click after the other's writes the mode the page already shows |
| DarkMode.ViewOf | components/DarkModeToggle.tsx:46-49 | only a placeholder renders before mount |
| DarkMode.ThemeSwitch.constructor | components/DarkModeToggle.tsx:8-9 | a switch starts light and unmounted, showing the placeholder |
| DarkMode.ThemeSwitch.Mount | components/DarkModeToggle.tsx:12-31 | the mount effect produces exactly the `Mounted` state of its variant |
| DarkMode.ThemeSwitch.ToggleDarkMode | components/DarkModeToggle.tsx:123-134 | a click produces exactly the `Toggled` state |

## Left out

- Lower-casing covers ASCII letters only. Full Unicode `toLowerCase`, which can change a string's length, is not modelled. Trimming and `\s` use the full ECMAScript white-space and line-terminator set.
- Strings are sequences of code points. JavaScript counts UTF-16 units, so the book emoji is one character here and two there; no property depends on that.
- Dates are integer timestamps. `new Date(...).getTime()` returning NaN for an unparsable date, which makes the comparator inconsistent, is not modelled.
- The 300 ms debounce is not timed. The second step is the method `TimerFires`. Timer cleanup is modelled by one pending slot that each effect run replaces.
- React rendering is not modelled. Effects run when their dependencies change. `posts` and `onSearchResults` are taken to keep their identity, so only a query change re-runs the search effect.
- `window.open`, `navigator.share`, the clipboard, `alert` and `console` are not modelled. `handleShare` returns the action it would take instead of performing it. `handleCopyLink`, `copyToClipboard` and the `copied` flag are left out.
- The floating bar's scroll listener and its `isVisible` flag are left out; they depend on scrolling.
- `encodeURIComponent` is the function parameter `enc`, and nothing is assumed about it.
- `process.env.NEXT_PUBLIC_BASE_URL` is read once at module load. Here it is the argument of `Metadata.BaseUrl`, and the builders take the resulting base URL as a parameter.
- `generateOrganizationSchema` and `generateWebsiteSchema` are constant records with no logic and are not modelled.
- The system colour-scheme preference is a fixed value of the browser state; changes to it while the page is open are not modelled.
- Metadata.GenerateSEO: the `type` property is a two-valued datatype. A value outside "website" and "article" cannot be given.
- Presentation is not modelled: class names, icons, animations, and the `PostCard` and `BlogControls` markup.
