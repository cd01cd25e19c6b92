# WordPress-iOS post chart and post preview, modelled in Dafny

This project models two small routines of the WordPress iOS app.

- **The post-views bar chart** (`PostChart.swift`). The transformer takes a post's per-day view
  counts, in date order, and builds the bar chart. Each day becomes one bar. A bar's x is the
  day's timestamp minus the first day's timestamp, and its y is the view count. All bars share
  one width: the date range divided by `count * 1.2`, or 1 when there are no samples. The x-axis
  formatter is anchored at the first day's timestamp. A day whose date is invalid, or cannot be
  converted, counts as the Unix epoch (0). The chart type picks the highlight colour: none for
  the latest post, orange for a selected post.
- **The post preview request** (`PostPreviewGenerator.swift`). The generator decides whether a
  post's preview needs a logged-in view, and from that which authentication to use: a frame
  nonce, the login cookie, or none. For the nonce it adds `preview=true` and `frame-nonce=<nonce>`
  to the URL's query. Every preview ends in one delegate callback: a request to load, or a failure
  with a fixed message.

Files:

- `wrappers.dfy`: the `Option` type used for Swift optionals.
- `post_chart.dfy` (module `PostChart`): the chart type, the sample and calendar model, and the
  specification function `Transformed`. It also holds the method `Transform`, which keeps the
  source's single loop that appends entries, the `PostChart` class, and the properties.
- `post_preview.dfy` (module `PostPreview`): the decision table, the nonce URL, the preview
  attempts as functions returning an `Outcome`, and the properties.

Modelling choices:

- Timestamps, offsets and widths are `real`, where the source uses `Double`.
- Foreign calls are function-valued fields of parameter records:
  - the calendar's date check and date conversion (`Calendar`);
  - `URL(string:)`, `URLComponents(url:)`, `URLComponents.url` and
    `appendingHideMasterbarParameters` (`Foundation`);
  - the cookie authenticator's request (`WebViewAuthenticator`).
- The delegate callbacks `preview(_:attemptRequest:)` and `previewFailed(_:message:)` are the two
  constructors of `Outcome`. A preview therefore ends in exactly one of them by construction.
- The preview generator is a value (`PostPreviewGenerator`). Nothing in the preview flow changes its
  fields after it is created.
- The statuses in the `default` branch of `needsLogin` are modelled as `Trash` and `Deleted`.
- `addNonce` returns nil when the URL does not split into components, and also when the
  rebuilt components do not form a URL: `components.url` can be nil
  (PostPreviewGenerator.swift:136). `AddNonce` keeps both nil paths.
- A query item's value is optional, as in Foundation, so a bare name such as `?draft` is kept.

## Model

| member | source | states |
|---|---|---|
| `PostChart.HighlightColor` | WordPress/Classes/ViewRelated/Stats/Charts/PostChart.swift:24-33 | The colour is absent exactly for the latest-post chart. Otherwise it is the orange highlight. |
| `PostChart.PostDateTimeInterval` | WordPress/Classes/ViewRelated/Stats/Charts/PostChart.swift:70-81 | An invalid date gives no timestamp. A valid one gives whatever the calendar converts it to, which may also be none. |
| `PostChart.Transformed` | WordPress/Classes/ViewRelated/Stats/Charts/PostChart.swift:84-123 | There is one bar per sample, in sample order, with y equal to the view count. Each bar's x plus the anchor equals the sample's timestamp, with invalid dates at 0, so an invalid date gives x = -anchor. The first bar is at 0. The anchor is the first sample's timestamp. Empty input gives no bars, width 1 and anchor 0. Non-empty input gives width (last timestamp - first timestamp) / (count * 1.2), so one sample gives width 0. The highlight colour is the chart type's. |
| `PostChart.Transform` | WordPress/Classes/ViewRelated/Stats/Charts/PostChart.swift:84-123 | The loop that appends one entry per sample returns exactly the data and styling that `Transformed` specifies. |
| `PostChart.PostChart.constructor` | WordPress/Classes/ViewRelated/Stats/Charts/PostChart.swift:45-53 | The chart keeps its type and raw samples, plus the transformer's data and styling for them. |
| `PostChart.PostChart.WithDefaultType` | WordPress/Classes/ViewRelated/Stats/Charts/PostChart.swift:45-53 | Without a type argument, the chart is a selected-post chart (the default `.selected`), with the transformer's data and styling for that type. |
| `PostChart.PostChart.BarChartDataOf` | WordPress/Classes/ViewRelated/Stats/Charts/PostChart.swift:63-65 | The data the chart hands to the view is the transformation of its stored samples: one bar per sample, in order, with the sample's view count as height. |
| `PostChart.IntervalsMonotone` | WordPress/Classes/ViewRelated/Stats/Charts/PostChart.swift:104-114 | If each sample's timestamp is at most the next one's, then any earlier sample's timestamp is at most any later one's. |
| `PostChart.AscendingSamplesGiveOrderedBars` | WordPress/Classes/ViewRelated/Stats/Charts/PostChart.swift:96-114 | Date-ordered samples give bars at non-negative offsets, ordered left to right, and a non-negative bar width. |
| `PostChart.LastBarSpansPaddedWidths` | WordPress/Classes/ViewRelated/Stats/Charts/PostChart.swift:96-109 | For non-empty input, the last bar's offset is exactly `barWidth * count * 1.2`. That is the width formula read backwards: range / (count * 1.2). |
| `PostChart.TwoSamples` | WordPress/Classes/ViewRelated/Stats/Charts/PostChart.swift:96-119 | Two valid days with 5 and 12 views give bars (0, 5) and (t2 - t1, 12), width (t2 - t1) / 2.4, and anchor t1. |
| `PostPreview.NeedsLogin` | WordPress/Classes/ViewRelated/Post/PostPreviewGenerator.swift:88-99 | A post with no status needs no login. Draft, private, pending, scheduled and published posts always need one. Any other status needs one exactly when the blog is private. |
| `PostPreview.AuthenticationRequired` | WordPress/Classes/ViewRelated/Post/PostPreviewGenerator.swift:71-80 | No authentication iff no login is needed. Nonce iff a login is needed and the blog supports nonce previews. Cookie iff a login is needed and it does not. |
| `PostPreview.NonceQueryItems` | WordPress/Classes/ViewRelated/Post/PostPreviewGenerator.swift:132-134 | The existing query items stay first, in their order, with an absent query read as empty. Exactly two items follow: `preview=true`, then `frame-nonce=<nonce>`. |
| `PostPreview.AddNonce` | WordPress/Classes/ViewRelated/Post/PostPreviewGenerator.swift:128-137 | No URL when the URL does not split into components. Otherwise the result is the components with the nonce query rebuilt into a URL. |
| `PostPreview.AttemptUnauthenticatedRequest` | WordPress/Classes/ViewRelated/Post/PostPreviewGenerator.swift:101-104 | The unauthenticated path requests the URL passed in, unchanged. |
| `PostPreview.AttemptNonceAuthenticatedRequest` | WordPress/Classes/ViewRelated/Post/PostPreviewGenerator.swift:106-114 | Fails, with the fixed message, iff the blog has no frame nonce or the nonce URL cannot be built. Otherwise it requests exactly the nonce URL. |
| `PostPreview.AttemptCookieAuthenticatedRequest` | WordPress/Classes/ViewRelated/Post/PostPreviewGenerator.swift:116-124 | Fails, with the fixed message, iff there is no authenticator. Otherwise it requests what the authenticator produces for the URL. |
| `PostPreview.PreviewTarget` | WordPress/Classes/ViewRelated/Post/PostPreviewGenerator.swift:58-59 | The URL with the hide-masterbar parameters when they can be added, otherwise the URL unchanged. |
| `PostPreview.AttemptPreview` | WordPress/Classes/ViewRelated/Post/PostPreviewGenerator.swift:56-69 | The masterbar-hidden URL goes to the path the required authentication names. The unauthenticated path requests that URL unchanged. |
| `PostPreview.PreviewSource` | WordPress/Classes/ViewRelated/Post/PostPreviewGenerator.swift:27-36 | An explicit preview URL comes first. Without one, the permalink is used if it parses. With neither, there is no URL. |
| `PostPreview.Generate` | WordPress/Classes/ViewRelated/Post/PostPreviewGenerator.swift:27-37 | With no usable URL, the outcome is the fixed failure and no request is made. Otherwise the preview is attempted for that URL. Every failure carries the fixed message. |
| `PostPreview.FirstItemNamed` | WordPress/Classes/ViewRelated/Post/PostPreviewGenerator.swift:132-135 | There is a first item called `name` iff some item has that name, and it is one of the items, with that name. |
| `PostPreview.FirstItemOfAppend` | WordPress/Classes/ViewRelated/Post/PostPreviewGenerator.swift:132-135 | Appending query items never changes the first item of a name that the original items already carry. |
| `PostPreview.FirstItemAfterAbsent` | WordPress/Classes/ViewRelated/Post/PostPreviewGenerator.swift:132-135 | For a name the original items lack, the first item of that name is the first appended one. |
| `PostPreview.NonceQueryIsRead` | WordPress/Classes/ViewRelated/Post/PostPreviewGenerator.swift:132-135 | If the original query has no `preview` and no `frame-nonce` item, the first items of those names in the nonce query are `preview=true` and `frame-nonce=<nonce>`. Every name the original items carry keeps its first item. |
| `PostPreview.NonceQueryItemsRoundTrip` | WordPress/Classes/ViewRelated/Post/PostPreviewGenerator.swift:132-134 | Dropping the two appended items gives back the original query. |
| `PostPreview.PublicPreviewIsPlainRequest` | WordPress/Classes/ViewRelated/Post/PostPreviewGenerator.swift:56-69 | A post that needs no login, given a usable URL, gets a plain request for the masterbar-hidden URL. |
| `PostPreview.NonceRequestCarriesNonce` | WordPress/Classes/ViewRelated/Post/PostPreviewGenerator.swift:106-114 | A request on the nonce path implies the blog has a nonce. Its URL is the previewed URL with the nonce items added. |
| `PostPreview.PreviewUrlOverridesPermalink` | WordPress/Classes/ViewRelated/Post/PostPreviewGenerator.swift:27-29 | With an explicit preview URL, the outcome does not depend on the permalink. |

## Left out

- `ErrorAnimator.swift`: UIKit animation and layout timing. It has no data logic to model.
- `ReachabilityUtils.h`: a header declaring reachability helpers and alerts. It has no logic.
- `PostChartType.accessibleDescription` and `PostChart.accessibilityDescription`: localized text picked by a two-way switch. The text comes from `NSLocalizedString`.
- The fixed chart palette, the legend and the y-axis formatter in `PostChartStyling`: presentational constants from the style guide. Only the highlight colour and the x-axis anchor are modelled.
- The Charts library classes (`BarChartData`, the axis formatters) and how they render: these are modelled as plain values. `chartData.barWidth` is set right after the data is created, so the model builds the data with its width in place.
- `Double` arithmetic: the model uses exact reals. Rounding, NaN and infinities are not modelled.
- Calendar validity and `timeIntervalSince1970`: these are the uninterpreted functions of `Calendar`.
- `URL(string:)`, `URLComponents` parsing and reassembly, and `appendingHideMasterbarParameters`: these are the uninterpreted functions of `Foundation`.
- The cookie authenticator and `HTTPCookieStorage`: only whether an authenticator is present is modelled. When present, the authenticator's request is an uninterpreted function. Its completion is asynchronous, and the model assumes it runs, and runs once.
- `URLRequest` construction: a request is represented by its URL.
- The weak delegate: a nil delegate drops the callback, but the model always returns the outcome.
- `previewRequestFailed`, `interceptRedirect`, and the delegate's `loadHTML` callback: these are not part of the preview flow modelled here. They only forward to the delegate or the authenticator.
- `assertionFailure` in `needsLogin` for a post without a status: it is a debug-only trap. The model follows the release build, which returns false.
