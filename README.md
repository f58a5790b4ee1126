# HTML renderer: hover overlay, iframe embeds, image downloads, label sizing

This project models four pieces of an HTML renderer in Dafny and proves what they promise:

- **`HoverBoxBlock`** (module `Hover`). This is the `:hover` style overlay. A hover block is bound to one box of the box tree and to the declarations of a `:hover` rule. Switching it on does three things:
  - It walks the subtree in pre-order and collects the anonymous text boxes, which are the boxes without an HTML tag.
  - It remembers each text box's current value of every property in the rule.
  - It then assigns the rule's declarations to those boxes.

  Switching it off assigns the remembered values again. The box tree is a graph of `CssBox` objects whose property store is a mutable map. The walk is an imperative recursive method, proved equal to a pre-order specification function.
- **`CssBoxFrame`** (module `IFrame`). This is the iframe box. It covers:
  - choosing an oEmbed endpoint for the frame's URL: the YouTube `/embed/` rewrite, an exact host match, or a substring match in either direction;
  - reading the oEmbed answer;
  - the thumbnail callback;
  - the state flags and the error border the painter reads.
- **`ImageDownloader`** (module `Downloads`). Requests for the same cache file are merged into one download. When the download ends, every callback waiting for that file is called once, in registration order, with the same outcome.
- **`HtmlLabel`** (module `Label`). The label's `AutoSize` property defaults to on and `AutoSizeHeightOnly` defaults to off. The property-changed handler switches one off when the other is switched on.

`Wrappers` holds `Option`, which stands for a C# `null`. `Ascii` holds the ASCII string comparisons.

Three behaviours of the code are easy to miss:
- Deactivating a hover block assigns the saved values back but does not clear the snapshot. The snapshot is cleared only by the next activation (`Hover.HoverBoxBlock.SetIsHovering`).
- The walk descends into every child, tagged or not. An untagged box is collected and its children are visited too (`Hover.TextSetIsUntaggedSubtree`).
- `GetKnownProviderEndpoint` removes only one leading `www.`. Its `www.youtube.com` case is therefore not dead code: it is taken for the host `www.www.youtube.com` and for no other host (`IFrame.WwwYouTubeNeedsDoubleWww`).

## Model

| member | source | states |
|---|---|---|
| Hover.TextElementsArePreOrderUntagged | Source/HtmlRenderer/Core/Dom/HoverBoxBlock.cs:118-128 | The text boxes collected from a box are exactly its pre-order walk filtered to untagged boxes: the box itself when untagged, and every child's subtree, tagged or not |
| Hover.TextElementsAllArePreOrderUntagged | Source/HtmlRenderer/Core/Dom/HoverBoxBlock.cs:124-127 | The same for a run of sibling boxes visited in order |
| Hover.TextSetIsUntaggedSubtree | Source/HtmlRenderer/Core/Dom/HoverBoxBlock.cs:118-128 | A box is collected if and only if it is in the subtree and has no HTML tag |
| Hover.HoverBoxBlock.FindTextElements | Source/HtmlRenderer/Core/Dom/HoverBoxBlock.cs:118-128 | Appends to the given list exactly the pre-order untagged boxes of the subtree, keeping what the list held |
| Hover.AssignCssProps | Source/HtmlRenderer/Core/Dom/HoverBoxBlock.cs:100 | Assigning a property block sets each of its properties on the box and keeps every other property's value |
| Hover.AssignToAll | Source/HtmlRenderer/Core/Dom/HoverBoxBlock.cs:97-101 | Every collected box gets the hover block over its previous style |
| Hover.Snapshot | Source/HtmlRenderer/Core/Dom/HoverBoxBlock.cs:94 | A saved block has exactly the hover block's property names, each mapped to the box's current value of that property |
| Hover.HoverBoxBlock.TakeSnapshot | Source/HtmlRenderer/Core/Dom/HoverBoxBlock.cs:92-96 | The snapshot's keys are exactly the collected boxes, each mapped to its saved block, and no box style changes |
| Hover.HoverBoxBlock.constructor | Source/HtmlRenderer/Core/Dom/HoverBoxBlock.cs:40-70 | A new hover block is off with an empty snapshot, and its invariant holds |
| Hover.HoverBoxBlock.ApplyHoverStyle | Source/HtmlRenderer/Core/Dom/HoverBoxBlock.cs:86-101 | Activation replaces the snapshot with one entry per text box of the subtree. Every entry is read before any assignment. Then the hover block is assigned to the text boxes and to no other box |
| Hover.HoverBoxBlock.RestoreStyle | Source/HtmlRenderer/Core/Dom/HoverBoxBlock.cs:102-108 | Deactivation assigns every saved block back to its box and changes no other box |
| Hover.HoverBoxBlock.SetIsHovering | Source/HtmlRenderer/Core/Dom/HoverBoxBlock.cs:77-111 | It answers true exactly when the state changes. Asking for the current state changes nothing. The invariant (snapshot keys are the subtree's text boxes, each with the block's property names) is kept. Activation and deactivation have the effects above, and deactivation keeps the snapshot |
| Hover.HoverRoundTrip | Source/HtmlRenderer/Core/Dom/HoverBoxBlock.cs:92-108 | Switching on and then off gives every box of the subtree back its value of every property |
| Hover.TransitionReporting | Source/HtmlRenderer/Core/Dom/HoverBoxBlock.cs:77-111 | From the initial state, the calls on, on, off, off answer true, false, true, false |
| Hover.NestedTreeShape | Source/HtmlRenderer/Core/Dom/HoverBoxBlock.cs:118-128 | For a tagged root holding a text box and a tagged box that holds another text box, the walk finds both text boxes in document order |
| Hover.NestedTextScenario | Source/HtmlRenderer/Core/Dom/HoverBoxBlock.cs:77-128 | Both nested text boxes turn red on hover and back to black afterwards, and the tagged root is never styled |
| IFrame.IndexOfKey | external/HtmlRenderer/Core/Dom/CssBoxFrame.cs:361 | The exact-match lookup finds the first entry whose key is the host, or reports that no key is the host |
| IFrame.FirstRelated | external/HtmlRenderer/Core/Dom/CssBoxFrame.cs:367-373 | The partial-match search finds the first entry whose key contains the host or is contained in it, or reports that there is none |
| IFrame.GetKnownProviderEndpoint | external/HtmlRenderer/Core/Dom/CssBoxFrame.cs:339-376 | The method (lower-casing, stripping `www.`, the rewrite, the exact lookup, the loop over the table) returns the endpoint that `KnownProviderEndpoint` specifies |
| IFrame.WwwYouTubeNeedsDoubleWww | external/HtmlRenderer/Core/Dom/CssBoxFrame.cs:341-348 | After one leading `www.` is removed, the host reads `www.youtube.com` if and only if the lower-cased host was `www.www.youtube.com` |
| IFrame.YouTubeEmbedRewrite | external/HtmlRenderer/Core/Dom/CssBoxFrame.cs:348-358 | A YouTube `/embed/<id>` link gets the YouTube template applied to `https://www.youtube.com/watch?v=<id>` |
| IFrame.ExactHostMatch | external/HtmlRenderer/Core/Dom/CssBoxFrame.cs:360-364 | A host that is a provider key gets that provider's template applied to the whole URI |
| IFrame.PartialHostMatch | external/HtmlRenderer/Core/Dom/CssBoxFrame.cs:366-373 | Without an exact match, any endpoint found is the template of the first provider whose key and the host contain one another |
| IFrame.PartialMatchAt | external/HtmlRenderer/Core/Dom/CssBoxFrame.cs:366-373 | Conversely, when entry j is related and no earlier entry is, entry j's template is the result |
| IFrame.NoEndpointIffNoRelatedKey | external/HtmlRenderer/Core/Dom/CssBoxFrame.cs:339-376 | There is no endpoint if and only if no provider key contains, or is contained in, the normalized host |
| IFrame.EmptyHostGetsFirstProvider | external/HtmlRenderer/Core/Dom/CssBoxFrame.cs:367-373 | Every string contains the empty string, so an empty host is sent to the first provider, YouTube |
| IFrame.FirstRelatedIsTheFirst | external/HtmlRenderer/Core/Dom/CssBoxFrame.cs:367-373 | The loop's stopping point is the first related entry |
| IFrame.IsLayoutRequired | external/HtmlRenderer/Core/Dom/CssBoxFrame.cs:489-494 | No layout is needed if and only if width and height are both positive pixel lengths |
| IFrame.CssBoxFrame.constructor | external/HtmlRenderer/Core/Dom/CssBoxFrame.cs:92-108 | The frame has an embed exactly when `src` parses as an absolute URI; without one it shows the error border |
| IFrame.CssBoxFrame.HrefLink | external/HtmlRenderer/Core/Dom/CssBoxFrame.cs:121-124 | The link is the video's link when there is one, else the `src` attribute |
| IFrame.CssBoxFrame.SetErrorBorder | external/HtmlRenderer/Core/Dom/CssBoxFrame.cs:459-463 | All four sides become solid and 2px wide, coloured `#A0A0A0` on the top and left and `#E3E3E3` on the right and bottom |
| IFrame.CssBoxFrame.FailEmbedLoad | external/HtmlRenderer/Core/Dom/CssBoxFrame.cs:180-186 | A failed embed load marks loading complete and shows the error border |
| IFrame.CssBoxFrame.ResolveEndpoint | external/HtmlRenderer/Core/Dom/CssBoxFrame.cs:155-171 | A discovered endpoint wins, else a known provider's endpoint. Without either, loading fails with the error border, and only then |
| IFrame.CssBoxFrame.ProcessOEmbedResponse | external/HtmlRenderer/Core/Dom/CssBoxFrame.cs:381-431 | Only a "video" or "rich" answer has its title, thumbnail and link read, and the link prefers `provider_url` over `url`. A non-empty thumbnail is handed to the image loader. An empty or missing thumbnail, any other answer, or a read that throws marks loading complete with the error border. A read that throws leaves the fields read before it assigned |
| IFrame.CssBoxFrame.ReadVideoFields | external/HtmlRenderer/Core/Dom/CssBoxFrame.cs:391-440 | The accepted branch: which field each read fills and the thumbnail decision. When a read throws, the reads before it keep their assignments and the rest are skipped |
| IFrame.CssBoxFrame.StartImageLoadOnPaint | external/HtmlRenderer/Core/Dom/CssBoxFrame.cs:229-233 | Painting makes an image load handler for the thumbnail URL, even an empty one, when there is a URL and no handler yet; otherwise nothing changes |
| IFrame.FindRelated | external/HtmlRenderer/Core/Dom/CssBoxFrame.cs:367-373 | The loop over the table stops at the first entry whose key and the host contain one another, as `FirstRelated` specifies |
| IFrame.CssBoxFrame.OnLoadImageComplete | external/HtmlRenderer/Core/Dom/CssBoxFrame.cs:471-487 | The image and rectangle are stored, loading is complete, and the words must be measured again. The error border appears if and only if there is no image. Only an asynchronous callback asks for a refresh, with `IsLayoutRequired` as its argument |
| Downloads.DeliveredPath | external/HtmlRenderer/Core/Handlers/ImageDownloader.cs:219 | Callbacks get the file path if and only if there was no error and no cancellation, and null otherwise |
| Downloads.FileDeliveredOnlyOnSuccess | external/HtmlRenderer/Core/Handlers/ImageDownloader.cs:183-219 | The file is handed over if and only if the download was not cancelled, had no error, returned an image content type, and was moved into place |
| Downloads.NonImageIsAnError | external/HtmlRenderer/Core/Handlers/ImageDownloader.cs:183-192 | For a download that was not cancelled and had no error, a missing or non-image content type becomes an error naming the content type. An earlier error is kept |
| Downloads.ImageContentTypeIgnoresCase | external/HtmlRenderer/Core/Handlers/ImageDownloader.cs:188 | Any media type whose first five letters spell "image" in any case passes the content-type test |
| Downloads.Register | external/HtmlRenderer/Core/Handlers/ImageDownloader.cs:72-80 | A request appends its callback to its path's list, or starts the list, and no other path's list changes |
| Downloads.ServeTable | external/HtmlRenderer/Core/Handlers/ImageDownloader.cs:63-91 | After a run of requests, a path is pending if and only if it was pending or was requested. Its list is the old list followed by the new callbacks in request order |
| Downloads.ServeStarts | external/HtmlRenderer/Core/Handlers/ImageDownloader.cs:69-90 | A run of requests starts a download exactly for the requested paths that were not pending, once each |
| Downloads.RequestsCoalesce | external/HtmlRenderer/Core/Handlers/ImageDownloader.cs:63-91 | Both of the above together: one download per new path, none for a pending one, and callbacks kept in order |
| Downloads.ImageDownloader.DownloadImage | external/HtmlRenderer/Core/Handlers/ImageDownloader.cs:63-91 | A null URI, a null callback or a null path (which makes `ContainsKey` throw) is rejected with no change. Otherwise the callback is registered, and a download starts if and only if the path was not pending |
| Downloads.ImageDownloader.OnDownloadImageCompleted | external/HtmlRenderer/Core/Handlers/ImageDownloader.cs:181-229 | A path that is not pending makes the lookup throw. Otherwise its entry is removed, other paths are kept, and every registered callback is called once in registration order with the computed error and path |
| Downloads.SharedFileScenario | external/HtmlRenderer/Core/Handlers/ImageDownloader.cs:63-220 | Two requests for one file start one download, its completion answers both callbacks in order, and nothing is left pending |
| Label.Apply | src/Avalonia.HtmlRenderer/HtmlLabel.cs:111-129 | Setting a property gives it the new value. Switching it on switches the other off; switching it off leaves the other alone. Setting the current value changes nothing, and "at most one on" is preserved |
| Label.Notifications | src/Avalonia.HtmlRenderer/HtmlLabel.cs:115-128 | A set raises no notification when nothing changes, else its own first. At most one nested notification follows, the other property's switching off, and the cascade ends there |
| Label.NeverBothOn | src/Avalonia.HtmlRenderer/HtmlLabel.cs:38-128 | From the defaults (on, off), no sequence of sets ever leaves both properties on, and the last property set holds its value |
| Label.HtmlLabel.constructor | src/Avalonia.HtmlRenderer/HtmlLabel.cs:38-41 | A new label has `AutoSize` on and `AutoSizeHeightOnly` off |
| Label.HtmlLabel.GetValue | src/Avalonia.HtmlRenderer/HtmlLabel.cs:60-75 | The getters read the property's current value |
| Label.HtmlLabel.SetValue | src/Avalonia.HtmlRenderer/HtmlLabel.cs:111-129 | Storing a value and running the handler reaches the state `Apply` specifies and raises the notifications `Notifications` specifies |
| Label.HtmlLabel.OnPropertyChanged | src/Avalonia.HtmlRenderer/HtmlLabel.cs:111-129 | A property switched on switches the other off, raising one notification if the other was on. A property switched off does nothing |
| Label.HtmlLabel.SetAutoSize | src/Avalonia.HtmlRenderer/HtmlLabel.cs:60-64 | The `AutoSize` setter, with the effect above |
| Label.HtmlLabel.SetAutoSizeHeightOnly | src/Avalonia.HtmlRenderer/HtmlLabel.cs:71-75 | The `AutoSizeHeightOnly` setter, with the effect above |
| Label.HeightOnlyScenario | src/Avalonia.HtmlRenderer/HtmlLabel.cs:122-127 | Asking a new label for height-only sizing switches `AutoSize` off, and two notifications are raised in that order |

## Left out

- Box tree: `CssBox`, `CssBlock`, `CssUtils.GetPropertyValue` and `DomParser.AssignCssProps` are not part of this model. A box's property store is a map. Reading an absent property gives the empty string, and assigning a block overrides the named properties. Inheritance and computed values are not modelled.
- Hover.HoverBoxBlock.SetIsHovering: the tree structure is taken as fixed while a hover block is in use, because boxes keep their children for good.
- Hover.HoverBoxBlock.TakeSnapshot: a box reached twice by the walk would make `Dictionary.Add` throw; the model overwrites it with an equal entry instead. A box tree cannot reach a box twice.
- Hover.HoverBoxBlock.RestoreStyle: the order in which a `Dictionary` enumerates is not modelled. The saved blocks go to distinct boxes, so the order does not change the result.
- Network and asynchrony in `CssBoxFrame`: `DiscoverOEmbedEndpointAsync`, the HTTP fetch of the answer, and the task that runs `LoadEmbedDataInternalAsync` are not modelled. The discovered endpoint is an input of `ResolveEndpoint`, and a failed fetch is `FailEmbedLoad`.
- `HtmlContainer.ReportError` and `RequestRefresh`: ReportError is not modelled. `OnLoadImageComplete` returns the refresh request it makes; the refreshes made on the failure paths are not returned.
- JSON parsing: an oEmbed answer is either not an object or a map from property names to values. Each value is a string, null, or another kind on which `GetString` throws.
- `Uri` parsing, `Uri.EscapeDataString` and `string.Format`: a URI is its host, absolute path and text. An endpoint is the pair (template, unescaped URL) that formatting would combine.
- `ToLower`, `StartsWith` and `StartsWithIgnoreCase` act on ASCII letters only. Culture rules and non-ASCII case mapping are not modelled.
- `OEmbedProviders` is a `Dictionary`; the partial-match loop is taken to visit it in declaration order.
- `ImageLoadHandler` is not part of this model. Making a handler is recorded as the source it was given (`imageLoadSource`), whether `ProcessOEmbedResponse` or the first paint makes it. Its later call of `OnLoadImageComplete` is a separate step, including when it answers before `LoadImage` returns.
- `CssLength` parsing and `CssUnit` are not part of this model. A length is its parsed number, and its unit is pixels or something else. Floating-point numbers are modelled as reals, so there is no NaN.
- Painting: of `PaintImp` only its first step is modelled, the lazy start of the thumbnail load (`StartImageLoadOnPaint`). The drawing that follows it (`DrawImage`, `DrawTitle`, `DrawPlay`, borders and backgrounds) and `MeasureWordsSize` are floating-point geometry over the graphics adapter and are not modelled. `IsClickable` is a constant and `IsEmbed` is the field `hasEmbed`.
- HTTP, temporary files, `File.Move`/`File.Delete`, the `lock`, cancellation tokens and `Dispose` in `ImageDownloader` are not modelled. Completion is a step given the error, the cancellation flag, the content type and the error of the move. A synchronous download is its `DownloadImage` call followed by its completion.
- Downloads.ImageDownloader.OnDownloadImageCompleted: the callbacks are returned as the list of calls made, in order. What the callbacks do, and a callback that throws, are not modelled.
- Avalonia's property system: `SetValue` is modelled as raising the changed notification, synchronously, only when the value actually changes. `base.OnPropertyChanged`, `AffectsMeasure` and `MeasureOverride` are not modelled.
