# spSlider in Dafny

spSlider is a jQuery plugin that fills an element with an image carousel. It
merges the caller's options over a set of defaults. It fetches list items,
turns them into one HTML fragment, and hands the element to a carousel
widget ("swiper") together with three fixed behaviour flags.

This project models the parts of the plugin that are plain computation, for
both copies of the plugin in the repository:

- `src/js/spSlider.js`, the current plugin (module `SrcSlider`):
  - the defaults merge;
  - the `newHeight` adjustment for the caption band;
  - `formatData`, which builds the slide markup through configurable column
    names (`linkColumn`, `imageColumn`, `captionColumn`) and an optional
    caption;
  - the hard-coded widget flags merged in `applyPlugin`.
- `dist/js/spSlider.js`, an older build (module `DistSlider`):
  - its own defaults;
  - a fixed four-item `getData`;
  - its own `formatData`, which always emits a caption and never a link.

Shared pieces:

- `JsObjects` models the JavaScript semantics the code leans on:
  - a missing property reads as `undefined`;
  - `String(v)` and `v + 36`;
  - jQuery's shallow `$.extend`, which copies every property whose value is
    not `undefined`;
  - a settings object whose properties are reassigned in place (class
    `JsObject`).
- `SliderCommon` holds what both builds share:
  - the markup constants (navigation markers, wrapper, slide container);
  - `Slides`, the specification of the slide loop's accumulator;
  - the hard-coded flags.

Each `formatData` is a method with a `for`-style loop that appends to a
`slides` string, as the source does. In the current plugin the loop body is
the method `AppendRecordSlide`. Each `formatData` is proved equal to a
specification function `Markup`, and the properties are lemmas about
`Markup`.
`Markup` is built from `Slide` (one record's block), which reads each field
with `Field` (`record[key] || ""`) under the property name `ColumnKey` (the
setting converted by `ToString`, JavaScript's `String`). The dist build's
`Slide` reads its two fields with `Prop`. The height written to the container
is `NewHeight`, which uses `Plus`, JavaScript's `+` with a number.

The settings updates are methods on a `JsObject`. These are the defaults merge, the
`settings.newHeight = …` write and `$.extend(settings, hardcodedOptions)`.

The wrapper is opened with `<div class='swiper-wrapper'>` and closed with
`</ul>`, exactly as both builds do. Nothing is HTML-escaped.

Where the code and a plain reading of the plugin's design differ, the model
follows the code:

- A column setting that is not set is converted to the property name
  `"undefined"`, as `list[i][settings.linkColumn]` does in JavaScript. The
  field is therefore empty for any record without a property literally named
  `undefined`. `ColumnKeyOfSetting` states both facts.
- Only the boolean `true` turns captions on (`=== true`). The caption offset
  is the merged `height`, not `newHeight`.
- The settings object is not read-only. `newHeight` and the three widget
  flags are written into it, and it is the same object that is passed to the
  widget.
- There is no error path in the list fetch: the completion callback always
  resolves.
- The dist build ignores its settings when building the markup. A missing
  `image` or `title` is appended as the text `undefined`.

## Model

| member | source | states |
|---|---|---|
| `SrcSlider.FormatData` | src/js/spSlider.js:72-98 | the loop's result is exactly `Markup(data, settings)`: navigation markers, wrapper, one block per record in order, `</ul>` |
| `SrcSlider.AppendRecordSlide` | src/js/spSlider.js:79-92 | one loop turn reads the three fields through the column settings and appends exactly that record's block to the accumulated text |
| `SrcSlider.EmptyListMarkup` | src/js/spSlider.js:74-96 | with no records the fragment is the two markers, the wrapper opening and `</ul>`, and nothing else |
| `SrcSlider.MarkupFrame` | src/js/spSlider.js:75-95 | the fragment starts with the left marker, then the right marker, then the wrapper opening, and ends with `</ul>` |
| `SrcSlider.MarkupBlocks` | src/js/spSlider.js:77-93 | between wrapper and `</ul>` lies the concatenation of exactly one block per record, block i made from record i |
| `SrcSlider.MarkupAppend` | src/js/spSlider.js:77-93 | rendering `a + b` puts `a`'s blocks before `b`'s: the loop neither reorders nor drops records |
| `SrcSlider.SlideFramed` | src/js/spSlider.js:83-92 | every block is the slide opening, the image part, the caption part and `</div>`, each recoverable by position |
| `SrcSlider.FieldDefaultsToEmpty` | src/js/spSlider.js:79-81 | `record[key] \|\| ""` is the record's value when present and `""` when the property is absent |
| `SrcSlider.ColumnKeyOfSetting` | src/js/spSlider.js:79-81 | an unset column reads property "undefined", so the field is empty for an ordinary record; a string setting names the property |
| `SrcSlider.LinkWrappingIff` | src/js/spSlider.js:84-88 | the image part starts with `<a` iff the link is non-empty; the exact bare and link-wrapped forms, the latter with the border suppressed |
| `SrcSlider.CaptionIff` | src/js/spSlider.js:89-91 | a caption div is emitted iff `caption` is the boolean `true`; it is at `top:` the settings' `height` and holds the caption text |
| `SrcSlider.SlideLinkAndCaptionIff` | src/js/spSlider.js:83-92 | within a record's block, the image is link-wrapped iff the record's link field is non-empty, and caption markup follows iff captions are on |
| `SrcSlider.CaptionInEveryBlock` | src/js/spSlider.js:77-93 | in every block of the output, the segment between the image part and `</div>` is non-empty iff `caption === true`, and is then the caption div at `top:` the settings' `height` holding that record's caption |
| `SrcSlider.MarkupIgnoresNewHeight` | src/js/spSlider.js:89-90 | writing `newHeight` into the settings leaves the markup unchanged; captions use `height` |
| `SrcSlider.RunUsesCallerHeight` | src/js/spSlider.js:14-30 | in a full run the markup equals the markup under the merged settings before `newHeight` is stored |
| `SrcSlider.ExampleMarkup` | src/js/spSlider.js:72-98 | a two-record list renders as exactly the two records' blocks, in order, inside the frame |
| `SrcSlider.TwoRecordMarkup` | src/js/spSlider.js:72-98 | any two-record list renders as the first record's block followed by the second's, inside the frame |
| `SrcSlider.ExampleFirstSlide` | src/js/spSlider.js:83-92 | a record with an empty link gets a bare image and its caption |
| `SrcSlider.ExampleSecondSlide` | src/js/spSlider.js:83-92 | a record with a link gets the link-wrapped image and its caption |
| `SrcSlider.ExampleCaptionOffset` | src/js/spSlider.js:89-90 | with `height` 300 the caption div is positioned at `top:300px` |
| `SrcSlider.MergeSettings` | src/js/spSlider.js:6-12 | a fresh settings object holding the defaults extended by the options |
| `SrcSlider.DefaultsUnderOptions` | src/js/spSlider.js:6-12 | after the merge, an option the caller did not give reads as its default, and one the caller gave reads as the caller's value |
| `SrcSlider.StoreNewHeight` | src/js/spSlider.js:14-18 | the settings gain `newHeight` = `NewHeight(settings)` and nothing else changes |
| `SrcSlider.NewHeightAddsCaptionBand` | src/js/spSlider.js:14-18 | for a numeric height h, `newHeight` is h + 36 when `caption === true` and h otherwise |
| `SrcSlider.NewHeightOfOtherHeights` | src/js/spSlider.js:14-18 | with captions on, a string height s becomes the string s followed by "36" (height "300" gives "30036") and a missing height becomes NaN; with captions off the height passes through unchanged |
| `SrcSlider.ApplyPlugin` | src/js/spSlider.js:46-52 | the settings object becomes its old properties extended by the three hard-coded flags |
| `SrcSlider.WidgetFlagsAlwaysOn` | src/js/spSlider.js:46-52 | after a run, `keyboardControl`, `loop` and `watchActiveIndex` are `true` whatever the options, and `newHeight` survives |
| `SrcSlider.SpSlider` | src/js/spSlider.js:3-39 | a run yields the markup of the fetched items under the prepared settings, and leaves the settings object extended by the flags |
| `SliderCommon.SlidesStep` | src/js/spSlider.js:77-93 | one more loop turn appends exactly the next record's block |
| `SliderCommon.SlidesAreBlocks` | src/js/spSlider.js:77-93 | the loop's accumulated text is the in-order concatenation of one block per record |
| `SliderCommon.SlidesAppend` | dist/js/spSlider.js:65-71 | the accumulated slides of `a + b` are those of `a` followed by those of `b` |
| `SliderCommon.SlidesCongruent` | src/js/spSlider.js:83-92 | block makers that agree on every record give the same slides |
| `SliderCommon.HardcodedFlagsWin` | dist/js/spSlider.js:39-44 | merging the flags sets all three to `true` and leaves every other setting as it was |
| `JsObjects.Extend` | src/js/spSlider.js:52 | `$.extend`: present, non-undefined source keys overwrite; every other target key keeps its value; no other keys appear |
| `JsObjects.ExtendGet` | src/js/spSlider.js:6-12 | reading a property after `$.extend` gives the source's value if it defined one, else the target's |
| `JsObjects.DecimalRoundTrip` | src/js/spSlider.js:90 | the decimal text that a non-negative integer height turns into reads back as that number |
| `JsObjects.JsObject.ExtendWith` | src/js/spSlider.js:52 | the object's properties become `Extend(old properties, source)` |
| `JsObjects.JsObject.Put` | src/js/spSlider.js:18 | the object gains or replaces exactly one property |
| `DistSlider.FormatData` | dist/js/spSlider.js:60-76 | the loop's result is exactly `Markup(data)` |
| `DistSlider.EmptyListMarkup` | dist/js/spSlider.js:62-74 | with no records the fragment is the two markers, the wrapper opening and `</ul>` |
| `DistSlider.MarkupBlocks` | dist/js/spSlider.js:65-72 | between wrapper and `</ul>` lies exactly one block per record, in order |
| `DistSlider.SlideAlwaysBareAndCaptioned` | dist/js/spSlider.js:67-70 | every block is slide opening, a bare `<img` (never a link), the caption div with the title, and `</div>` |
| `DistSlider.MissingPropIsUndefined` | dist/js/spSlider.js:68-69 | a property the record lacks is rendered as the text "undefined" |
| `DistSlider.GetData` | dist/js/spSlider.js:79-123 | exactly four records, each with title, image, link and categories, with the listed images and titles in order |
| `DistSlider.FixtureMarkup` | dist/js/spSlider.js:96-121 | the fixed list renders as four blocks, images/1.jpg, images/2.jpg, images/3.jpg, images/2.jpg, each captioned with its title |
| `DistSlider.MergeSettings` | dist/js/spSlider.js:8-16 | a fresh settings object holding the defaults extended by the options |
| `DistSlider.DefaultsUnderOptions` | dist/js/spSlider.js:8-16 | an option not given reads as its default, a given one as the caller's value, and the three flags then read `true` |
| `DistSlider.ApplyPlugin` | dist/js/spSlider.js:39-44 | the settings object becomes its old properties extended by the three hard-coded flags |
| `DistSlider.SpSlider` | dist/js/spSlider.js:6-33 | a run yields the markup of the fixed list whatever the options, and the settings extended by options and then flags |

## Left out

- DOM work is not modelled: setting the element's height, width and HTML, sizing the slide children, the click handlers and the `el.swiper(settings)` call. These call jQuery and the carousel library, whose behaviour is not part of this model.
- The asynchronous plumbing (`$.Deferred`, `$.when(...).done`) is not modelled. `SrcSlider.SpSlider` takes the list items the fetch resolved with and runs the synchronous steps in the source's order.
- The SharePoint list query in `src/js/spSlider.js` (`SPServices` `GetListItems`, the CAML filter on content type Picture, the descending ID order, the XML-to-JSON conversion) is a network client over a library that is not part of this model.
- The return values of the src `spSlider` and `applyPlugin` are not modelled. Both return `undefined`; the `return result` inside the `done` callback goes nowhere.
- `Gruntfile.js` is build wiring (concatenation, minification, copying) and is not modelled.
- JsObjects.JsValue: numbers are unbounded integers or NaN. Fractional numbers, Infinity, the rounding of integers above 2^53 and the exponent form of `String` for very large numbers are not modelled.
- JsObjects.JsValue: option values that are objects or functions (such as carousel callbacks passed through the options) cannot be represented. The markup never reads them, and `$.extend` only copies them.
- SrcSlider.Field: record values are strings, as the list-item conversion yields. Properties inherited from `Object.prototype` (a column named `toString`, say) are not modelled.
- JsObjects.Extend: deep extends and the skip of a property that refers to the target itself are not modelled; neither occurs here. Calling the plugin without options is modelled as an empty options map.
- No HTML escaping or well-formedness is modelled, because the code does neither.
