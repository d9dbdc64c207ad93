/** The current plugin (src/js/spSlider.js): settings merge, the caption
    height adjustment, the slide markup built from list items through
    configurable column names, and the hard-coded widget flags. */
module SrcSlider {
  import opened JsObjects
  import opened SliderCommon

  /** The settings every call starts from. */
  function Defaults(): Props
  {
    map["width" := JNum(400), "height" := JNum(300), "listURL" := JStr(""),
        "listName" := JStr(""), "limit" := JNum(0)]
  }

  /** Vertical room reserved under the slides for the caption strip. */
  const CaptionBand: int := 36

  /** `settings.caption === true`: only the boolean `true` turns captions on. */
  predicate CaptionsOn(settings: Props)
  {
    Get(settings, "caption") == JBool(true)
  }

  /** The height given to the container: `height`, plus the caption band
      when captions are on. */
  function NewHeight(settings: Props): JsValue
  {
    if CaptionsOn(settings) then Plus(Get(settings, "height"), CaptionBand)
    else Get(settings, "height")
  }

  /** The settings after the defaults merge and the `newHeight` write. */
  function PreparedSettings(options: Props): Props
  {
    var merged := Extend(Defaults(), options);
    merged["newHeight" := NewHeight(merged)]
  }

  /** The record property read for the column named by setting `column`:
      `list[i][settings.column]` converts the setting to a property name,
      so an unset column reads the property named "undefined". */
  function ColumnKey(settings: Props, column: string): string
  {
    ToString(Get(settings, column))
  }

  /** `record[key] || ""`: a missing property or an empty string is "". */
  function Field(record: Record, key: string): string
  {
    if key in record && record[key] != "" then record[key] else ""
  }

  function LinkedImage(link: string, img: string): string
  {
    "<a href='" + link + "'><img style='border:none' src='" + img + "' /></a>"
  }

  /** The image part of a slide: wrapped in a link only when there is one. */
  function ImageMarkup(link: string, img: string): string
  {
    if link == "" then BareImage(img) else LinkedImage(link, img)
  }

  /** The opening of the caption div, positioned at the settings' `height`. */
  function CaptionOpen(settings: Props): string
  {
    "<div class='caption' style='top:" + ToString(Get(settings, "height")) + "px'>"
  }

  /** The caption part of a slide: present only when captions are on. */
  function CaptionMarkup(settings: Props, caption: string): string
  {
    if CaptionsOn(settings) then CaptionOpen(settings) + caption + "</div>" else ""
  }

  /** The block emitted for one record. */
  function Slide(record: Record, settings: Props): string
  {
    var link := Field(record, ColumnKey(settings, "linkColumn"));
    var img := Field(record, ColumnKey(settings, "imageColumn"));
    var caption := Field(record, ColumnKey(settings, "captionColumn"));
    SlideOpen + ImageMarkup(link, img) + CaptionMarkup(settings, caption) + SlideClose
  }

  /** Proof hint, not a property: spells out `Slide` and `SlideOf` so that a
      proof can unfold a block into its four pieces where it needs to. */
  lemma SlideParts(record: Record, settings: Props)
    ensures Slide(record, settings) == SlideOpen
      + ImageMarkup(Field(record, ColumnKey(settings, "linkColumn")), Field(record, ColumnKey(settings, "imageColumn")))
      + CaptionMarkup(settings, Field(record, ColumnKey(settings, "captionColumn")))
      + SlideClose
    ensures SlideOf(settings)(record) == Slide(record, settings)
  {
  }

  function SlideOf(settings: Props): Record -> string
  {
    r => Slide(r, settings)
  }

  /** The whole fragment `formatData(data, settings)` returns. */
  function Markup(data: seq<Record>, settings: Props): string
  {
    Pagination + WrapperOpen + Slides(data, SlideOf(settings)) + WrapperClose
  }

  /** One turn of `formatData`'s loop: the record's fields are read through
      the column settings and its block is appended to `slides` piece by
      piece. */
  method AppendRecordSlide(slides: string, record: Record, settings: Props) returns (r: string)
    ensures r == slides + Slide(record, settings)
  {
    var link := Field(record, ColumnKey(settings, "linkColumn"));
    var img := Field(record, ColumnKey(settings, "imageColumn"));
    var caption := Field(record, ColumnKey(settings, "captionColumn"));
    ghost var image := ImageMarkup(link, img);
    ghost var captionDiv := CaptionMarkup(settings, caption);
    r := slides + SlideOpen;
    if link == "" {
      r := r + BareImage(img);
    } else {
      r := r + LinkedImage(link, img);
    }
    ghost var withImage := r;
    assert withImage == slides + SlideOpen + image;
    if Get(settings, "caption") == JBool(true) {
      r := r + (CaptionOpen(settings) + caption + "</div>");
    }
    assert r == withImage + captionDiv;
    r := r + SlideClose;
    SlideParts(record, settings);
    AppendPieces(slides, SlideOpen, image, captionDiv, SlideClose);
  }

  /** `formatData`: the navigation markers, then the wrapper holding one
      block per record, appended in a loop over the records. */
  method FormatData(data: seq<Record>, settings: Props) returns (result: string)
    ensures result == Markup(data, settings)
  {
    var pagination := Pagination;
    var slides := WrapperOpen;
    var i := 0;
    assert data[..i] == [];
    while i < |data|
      invariant 0 <= i <= |data|
      invariant slides == WrapperOpen + Slides(data[..i], SlideOf(settings))
    {
      ghost var before := slides;
      slides := AppendRecordSlide(slides, data[i], settings);
      AppendSlide(data, i, settings, before);
      i := i + 1;
    }
    assert data[..i] == data;
    slides := slides + WrapperClose;
    result := pagination + slides;
    AppendAssoc(Pagination, WrapperOpen + Slides(data, SlideOf(settings)), WrapperClose);
    AppendAssoc(Pagination, WrapperOpen, Slides(data, SlideOf(settings)));
  }

  /** One loop turn appends exactly the record's block. */
  lemma AppendSlide(data: seq<Record>, i: nat, settings: Props, before: string)
    requires i < |data|
    requires before == WrapperOpen + Slides(data[..i], SlideOf(settings))
    ensures before + Slide(data[i], settings) == WrapperOpen + Slides(data[..i + 1], SlideOf(settings))
  {
    SlidesStep(data, i, SlideOf(settings));
    assert SlideOf(settings)(data[i]) == Slide(data[i], settings);
    AppendAssoc(WrapperOpen, Slides(data[..i], SlideOf(settings)), Slide(data[i], settings));
  }

  /** `$.extend({defaults}, options)`: a fresh settings object. */
  method MergeSettings(options: Props) returns (settings: JsObject)
    ensures fresh(settings)
    ensures settings.props == Extend(Defaults(), options)
  {
    settings := new JsObject(Defaults());
    settings.ExtendWith(options);
  }

  /** Computes `newHeight` and stores it on the settings object. */
  method StoreNewHeight(settings: JsObject)
    modifies settings
    ensures settings.props == old(settings.props)["newHeight" := NewHeight(old(settings.props))]
  {
    var newHeight := Get(settings.props, "height");
    if Get(settings.props, "caption") == JBool(true) {
      newHeight := Plus(newHeight, CaptionBand);
    }
    settings.Put("newHeight", newHeight);
  }

  /** The settings part of `applyPlugin`: the hard-coded flags are merged
      over the settings object in place. */
  method ApplyPlugin(settings: JsObject)
    modifies settings
    ensures settings.props == Extend(old(settings.props), HardcodedOptions())
  {
    settings.ExtendWith(HardcodedOptions());
  }

  /** One run of the plugin, given the list items the fetch resolved with:
      the markup placed in the element and the settings handed to the
      carousel widget. */
  method SpSlider(options: Props, pics: seq<Record>) returns (settings: JsObject, html: string)
    ensures fresh(settings)
    ensures html == Markup(pics, PreparedSettings(options))
    ensures settings.props == Extend(PreparedSettings(options), HardcodedOptions())
  {
    settings := MergeSettings(options);
    StoreNewHeight(settings);
    html := FormatData(pics, settings.props);
    ApplyPlugin(settings);
  }

  // Properties of the settings arithmetic

  /** Every default reads through unless the caller supplied a value for it;
      a supplied value always wins. */
  lemma DefaultsUnderOptions(options: Props, key: string)
    ensures key in Defaults() && Get(options, key) == JUndefined ==>
      Get(Extend(Defaults(), options), key) == Defaults()[key]
    ensures Get(options, key) != JUndefined ==>
      Get(Extend(Defaults(), options), key) == Get(options, key)
  {
  }

  /** With a numeric height, `newHeight` is that height plus 36 exactly when
      `caption` is the boolean `true`, and the height itself otherwise. */
  lemma NewHeightAddsCaptionBand(settings: Props, h: int)
    requires Get(settings, "height") == JNum(h)
    ensures NewHeight(settings) == JNum(if CaptionsOn(settings) then h + 36 else h)
  {
  }

  /** A height given as a string gets the band's digits appended instead of
      added (`"300"` becomes `"30036"`); a missing height becomes NaN. With
      captions off the height is passed through whatever it is. */
  lemma NewHeightOfOtherHeights(settings: Props, s: string)
    ensures Get(settings, "height") == JStr(s) && CaptionsOn(settings) ==>
      NewHeight(settings) == JStr(s + "36")
    ensures Get(settings, "height") == JUndefined && CaptionsOn(settings) ==>
      NewHeight(settings) == JNaN
    ensures !CaptionsOn(settings) ==> NewHeight(settings) == Get(settings, "height")
  {
  }

  /** After the hard-coded merge the widget flags are set no matter what the
      caller passed, and the remaining settings are those prepared before. */
  lemma WidgetFlagsAlwaysOn(options: Props)
    ensures Get(Extend(PreparedSettings(options), HardcodedOptions()), "loop") == JBool(true)
    ensures Get(Extend(PreparedSettings(options), HardcodedOptions()), "keyboardControl") == JBool(true)
    ensures Get(Extend(PreparedSettings(options), HardcodedOptions()), "watchActiveIndex") == JBool(true)
    ensures Get(Extend(PreparedSettings(options), HardcodedOptions()), "newHeight") ==
      NewHeight(Extend(Defaults(), options))
  {
    HardcodedFlagsWin(PreparedSettings(options));
  }

  // Properties of the markup

  /** No records: the two navigation markers and an empty wrapper. */
  lemma EmptyListMarkup(settings: Props)
    ensures Markup([], settings) == Pagination + WrapperOpen + WrapperClose
  {
    assert Slides([], SlideOf(settings)) == "";
  }

  /** The fragment opens with the left marker followed by the right one, then
      the wrapper, and ends with `</ul>`. */
  lemma MarkupFrame(data: seq<Record>, settings: Props)
    ensures |Markup(data, settings)| >= |Pagination + WrapperOpen| + |WrapperClose|
    ensures Markup(data, settings)[..|LeftControl|] == "<a class='swipe-nav left'>left</a>"
    ensures Markup(data, settings)[|LeftControl|..|Pagination|] == "<a class='swipe-nav right'>right</a>"
    ensures Markup(data, settings)[|Pagination|..|Pagination + WrapperOpen|] == "<div class='swiper-wrapper'>"
    ensures Markup(data, settings)[|Markup(data, settings)| - |WrapperClose|..] == "</ul>"
  {
    FramePieces(LeftControl, RightControl, WrapperOpen, Slides(data, SlideOf(settings)), WrapperClose);
  }

  /** Every block is a slide holding the image part and then the caption
      part, and closed with `</div>`. */
  lemma SlideFramed(record: Record, settings: Props)
    ensures var b := Slide(record, settings);
      var img := ImageMarkup(Field(record, ColumnKey(settings, "linkColumn")), Field(record, ColumnKey(settings, "imageColumn")));
      var cap := CaptionMarkup(settings, Field(record, ColumnKey(settings, "captionColumn")));
      && |b| == |SlideOpen| + |img| + |cap| + |SlideClose|
      && b[..|SlideOpen|] == SlideOpen
      && b[|SlideOpen|..|SlideOpen| + |img|] == img
      && b[|SlideOpen| + |img|..|b| - |SlideClose|] == cap
      && b[|b| - |SlideClose|..] == SlideClose
  {
    SlideParts(record, settings);
    Pieces4(SlideOpen,
      ImageMarkup(Field(record, ColumnKey(settings, "linkColumn")), Field(record, ColumnKey(settings, "imageColumn"))),
      CaptionMarkup(settings, Field(record, ColumnKey(settings, "captionColumn"))),
      SlideClose);
  }

  /** Between the wrapper and `</ul>` there is one block per record, in
      input order, and nothing else. */
  lemma MarkupBlocks(data: seq<Record>, settings: Props)
    ensures Markup(data, settings) ==
      Pagination + WrapperOpen + Concat(Blocks(data, SlideOf(settings))) + WrapperClose
    ensures |Blocks(data, SlideOf(settings))| == |data|
    ensures forall i :: 0 <= i < |data| ==> Blocks(data, SlideOf(settings))[i] == Slide(data[i], settings)
  {
    SlidesAreBlocks(data, SlideOf(settings));
  }

  /** Concatenated record lists render as the concatenation of their slides:
      the markup of `a + b` is that of `a` with `b`'s blocks inserted before
      the closing `</ul>`. */
  lemma MarkupAppend(a: seq<Record>, b: seq<Record>, settings: Props)
    ensures Markup(a + b, settings) ==
      Pagination + WrapperOpen + Slides(a, SlideOf(settings)) + Slides(b, SlideOf(settings)) + WrapperClose
  {
    SlidesAppend(a, b, SlideOf(settings));
    AppendAssoc(Pagination + WrapperOpen, Slides(a, SlideOf(settings)), Slides(b, SlideOf(settings)));
  }

  /** A field whose column is missing from the record, or whose value is
      empty, contributes the empty string; any other value is used as is. */
  lemma FieldDefaultsToEmpty(record: Record, key: string)
    ensures key !in record ==> Field(record, key) == ""
    ensures Field(record, key) == (if key in record then record[key] else "")
  {
  }

  /** An unset column setting reads the record's "undefined" property, which
      an ordinary record lacks, so the field is empty. A string setting names
      the property directly. */
  lemma ColumnKeyOfSetting(settings: Props, column: string, record: Record)
    ensures column !in settings ==> ColumnKey(settings, column) == "undefined"
    ensures column !in settings && "undefined" !in record ==> Field(record, ColumnKey(settings, column)) == ""
    ensures column in settings && settings[column].JStr? ==> ColumnKey(settings, column) == settings[column].s
  {
  }

  /** The image is wrapped in a link exactly when the link is non-empty; the
      wrapper suppresses the image border, the bare image carries only `src`. */
  lemma {:induction false} LinkWrappingIff(link: string, img: string)
    ensures ImageMarkup(link, img)[..2] == "<a" <==> link != ""
    ensures link == "" ==> ImageMarkup(link, img) == "<img src='" + img + "' />"
    ensures link != "" ==>
      ImageMarkup(link, img) == "<a href='" + link + "'><img style='border:none' src='" + img + "' /></a>"
  {
    if link == "" {
      assert ImageMarkup(link, img)[1] == 'i';
    } else {
      assert ImageMarkup(link, img)[..2] == "<a";
    }
  }

  /** A caption div is emitted exactly when `caption` is the boolean `true`;
      it is placed at the settings' `height` and holds the caption text. */
  lemma CaptionIff(settings: Props, caption: string)
    ensures CaptionMarkup(settings, caption) != "" <==> CaptionsOn(settings)
    ensures CaptionsOn(settings) ==>
      CaptionMarkup(settings, caption) == "<div class='caption' style='top:" + ToString(Get(settings, "height")) + "px'>" + caption + "</div>"
  {
  }

  /** Within a record's block: the image is link-wrapped exactly when the
      record's link field is non-empty, and a caption part follows it exactly
      when captions are on. */
  lemma SlideLinkAndCaptionIff(record: Record, settings: Props)
    ensures var b := Slide(record, settings);
      var link := Field(record, ColumnKey(settings, "linkColumn"));
      var img := ImageMarkup(link, Field(record, ColumnKey(settings, "imageColumn")));
      && |b| >= |SlideOpen| + 2
      && (b[|SlideOpen|..|SlideOpen| + 2] == "<a" <==> link != "")
      && (|b| > |SlideOpen| + |img| + |SlideClose| <==> CaptionsOn(settings))
  {
    var b := Slide(record, settings);
    var link := Field(record, ColumnKey(settings, "linkColumn"));
    var img := ImageMarkup(link, Field(record, ColumnKey(settings, "imageColumn")));
    var cap := CaptionMarkup(settings, Field(record, ColumnKey(settings, "captionColumn")));
    SlideFramed(record, settings);
    LinkWrappingIff(link, Field(record, ColumnKey(settings, "imageColumn")));
    CaptionIff(settings, Field(record, ColumnKey(settings, "captionColumn")));
    assert |img| >= 2;
    assert b[|SlideOpen|..|SlideOpen| + 2] == b[|SlideOpen|..|SlideOpen| + |img|][..2];
    assert |cap| > 0 <==> cap != "";
  }

  /** In the markup's output, every block's caption segment (what lies
      between its image part and its closing `</div>`) is non-empty exactly
      when captions are on, and then it is the caption div placed at the
      settings' `height` holding that record's caption, whatever the records
      hold. */
  lemma CaptionInEveryBlock(data: seq<Record>, settings: Props)
    ensures forall i :: 0 <= i < |data| ==>
      var b := Blocks(data, SlideOf(settings))[i];
      var img := ImageMarkup(Field(data[i], ColumnKey(settings, "linkColumn")), Field(data[i], ColumnKey(settings, "imageColumn")));
      && |SlideOpen| + |img| <= |b| - |SlideClose|
      && (b[|SlideOpen| + |img|..|b| - |SlideClose|] != "" <==> CaptionsOn(settings))
      && (CaptionsOn(settings) ==>
            b[|SlideOpen| + |img|..|b| - |SlideClose|]
            == CaptionOpen(settings) + Field(data[i], ColumnKey(settings, "captionColumn")) + "</div>")
  {
  }

  /** `formatData` never reads `newHeight`: writing it leaves the markup
      unchanged, so captions sit at the caller's `height`. */
  lemma MarkupIgnoresNewHeight(data: seq<Record>, settings: Props, v: JsValue)
    ensures Markup(data, settings["newHeight" := v]) == Markup(data, settings)
  {
    var s' := settings["newHeight" := v];
    forall i | 0 <= i < |data|
      ensures SlideOf(s')(data[i]) == SlideOf(settings)(data[i])
    {
      assert Get(s', "linkColumn") == Get(settings, "linkColumn");
      assert Get(s', "imageColumn") == Get(settings, "imageColumn");
      assert Get(s', "captionColumn") == Get(settings, "captionColumn");
      assert Get(s', "caption") == Get(settings, "caption");
      assert Get(s', "height") == Get(settings, "height");
    }
    SlidesCongruent(data, SlideOf(s'), SlideOf(settings));
  }

  /** In a full run the caption offset is the merged `height`, not the
      container's `newHeight`. */
  lemma RunUsesCallerHeight(options: Props, pics: seq<Record>)
    ensures Markup(pics, PreparedSettings(options)) == Markup(pics, Extend(Defaults(), options))
  {
    var merged := Extend(Defaults(), options);
    MarkupIgnoresNewHeight(pics, merged, NewHeight(merged));
  }

  // A worked example: two records, the first without a link and the second
  // with one, captioned at 300 pixels.

  function ExampleSettings(): Props
  {
    map["caption" := JBool(true), "height" := JNum(300), "imageColumn" := JStr("img"),
        "linkColumn" := JStr("link"), "captionColumn" := JStr("cap")]
  }

  function ExampleData(): seq<Record>
  {
    [map["img" := "a.jpg", "link" := "", "cap" := "X"],
     map["img" := "b.jpg", "link" := "http://e.com", "cap" := "Y"]]
  }

  /** The example's markup holds exactly its two blocks, in order. */
  lemma ExampleMarkup()
    ensures Markup(ExampleData(), ExampleSettings()) ==
      Pagination + WrapperOpen + Slide(ExampleData()[0], ExampleSettings())
      + Slide(ExampleData()[1], ExampleSettings()) + WrapperClose
  {
    TwoRecordMarkup(ExampleData(), ExampleSettings());
  }

  /** A two-record list renders as its two blocks in order. */
  lemma TwoRecordMarkup(data: seq<Record>, settings: Props)
    requires |data| == 2
    ensures Markup(data, settings) ==
      Pagination + WrapperOpen + Slide(data[0], settings) + Slide(data[1], settings) + WrapperClose
  {
    SlidesStep(data, 0, SlideOf(settings));
    SlidesStep(data, 1, SlideOf(settings));
    assert data[..0] == [] && data[..2] == data;
    SlideParts(data[0], settings);
    SlideParts(data[1], settings);
    EmptyPrepend(Slide(data[0], settings));
    AppendAssoc(Pagination + WrapperOpen, Slide(data[0], settings), Slide(data[1], settings));
  }

  /** The first record has no link: its image is bare, its caption is "X". */
  lemma ExampleFirstSlide()
    ensures Slide(ExampleData()[0], ExampleSettings()) ==
      SlideOpen + BareImage("a.jpg") + CaptionMarkup(ExampleSettings(), "X") + SlideClose
  {
    var settings := ExampleSettings();
    assert ColumnKey(settings, "imageColumn") == "img";
    assert ColumnKey(settings, "linkColumn") == "link";
    assert ColumnKey(settings, "captionColumn") == "cap";
  }

  /** The second record's image is wrapped in its link, its caption is "Y". */
  lemma ExampleSecondSlide()
    ensures Slide(ExampleData()[1], ExampleSettings()) ==
      SlideOpen + LinkedImage("http://e.com", "b.jpg") + CaptionMarkup(ExampleSettings(), "Y") + SlideClose
  {
    var settings := ExampleSettings();
    assert ColumnKey(settings, "imageColumn") == "img";
    assert ColumnKey(settings, "linkColumn") == "link";
    assert ColumnKey(settings, "captionColumn") == "cap";
  }

  /** Both captions sit at the configured height of 300 pixels. */
  lemma ExampleCaptionOffset()
    ensures CaptionsOn(ExampleSettings())
    ensures CaptionOpen(ExampleSettings()) == "<div class='caption' style='top:" + "300" + "px'>"
  {
    assert Decimal(300) == "300" by {
      assert Decimal(3) == "3";
      assert Decimal(30) == "30";
    }
  }
}
