/** The older build of the plugin (dist/js/spSlider.js): its own defaults,
    a fixed list of four items in place of the list query, and a slide
    markup with an unconditional caption and no links. */
module DistSlider {
  import opened JsObjects
  import opened SliderCommon

  /** The settings every call starts from. */
  function Defaults(): Props
  {
    map["width" := JNum(400), "height" := JNum(300), "listURL" := JStr(""),
        "listName" := JStr(""), "categories" := JArray([]), "visibilityFullFit" := JBool(false)]
  }

  /** `record.key` inside a string concatenation: a missing property is
      `undefined`, which is appended as the text "undefined". */
  function Prop(record: Record, key: string): string
  {
    if key in record then record[key] else "undefined"
  }

  /** The caption of this build: no position, always present. */
  function CaptionDiv(title: string): string
  {
    "<div class='caption'>" + title + "</div>"
  }

  /** The block emitted for one record. */
  function Slide(record: Record): string
  {
    SlideOpen + BareImage(Prop(record, "image")) + CaptionDiv(Prop(record, "title")) + SlideClose
  }

  function SlideFn(): Record -> string
  {
    r => Slide(r)
  }

  /** The whole fragment `formatData(data)` returns. */
  function Markup(data: seq<Record>): string
  {
    Pagination + WrapperOpen + Slides(data, SlideFn()) + WrapperClose
  }

  /** The pieces one turn of the loop appends make up the record's block. */
  lemma AppendSlide(data: seq<Record>, i: nat, before: string)
    requires i < |data|
    requires before == WrapperOpen + Slides(data[..i], SlideFn())
    ensures before + SlideOpen + BareImage(Prop(data[i], "image")) + CaptionDiv(Prop(data[i], "title")) + SlideClose
      == WrapperOpen + Slides(data[..i + 1], SlideFn())
  {
    SlidesStep(data, i, SlideFn());
    assert SlideFn()(data[i]) == Slide(data[i]);
    AppendPieces(before, SlideOpen, BareImage(Prop(data[i], "image")), CaptionDiv(Prop(data[i], "title")), SlideClose);
    AppendAssoc(WrapperOpen, Slides(data[..i], SlideFn()), Slide(data[i]));
  }

  /** `formatData`: the navigation markers, then the wrapper holding one
      block per record, appended in a loop over the records. */
  method FormatData(data: seq<Record>) returns (result: string)
    ensures result == Markup(data)
  {
    var pagination := Pagination;
    var slides := WrapperOpen;
    var i := 0;
    assert data[..i] == [];
    while i < |data|
      invariant 0 <= i <= |data|
      invariant slides == WrapperOpen + Slides(data[..i], SlideFn())
    {
      ghost var before := slides;
      slides := slides + SlideOpen;
      slides := slides + BareImage(Prop(data[i], "image"));
      slides := slides + CaptionDiv(Prop(data[i], "title"));
      slides := slides + SlideClose;
      AppendSlide(data, i, before);
      i := i + 1;
    }
    assert data[..i] == data;
    slides := slides + WrapperClose;
    result := pagination + slides;
    AppendAssoc(Pagination, WrapperOpen + Slides(data, SlideFn()), WrapperClose);
    AppendAssoc(Pagination, WrapperOpen, Slides(data, SlideFn()));
  }

  /** The image sources of the fixed list, in order. */
  const FixtureImages: seq<string> := ["images/1.jpg", "images/2.jpg", "images/3.jpg", "images/2.jpg"]
  /** The titles of the fixed list, in order. */
  const FixtureTitles: seq<string> := ["Test image", "SAnother image", "Someethisdnf sdf", "Test image"]

  /** `getData`: the list query is commented out and a fixed list of four
      items is returned instead. */
  function GetData(): (data: seq<Record>)
    ensures |data| == 4
    ensures forall i :: 0 <= i < 4 ==>
      "title" in data[i] && "image" in data[i] && "link" in data[i] && "categories" in data[i]
    ensures forall i :: 0 <= i < 4 ==>
      data[i]["image"] == FixtureImages[i] && data[i]["title"] == FixtureTitles[i]
  {
    [ map["title" := "Test image", "image" := "images/1.jpg",
          "link" := "http://www.google.com", "categories" := "ES;MS;HS"],
      map["title" := "SAnother image", "image" := "images/2.jpg",
          "link" := "http://www.ebay.com", "categories" := "ES"],
      map["title" := "Someethisdnf sdf", "image" := "images/3.jpg",
          "link" := "http://www.amazon.com", "categories" := "HS"],
      map["title" := "Test image", "image" := "images/2.jpg",
          "link" := "http://www.fb.com", "categories" := "ES;HS"] ]
  }

  /** `$.extend({defaults}, options)`: a fresh settings object. */
  method MergeSettings(options: Props) returns (settings: JsObject)
    ensures fresh(settings)
    ensures settings.props == Extend(Defaults(), options)
  {
    settings := new JsObject(Defaults());
    settings.ExtendWith(options);
  }

  /** The settings part of `applyPlugin`: the hard-coded flags are merged
      over the settings object in place. */
  method ApplyPlugin(settings: JsObject)
    modifies settings
    ensures settings.props == Extend(old(settings.props), HardcodedOptions())
  {
    settings.ExtendWith(HardcodedOptions());
  }

  /** One run of this build: the markup of the fixed list, whatever the
      options, and the settings handed to the carousel widget. */
  method SpSlider(options: Props) returns (settings: JsObject, html: string)
    ensures fresh(settings)
    ensures html == Markup(GetData())
    ensures settings.props == Extend(Extend(Defaults(), options), HardcodedOptions())
  {
    settings := MergeSettings(options);
    var data := GetData();
    html := FormatData(data);
    ApplyPlugin(settings);
  }

  // Properties

  /** Every default reads through unless the caller supplied a value for it;
      a supplied value always wins, and then the widget flags win over both. */
  lemma DefaultsUnderOptions(options: Props, key: string)
    ensures key in Defaults() && Get(options, key) == JUndefined ==>
      Get(Extend(Defaults(), options), key) == Defaults()[key]
    ensures Get(options, key) != JUndefined ==>
      Get(Extend(Defaults(), options), key) == Get(options, key)
    ensures key in HardcodedOptions() ==>
      Get(Extend(Extend(Defaults(), options), HardcodedOptions()), key) == JBool(true)
  {
    HardcodedFlagsWin(Extend(Defaults(), options));
  }

  /** A property missing from a record is rendered as the text "undefined". */
  lemma MissingPropIsUndefined(record: Record, key: string)
    ensures key !in record ==> Prop(record, key) == "undefined"
    ensures key in record ==> Prop(record, key) == record[key]
  {
  }

  /** No records: the two navigation markers and an empty wrapper. */
  lemma EmptyListMarkup()
    ensures Markup([]) == Pagination + WrapperOpen + WrapperClose
  {
    assert Slides([], SlideFn()) == "";
  }

  /** Between the wrapper and `</ul>` there is one block per record, in
      input order, and nothing else. */
  lemma MarkupBlocks(data: seq<Record>)
    ensures Markup(data) == Pagination + WrapperOpen + Concat(Blocks(data, SlideFn())) + WrapperClose
    ensures |Blocks(data, SlideFn())| == |data|
    ensures forall i :: 0 <= i < |data| ==> Blocks(data, SlideFn())[i] == Slide(data[i])
  {
    SlidesAreBlocks(data, SlideFn());
  }

  /** Every block is a slide that starts with the bare image, never a link,
      and ends with the caption holding the title, whatever the record. */
  lemma SlideAlwaysBareAndCaptioned(record: Record)
    ensures var b := Slide(record);
      var img := BareImage(Prop(record, "image"));
      var cap := CaptionDiv(Prop(record, "title"));
      && |b| == |SlideOpen| + |img| + |cap| + |SlideClose|
      && b[..|SlideOpen|] == SlideOpen
      && b[|SlideOpen|..|SlideOpen| + |img|] == img
      && b[|SlideOpen| + |img|..|b| - |SlideClose|] == cap
      && b[|b| - |SlideClose|..] == SlideClose
      && b[|SlideOpen|..|SlideOpen| + 4] == "<img"
  {
    var img := BareImage(Prop(record, "image"));
    assert img[..4] == "<img";
    Pieces4(SlideOpen, BareImage(Prop(record, "image")), CaptionDiv(Prop(record, "title")), SlideClose);
  }

  /** On the fixed list the markup holds exactly four blocks, whose images in
      order are images/1.jpg, images/2.jpg, images/3.jpg, images/2.jpg, each
      followed by the item's title as caption. */
  lemma FixtureMarkup()
    ensures Markup(GetData()) == Pagination + WrapperOpen + Concat(Blocks(GetData(), SlideFn())) + WrapperClose
    ensures |Blocks(GetData(), SlideFn())| == 4
    ensures forall i :: 0 <= i < 4 ==>
      Blocks(GetData(), SlideFn())[i] == SlideOpen + BareImage(FixtureImages[i]) + CaptionDiv(FixtureTitles[i]) + SlideClose
  {
    MarkupBlocks(GetData());
  }
}
