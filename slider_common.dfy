/** What the two builds of the slider plugin share: the record shape, the
    fixed pieces of markup both emit, the way the slide loop accumulates its
    blocks, and the behaviour flags handed to the carousel widget. */
module SliderCommon {
  import opened JsObjects

  /** One list item: field name to field value. */
  type Record = map<string, string>

  const LeftControl: string := "<a class='swipe-nav left'>left</a>"
  const RightControl: string := "<a class='swipe-nav right'>right</a>"
  /** The navigation markers, previous before next. */
  const Pagination: string := LeftControl + RightControl
  const WrapperOpen: string := "<div class='swiper-wrapper'>"
  /** The wrapper is closed with `</ul>` although it was opened as a `div`. */
  const WrapperClose: string := "</ul>"
  const SlideOpen: string := "<div class='swiper-slide'>"
  const SlideClose: string := "</div>"

  /** An image with no link around it. */
  function BareImage(img: string): string
  {
    "<img src='" + img + "' />"
  }

  /** What the slide loop has appended after visiting `data` in order:
      one block per record, each block made by `slide`. */
  function Slides(data: seq<Record>, slide: Record -> string): string
  {
    if data == [] then "" else Slides(data[..|data| - 1], slide) + slide(data[|data| - 1])
  }

  /** One more turn of the slide loop appends the next record's block. */
  lemma SlidesStep(data: seq<Record>, i: nat, slide: Record -> string)
    requires i < |data|
    ensures Slides(data[..i + 1], slide) == Slides(data[..i], slide) + slide(data[i])
  {
    assert data[..i + 1][..i] == data[..i];
  }

  lemma EmptyPrepend(s: string)
    ensures "" + s == s
  {
  }

  lemma AppendAssoc(a: string, b: string, c: string)
    ensures a + b + c == a + (b + c)
  {
  }

  /** Appending the pieces of a block one by one appends the block. */
  lemma AppendPieces(done: string, open: string, image: string, caption: string, close: string)
    ensures done + open + image + caption + close == done + (open + image + caption + close)
  {
  }

  /** The four pieces of a concatenation can be cut back out of it. */
  lemma Pieces4(a: string, b: string, c: string, d: string)
    ensures var s := a + b + c + d;
      && |s| == |a| + |b| + |c| + |d|
      && s[..|a|] == a
      && s[|a|..|a| + |b|] == b
      && s[|a| + |b|..|s| - |d|] == c
      && s[|s| - |d|..] == d
  {
    var s := a + b + c + d;
    assert s == a + (b + (c + d));
    assert s[..|a|] == a;
    assert s[|a|..] == b + (c + d);
    assert s[|a|..|a| + |b|] == b;
    assert s == (a + b + c) + d;
    assert s[|a| + |b|..|s| - |d|] == c;
  }

  /** The fixed frame around the slides can be cut back out of the fragment. */
  lemma FramePieces(left: string, right: string, open: string, body: string, close: string)
    ensures var m := left + right + open + body + close;
      && |m| >= |left + right + open| + |close|
      && m[..|left|] == left
      && m[|left|..|left + right|] == right
      && m[|left + right|..|left + right + open|] == open
      && m[|m| - |close|..] == close
  {
    var m := left + right + open + body + close;
    var head := left + right + open;
    assert m == head + (body + close);
    assert m[..|head|] == head;
    assert head[..|left|] == left;
    assert head[|left|..|left + right|] == right;
    assert head[|left + right|..] == open;
  }

  /** The concatenation of `blocks`, in order. */
  function Concat(blocks: seq<string>): string
  {
    if blocks == [] then "" else Concat(blocks[..|blocks| - 1]) + blocks[|blocks| - 1]
  }

  /** The block made for each record, in input order. */
  function Blocks(data: seq<Record>, slide: Record -> string): seq<string>
  {
    seq(|data|, i requires 0 <= i < |data| => slide(data[i]))
  }

  /** The slide loop's output is exactly one block per record, in input
      order, with nothing between them. */
  lemma {:induction false} SlidesAreBlocks(data: seq<Record>, slide: Record -> string)
    ensures |Blocks(data, slide)| == |data|
    ensures forall i :: 0 <= i < |data| ==> Blocks(data, slide)[i] == slide(data[i])
    ensures Slides(data, slide) == Concat(Blocks(data, slide))
  {
    if data != [] {
      var n := |data| - 1;
      SlidesAreBlocks(data[..n], slide);
      assert Blocks(data, slide)[..n] == Blocks(data[..n], slide);
    }
  }

  /** Rendering two lists one after the other gives the rendering of the
      joined list: the loop neither reorders nor drops records. */
  lemma {:induction false} SlidesAppend(a: seq<Record>, b: seq<Record>, slide: Record -> string)
    ensures Slides(a + b, slide) == Slides(a, slide) + Slides(b, slide)
  {
    if b != [] {
      var n := |b| - 1;
      assert (a + b)[..|a + b| - 1] == a + b[..n];
      SlidesAppend(a, b[..n], slide);
    } else {
      assert a + b == a;
    }
  }

  /** Two block makers that agree on every record produce the same slides. */
  lemma {:induction false} SlidesCongruent(data: seq<Record>, f: Record -> string, g: Record -> string)
    requires forall i :: 0 <= i < |data| ==> f(data[i]) == g(data[i])
    ensures Slides(data, f) == Slides(data, g)
  {
    if data != [] {
      SlidesCongruent(data[..|data| - 1], f, g);
    }
  }

  /** The flags the plugin always merges over its settings before handing
      them to the carousel widget. */
  function HardcodedOptions(): Props
  {
    map["keyboardControl" := JBool(true), "loop" := JBool(true), "watchActiveIndex" := JBool(true)]
  }

  /** After the hard-coded merge, the three flags are `true` whatever the
      settings held, and every other setting reads as before. */
  lemma HardcodedFlagsWin(settings: Props)
    ensures Get(Extend(settings, HardcodedOptions()), "keyboardControl") == JBool(true)
    ensures Get(Extend(settings, HardcodedOptions()), "loop") == JBool(true)
    ensures Get(Extend(settings, HardcodedOptions()), "watchActiveIndex") == JBool(true)
    ensures forall k :: k !in HardcodedOptions() ==>
      Get(Extend(settings, HardcodedOptions()), k) == Get(settings, k)
  {
  }
}
