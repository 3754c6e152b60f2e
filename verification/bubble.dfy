/**
  A chat bubble: a vertical stack that holds an optional image, the texts
  said in it, and one spacer, laid out on the left for the bot and on the
  right for the human.
 */
module Bubble {
  import opened Json

  datatype Direction = Left | Right

  /** The side a bubble's stack aligns its views to (`UIStackView.alignment`). */
  datatype Alignment = Leading | Trailing

  /** A label's text alignment (`NSTextAlignment`). */
  datatype TextAlignment = AlignLeft | AlignRight

  /** An RGBA colour. */
  datatype Color = Color(red: real, green: real, blue: real, alpha: real)

  /** An image, identified by the address it was loaded from. */
  datatype Image = Image(url: string)

  /** The views arranged in a bubble's stack. */
  datatype Subview =
    | Label(text: string, textAlignment: TextAlignment)
    | ImageView(image: Image)
    | Spacer

  /** The side a bubble's stack hugs. */
  function StackAlignment(direction: Direction): Alignment
  {
    if direction == Left then Leading else Trailing
  }

  /** The side a bubble's labels align their text to. */
  function LabelAlignment(direction: Direction): TextAlignment
  {
    if direction == Left then AlignLeft else AlignRight
  }

  /** The texts of the labels in `views`, in order. */
  function LabelTexts(views: seq<Subview>): seq<string>
  {
    if |views| == 0 then []
    else LabelTexts(views[..|views| - 1]) + (if views[|views| - 1].Label? then [views[|views| - 1].text] else [])
  }

  /** How many spacers `views` holds. */
  function Spacers(views: seq<Subview>): nat
  {
    if |views| == 0 then 0
    else Spacers(views[..|views| - 1]) + (if views[|views| - 1].Spacer? then 1 else 0)
  }

  /** The image views of `views`, in order. */
  function Images(views: seq<Subview>): seq<Image>
  {
    if |views| == 0 then []
    else Images(views[..|views| - 1]) + (if views[|views| - 1].ImageView? then [views[|views| - 1].image] else [])
  }

  /** The labels a bubble makes for `texts`, in order. */
  function LabelsFor(texts: seq<string>, direction: Direction): (labels: seq<Subview>)
    ensures |labels| == |texts|
  {
    if |texts| == 0 then [] else LabelsFor(texts[..|texts| - 1], direction) + [Label(texts[|texts| - 1], LabelAlignment(direction))]
  }

  /** Every label in `views` aligns its text to `alignment`. */
  predicate LabelsAligned(views: seq<Subview>, alignment: TextAlignment)
  {
    |views| == 0
    || (&& LabelsAligned(views[..|views| - 1], alignment)
        && (views[|views| - 1].Label? ==> views[|views| - 1].textAlignment == alignment))
  }

  /** Counting the views of two runs is counting each run. */
  lemma {:induction false} CountsAppend(a: seq<Subview>, b: seq<Subview>)
    ensures LabelTexts(a + b) == LabelTexts(a) + LabelTexts(b)
    ensures Spacers(a + b) == Spacers(a) + Spacers(b)
    ensures Images(a + b) == Images(a) + Images(b)
    ensures forall t :: LabelsAligned(a + b, t) <==> LabelsAligned(a, t) && LabelsAligned(b, t)
    decreases |b|
  {
    if |b| == 0 {
      assert a + b == a;
    } else {
      var b' := b[..|b| - 1];
      assert (a + b)[..|a + b| - 1] == a + b';
      assert (a + b)[|a + b| - 1] == b[|b| - 1];
      CountsAppend(a, b');
    }
  }

  /** The texts a bubble is created with: its text, if it has one. */
  function InitialTexts(text: Option<string>): seq<string>
  {
    if text.Some? then [text.value] else []
  }

  /** A bubble's stack as `init` and `append(text:)` build it: the views of
      the initial stack followed by the recorded labels, one per appended
      text, in order; the texts are the initial text, if any, followed by
      the appended ones. */
  ghost predicate ValidLayout(direction: Direction, image: Option<Image>, texts: seq<string>,
                              initialText: Option<string>, appendedTexts: seq<string>,
                              paddedLabelViews: seq<Subview>, arrangedSubviews: seq<Subview>, alignment: Alignment)
  {
    && alignment == StackAlignment(direction)
    && texts == InitialTexts(initialText) + appendedTexts
    && paddedLabelViews == LabelsFor(appendedTexts, direction)
    && arrangedSubviews == InitialViews(direction, image, initialText) + paddedLabelViews
  }

  /** A stack shows `texts` as labels, in order and aligned to the bubble's
      side, holds exactly one spacer, and shows the image, if any, once. */
  predicate Shows(views: seq<Subview>, texts: seq<string>, image: Option<Image>, direction: Direction)
  {
    && LabelTexts(views) == texts
    && LabelsAligned(views, LabelAlignment(direction))
    && Spacers(views) == 1
    && Images(views) == (if image.Some? then [image.value] else [])
  }

  class ChatBubble {
    var image: Option<Image>
    var texts: seq<string>
    var textColor: Option<Color>
    const direction: Direction
    const color: Color

    /** The labels made by `append(text:)`; the label made for the initial
        text is arranged but never recorded here. */
    var paddedLabelViews: seq<Subview>
    var arrangedSubviews: seq<Subview>
    var alignment: Alignment

    /** The text the bubble was created with, if any, and the texts
        `append(text:)` added since. */
    ghost var initialText: Option<string>
    ghost var appendedTexts: seq<string>

    ghost predicate Valid()
      reads this`image, this`texts, this`initialText, this`appendedTexts, this`paddedLabelViews
      reads this`arrangedSubviews, this`alignment
    {
      ValidLayout(direction, image, texts, initialText, appendedTexts, paddedLabelViews, arrangedSubviews, alignment)
    }

    /** A valid bubble's stack shows its texts, its image and one spacer. */
    lemma Shown()
      requires Valid()
      ensures Shows(arrangedSubviews, texts, image, direction)
    {
      LayoutShows(direction, image, texts, initialText, appendedTexts, paddedLabelViews, arrangedSubviews, alignment);
    }

    /** `init(direction:color:image:text:textColor:)`, with `setupStackView`,
        `setupViews` and `insertViews`: the stack hugs the bubble's side and
        holds the views `InitialViews` lists. */
    constructor (direction: Direction, color: Color, image: Option<Image>, text: Option<string>, textColor: Option<Color>)
      ensures Valid()
      ensures this.direction == direction && this.color == color
      ensures this.image == image && this.textColor == textColor
      ensures texts == InitialTexts(text) && initialText == text && appendedTexts == []
      ensures paddedLabelViews == []
      ensures alignment == StackAlignment(direction)
      ensures arrangedSubviews == InitialViews(direction, image, text)
    {
      var views := InitialViews(direction, image, text);
      assert views + [] == views;
      assert InitialTexts(text) + [] == InitialTexts(text);
      this.direction := direction;
      this.color := color;
      this.image := image;
      this.textColor := textColor;
      this.texts := InitialTexts(text);
      this.paddedLabelViews := [];
      this.alignment := StackAlignment(direction);
      this.arrangedSubviews := views;
      this.initialText := text;
      this.appendedTexts := [];
    }

    /** `append(text:)`: the text goes at the end of `texts`, and one new
        label, recorded and arranged, goes at the end of the stack; nothing
        else changes. */
    method Append(text: string)
      requires Valid()
      modifies this`texts, this`appendedTexts, this`paddedLabelViews, this`arrangedSubviews
      ensures Valid()
      ensures texts == old(texts) + [text] && appendedTexts == old(appendedTexts) + [text]
      ensures paddedLabelViews == old(paddedLabelViews) + [Label(text, LabelAlignment(direction))]
      ensures arrangedSubviews == old(arrangedSubviews) + [Label(text, LabelAlignment(direction))]
    {
      var view := Label(text, LabelAlignment(direction));
      AppendKeepsLayout(direction, image, texts, initialText, appendedTexts, paddedLabelViews, arrangedSubviews,
                        alignment, text);
      texts := texts + [text];
      appendedTexts := appendedTexts + [text];
      paddedLabelViews := paddedLabelViews + [view];
      arrangedSubviews := arrangedSubviews + [view];
    }
  }

  /** Appending a text together with its label, recorded and arranged at the
      end, keeps a layout valid. */
  lemma AppendKeepsLayout(direction: Direction, image: Option<Image>, texts: seq<string>,
                          initialText: Option<string>, appendedTexts: seq<string>,
                          paddedLabelViews: seq<Subview>, arrangedSubviews: seq<Subview>, alignment: Alignment,
                          text: string)
    requires ValidLayout(direction, image, texts, initialText, appendedTexts, paddedLabelViews, arrangedSubviews,
                         alignment)
    ensures var view := Label(text, LabelAlignment(direction));
            ValidLayout(direction, image, texts + [text], initialText, appendedTexts + [text],
                        paddedLabelViews + [view], arrangedSubviews + [view], alignment)
  {
    var view := Label(text, LabelAlignment(direction));
    var first := InitialViews(direction, image, initialText);
    assert (appendedTexts + [text])[..|appendedTexts|] == appendedTexts;
    assert texts + [text] == InitialTexts(initialText) + (appendedTexts + [text]);
    assert arrangedSubviews + [view] == first + (paddedLabelViews + [view]);
  }

  /** A valid layout shows the bubble's texts as labels, in order and aligned
      to its side, holds exactly one spacer, and shows its image once. */
  lemma LayoutShows(direction: Direction, image: Option<Image>, texts: seq<string>,
                    initialText: Option<string>, appendedTexts: seq<string>,
                    paddedLabelViews: seq<Subview>, arrangedSubviews: seq<Subview>, alignment: Alignment)
    requires ValidLayout(direction, image, texts, initialText, appendedTexts, paddedLabelViews, arrangedSubviews,
                         alignment)
    ensures Shows(arrangedSubviews, texts, image, direction)
  {
    StackOfPieces(direction, image, initialText);
    LabelsForCounts(appendedTexts, direction);
    CountsAppend(InitialViews(direction, image, initialText), paddedLabelViews);
  }

  /** The recorded labels show the appended texts, aligned to the bubble's
      side, and hold no spacer and no image. */
  lemma {:induction false} LabelsForCounts(texts: seq<string>, direction: Direction)
    ensures LabelTexts(LabelsFor(texts, direction)) == texts
    ensures LabelsAligned(LabelsFor(texts, direction), LabelAlignment(direction))
    ensures Spacers(LabelsFor(texts, direction)) == 0
    ensures Images(LabelsFor(texts, direction)) == []
  {
    if |texts| > 0 {
      var init, last := texts[..|texts| - 1], texts[|texts| - 1];
      var view := Label(last, LabelAlignment(direction));
      var labels := LabelsFor(init, direction);
      LabelsForCounts(init, direction);
      SnocCounts(labels, view, LabelAlignment(direction));
      assert init + [last] == texts;
      assert LabelsFor(texts, direction) == labels + [view];
    }
  }

  /** Counting the views of a stack with one more view at the end. */
  lemma SnocCounts(views: seq<Subview>, v: Subview, t: TextAlignment)
    ensures LabelTexts(views + [v]) == LabelTexts(views) + (if v.Label? then [v.text] else [])
    ensures LabelsAligned(views + [v], t) <==> LabelsAligned(views, t) && (v.Label? ==> v.textAlignment == t)
    ensures Spacers(views + [v]) == Spacers(views) + (if v.Spacer? then 1 else 0)
    ensures Images(views + [v]) == Images(views) + (if v.ImageView? then [v.image] else [])
  {
    assert (views + [v])[..|views|] == views;
  }
  /** The label for an optional text and the view for an optional image. */
  function LabelIf(text: Option<string>, direction: Direction): seq<Subview>
  {
    if text.Some? then [Label(text.value, LabelAlignment(direction))] else []
  }

  function ImageIf(image: Option<Image>): seq<Subview>
  {
    if image.Some? then [ImageView(image.value)] else []
  }

  /** A new bubble's stack. `setupViews` arranges the initial text's label;
      `insertViews` then adds, on the left, the image, the first recorded
      label and the spacer, and on the right the spacer, the first recorded
      label and the image. No label is recorded yet at that point, so the
      recorded label adds nothing. */
  function InitialViews(direction: Direction, image: Option<Image>, text: Option<string>): seq<Subview>
  {
    if direction == Left then LabelIf(text, direction) + ImageIf(image) + [Spacer]
    else LabelIf(text, direction) + [Spacer] + ImageIf(image)
  }

  lemma SingleCounts(v: Subview)
    ensures LabelTexts([v]) == (if v.Label? then [v.text] else [])
    ensures forall t :: LabelsAligned([v], t) <==> (v.Label? ==> v.textAlignment == t)
    ensures Spacers([v]) == (if v.Spacer? then 1 else 0)
    ensures Images([v]) == (if v.ImageView? then [v.image] else [])
  {
    assert [v][..0] == [];
  }

  lemma PieceCounts(text: Option<string>, image: Option<Image>, direction: Direction)
    ensures LabelTexts(LabelIf(text, direction)) == (if text.Some? then [text.value] else [])
    ensures Spacers(LabelIf(text, direction)) == 0 && Images(LabelIf(text, direction)) == []
    ensures LabelTexts(ImageIf(image)) == [] && Spacers(ImageIf(image)) == 0
    ensures Images(ImageIf(image)) == (if image.Some? then [image.value] else [])
    ensures LabelTexts([Spacer]) == [] && Spacers([Spacer]) == 1 && Images([Spacer]) == []
    ensures LabelsAligned(LabelIf(text, direction), LabelAlignment(direction))
    ensures forall t :: LabelsAligned(ImageIf(image), t) && LabelsAligned([Spacer], t)
  {
    if text.Some? { SingleCounts(Label(text.value, LabelAlignment(direction))); }
    if image.Some? { SingleCounts(ImageView(image.value)); }
    SingleCounts(Spacer);
  }

  /** What a stack built from an optional label, an optional image and a
      spacer, in either order, shows. */
  lemma StackOfPieces(direction: Direction, image: Option<Image>, text: Option<string>)
    ensures Shows(InitialViews(direction, image, text), InitialTexts(text), image, direction)
  {
    var first, img := LabelIf(text, direction), ImageIf(image);
    PieceCounts(text, image, direction);
    if direction == Left {
      CountsAppend(first, img);
      CountsAppend(first + img, [Spacer]);
    } else {
      CountsAppend(first, [Spacer]);
      CountsAppend(first + [Spacer], img);
    }
  }
}
