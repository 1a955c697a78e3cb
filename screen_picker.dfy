/**
 * The screen picker (`_QSelectScreenWindow`): with a single screen its
 * geometry is chosen at once; otherwise one button per screen, labelled
 * `<width>x<height>` in enumeration order, and a click on a button chooses
 * that button's screen.
 */
module ScreenPicker {
  import opened Wrappers
  import opened Numerals
  import opened Geometry

  /** A button: its text, and the geometry its click handler is bound to. */
  datatype Button = Button(text: string, geometry: Rect)

  datatype Picker =
    | Selected(geometry: Rect)      // the single screen, chosen without showing the window
    | Choosing(buttons: seq<Button>) // the window is shown; a click chooses a button's geometry

  /** `"{w}x{h}"`: the only 'x' in the text is the one right after the width's digits. */
  function Label(g: Rect): (s: string)
    ensures |IntToString(g.width)| < |s|
    ensures forall i :: 0 <= i < |s| ==> (s[i] == 'x' <==> i == |IntToString(g.width)|)
  {
    IntToString(g.width) + "x" + IntToString(g.height)
  }

  function ButtonFor(g: Rect): Button {
    Button(Label(g), g)
  }

  /** The position of the first 'x' in `s`, or |s| when there is none. */
  function IndexOfX(s: string): (i: nat)
    ensures i <= |s|
    ensures forall j :: 0 <= j < i ==> s[j] != 'x'
    ensures i < |s| ==> s[i] == 'x'
  {
    if s == [] || s[0] == 'x' then 0 else 1 + IndexOfX(s[1..])
  }

  /** Reads a `<width>x<height>` label back into the two numbers. */
  function ParseSize(s: string): Option<(int, int)> {
    var i := IndexOfX(s);
    if i == |s| then None
    else
      match (ParseInt(s[..i]), ParseInt(s[i + 1..]))
      case (Some(w), Some(h)) => Some((w, h))
      case _ => None
  }

  /** A label names exactly its screen's width and height. */
  lemma LabelReadsBack(g: Rect)
    ensures ParseSize(Label(g)) == Some((g.width, g.height))
  {
    var w, h := IntToString(g.width), IntToString(g.height);
    var s := Label(g);
    assert s[|w|] == 'x';
    var i := IndexOfX(s);
    assert s[..i] == w && s[i + 1..] == h;
    ParseIntToString(g.width);
    ParseIntToString(g.height);
  }

  /** Two screens get the same label exactly when they have the same size, wherever they are. */
  lemma LabelsDistinguishSizes(a: Rect, b: Rect)
    ensures Label(a) == Label(b) <==> a.width == b.width && a.height == b.height
  {
    LabelReadsBack(a);
    LabelReadsBack(b);
  }

  /** The loop of `_init_ui`: one button per geometry, in enumeration order. */
  method MakeButtons(geometries: seq<Rect>) returns (buttons: seq<Button>)
    ensures |buttons| == |geometries|
    ensures forall i :: 0 <= i < |geometries| ==> buttons[i] == ButtonFor(geometries[i])
  {
    buttons := [];
    for i := 0 to |geometries|
      invariant |buttons| == i
      invariant forall j :: 0 <= j < i ==> buttons[j] == ButtonFor(geometries[j])
    {
      buttons := buttons + [ButtonFor(geometries[i])];
    }
  }

  /**
   * Opening the picker on the enumerated screen geometries. Clicking button `i`
   * closes the window and chooses `buttons[i].geometry`.
   */
  method Open(geometries: seq<Rect>) returns (p: Picker)
    ensures p.Selected? <==> |geometries| == 1
    ensures p.Selected? ==> p.geometry == geometries[0]
    ensures p.Choosing? ==> |p.buttons| == |geometries|
    ensures p.Choosing? ==> forall i :: 0 <= i < |geometries| ==> p.buttons[i] == ButtonFor(geometries[i])
    ensures p.Choosing? ==> forall i :: 0 <= i < |geometries| ==>
              p.buttons[i].geometry == geometries[i] &&
              ParseSize(p.buttons[i].text) == Some((geometries[i].width, geometries[i].height))
  {
    if |geometries| == 1 {
      return Selected(geometries[0]);
    }
    var buttons := MakeButtons(geometries);
    forall i | 0 <= i < |geometries|
      ensures ParseSize(buttons[i].text) == Some((geometries[i].width, geometries[i].height))
    {
      LabelReadsBack(geometries[i]);
    }
    p := Choosing(buttons);
  }
}
