/** `DesignableFlatButton`: a `DesignableButton` with an optional background
    colour per control state. On every draw, each state that has a colour
    gets a freshly synthesised background image of the button's size and
    corner radius. The button it extends is held as `button`. */
module DesignableFlatButtons {
  import opened Graphics
  import opened Layers
  import opened DesignableButtons

  /** `Utils.image(color:size:cornerRadius:)`, the bitmap synthesiser: it may
      yield no image when a graphics context cannot be created. */
  type ImageSynthesiser = (UIColor, Size, real) -> Option<Image>

  /** One value for each of the four control states. */
  datatype PerState<T> = PerState(normal: T, highlighted: T, selected: T, disabled: T) {
    function At(st: ControlState): (v: T)
      ensures st == Normal ==> v == normal
      ensures st == Highlighted ==> v == highlighted
      ensures st == Selected ==> v == selected
      ensures st == Disabled ==> v == disabled
    {
      match st
      case Normal => normal
      case Highlighted => highlighted
      case Selected => selected
      case Disabled => disabled
    }
  }

  const AllStates: set<ControlState> := {Normal, Highlighted, Selected, Disabled}

  lemma AllStatesComplete(st: ControlState)
    ensures st in AllStates
  {
  }

  /** The background table after `updateBackgroundImages`: every state with
      a colour gets the synthesised image (or none, when synthesis fails),
      all made with the same size and corner radius; every other state keeps
      what it had. */
  function BackgroundsFor(table: StateTable<Image>, colors: PerState<Option<UIColor>>,
                          size: Size, cornerRadius: real, synthesise: ImageSynthesiser): (r: StateTable<Image>)
    ensures forall st :: colors.At(st).Some? ==>
              st in r && r[st] == synthesise(colors.At(st).value, size, cornerRadius)
    ensures forall st :: colors.At(st).None? ==> (st in r <==> st in table) && Lookup(r, st) == Lookup(table, st)
  {
    map st | st in AllStates && (st in table || colors.At(st).Some?) ::
      if colors.At(st).Some? then synthesise(colors.At(st).value, size, cornerRadius) else table[st]
  }

  /** One step of `updateBackgroundImages`: the `if let` for state `st`. */
  function Installed(table: StateTable<Image>, st: ControlState, color: Option<UIColor>,
                     size: Size, cornerRadius: real, synthesise: ImageSynthesiser): (r: StateTable<Image>)
    ensures color.Some? ==> st in r && r[st] == synthesise(color.value, size, cornerRadius)
    ensures color.None? ==> r == table
    ensures forall other :: other != st ==> (other in r <==> other in table) && Lookup(r, other) == Lookup(table, other)
  {
    if color.Some? then table[st := synthesise(color.value, size, cornerRadius)] else table
  }

  /** The four steps, normal to disabled, give the background table. */
  lemma {:induction false} StepsGiveBackgrounds(table: StateTable<Image>, colors: PerState<Option<UIColor>>,
                                                size: Size, cornerRadius: real, synthesise: ImageSynthesiser)
    ensures Installed(Installed(Installed(Installed(table,
              Normal, colors.normal, size, cornerRadius, synthesise),
              Highlighted, colors.highlighted, size, cornerRadius, synthesise),
              Selected, colors.selected, size, cornerRadius, synthesise),
              Disabled, colors.disabled, size, cornerRadius, synthesise)
         == BackgroundsFor(table, colors, size, cornerRadius, synthesise)
  {
    var t1 := Installed(table, Normal, colors.normal, size, cornerRadius, synthesise);
    var t2 := Installed(t1, Highlighted, colors.highlighted, size, cornerRadius, synthesise);
    var t3 := Installed(t2, Selected, colors.selected, size, cornerRadius, synthesise);
    var t4 := Installed(t3, Disabled, colors.disabled, size, cornerRadius, synthesise);
    var spec := BackgroundsFor(table, colors, size, cornerRadius, synthesise);
    forall st ensures (st in t4 <==> st in spec) && (st in spec ==> t4[st] == spec[st]) {
      AllStatesComplete(st);
    }
  }

  /** With a deterministic synthesiser, updating twice is updating once. */
  lemma BackgroundsIdempotent(table: StateTable<Image>, colors: PerState<Option<UIColor>>,
                              size: Size, cornerRadius: real, synthesise: ImageSynthesiser)
    ensures var once := BackgroundsFor(table, colors, size, cornerRadius, synthesise);
            BackgroundsFor(once, colors, size, cornerRadius, synthesise) == once
  {
    var once := BackgroundsFor(table, colors, size, cornerRadius, synthesise);
    var twice := BackgroundsFor(once, colors, size, cornerRadius, synthesise);
    forall st ensures (st in twice <==> st in once) && (st in once ==> twice[st] == once[st]) {
      AllStatesComplete(st);
    }
  }

  /** A state whose synthesis fails ends up with no background image: the
      optional result is installed unchecked. */
  lemma FailedSynthesisClearsBackground(table: StateTable<Image>, colors: PerState<Option<UIColor>>,
                                        size: Size, cornerRadius: real, synthesise: ImageSynthesiser, st: ControlState)
    requires colors.At(st).Some? && synthesise(colors.At(st).value, size, cornerRadius).None?
    ensures Lookup(BackgroundsFor(table, colors, size, cornerRadius, synthesise), st) == None
  {
  }

  class DesignableFlatButton {
    const button: DesignableButton
    var color: Option<UIColor>
    var highlightedColor: Option<UIColor>
    var selectedColor: Option<UIColor>
    var disabledColor: Option<UIColor>

    /** Both initialisers: the host initialiser, then `configure()` and
        `setNeedsDisplay()`. */
    constructor (frame: Rect)
      ensures fresh(button) && fresh(button.layer) && button.frame == frame
      ensures Colors() == PerState(None, None, None, None)
      ensures !button.adjustsImageWhenDisabled && !button.adjustsImageWhenHighlighted
      ensures button.needsDisplay && button.backgroundImages == map[]
    {
      button := new DesignableButton(frame);
      color, highlightedColor, selectedColor, disabledColor := None, None, None, None;
      new;
      Configure();
      button.needsDisplay := true;
    }

    /** The four colour properties, by state. */
    function Colors(): (c: PerState<Option<UIColor>>)
      reads this
    {
      PerState(color, highlightedColor, selectedColor, disabledColor)
    }

    /** Setting one of the colour properties: its `didSet` only marks the
        button as needing display; the background images are untouched. */
    method SetColor(st: ControlState, newValue: Option<UIColor>)
      modifies this, button`needsDisplay
      ensures Colors().At(st) == newValue
      ensures forall other :: other != st ==> Colors().At(other) == old(Colors().At(other))
      ensures button.needsDisplay
      ensures button.backgroundImages == old(button.backgroundImages)
    {
      match st {
        case Normal => color := newValue;
        case Highlighted => highlightedColor := newValue;
        case Selected => selectedColor := newValue;
        case Disabled => disabledColor := newValue;
      }
      button.needsDisplay := true;
    }

    /** The `title`, `highlightedTitle`, `selectedTitle` and `disabledTitle`
        setters: each writes its own state's entry only. */
    method SetTitle(st: ControlState, newValue: Option<string>)
      modifies button`titles
      ensures button.titles == old(button.titles)[st := newValue]
      ensures Lookup(button.titles, st) == newValue
      ensures forall other :: other != st ==> Lookup(button.titles, other) == old(Lookup(button.titles, other))
    {
      button.titles := button.titles[st := newValue];
    }

    /** The four title colour setters. */
    method SetTitleColor(st: ControlState, newValue: Option<UIColor>)
      modifies button`titleColors
      ensures button.titleColors == old(button.titleColors)[st := newValue]
      ensures Lookup(button.titleColors, st) == newValue
      ensures forall other :: other != st ==> Lookup(button.titleColors, other) == old(Lookup(button.titleColors, other))
    {
      button.titleColors := button.titleColors[st := newValue];
    }

    /** The four image setters. */
    method SetImage(st: ControlState, newValue: Option<Image>)
      modifies button`images
      ensures button.images == old(button.images)[st := newValue]
      ensures Lookup(button.images, st) == newValue
      ensures forall other :: other != st ==> Lookup(button.images, other) == old(Lookup(button.images, other))
    {
      button.images := button.images[st := newValue];
    }

    /** The `title`, `highlightedTitle`, `selectedTitle` and `disabledTitle`
        getters: a state's own entry, with no fallback to the normal state. */
    function Title(st: ControlState): (r: Option<string>)
      reads button
      ensures st !in button.titles ==> r == None
      ensures st in button.titles ==> r == button.titles[st]
    {
      Lookup(button.titles, st)
    }

    /** The four title colour getters. */
    function TitleColor(st: ControlState): (r: Option<UIColor>)
      reads button
      ensures st !in button.titleColors ==> r == None
      ensures st in button.titleColors ==> r == button.titleColors[st]
    {
      Lookup(button.titleColors, st)
    }

    /** The four image getters. */
    function ImageFor(st: ControlState): (r: Option<Image>)
      reads button
      ensures st !in button.images ==> r == None
      ensures st in button.images ==> r == button.images[st]
    {
      Lookup(button.images, st)
    }

    /** `configure()`: the host's automatic dimming of images is switched off. */
    method Configure()
      modifies button`adjustsImageWhenDisabled, button`adjustsImageWhenHighlighted
      ensures !button.adjustsImageWhenDisabled && !button.adjustsImageWhenHighlighted
    {
      button.adjustsImageWhenDisabled := false;
      button.adjustsImageWhenHighlighted := false;
    }

    /** `updateBackgroundImages()`, one state after the other. */
    method UpdateBackgroundImages(synthesise: ImageSynthesiser)
      modifies button`backgroundImages
      ensures button.backgroundImages
           == BackgroundsFor(old(button.backgroundImages), Colors(), button.frame.size,
                             button.layer.cornerRadius, synthesise)
    {
      ghost var table := button.backgroundImages;
      var size, radius := button.frame.size, button.CornerRadius();
      if color.Some? {
        var normalImage := synthesise(color.value, size, radius);
        button.backgroundImages := button.backgroundImages[Normal := normalImage];
      }
      ghost var t1 := button.backgroundImages;
      assert t1 == Installed(table, Normal, color, size, radius, synthesise);
      if highlightedColor.Some? {
        var highlightedImage := synthesise(highlightedColor.value, size, radius);
        button.backgroundImages := button.backgroundImages[Highlighted := highlightedImage];
      }
      ghost var t2 := button.backgroundImages;
      assert t2 == Installed(t1, Highlighted, highlightedColor, size, radius, synthesise);
      if selectedColor.Some? {
        var selectedImage := synthesise(selectedColor.value, size, radius);
        button.backgroundImages := button.backgroundImages[Selected := selectedImage];
      }
      ghost var t3 := button.backgroundImages;
      assert t3 == Installed(t2, Selected, selectedColor, size, radius, synthesise);
      if disabledColor.Some? {
        var disabledImage := synthesise(disabledColor.value, size, radius);
        button.backgroundImages := button.backgroundImages[Disabled := disabledImage];
      }
      assert button.backgroundImages == Installed(t3, Disabled, disabledColor, size, radius, synthesise);
      StepsGiveBackgrounds(table, Colors(), size, radius, synthesise);
    }

    /** `draw(_:)`: the backgrounds are rebuilt before the host draws. */
    method Draw(synthesise: ImageSynthesiser)
      modifies button`backgroundImages
      ensures button.backgroundImages
           == BackgroundsFor(old(button.backgroundImages), Colors(), button.frame.size,
                             button.layer.cornerRadius, synthesise)
    {
      UpdateBackgroundImages(synthesise);
    }
  }
}
