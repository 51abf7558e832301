/**
 * The Button component: props with defaults, the class string composed from
 * the variant and the size, the label as accessible name and text, and the
 * `disabled` flag that keeps a click from reaching `onClick`.
 */
module Button {
  import opened Wrappers

  /** The three allowed values of `variant`. */
  datatype Variant = Primary | Secondary | Danger {
    /** The prop's string, one of the allowed three. */
    function Name(): (s: string)
      ensures s in VariantNames
    {
      match this
      case Primary => "primary"
      case Secondary => "secondary"
      case Danger => "danger"
    }
  }

  /** The three allowed values of `size`. */
  datatype Size = Small | Medium | Large {
    /** The prop's string, one of the allowed three. */
    function Name(): (s: string)
      ensures s in SizeNames
    {
      match this
      case Small => "small"
      case Medium => "medium"
      case Large => "large"
    }
  }

  const VariantNames: set<string> := {"primary", "secondary", "danger"}
  const SizeNames: set<string> := {"small", "medium", "large"}

  /** The runtime check on `variant`: a string is accepted exactly when it names one of the three. */
  function ParseVariant(s: string): (r: Option<Variant>)
    ensures r.Some? <==> s in VariantNames
    ensures r.Some? ==> r.value.Name() == s
  {
    if s == "primary" then Some(Primary)
    else if s == "secondary" then Some(Secondary)
    else if s == "danger" then Some(Danger)
    else None
  }

  /** The runtime check on `size`: a string is accepted exactly when it names one of the three. */
  function ParseSize(s: string): (r: Option<Size>)
    ensures r.Some? <==> s in SizeNames
    ensures r.Some? ==> r.value.Name() == s
  {
    if s == "small" then Some(Small)
    else if s == "medium" then Some(Medium)
    else if s == "large" then Some(Large)
    else None
  }

  /** Every variant and size passes the runtime check as itself. */
  lemma NamesParse(v: Variant, z: Size)
    ensures ParseVariant(v.Name()) == Some(v)
    ensures ParseSize(z.Name()) == Some(z)
  {
  }

  /** The props a caller passes; `None` is a prop left out. `H` stands for the click handler. */
  datatype ButtonProps<H> = ButtonProps(
    buttonLabel: string,
    onClick: Option<H>,
    variant: Option<Variant>,
    size: Option<Size>,
    disabled: Option<bool>)

  /** The rendered `<button>` element. */
  datatype Rendered<H> = Rendered(
    className: string,
    onClick: Option<H>,
    disabled: bool,
    ariaLabel: string,
    text: string)

  /** The class string `btn btn-<variant> btn-<size>`, whose class list is those three classes. */
  function ClassName(v: Variant, z: Size): (c: string)
    ensures Words(c) == ["btn", "btn-" + v.Name(), "btn-" + z.Name()]
  {
    PrefixedNamesSpaceFree(v, z);
    assert SpaceFree("btn");
    ClassNameShape(v.Name(), z.Name());
    WordsOfThree("btn", "btn-" + v.Name(), "btn-" + z.Name());
    "btn btn-" + v.Name() + " btn-" + z.Name()
  }

  /**
   * The component: a left-out variant is primary, a left-out size medium, a
   * left-out `disabled` false; the label is both the accessible name and the text.
   */
  function Render<H>(p: ButtonProps<H>): (b: Rendered<H>)
    ensures b.className == ClassName(p.variant.GetOr(Primary), p.size.GetOr(Medium))
    ensures p.variant.None? && p.size.None? ==> b.className == "btn btn-primary btn-medium"
    ensures p.disabled.None? ==> !b.disabled
    ensures p.disabled.Some? ==> b.disabled == p.disabled.value
    ensures b.ariaLabel == p.buttonLabel && b.text == p.buttonLabel
    ensures b.onClick == p.onClick
  {
    Rendered(
      ClassName(p.variant.GetOr(Primary), p.size.GetOr(Medium)),
      p.onClick,
      p.disabled.GetOr(false),
      p.buttonLabel,
      p.buttonLabel)
  }

  /** What a click on the rendered element fires: the handler, unless the element is disabled. */
  function Click<H>(b: Rendered<H>): (fired: Option<H>)
    ensures b.disabled ==> fired.None?
    ensures !b.disabled ==> fired == b.onClick
  {
    if b.disabled then None else b.onClick
  }

  /** A button rendered disabled never fires its handler. */
  lemma DisabledNeverFires<H>(p: ButtonProps<H>)
    requires p.disabled == Some(true)
    ensures Click(Render(p)).None?
  {
  }

  // ---------------------------------------------------------------------
  // The class string read back as a class list
  // ---------------------------------------------------------------------

  predicate SpaceFree(w: string) {
    forall i :: 0 <= i < |w| ==> w[i] != ' '
  }

  /** The longest space-free prefix of `s`. */
  function FirstWord(s: string): (w: string)
    ensures |w| <= |s| && w == s[..|w|]
    ensures SpaceFree(w)
    ensures |w| < |s| ==> s[|w|] == ' '
  {
    if s == [] || s[0] == ' ' then [] else [s[0]] + FirstWord(s[1..])
  }

  /** The class list of a class string: its space-separated, non-empty tokens, in order. */
  function Words(s: string): (ws: seq<string>)
    decreases |s|
  {
    if s == [] then []
    else if s[0] == ' ' then Words(s[1..])
    else
      var w := FirstWord(s);
      [w] + Words(s[|w|..])
  }

  lemma {:induction false} FirstWordOf(w: string, rest: string)
    requires SpaceFree(w)
    requires rest == [] || rest[0] == ' '
    ensures FirstWord(w + rest) == w
    decreases |w|
  {
    if w != [] {
      assert (w + rest)[1..] == w[1..] + rest;
      FirstWordOf(w[1..], rest);
    }
  }

  /** A non-empty space-free word followed by nothing or a space is the first token. */
  lemma WordsCons(w: string, rest: string)
    requires w != [] && SpaceFree(w)
    requires rest == [] || rest[0] == ' '
    ensures Words(w + rest) == [w] + Words(rest)
  {
    FirstWordOf(w, rest);
    assert (w + rest)[|w|..] == rest;
  }

  /** A leading space separates tokens and is not one. */
  lemma WordsSpace(x: string)
    ensures Words(" " + x) == Words(x)
  {
  }

  /** Three tokens joined by single spaces read back as those three tokens. */
  lemma WordsOfThree(x: string, y: string, w: string)
    requires x != [] && y != [] && w != []
    requires SpaceFree(x) && SpaceFree(y) && SpaceFree(w)
    ensures Words(x + (" " + (y + (" " + w)))) == [x, y, w]
  {
    var tail := " " + w;
    var mid := " " + (y + tail);
    calc {
      Words(x + mid);
    == { WordsCons(x, mid); }
      [x] + Words(mid);
    == { WordsSpace(y + tail); }
      [x] + Words(y + tail);
    == { WordsCons(y, tail); }
      [x] + ([y] + Words(tail));
    == { WordsSpace(w); }
      [x] + ([y] + Words(w));
    == { WordsCons(w, []); assert w + [] == w; }
      [x] + ([y] + ([w] + Words([])));
    }
  }

  lemma ClassNameShape(p: string, q: string)
    ensures "btn btn-" + p + " btn-" + q == "btn" + (" " + (("btn-" + p) + (" " + ("btn-" + q))))
  {
  }

  lemma PrefixedNamesSpaceFree(v: Variant, z: Size)
    ensures SpaceFree("btn-" + v.Name()) && SpaceFree("btn-" + z.Name())
  {
  }

  /** Different props give different class strings: the class string determines variant and size. */
  lemma ClassNameInjective(v1: Variant, z1: Size, v2: Variant, z2: Size)
    requires ClassName(v1, z1) == ClassName(v2, z2)
    ensures v1 == v2 && z1 == z2
  {
    var t1, t2 := "btn-" + v1.Name(), "btn-" + v2.Name();
    assert t1 == t2;
    assert v1.Name() == t1[4..] && v2.Name() == t2[4..];
    NamesParse(v1, z1);
    NamesParse(v2, z2);
    var u1, u2 := "btn-" + z1.Name(), "btn-" + z2.Name();
    assert u1 == u2;
    assert z1.Name() == u1[4..] && z2.Name() == u2[4..];
  }
}
