/**
 * The input page: text cells overwritten by the inputs' change handlers, a
 * three-field form, and a length-limited input that shares its cell with the
 * basic input. Truncation, the length indicator and the empty display are
 * functions of the stored text.
 *
 * A JavaScript string is a sequence of UTF-16 code units, and `.length` and
 * `.slice` count code units, not characters: a character outside the Basic
 * Multilingual Plane takes two. The page's text is modelled the same way.
 */
module InputPage {
  import Decimal

  /** One UTF-16 code unit. */
  newtype CodeUnit = x: int | 0 <= x < 0x1_0000

  /** A JavaScript string: a sequence of code units. */
  type Text = seq<CodeUnit>

  /** The UTF-16 encoding of one character: one code unit, or a surrogate pair above U+FFFF. */
  function EncodeChar(c: char): (r: Text)
    ensures 1 <= |r| <= 2
    ensures |r| == 1 <==> c as int < 0x1_0000
    ensures |r| == 1 ==> r[0] as int == c as int
    ensures |r| == 2 ==> IsHighSurrogate(r[0]) && !IsHighSurrogate(r[1])
  {
    if c as int < 0x1_0000 then [c as int as CodeUnit]
    else
      var v := c as int - 0x1_0000;
      [(0xD800 + v / 0x400) as CodeUnit, (0xDC00 + v % 0x400) as CodeUnit]
  }

  /** The first half of a surrogate pair. */
  predicate IsHighSurrogate(u: CodeUnit) {
    0xD800 <= u < 0xDC00
  }

  /** Characters outside the Basic Multilingual Plane, which take two code units each. */
  function Astral(s: string): (k: nat)
    ensures k <= |s|
  {
    if s == [] then 0 else (if s[0] as int >= 0x1_0000 then 1 else 0) + Astral(s[1..])
  }

  /** The text a JavaScript string holds for the characters `s`. */
  function Utf16(s: string): (r: Text)
    ensures |r| == |s| + Astral(s)
  {
    if s == [] then [] else EncodeChar(s[0]) + Utf16(s[1..])
  }

  /** Encoding a concatenation is concatenating the encodings. */
  lemma {:induction false} Utf16Append(a: string, b: string)
    ensures Utf16(a + b) == Utf16(a) + Utf16(b)
  {
    if a == [] {
      assert a + b == b;
    } else {
      assert (a + b)[1..] == a[1..] + b;
      Utf16Append(a[1..], b);
    }
  }

  /** The most code units the limited input keeps. */
  const MaxLength: nat := 10

  /** `s.slice(0, n)`: the first `n` code units, or all of `s` when it is shorter. */
  function Truncate(s: Text, n: nat): (r: Text)
    ensures |r| == (if |s| < n then |s| else n)
    ensures r == s[..|r|]
  {
    if |s| <= n then s else s[..n]
  }

  /** Truncating twice is truncating once; text within the limit is left alone. */
  lemma TruncateIdempotent(s: Text, n: nat)
    ensures Truncate(Truncate(s, n), n) == Truncate(s, n)
    ensures Truncate(s, n) == s <==> |s| <= n
  {
  }

  /** What the limited input shows: the first ten code units of the shared text. */
  function LimitedDisplay(basicValue: Text): (r: Text)
    ensures |r| == (if |basicValue| < MaxLength then |basicValue| else MaxLength)
    ensures r == basicValue[..|r|]
  {
    Truncate(basicValue, MaxLength)
  }

  /** The length indicator turns red at ten code units or more, that is, exactly when the limited input is full. */
  function IndicatorRed(basicValue: Text): (red: bool)
    ensures red <==> |LimitedDisplay(basicValue)| == MaxLength
  {
    |basicValue| >= MaxLength
  }

  const IndicatorSuffix: string := " / 10 字符"

  /**
   * The indicator's text: the length in code units, then the suffix. It is
   * rendered output that no handler stores or slices, so it is kept as
   * characters rather than as `Text`.
   */
  function IndicatorText(basicValue: Text): (r: string)
    ensures |r| > |IndicatorSuffix| && r[|r| - |IndicatorSuffix|..] == IndicatorSuffix
  {
    Decimal.NatToDecimal(|basicValue|) + IndicatorSuffix
  }

  /** The indicator's number reads back as the length of the stored text. */
  lemma IndicatorCountsLength(basicValue: Text)
    ensures var r := IndicatorText(basicValue);
            var digits := r[..|r| - |IndicatorSuffix|];
            (forall i :: 0 <= i < |digits| ==> Decimal.IsDigit(digits[i])) &&
            (|digits| > 1 ==> digits[0] != '0') &&
            Decimal.DecimalValue(digits) == |basicValue|
  {
    var r := IndicatorText(basicValue);
    assert r[..|r| - |IndicatorSuffix|] == Decimal.NatToDecimal(|basicValue|);
    Decimal.DecimalRoundTrip(|basicValue|);
  }

  /** The placeholder shown for an empty cell. */
  const EmptyDisplay: Text := Utf16("(空)")

  /** `basicValue || '(空)'`: the text itself, or the placeholder when it is empty. */
  function BasicDisplay(basicValue: Text): (r: Text)
    ensures r != []
    ensures r == basicValue <==> basicValue != []
    ensures basicValue == [] ==> r == EmptyDisplay
  {
    if basicValue == [] then EmptyDisplay else basicValue
  }

  /**
   * After text typed into the limited input is stored, the indicator is red
   * exactly when the typed text had ten code units or more.
   */
  lemma LimitedChangeIndicator(typed: Text)
    ensures IndicatorRed(Truncate(typed, MaxLength)) <==> |typed| >= MaxLength
    ensures |Truncate(typed, MaxLength)| <= MaxLength
  {
  }

  /**
   * Six emoji typed into the limited input: each is two code units, so five
   * are kept and the indicator reads ten, in red.
   */
  lemma SixEmoji()
    ensures var typed := Utf16("\U{1F600}\U{1F600}\U{1F600}\U{1F600}\U{1F600}\U{1F600}");
            var stored := Truncate(typed, MaxLength);
            |typed| == 12 &&
            stored == Utf16("\U{1F600}\U{1F600}\U{1F600}\U{1F600}\U{1F600}") &&
            |stored| == 10 && IndicatorRed(stored)
  {
    var five := "\U{1F600}\U{1F600}\U{1F600}\U{1F600}\U{1F600}";
    Utf16Append(five, "\U{1F600}");
    assert five + "\U{1F600}" == "\U{1F600}\U{1F600}\U{1F600}\U{1F600}\U{1F600}\U{1F600}";
  }

  /**
   * A letter and five emoji are eleven code units; keeping ten cuts the last
   * emoji in half and stores its high surrogate alone.
   */
  lemma SliceSplitsPair()
    ensures var typed := Utf16("a\U{1F600}\U{1F600}\U{1F600}\U{1F600}\U{1F600}");
            var stored := Truncate(typed, MaxLength);
            |typed| == 11 && |stored| == 10 && IsHighSurrogate(stored[9])
  {
    var four := "a\U{1F600}\U{1F600}\U{1F600}\U{1F600}";
    Utf16Append(four, "\U{1F600}");
    assert four + "\U{1F600}" == "a\U{1F600}\U{1F600}\U{1F600}\U{1F600}\U{1F600}";
  }

  /** The form's three fields. */
  datatype FormData = FormData(username: Text, email: Text, message: Text)

  class InputPageState {
    var basicValue: Text
    var emailValue: Text
    var searchValue: Text
    var passwordValue: Text
    var formData: FormData

    /** Every cell starts empty. */
    constructor ()
      ensures basicValue == [] && emailValue == [] && searchValue == [] && passwordValue == []
      ensures formData == FormData([], [], [])
    {
      basicValue, emailValue, searchValue, passwordValue := [], [], [], [];
      formData := FormData([], [], []);
    }

    /** The basic input stores what was typed, untruncated. */
    method OnBasicChange(typed: Text)
      modifies this`basicValue
      ensures basicValue == typed
    {
      basicValue := typed;
    }

    /** The limited input stores the first ten code units of what was typed. */
    method OnLimitedChange(typed: Text)
      modifies this`basicValue
      ensures basicValue == Truncate(typed, MaxLength)
      ensures |basicValue| <= MaxLength
    {
      basicValue := Truncate(typed, MaxLength);
    }

    method OnEmailChange(typed: Text)
      modifies this`emailValue
      ensures emailValue == typed
    {
      emailValue := typed;
    }

    method OnSearchChange(typed: Text)
      modifies this`searchValue
      ensures searchValue == typed
    {
      searchValue := typed;
    }

    method OnPasswordChange(typed: Text)
      modifies this`passwordValue
      ensures passwordValue == typed
    {
      passwordValue := typed;
    }

    /** The form's username input replaces the username and keeps the other two fields. */
    method OnUsernameChange(typed: Text)
      modifies this`formData
      ensures formData.username == typed
      ensures formData.email == old(formData.email) && formData.message == old(formData.message)
    {
      formData := formData.(username := typed);
    }

    /** The form's email input replaces the email and keeps the other two fields. */
    method OnFormEmailChange(typed: Text)
      modifies this`formData
      ensures formData.email == typed
      ensures formData.username == old(formData.username) && formData.message == old(formData.message)
    {
      formData := formData.(email := typed);
    }

    /** The form's message input replaces the message and keeps the other two fields. */
    method OnMessageChange(typed: Text)
      modifies this`formData
      ensures formData.message == typed
      ensures formData.username == old(formData.username) && formData.email == old(formData.email)
    {
      formData := formData.(message := typed);
    }
  }

  /**
   * The basic and the limited input share one cell: twelve ASCII characters typed
   * into the basic input are stored whole, the limited input shows ten of
   * them, and the indicator is red; typing the same text into the limited
   * input stores only ten.
   */
  method SharedCell() returns (storedByBasic: nat, shown: nat, red: bool, storedByLimited: nat)
    ensures storedByBasic == 12 && shown == 10 && red
    ensures storedByLimited == 10
  {
    var page := new InputPageState();
    var typed := Utf16("abcdefghijkl");
    page.OnBasicChange(typed);
    storedByBasic := |page.basicValue|;
    shown := |LimitedDisplay(page.basicValue)|;
    red := IndicatorRed(page.basicValue);
    page.OnLimitedChange(typed);
    storedByLimited := |page.basicValue|;
  }
}
