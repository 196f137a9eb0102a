/**
 * Display content of an HTML in-app message: a URL and the colour of the
 * dismiss button, built through a builder and mapped to and from JSON.
 */
module HtmlDisplay {
  import opened Wrappers
  import opened Json
  import opened JavaInt

  const URL_KEY: string := "url"
  const DISMISS_BUTTON_COLOR_KEY: string := "dismiss_button_color"

  /** `Color.BLACK`, the ARGB value 0xFF000000 read as a Java `int`. */
  const BLACK: Int32 := -0x0100_0000

  /** A built display content: the URL is never null. */
  datatype HtmlDisplayContent = HtmlDisplayContent(url: string, dismissButtonColor: Int32)

  /**
   * The outcome of `Color.parseColor`: a colour, an `IllegalArgumentException`
   * (an unknown colour), or any other exception it throws (such as the
   * `StringIndexOutOfBoundsException` that reading the first character of an
   * empty string raises).
   */
  datatype ColorParse = Parsed(color: Int32) | IllegalArgument | OtherThrow

  /**
   * The platform's colour codec: `parse` is `Color.parseColor`, `render` is
   * `ColorUtils.convertToString`.
   */
  datatype ColorCodec = ColorCodec(parse: string -> ColorParse, render: Int32 -> string)

  /** The one thing assumed of the codec: parsing a printed colour gives that colour back. */
  ghost predicate Inverse(colors: ColorCodec)
  {
    forall c: Int32 :: colors.parse(colors.render(c)) == Parsed(c)
  }

  /** The error `build()` throws. */
  datatype BuildError = MissingUrl

  /**
   * What `parseJson` throws: the two `JsonException`s it raises itself, or the
   * exception of `Color.parseColor` that its `IllegalArgumentException` handler
   * does not catch, which propagates unchanged.
   */
  datatype JsonError =
    | InvalidDismissButtonColor(value: JsonValue)
    | InvalidHtmlJson(content: map<string, JsonValue>)
    | UncaughtColorError(value: JsonValue)

  /** `HtmlDisplayContent.Builder`: two mutable fields, the URL still nullable. */
  class Builder {
    var url: Option<string>
    var dismissButtonColor: Int32

    /** `newBuilder()`: no URL yet, the colour defaults to black. */
    constructor ()
      ensures url.None? && dismissButtonColor == BLACK
    {
      url := None;
      dismissButtonColor := BLACK;
    }

    /** `setUrl(url)`: overwrites the URL only and returns the builder itself. */
    method SetUrl(url: Option<string>) returns (b: Builder)
      modifies this
      ensures b == this
      ensures this.url == url && dismissButtonColor == old(dismissButtonColor)
    {
      this.url := url;
      b := this;
    }

    /** `setDismissButtonColor(color)`: overwrites the colour only and returns the builder itself. */
    method SetDismissButtonColor(color: Int32) returns (b: Builder)
      modifies this
      ensures b == this
      ensures dismissButtonColor == color && url == old(url)
    {
      dismissButtonColor := color;
      b := this;
    }

    /** `build()`: fails exactly when no URL was set, and otherwise carries both fields over. */
    method Build() returns (r: Result<HtmlDisplayContent, BuildError>)
      ensures r.Failure? <==> url.None?
      ensures r.Success? ==> Some(r.value.url) == url && r.value.dismissButtonColor == dismissButtonColor
    {
      if url.None? {
        return Failure(MissingUrl);
      }
      r := Success(HtmlDisplayContent(url.value, dismissButtonColor));
    }
  }

  /**
   * What `parseJson` yields for `json`: a present colour key must parse, and a
   * string URL must be present; an absent colour key leaves black.
   */
  function Parse(json: JsonValue, colors: ColorCodec): (r: Result<HtmlDisplayContent, JsonError>)
    ensures var content := json.OptMap();
      var hasColor := DISMISS_BUTTON_COLOR_KEY in content;
      var badColor := hasColor && colors.parse(content[DISMISS_BUTTON_COLOR_KEY].GetString("")).IllegalArgument?;
      var crash := hasColor && colors.parse(content[DISMISS_BUTTON_COLOR_KEY].GetString("")).OtherThrow?;
      && (r.Failure? && r.error.InvalidDismissButtonColor? <==> badColor)
      && (badColor ==> r == Failure(InvalidDismissButtonColor(content[DISMISS_BUTTON_COLOR_KEY])))
      && (r.Failure? && r.error.UncaughtColorError? <==> crash)
      && (crash ==> r == Failure(UncaughtColorError(content[DISMISS_BUTTON_COLOR_KEY])))
      && (r.Success? <==> !badColor && !crash && URL_KEY in content && content[URL_KEY].JString?)
      && (r.Failure? && !badColor && !crash ==> r == Failure(InvalidHtmlJson(content)))
    ensures var content := json.OptMap();
      r.Success? ==>
        && content[URL_KEY] == JString(r.value.url)
        && (DISMISS_BUTTON_COLOR_KEY !in content ==> r.value.dismissButtonColor == BLACK)
        && (DISMISS_BUTTON_COLOR_KEY in content ==>
              colors.parse(content[DISMISS_BUTTON_COLOR_KEY].GetString("")) == Parsed(r.value.dismissButtonColor))
  {
    var content := json.OptMap();
    var parsedColor :=
      if DISMISS_BUTTON_COLOR_KEY in content
      then colors.parse(content[DISMISS_BUTTON_COLOR_KEY].GetString(""))
      else Parsed(BLACK);
    if parsedColor.IllegalArgument? then
      Failure(InvalidDismissButtonColor(content[DISMISS_BUTTON_COLOR_KEY]))
    else if parsedColor.OtherThrow? then
      Failure(UncaughtColorError(content[DISMISS_BUTTON_COLOR_KEY]))
    else
      var url := if URL_KEY in content then content[URL_KEY].OptString() else None;
      if url.None? then Failure(InvalidHtmlJson(content))
      else Success(HtmlDisplayContent(url.value, parsedColor.color))
  }

  /** `parseJson(json)`: fills a fresh builder key by key and builds it. */
  method ParseJson(json: JsonValue, colors: ColorCodec) returns (r: Result<HtmlDisplayContent, JsonError>)
    ensures r == Parse(json, colors)
  {
    var content := json.OptMap();
    var builder := new Builder();
    if DISMISS_BUTTON_COLOR_KEY in content {
      var color := colors.parse(content[DISMISS_BUTTON_COLOR_KEY].GetString(""));
      match color {
        case IllegalArgument =>
          return Failure(InvalidDismissButtonColor(content[DISMISS_BUTTON_COLOR_KEY]));
        case OtherThrow =>
          return Failure(UncaughtColorError(content[DISMISS_BUTTON_COLOR_KEY]));
        case Parsed(c) =>
          builder := builder.SetDismissButtonColor(c);
      }
    }
    if URL_KEY in content {
      builder := builder.SetUrl(content[URL_KEY].OptString());
    }
    var built := builder.Build();
    match built {
      case Success(content') => r := Success(content');
      case Failure(_) => r := Failure(InvalidHtmlJson(content));
    }
  }

  /** `toJsonValue()`: an object with exactly the two keys, the colour printed as a string. */
  function ToJsonValue(x: HtmlDisplayContent, colors: ColorCodec): (r: JsonValue)
    ensures r.JMap? && r.fields.Keys == {DISMISS_BUTTON_COLOR_KEY, URL_KEY}
    ensures r.fields[URL_KEY] == JString(x.url)
    ensures r.fields[DISMISS_BUTTON_COLOR_KEY] == JString(colors.render(x.dismissButtonColor))
  {
    JMap(map[DISMISS_BUTTON_COLOR_KEY := JString(colors.render(x.dismissButtonColor)), URL_KEY := JString(x.url)])
  }

  /** Serialising and parsing back gives the same content, given that colour parsing inverts printing. */
  lemma RoundTrip(x: HtmlDisplayContent, colors: ColorCodec)
    requires Inverse(colors)
    ensures Parse(ToJsonValue(x, colors), colors) == Success(x)
  {
  }

  /**
   * A colour value that is not a string is read as "": where `Color.parseColor`
   * throws something other than an `IllegalArgumentException` on "", that
   * exception escapes `parseJson` instead of becoming a `JsonException`.
   */
  lemma NonStringColorEscapes(colors: ColorCodec, n: int)
    requires colors.parse("") == OtherThrow
    ensures Parse(JMap(map[DISMISS_BUTTON_COLOR_KEY := JNumber(n), URL_KEY := JString("u")]), colors)
      == Failure(UncaughtColorError(JNumber(n)))
  {
  }

  /**
   * `equals(o)`: `o` is None for null or an object of another class; otherwise
   * the colours and the URLs are compared.
   */
  function Equals(x: HtmlDisplayContent, o: Option<HtmlDisplayContent>): (r: bool)
    ensures r <==> o == Some(x)
  {
    if o.None? then false
    else if x.dismissButtonColor != o.value.dismissButtonColor then false
    else x.url == o.value.url
  }

  /** `hashCode()`: `31 * url.hashCode() + dismissButtonColor` in 32-bit arithmetic. */
  function HashCode(x: HtmlDisplayContent): (r: Int32)
    ensures (r - (31 * StringHash(x.url) + x.dismissButtonColor)) % TWO_32 == 0
  {
    Wrap32(31 * StringHash(x.url) + x.dismissButtonColor)
  }

  /** Equal contents have equal hash codes. */
  lemma EqualsAgreesWithHashCode(x: HtmlDisplayContent, y: HtmlDisplayContent)
    requires Equals(x, Some(y))
    ensures HashCode(x) == HashCode(y)
  {
  }

  /** `equals` is an equivalence on display contents. */
  lemma EqualsIsEquivalence(x: HtmlDisplayContent, y: HtmlDisplayContent, z: HtmlDisplayContent)
    ensures Equals(x, Some(x))
    ensures Equals(x, Some(y)) <==> Equals(y, Some(x))
    ensures Equals(x, Some(y)) && Equals(y, Some(z)) ==> Equals(x, Some(z))
  {
  }
}
