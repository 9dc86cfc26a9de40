/**
 * includes/ScoreFormatter.php: the Wikibase value formatter for the musical
 * notation data type. It keeps the output format it was built for and turns a
 * string value into plain text, wikitext, or (through the renderer) HTML.
 */
module Formatter {
  import opened Wrappers
  import opened Text

  /** Wikibase's SnakFormatter format names the switch tells apart. */
  const FormatPlain := "text/plain"
  const FormatWiki := "text/x-wiki"
  const FormatHtmlDiff := "text/html; disposition=diff"

  const InvalidValueMessage := "$value must be a StringValue"

  /** The argument of `format`: a DataValues StringValue, or any other value. */
  datatype Value = StringValue(s: string) | OtherValue

  /**
   * What `format` returns. The HTML path renders the value with the
   * configured line width and, for diffs, wraps it in a details block; the
   * HTML itself is not modelled, only what it is made from.
   */
  datatype Output =
    | Text(text: string)
    | Html(source: string, withDetails: bool)

  const WikiOpen := "<score>"
  const WikiClose := "</score>"

  datatype ScoreFormatter = ScoreFormatter(format: string) {

    /** `format( $value )`; Failure stands for the InvalidArgumentException. */
    function Format(value: Value): (r: Result<Output, string>)
      ensures r.Failure? <==> !value.StringValue?
      ensures r.Failure? ==> r.error == InvalidValueMessage
      ensures r.Success? && format == FormatPlain ==> r.value == Text(value.s)
      ensures r.Success? && format != FormatPlain && format != FormatWiki ==>
        r.value.Html? && r.value.source == value.s
      ensures r.Success? && r.value.Html? ==> (r.value.withDetails <==> format == FormatHtmlDiff)
    {
      if !value.StringValue? then Failure(InvalidValueMessage)
      else if format == FormatPlain then Success(Text(value.s))
      else if format == FormatWiki then Success(Text(WikiOpen + value.s + WikiClose))
      else Success(Html(value.s, format == FormatHtmlDiff))
    }

    function GetFormat(): string {
      format
    }
  }

  /** The code inside a `<score>...</score>` element, if the text is one. */
  function WikiContent(text: string): (r: Option<string>)
    ensures r.Some? ==> |text| == |r.value| + |WikiOpen| + |WikiClose|
  {
    if |text| >= |WikiOpen| + |WikiClose| && text[..|WikiOpen|] == WikiOpen
      && text[|text| - |WikiClose|..] == WikiClose
    then Some(text[|WikiOpen|..|text| - |WikiClose|])
    else None
  }

  /** The wikitext form is the value inside one `<score>` tag: unwrapping gives the value back. */
  lemma WikiRoundTrip(s: string)
    ensures ScoreFormatter(FormatWiki).Format(StringValue(s)).Success?
    ensures var t := ScoreFormatter(FormatWiki).Format(StringValue(s)).value.text;
      StartsWith(t, WikiOpen) && WikiContent(t) == Some(s)
  {
    var t := WikiOpen + s + WikiClose;
    assert t[..|WikiOpen|] == WikiOpen;
    assert t[|t| - |WikiClose|..] == WikiClose;
    assert t[|WikiOpen|..|t| - |WikiClose|] == s;
  }

  /** The formatter reports the format it was built with, and it decides the output kind. */
  lemma FormatDecidesKind(f: string, s: string)
    ensures ScoreFormatter(f).GetFormat() == f
    ensures ScoreFormatter(f).Format(StringValue(s)).value.Text? <==> f == FormatPlain || f == FormatWiki
  {
  }
}
