/**
 The two printers of an alarm and the escaper between them (internal/alarmnotifier/alarm.go), and what a
 reader of the HTML sees: tags stripped, then entities decoded.
 */
module AlarmText {
  datatype Alarm = Alarm(
    alarmName: string, alarmDescription: string, awsAccountId: string, newStateValue: string,
    newStateReason: string, stateChangeTime: string, region: string, oldStateValue: string)

  // --- Escaping ---

  function EscapeChar(c: char): string {
    match c
    case '&' => "&amp;"
    case '<' => "&lt;"
    case '>' => "&gt;"
    case _ => [c]
  }

  /** strings.NewReplacer with three one-byte patterns: a single pass over the input. */
  function EscapeHTML(value: string): string {
    if value == [] then [] else EscapeChar(value[0]) + EscapeHTML(value[1..])
  }

  // --- What a reader sees ---

  const OPEN := "<b>"
  const CLOSE := "</b>"

  function StripTags(html: string): string
    decreases |html|
  {
    if html == [] then []
    else if html[0] == '<' && OPEN <= html then StripTags(html[3..])
    else if html[0] == '<' && CLOSE <= html then StripTags(html[4..])
    else [html[0]] + StripTags(html[1..])
  }

  /** A single left-to-right pass; an `&` that starts no known entity stands for itself. */
  function DecodeEntities(text: string): string
    decreases |text|
  {
    if text == [] then []
    else if text[0] != '&' then [text[0]] + DecodeEntities(text[1..])
    else if "&amp;" <= text then "&" + DecodeEntities(text[5..])
    else if "&lt;" <= text then "<" + DecodeEntities(text[4..])
    else if "&gt;" <= text then ">" + DecodeEntities(text[4..])
    else "&" + DecodeEntities(text[1..])
  }

  function Display(html: string): string {
    DecodeEntities(StripTags(html))
  }

  // --- Laws of the escaper ---

  /** Decoding undoes escaping, whatever follows. */
  lemma {:induction false} DecodeEscaped(value: string, rest: string)
    ensures DecodeEntities(EscapeHTML(value) + rest) == value + DecodeEntities(rest)
  {
    hide DecodeEntities, EscapeChar;
    if value == [] {
      assert EscapeHTML(value) + rest == rest;
    } else {
      var c, tail := value[0], EscapeHTML(value[1..]) + rest;
      calc {
        DecodeEntities(EscapeHTML(value) + rest);
        { assert EscapeHTML(value) + rest == EscapeChar(c) + tail; }
        DecodeEntities(EscapeChar(c) + tail);
        { DecodeEscapedChar(c, tail); }
        [c] + DecodeEntities(tail);
        { DecodeEscaped(value[1..], rest); }
        [c] + (value[1..] + DecodeEntities(rest));
        { assert value == [c] + value[1..]; }
        value + DecodeEntities(rest);
      }
    }
  }

  lemma DecodeEscapedChar(c: char, rest: string)
    ensures DecodeEntities(EscapeChar(c) + rest) == [c] + DecodeEntities(rest)
  {
    var text := EscapeChar(c) + rest;
    match c
    case '&' => assert text[5..] == rest;
    case '<' => assert text[1] == 'l' && text[4..] == rest;
    case '>' => assert text[1] == 'g' && text[4..] == rest;
    case _ => assert text[0] == c && text[1..] == rest;
  }

  /** An entity starts at position `i`. */
  predicate EntityAt(text: string, i: nat)
    requires i <= |text|
  {
    "&amp;" <= text[i..] || "&lt;" <= text[i..] || "&gt;" <= text[i..]
  }

  lemma EscapeCharIsInert(c: char, rest: string)
    ensures '<' !in EscapeChar(c) && '>' !in EscapeChar(c)
    ensures |EscapeChar(c)| > 0 && '&' !in EscapeChar(c)[1..]
    ensures EscapeChar(c)[0] == '&' ==> EntityAt(EscapeChar(c) + rest, 0)
  {
    var text := EscapeChar(c) + rest;
    assert text[0..] == text;
  }

  /** Escaped text has no raw bracket, and every ampersand in it starts one of the three entities. */
  lemma {:induction false} EscapedIsInert(value: string)
    ensures var text := EscapeHTML(value);
      && '<' !in text && '>' !in text
      && forall i | 0 <= i < |text| && text[i] == '&' :: EntityAt(text, i)
  {
    hide EscapeChar;
    if value != [] {
      EscapedIsInert(value[1..]);
      var head, tail := EscapeChar(value[0]), EscapeHTML(value[1..]);
      var text := EscapeHTML(value);
      EscapeCharIsInert(value[0], tail);
      forall i | 0 <= i < |text| && text[i] == '&'
        ensures EntityAt(text, i)
      {
        if i >= |head| {
          assert text[i..] == tail[i - |head|..];
          assert EntityAt(tail, i - |head|);
        }
      }
    }
  }

  function Count(c: char, text: string): nat {
    if text == [] then 0 else (if text[0] == c then 1 else 0) + Count(c, text[1..])
  }

  lemma {:induction false} EscapedLength(value: string)
    ensures |EscapeHTML(value)| == |value| + 4 * Count('&', value) + 3 * Count('<', value) + 3 * Count('>', value)
  {
    if value != [] {
      EscapedLength(value[1..]);
    }
  }

  // --- What a reader sees of tags, labels and fields ---

  lemma SplitFirst(text: string, rest: string)
    requires text != []
    ensures [text[0]] + (text[1..] + rest) == text + rest
  {
  }

  /** Text without `<` passes the tag stripper. */
  lemma {:induction false} StripInert(text: string, rest: string)
    requires '<' !in text
    ensures StripTags(text + rest) == text + StripTags(rest)
  {
    if text == [] {
      assert text + rest == rest;
    } else {
      var all := text + rest;
      StripInert(text[1..], rest);
      assert all[0] == text[0] != '<' && all[1..] == text[1..] + rest;
      assert StripTags(all) == [text[0]] + StripTags(text[1..] + rest);
      SplitFirst(text, StripTags(rest));
    }
  }

  lemma StripTag(tag: string, rest: string)
    requires tag == OPEN || tag == CLOSE
    ensures StripTags(tag + rest) == StripTags(rest)
  {
    var html := tag + rest;
    assert html[0] == '<' && html[|tag|..] == rest;
    if tag == OPEN {
      assert OPEN <= html;
    } else {
      assert html[1] == '/' && CLOSE <= html;
    }
  }

  /** Fixed text has none of the special characters and so is its own escape. */
  predicate IsLabel(text: string) {
    '&' !in text && '<' !in text && '>' !in text
  }

  lemma {:induction false} EscapeLabel(text: string)
    requires IsLabel(text)
    ensures EscapeHTML(text) == text
  {
    if text != [] {
      EscapeLabel(text[1..]);
      assert text == [text[0]] + text[1..];
    }
  }

  lemma DisplayLabel(text: string, rest: string)
    requires IsLabel(text)
    ensures Display(text + rest) == text + Display(rest)
  {
    StripInert(text, rest);
    EscapeLabel(text);
    DecodeEscaped(text, StripTags(rest));
  }

  lemma DisplayField(text: string, rest: string)
    ensures Display(EscapeHTML(text) + rest) == text + Display(rest)
  {
    EscapedIsInert(text);
    StripInert(EscapeHTML(text), rest);
    DecodeEscaped(text, StripTags(rest));
  }

  /** Wherever `html` stands, a reader `see` sees `plain` for it. */
  ghost predicate Shows(see: string -> string, html: string, plain: string) {
    forall rest: string :: see(html + rest) == plain + see(rest)
  }

  lemma ShowsConcat(see: string -> string, h1: string, p1: string, h2: string, p2: string)
    requires Shows(see, h1, p1) && Shows(see, h2, p2)
    ensures Shows(see, h1 + h2, p1 + p2)
  {
    forall rest: string
      ensures see(h1 + h2 + rest) == p1 + p2 + see(rest)
    {
      assert h1 + h2 + rest == h1 + (h2 + rest);
      assert p1 + p2 + see(rest) == p1 + (p2 + see(rest));
    }
  }

  /** The reader ignores tags, decodes fields and copies everything else. */
  ghost predicate IsReader(see: string -> string) {
    && Shows(see, OPEN, "") && Shows(see, CLOSE, "")
    && (forall text: string | IsLabel(text) :: Shows(see, text, text))
    && (forall text: string :: Shows(see, EscapeHTML(text), text))
  }

  lemma DisplayIsReader()
    ensures IsReader(Display)
  {
    hide DecodeEntities, EscapeHTML;
    forall rest: string
      ensures Display(OPEN + rest) == "" + Display(rest) && Display(CLOSE + rest) == "" + Display(rest)
    {
      StripTag(OPEN, rest);
      StripTag(CLOSE, rest);
    }
    forall text, rest: string | IsLabel(text)
      ensures Display(text + rest) == text + Display(rest)
    {
      DisplayLabel(text, rest);
    }
    forall text, rest: string
      ensures Display(EscapeHTML(text) + rest) == text + Display(rest)
    {
      DisplayField(text, rest);
    }
  }

  // --- The record both printers print ---

  /** A tag, fixed text, or a field of the alarm. */
  datatype Piece = Open | Close | Label(text: string) | Field(text: string)

  function HtmlOf(piece: Piece): string {
    match piece
    case Open => OPEN
    case Close => CLOSE
    case Label(text) => text
    case Field(text) => EscapeHTML(text)
  }

  function PlainOf(piece: Piece): string {
    if piece.Label? || piece.Field? then piece.text else ""
  }

  function Html(pieces: seq<Piece>): string {
    if pieces == [] then "" else Html(pieces[..|pieces| - 1]) + HtmlOf(pieces[|pieces| - 1])
  }

  function Plain(pieces: seq<Piece>): string {
    if pieces == [] then "" else Plain(pieces[..|pieces| - 1]) + PlainOf(pieces[|pieces| - 1])
  }

  /** The heading `name`, in bold with its colon. */
  function WithHeading(pieces: seq<Piece>, name: string): seq<Piece> {
    pieces + [Open] + [Label(name)] + [Label(":")] + [Close] + [Label(" ")]
  }

  function WithLine(pieces: seq<Piece>, name: string, value: string): seq<Piece> {
    WithHeading(pieces + [Label("\n")], name) + [Field(value)]
  }

  /** A line that is left out when its field is empty. */
  function WithRow(pieces: seq<Piece>, name: string, value: string): seq<Piece> {
    if value == "" then pieces else WithLine(pieces, name, value)
  }

  /** The first line, bold as a whole. */
  function Title(name: string, value: string): seq<Piece> {
    [Open] + [Label(name)] + [Label(": ")] + [Field(value)] + [Close]
  }

  function Layout(alarm: Alarm, env: string): seq<Piece> {
    var p := Title("CloudWatch alarm", alarm.newStateValue);
    var p := WithLine(p, "Alarm", alarm.alarmName);
    var p := WithRow(p, "Env", env);
    var p := WithRow(p, "Region", alarm.region);
    var p := WithRow(p, "Previous", alarm.oldStateValue);
    var p := WithRow(p, "Time", alarm.stateChangeTime);
    var p := WithRow(p, "Description", alarm.alarmDescription);
    WithRow(p, "Reason", alarm.newStateReason)
  }

  // --- The HTML displays as the plain text ---

  /** Every piece is seen as its plain form. */
  ghost predicate AllShow(see: string -> string, pieces: seq<Piece>) {
    forall i | 0 <= i < |pieces| :: Shows(see, HtmlOf(pieces[i]), PlainOf(pieces[i]))
  }

  lemma {:induction false} PiecesShow(see: string -> string, pieces: seq<Piece>)
    requires AllShow(see, pieces)
    ensures Shows(see, Html(pieces), Plain(pieces))
  {
    if pieces == [] {
      forall rest: string
        ensures see("" + rest) == "" + see(rest)
      {
        assert "" + rest == rest;
      }
    } else {
      var prefix, last := pieces[..|pieces| - 1], pieces[|pieces| - 1];
      PiecesShow(see, prefix);
      ShowsConcat(see, Html(prefix), Plain(prefix), HtmlOf(last), PlainOf(last));
    }
  }

  lemma PieceShows(see: string -> string, piece: Piece)
    requires IsReader(see) && (piece.Label? ==> IsLabel(piece.text))
    ensures Shows(see, HtmlOf(piece), PlainOf(piece))
  {
  }

  lemma LineShows(see: string -> string, pieces: seq<Piece>, name: string, value: string)
    requires IsReader(see) && AllShow(see, pieces) && IsLabel(name)
    ensures AllShow(see, WithLine(pieces, name, value)) && AllShow(see, WithRow(pieces, name, value))
  {
    hide IsReader, Shows;
    PieceShows(see, Label("\n"));
    PieceShows(see, Open);
    PieceShows(see, Label(name));
    PieceShows(see, Label(":"));
    PieceShows(see, Close);
    PieceShows(see, Label(" "));
    PieceShows(see, Field(value));
  }

  lemma TitleShows(see: string -> string, name: string, value: string)
    requires IsReader(see) && IsLabel(name)
    ensures AllShow(see, Title(name, value))
  {
    hide IsReader, Shows;
    PieceShows(see, Open);
    PieceShows(see, Label(name));
    PieceShows(see, Label(": "));
    PieceShows(see, Field(value));
    PieceShows(see, Close);
  }

  lemma LayoutShows(see: string -> string, alarm: Alarm, env: string)
    requires IsReader(see)
    ensures AllShow(see, Layout(alarm, env))
  {
    hide IsReader, Title, WithLine, WithRow, AllShow;
    var p := Title("CloudWatch alarm", alarm.newStateValue);
    TitleShows(see, "CloudWatch alarm", alarm.newStateValue);
    LineShows(see, p, "Alarm", alarm.alarmName);
    p := WithLine(p, "Alarm", alarm.alarmName);
    LineShows(see, p, "Env", env);
    p := WithRow(p, "Env", env);
    LineShows(see, p, "Region", alarm.region);
    p := WithRow(p, "Region", alarm.region);
    LineShows(see, p, "Previous", alarm.oldStateValue);
    p := WithRow(p, "Previous", alarm.oldStateValue);
    LineShows(see, p, "Time", alarm.stateChangeTime);
    p := WithRow(p, "Time", alarm.stateChangeTime);
    LineShows(see, p, "Description", alarm.alarmDescription);
    p := WithRow(p, "Description", alarm.alarmDescription);
    LineShows(see, p, "Reason", alarm.newStateReason);
  }

  /**
   For every alarm and environment, whatever the fields contain, stripping the tags of the HTML form and
   decoding its entities gives exactly the plain form.
   */
  lemma HtmlShowsPlainText(alarm: Alarm, env: string)
    ensures Display(Html(Layout(alarm, env))) == Plain(Layout(alarm, env))
  {
    hide Layout, IsReader;
    DisplayIsReader();
    LayoutShows(Display, alarm, env);
    PiecesShow(Display, Layout(alarm, env));
    assert Html(Layout(alarm, env)) + "" == Html(Layout(alarm, env));
    assert Plain(Layout(alarm, env)) + Display("") == Plain(Layout(alarm, env));
  }

  // --- Reading the plain text line by line ---

  datatype Line = Line(heading: string, value: string)

  function FirstLine(text: string): (line: string)
    ensures line <= text && (|line| < |text| ==> text[|line|] == '\n')
  {
    if text == "" || text[0] == '\n' then "" else [text[0]] + FirstLine(text[1..])
  }

  /** A line cut at its first colon and space. */
  function ReadLine(line: string): Line {
    if line == "" then Line("", "")
    else if line[0] == ':' && |line| > 1 && line[1] == ' ' then Line("", line[2..])
    else var rest := ReadLine(line[1..]); Line([line[0]] + rest.heading, rest.value)
  }

  function ReadText(text: string): seq<Line>
    decreases |text|
  {
    var line := FirstLine(text);
    if |line| >= |text| then [ReadLine(line)] else [ReadLine(line)] + ReadText(text[|line| + 1..])
  }

  /** No field breaks its line. */
  predicate OneLineEach(alarm: Alarm, env: string) {
    && '\n' !in alarm.newStateValue && '\n' !in alarm.alarmName && '\n' !in env && '\n' !in alarm.region
    && '\n' !in alarm.oldStateValue && '\n' !in alarm.stateChangeTime && '\n' !in alarm.alarmDescription
    && '\n' !in alarm.newStateReason
  }

  /** A line for a field, unless the field is empty. */
  function Unless(value: string, heading: string): seq<Line> {
    if value == "" then [] else [Line(heading, value)]
  }

  lemma {:induction false} LastLine(line: string)
    requires '\n' !in line
    ensures FirstLine(line) == line && ReadText(line) == [ReadLine(line)]
  {
    if line != "" {
      LastLine(line[1..]);
      assert line == [line[0]] + line[1..];
    }
  }

  lemma {:induction false} NextLine(text: string, rest: string)
    ensures FirstLine(text + "\n" + rest) == FirstLine(text)
  {
    if text == "" {
      assert text + "\n" + rest == "\n" + rest;
    } else {
      NextLine(text[1..], rest);
      assert (text + "\n" + rest)[1..] == text[1..] + "\n" + rest;
    }
  }

  lemma {:induction false} ReadSnoc(text: string, line: string)
    requires '\n' !in line
    ensures ReadText(text + "\n" + line) == ReadText(text) + [ReadLine(line)]
    decreases |text|
  {
    var all, first := text + "\n" + line, FirstLine(text);
    NextLine(text, line);
    if |first| >= |text| {
      assert all[|first| + 1..] == line;
      LastLine(line);
    } else {
      assert all[|first| + 1..] == text[|first| + 1..] + "\n" + line;
      ReadSnoc(text[|first| + 1..], line);
    }
  }

  lemma {:induction false} ReadHeading(name: string, value: string)
    requires ':' !in name
    ensures ReadLine(name + ": " + value) == Line(name, value)
  {
    var line := name + ": " + value;
    if name == "" {
      assert line[0] == ':' && line[1] == ' ' && line[2..] == value;
    } else {
      assert line[1..] == name[1..] + ": " + value;
      ReadHeading(name[1..], value);
      assert name == [name[0]] + name[1..];
    }
  }

  // --- The printers, appending to a builder step by step ---

  lemma Snoc(pieces: seq<Piece>, piece: Piece)
    ensures Html(pieces + [piece]) == Html(pieces) + HtmlOf(piece)
    ensures Plain(pieces + [piece]) == Plain(pieces) + PlainOf(piece)
  {
  }

  lemma SinglePiece(piece: Piece)
    ensures Html([piece]) == HtmlOf(piece) && Plain([piece]) == PlainOf(piece)
  {
    assert [piece][..0] == [];
  }

  lemma TitleText(name: string, value: string)
    ensures Plain(Title(name, value)) == name + ": " + value
    ensures Html(Title(name, value)) == OPEN + name + ": " + EscapeHTML(value) + CLOSE
  {
    hide Html, Plain;
    SinglePiece(Open);
    Snoc([Open], Label(name));
    Snoc([Open] + [Label(name)], Label(": "));
    Snoc([Open] + [Label(name)] + [Label(": ")], Field(value));
    Snoc([Open] + [Label(name)] + [Label(": ")] + [Field(value)], Close);
  }

  lemma HeadingText(pieces: seq<Piece>, name: string)
    ensures Plain(WithHeading(pieces, name)) == Plain(pieces) + name + ":" + " "
    ensures Html(WithHeading(pieces, name)) == Html(pieces) + OPEN + name + ":" + CLOSE + " "
  {
    hide Html, Plain;
    Snoc(pieces, Open);
    Snoc(pieces + [Open], Label(name));
    Snoc(pieces + [Open] + [Label(name)], Label(":"));
    Snoc(pieces + [Open] + [Label(name)] + [Label(":")], Close);
    Snoc(pieces + [Open] + [Label(name)] + [Label(":")] + [Close], Label(" "));
  }

  lemma LineText(pieces: seq<Piece>, name: string, value: string)
    ensures Plain(WithLine(pieces, name, value)) == Plain(pieces) + "\n" + name + ":" + " " + value
    ensures Html(WithLine(pieces, name, value)) ==
      Html(pieces) + "\n" + OPEN + name + ":" + CLOSE + " " + EscapeHTML(value)
  {
    hide Html, Plain, WithHeading;
    Snoc(pieces, Label("\n"));
    HeadingText(pieces + [Label("\n")], name);
    Snoc(WithHeading(pieces + [Label("\n")], name), Field(value));
  }

  predicate IsHeading(name: string) {
    '\n' !in name && ':' !in name
  }

  lemma Headings()
    ensures IsHeading("CloudWatch alarm") && IsHeading("Alarm") && IsHeading("Env") && IsHeading("Region")
    ensures IsHeading("Previous") && IsHeading("Time") && IsHeading("Description") && IsHeading("Reason")
  {
  }

  lemma JoinLine(before: string, name: string, value: string)
    ensures before + "\n" + name + ":" + " " + value == before + "\n" + (name + ": " + value)
  {
  }

  lemma LineReads(pieces: seq<Piece>, name: string, value: string)
    requires IsHeading(name) && '\n' !in value
    ensures ReadText(Plain(WithLine(pieces, name, value))) == ReadText(Plain(pieces)) + [Line(name, value)]
  {
    hide Plain, ReadText, ReadLine, WithLine;
    LineText(pieces, name, value);
    JoinLine(Plain(pieces), name, value);
    ReadHeading(name, value);
    ReadSnoc(Plain(pieces), name + ": " + value);
  }

  lemma RowReads(pieces: seq<Piece>, name: string, value: string)
    requires IsHeading(name) && '\n' !in value
    ensures ReadText(Plain(WithRow(pieces, name, value))) == ReadText(Plain(pieces)) + Unless(value, name)
  {
    hide Plain, ReadText, WithLine;
    LineReads(pieces, name, value);
  }

  lemma TitleReads(name: string, value: string)
    requires IsHeading(name) && '\n' !in value
    ensures ReadText(Plain(Title(name, value))) == [Line(name, value)]
  {
    hide Plain, Title;
    TitleText(name, value);
    ReadHeading(name, value);
    LastLine(name + ": " + value);
  }

  lemma LayoutReads(alarm: Alarm, env: string)
    requires OneLineEach(alarm, env)
    ensures ReadText(Plain(Layout(alarm, env))) ==
      [Line("CloudWatch alarm", alarm.newStateValue)] + [Line("Alarm", alarm.alarmName)]
      + Unless(env, "Env") + Unless(alarm.region, "Region") + Unless(alarm.oldStateValue, "Previous")
      + Unless(alarm.stateChangeTime, "Time") + Unless(alarm.alarmDescription, "Description")
      + Unless(alarm.newStateReason, "Reason")
  {
    hide Plain, ReadText, WithRow, WithLine, Title, Unless, IsHeading;
    Headings();
    var p := Title("CloudWatch alarm", alarm.newStateValue);
    TitleReads("CloudWatch alarm", alarm.newStateValue);
    LineReads(p, "Alarm", alarm.alarmName);
    p := WithLine(p, "Alarm", alarm.alarmName);
    RowReads(p, "Env", env);
    p := WithRow(p, "Env", env);
    RowReads(p, "Region", alarm.region);
    p := WithRow(p, "Region", alarm.region);
    RowReads(p, "Previous", alarm.oldStateValue);
    p := WithRow(p, "Previous", alarm.oldStateValue);
    RowReads(p, "Time", alarm.stateChangeTime);
    p := WithRow(p, "Time", alarm.stateChangeTime);
    RowReads(p, "Description", alarm.alarmDescription);
    p := WithRow(p, "Description", alarm.alarmDescription);
    RowReads(p, "Reason", alarm.newStateReason);
  }

  // --- The HTML text, spelled out ---

  function BoldLine(heading: string, value: string): string {
    "\n" + "<b>" + heading + ":" + "</b>" + " " + EscapeHTML(value)
  }

  function BoldRow(heading: string, value: string): string {
    if value == "" then "" else BoldLine(heading, value)
  }

  lemma LineIsBold(pieces: seq<Piece>, name: string, value: string)
    ensures Html(WithLine(pieces, name, value)) == Html(pieces) + BoldLine(name, value)
  {
    hide Html, WithLine;
    LineText(pieces, name, value);
  }

  lemma RowIsBold(pieces: seq<Piece>, name: string, value: string)
    ensures Html(WithRow(pieces, name, value)) == Html(pieces) + BoldRow(name, value)
  {
    hide Html, WithLine, BoldLine;
    LineIsBold(pieces, name, value);
  }

  lemma LayoutIsBold(alarm: Alarm, env: string)
    ensures Html(Layout(alarm, env)) ==
      "<b>" + "CloudWatch alarm" + ": " + EscapeHTML(alarm.newStateValue) + "</b>" + BoldLine("Alarm", alarm.alarmName)
      + BoldRow("Env", env) + BoldRow("Region", alarm.region) + BoldRow("Previous", alarm.oldStateValue)
      + BoldRow("Time", alarm.stateChangeTime) + BoldRow("Description", alarm.alarmDescription)
      + BoldRow("Reason", alarm.newStateReason)
  {
    hide Html, WithRow, WithLine, Title, BoldRow, BoldLine;
    var p := Title("CloudWatch alarm", alarm.newStateValue);
    TitleText("CloudWatch alarm", alarm.newStateValue);
    LineIsBold(p, "Alarm", alarm.alarmName);
    p := WithLine(p, "Alarm", alarm.alarmName);
    RowIsBold(p, "Env", env);
    p := WithRow(p, "Env", env);
    RowIsBold(p, "Region", alarm.region);
    p := WithRow(p, "Region", alarm.region);
    RowIsBold(p, "Previous", alarm.oldStateValue);
    p := WithRow(p, "Previous", alarm.oldStateValue);
    RowIsBold(p, "Time", alarm.stateChangeTime);
    p := WithRow(p, "Time", alarm.stateChangeTime);
    RowIsBold(p, "Description", alarm.alarmDescription);
    p := WithRow(p, "Description", alarm.alarmDescription);
    RowIsBold(p, "Reason", alarm.newStateReason);
  }

  /** One `if field != ""` block of FormatPlainText. */
  method WritePlainRow(b: string, name: string, value: string, ghost pieces: seq<Piece>) returns (out: string)
    requires b == Plain(pieces)
    ensures out == Plain(WithRow(pieces, name, value))
  {
    if value == "" {
      return b;
    }
    LineText(pieces, name, value);
    out := b + "\n" + name + ":" + " " + value;
  }

  /** One `if field != ""` block of FormatHTML. */
  method WriteHtmlRow(b: string, name: string, value: string, ghost pieces: seq<Piece>) returns (out: string)
    requires b == Html(pieces)
    ensures out == Html(WithRow(pieces, name, value))
  {
    if value == "" {
      return b;
    }
    LineText(pieces, name, value);
    out := b + "\n" + OPEN + name + ":" + CLOSE + " " + EscapeHTML(value);
  }

  /** Read line by line, the text has the lines of the record, each with its own field. */
  method FormatPlainText(alarm: Alarm, env: string) returns (text: string)
    ensures text == Plain(Layout(alarm, env))
    ensures OneLineEach(alarm, env) ==>
      ReadText(text) ==
        [Line("CloudWatch alarm", alarm.newStateValue)] + [Line("Alarm", alarm.alarmName)]
        + Unless(env, "Env") + Unless(alarm.region, "Region") + Unless(alarm.oldStateValue, "Previous")
        + Unless(alarm.stateChangeTime, "Time") + Unless(alarm.alarmDescription, "Description")
        + Unless(alarm.newStateReason, "Reason")
  {
    hide Plain, ReadText, Unless, WithRow, WithLine, Title;
    text := "CloudWatch alarm" + ": " + alarm.newStateValue;
    TitleText("CloudWatch alarm", alarm.newStateValue);
    ghost var p := Title("CloudWatch alarm", alarm.newStateValue);
    text := text + "\n" + "Alarm" + ":" + " " + alarm.alarmName;
    LineText(p, "Alarm", alarm.alarmName);
    p := WithLine(p, "Alarm", alarm.alarmName);
    text := WritePlainRow(text, "Env", env, p);
    p := WithRow(p, "Env", env);
    text := WritePlainRow(text, "Region", alarm.region, p);
    p := WithRow(p, "Region", alarm.region);
    text := WritePlainRow(text, "Previous", alarm.oldStateValue, p);
    p := WithRow(p, "Previous", alarm.oldStateValue);
    text := WritePlainRow(text, "Time", alarm.stateChangeTime, p);
    p := WithRow(p, "Time", alarm.stateChangeTime);
    text := WritePlainRow(text, "Description", alarm.alarmDescription, p);
    p := WithRow(p, "Description", alarm.alarmDescription);
    text := WritePlainRow(text, "Reason", alarm.newStateReason, p);
    if OneLineEach(alarm, env) {
      LayoutReads(alarm, env);
    }
  }

  /** The HTML text, with bold headings, every field escaped; it displays as the plain text. */
  method FormatHTML(alarm: Alarm, env: string) returns (text: string)
    ensures text == Html(Layout(alarm, env))
    ensures text ==
      "<b>" + "CloudWatch alarm" + ": " + EscapeHTML(alarm.newStateValue) + "</b>" + BoldLine("Alarm", alarm.alarmName)
      + BoldRow("Env", env) + BoldRow("Region", alarm.region) + BoldRow("Previous", alarm.oldStateValue)
      + BoldRow("Time", alarm.stateChangeTime) + BoldRow("Description", alarm.alarmDescription)
      + BoldRow("Reason", alarm.newStateReason)
    ensures Display(text) == Plain(Layout(alarm, env))
  {
    hide Html, BoldRow, BoldLine, WithRow, WithLine, Title;
    text := OPEN + "CloudWatch alarm" + ": " + EscapeHTML(alarm.newStateValue) + CLOSE;
    TitleText("CloudWatch alarm", alarm.newStateValue);
    ghost var p := Title("CloudWatch alarm", alarm.newStateValue);
    text := text + "\n" + OPEN + "Alarm" + ":" + CLOSE + " " + EscapeHTML(alarm.alarmName);
    LineText(p, "Alarm", alarm.alarmName);
    p := WithLine(p, "Alarm", alarm.alarmName);
    text := WriteHtmlRow(text, "Env", env, p);
    p := WithRow(p, "Env", env);
    text := WriteHtmlRow(text, "Region", alarm.region, p);
    p := WithRow(p, "Region", alarm.region);
    text := WriteHtmlRow(text, "Previous", alarm.oldStateValue, p);
    p := WithRow(p, "Previous", alarm.oldStateValue);
    text := WriteHtmlRow(text, "Time", alarm.stateChangeTime, p);
    p := WithRow(p, "Time", alarm.stateChangeTime);
    text := WriteHtmlRow(text, "Description", alarm.alarmDescription, p);
    p := WithRow(p, "Description", alarm.alarmDescription);
    text := WriteHtmlRow(text, "Reason", alarm.newStateReason, p);
    HtmlShowsPlainText(alarm, env);
    LayoutIsBold(alarm, env);
  }

  /**
   The two texts one alarm is sent as, before any truncation: whatever the fields contain, a reader of the
   Telegram text sees the Discord text.
   */
  method Texts(alarm: Alarm, env: string) returns (discord: string, telegram: string)
    ensures Display(telegram) == discord
  {
    discord := FormatPlainText(alarm, env);
    telegram := FormatHTML(alarm, env);
  }
}
