/**
 * The text a log statement produces, as pure functions.
 *
 * A line is laid out as
 *   ["\n"] "[" id "] " level [" (" topic ")"] [" " file ":" line] [" in " function "()"] ": '" body "'" ["\n"]
 * The logger's constructor builds everything up to and including ": '" (the
 * prefix); the caller appends the body; the write adds the closing quote and
 * the optional trailing newline.
 */
module Format {
  import opened Levels

  /** The id of the built-in default topic, which is never annotated. */
  const NoTopicId: int := 1

  /** What the formatter needs to know about one statement. */
  datatype Entry = Entry(
    id: string,
    topicId: int,
    topicName: string,
    level: Level,
    file: string,      // the already shortened file name
    line: int,
    func: string)

  /** The configuration flags read when the prefix is built. */
  datatype Decor = Decor(prefixNewline: bool, showFilename: bool, showFunction: bool)

  // ---------------------------------------------------------------------------
  // Decimal rendering of the line number (what `<<` does with an int)

  predicate IsDigit(c: char) {
    '0' <= c <= '9'
  }

  predicate AllDigits(s: string) {
    forall i :: 0 <= i < |s| ==> IsDigit(s[i])
  }

  function DigitChar(d: nat): (c: char)
    requires d < 10
    ensures IsDigit(c) && c as int - '0' as int == d
  {
    ('0' as int + d) as char
  }

  /** Decimal digits of n, most significant first, without leading zeros. */
  function NatToDecimal(n: nat): (r: string)
    ensures |r| >= 1 && AllDigits(r)
    ensures |r| > 1 ==> r[0] != '0'
    ensures n < 10 <==> |r| == 1
    decreases n
  {
    if n < 10 then [DigitChar(n)] else NatToDecimal(n / 10) + [DigitChar(n % 10)]
  }

  /** The value of a string of decimal digits. */
  function DecimalValue(s: string): nat
    requires AllDigits(s)
  {
    if s == [] then 0 else 10 * DecimalValue(s[..|s| - 1]) + (s[|s| - 1] as int - '0' as int)
  }

  /** Reading the decimal rendering back gives the number: the rendering is lossless. */
  lemma {:induction false} DecimalRoundTrip(n: nat)
    ensures DecimalValue(NatToDecimal(n)) == n
  {
    if n >= 10 {
      var s := NatToDecimal(n);
      DecimalRoundTrip(n / 10);
      assert s[..|s| - 1] == NatToDecimal(n / 10);
    }
  }

  /** Signed decimal rendering: a minus sign exactly for negative numbers. */
  function IntToDecimal(i: int): (r: string)
    ensures |r| >= 1
    ensures r[0] == '-' <==> i < 0
    ensures AllDigits(r[1..])
  {
    if i < 0 then "-" + NatToDecimal(-i) else NatToDecimal(i)
  }

  /** The value of a signed decimal string. */
  function SignedValue(s: string): int
    requires |s| >= 1 && AllDigits(s[1..])
    requires s[0] == '-' || IsDigit(s[0])
  {
    if s[0] == '-' then -(DecimalValue(s[1..]) as int) else DecimalValue(s)
  }

  /** Reading the signed rendering back gives the number. */
  lemma {:induction false} SignedRoundTrip(i: int)
    ensures var r := IntToDecimal(i); (r[0] == '-' || IsDigit(r[0])) && SignedValue(r) == i
  {
    if i < 0 {
      DecimalRoundTrip(-i);
      assert IntToDecimal(i)[1..] == NatToDecimal(-i);
    } else {
      DecimalRoundTrip(i);
    }
  }

  // ---------------------------------------------------------------------------
  // The prefix built by the logger's constructor

  function Lead(prefixNewline: bool): string {
    if prefixNewline then "\n" else ""
  }

  function Head(id: string, level: Level): string {
    "[" + id + "] " + LevelName(level)
  }

  function TopicTag(topicId: int, topicName: string): string {
    if topicId != NoTopicId then " (" + topicName + ")" else ""
  }

  function Location(show: bool, file: string, line: int): string {
    if show then " " + file + ":" + IntToDecimal(line) else ""
  }

  function FunctionTag(show: bool, func: string): string {
    if show then " in " + func + "()" else ""
  }

  const Opening: string := ": '"

  /** The message prefix the constructor leaves in the buffer. */
  function Prefix(e: Entry, d: Decor): string {
    Lead(d.prefixNewline) + (Head(e.id, e.level) + (TopicTag(e.topicId, e.topicName)
      + (Location(d.showFilename, e.file, e.line) + (FunctionTag(d.showFunction, e.func) + Opening))))
  }

  /** What the write appends to the sink for a given buffer. */
  function Line(buffer: string, appendNewline: bool): string {
    buffer + "'" + (if appendNewline then "\n" else "")
  }

  /** The caller's body pieces, in the order they were appended. */
  function Concat(pieces: seq<string>): string {
    if pieces == [] then "" else pieces[0] + Concat(pieces[1..])
  }

  // ---------------------------------------------------------------------------
  // Regrouping concatenations

  lemma Assoc(a: string, b: string, c: string)
    ensures a + b + c == a + (b + c)
  {
  }

  lemma Split(a: string, b: string)
    ensures a <= a + b && (a + b)[..|a|] == a && (a + b)[|a|..] == b
  {
  }

  /** The prefix is the six pieces appended one after another, in order. */
  lemma PrefixInOrder(e: Entry, d: Decor)
    ensures Prefix(e, d) == Lead(d.prefixNewline) + Head(e.id, e.level) + TopicTag(e.topicId, e.topicName)
      + Location(d.showFilename, e.file, e.line) + FunctionTag(d.showFunction, e.func) + Opening
  {
    var a, b, c := Lead(d.prefixNewline), Head(e.id, e.level), TopicTag(e.topicId, e.topicName);
    var l, f := Location(d.showFilename, e.file, e.line), FunctionTag(d.showFunction, e.func);
    Assoc(a + b + c + l, f, Opening);
    Assoc(a + b + c, l, f + Opening);
    Assoc(a + b, c, l + (f + Opening));
    Assoc(a, b, c + (l + (f + Opening)));
  }

  // ---------------------------------------------------------------------------
  // Properties of the layout

  /** With every decoration off and the default topic, only id, level and ": '" remain. */
  lemma PlainPrefix(e: Entry)
    requires e.topicId == NoTopicId
    ensures Prefix(e, Decor(false, false, false)) == "[" + e.id + "] " + LevelName(e.level) + ": '"
  {
    var h := Head(e.id, e.level);
    assert Prefix(e, Decor(false, false, false)) == "" + (h + ("" + ("" + ("" + Opening))));
  }

  /** prefix_newline prepends exactly one "\n" and changes nothing else. */
  lemma PrefixNewlineOnlyPrepends(e: Entry, d: Decor)
    ensures Prefix(e, d.(prefixNewline := true)) == "\n" + Prefix(e, d.(prefixNewline := false))
  {
    var rest := Head(e.id, e.level) + (TopicTag(e.topicId, e.topicName)
      + (Location(d.showFilename, e.file, e.line) + (FunctionTag(d.showFunction, e.func) + Opening)));
    assert Prefix(e, d.(prefixNewline := false)) == "" + rest;
    assert "" + rest == rest;
  }

  /** After the optional newline, the prefix starts with "[" id "] " and the level name. */
  lemma HeaderFirst(e: Entry, d: Decor)
    ensures Lead(d.prefixNewline) + Head(e.id, e.level) <= Prefix(e, d)
    ensures Head(e.id, e.level) == "[" + e.id + "] " + LevelName(e.level)
  {
    var rest := TopicTag(e.topicId, e.topicName)
      + (Location(d.showFilename, e.file, e.line) + (FunctionTag(d.showFunction, e.func) + Opening));
    Assoc(Lead(d.prefixNewline), Head(e.id, e.level), rest);
    Split(Lead(d.prefixNewline) + Head(e.id, e.level), rest);
  }

  /**
   * A topic annotation " (" name ")" is inserted right after the level name
   * exactly for non-default topics; the default topic's name never appears.
   */
  lemma TopicAnnotation(e: Entry, d: Decor, otherName: string)
    ensures var h := Lead(d.prefixNewline) + Head(e.id, e.level);
            var p0 := Prefix(e.(topicId := NoTopicId), d);
            h <= p0
            && Prefix(e.(topicId := NoTopicId, topicName := otherName), d) == p0
            && Prefix(e, d) == if e.topicId == NoTopicId then p0 else h + " (" + e.topicName + ")" + p0[|h|..]
  {
    var lead, head := Lead(d.prefixNewline), Head(e.id, e.level);
    var h := lead + head;
    var tag := TopicTag(e.topicId, e.topicName);
    var rest := Location(d.showFilename, e.file, e.line) + (FunctionTag(d.showFunction, e.func) + Opening);
    var p0 := Prefix(e.(topicId := NoTopicId), d);
    assert p0 == lead + (head + ("" + rest));
    assert "" + rest == rest;
    Assoc(lead, head, rest);
    Split(h, rest);
    assert Prefix(e, d) == lead + (head + (tag + rest));
    Assoc(lead, head, tag + rest);
    Assoc(h, tag, rest);
  }

  /**
   * With show_filename, " " file ":" line is inserted after the topic and
   * right before the optional function tag and the closing ": '".
   */
  lemma FilenameAnnotation(e: Entry, d: Decor)
    ensures var tail := FunctionTag(d.showFunction, e.func) + ": '";
            var p0 := Prefix(e, d.(showFilename := false));
            |tail| <= |p0| && p0[|p0| - |tail|..] == tail
            && Prefix(e, d) == if d.showFilename then p0[..|p0| - |tail|] + (" " + e.file + ":" + IntToDecimal(e.line)) + tail else p0
  {
    var lead, head, tag := Lead(d.prefixNewline), Head(e.id, e.level), TopicTag(e.topicId, e.topicName);
    var loc := Location(d.showFilename, e.file, e.line);
    var tail := FunctionTag(d.showFunction, e.func) + Opening;
    var front := lead + (head + tag);
    var p0 := Prefix(e, d.(showFilename := false));
    assert p0 == lead + (head + (tag + ("" + tail)));
    assert "" + tail == tail;
    Assoc(head, tag, tail);
    Assoc(lead, head + tag, tail);
    Split(front, tail);
    assert Prefix(e, d) == lead + (head + (tag + (loc + tail)));
    Assoc(head, tag, loc + tail);
    Assoc(lead, head + tag, loc + tail);
    Assoc(front, loc, tail);
  }

  /** With show_function, " in " function "()" is inserted right before the closing ": '". */
  lemma FunctionAnnotation(e: Entry, d: Decor)
    ensures var p0 := Prefix(e, d.(showFunction := false));
            |p0| >= 3 && p0[|p0| - 3..] == ": '"
            && Prefix(e, d) == if d.showFunction then p0[..|p0| - 3] + (" in " + e.func + "()") + ": '" else p0
  {
    var lead, head, tag := Lead(d.prefixNewline), Head(e.id, e.level), TopicTag(e.topicId, e.topicName);
    var loc := Location(d.showFilename, e.file, e.line);
    var fn := FunctionTag(d.showFunction, e.func);
    var front := lead + (head + (tag + loc));
    var p0 := Prefix(e, d.(showFunction := false));
    assert p0 == lead + (head + (tag + (loc + ("" + Opening))));
    assert "" + Opening == Opening;
    Assoc(tag, loc, Opening);
    Assoc(head, tag + loc, Opening);
    Assoc(lead, head + (tag + loc), Opening);
    Split(front, Opening);
    assert Prefix(e, d) == lead + (head + (tag + (loc + (fn + Opening))));
    Assoc(tag, loc, fn + Opening);
    Assoc(head, tag + loc, fn + Opening);
    Assoc(lead, head + (tag + loc), fn + Opening);
    Assoc(front, fn, Opening);
  }

  /** The emitted line starts with a newline exactly when prefix_newline is set. */
  lemma LeadingNewline(e: Entry, d: Decor, body: string, appendNewline: bool)
    ensures var s := Line(Prefix(e, d) + body, appendNewline);
            |s| > 0 && (s[0] == '\n' <==> d.prefixNewline)
  {
    var s := Line(Prefix(e, d) + body, appendNewline);
    var lh := Lead(d.prefixNewline) + Head(e.id, e.level);
    assert Head(e.id, e.level)[0] == '[';
    assert lh[0] == if d.prefixNewline then '\n' else '[';
    assert Prefix(e, d)[0] == lh[0];
    assert s[0] == Prefix(e, d)[0];
  }

  /**
   * The line ends with "'\n" when append_newline is set and with "'"
   * otherwise; it ends in a newline exactly when append_newline is set.
   */
  lemma ClosingQuote(buffer: string, appendNewline: bool)
    ensures var s := Line(buffer, appendNewline);
            (appendNewline ==> |s| >= 2 && s[|s| - 2..] == "'\n")
            && (!appendNewline ==> |s| >= 1 && s[|s| - 1..] == "'")
            && (s[|s| - 1] == '\n' <==> appendNewline)
  {
  }

  /** Appending one more piece extends the body by exactly that piece. */
  lemma {:induction false} ConcatAppend(pieces: seq<string>, p: string)
    ensures Concat(pieces + [p]) == Concat(pieces) + p
  {
    if pieces == [] {
      assert [] + [p] == [p];
    } else {
      assert (pieces + [p])[1..] == pieces[1..] + [p];
      ConcatAppend(pieces[1..], p);
    }
  }

  /**
   * Every piece appears verbatim in the body, after the pieces appended
   * before it and before those appended after it.
   */
  lemma {:induction false} ConcatSplit(pieces: seq<string>, i: nat)
    requires i < |pieces|
    ensures Concat(pieces) == Concat(pieces[..i]) + pieces[i] + Concat(pieces[i + 1..])
  {
    if i == 0 {
      assert pieces[..0] == [];
    } else {
      ConcatSplit(pieces[1..], i - 1);
      assert pieces[1..][..i - 1] == pieces[1..i];
      assert pieces[1..][i..] == pieces[i + 1..];
      assert pieces[..i][1..] == pieces[1..i];
    }
  }

  /** The prefix always ends with the opening quote ": '". */
  lemma PrefixEndsWithOpening(e: Entry, d: Decor)
    ensures var p := Prefix(e, d); |p| >= 3 && p[|p| - 3..] == ": '"
  {
    FunctionAnnotation(e, d);
    if d.showFunction {
      var p0 := Prefix(e, d.(showFunction := false));
      Split(p0[..|p0| - 3] + (" in " + e.func + "()"), ": '");
    }
  }

  /** Each appended piece is found in the body at the offset given by the pieces before it. */
  lemma PieceAt(pieces: seq<string>, i: nat)
    requires i < |pieces|
    ensures var k := |Concat(pieces[..i])|;
            k + |pieces[i]| <= |Concat(pieces)| && Concat(pieces)[k..k + |pieces[i]|] == pieces[i]
  {
    ConcatSplit(pieces, i);
    var before, after := Concat(pieces[..i]), Concat(pieces[i + 1..]);
    Assoc(before, pieces[i], after);
    Split(before, pieces[i] + after);
    Split(pieces[i], after);
  }

  /**
   * In the line, the text the write emits keeps the buffer (prefix, then
   * body) intact and follows it with the closing quote.
   */
  lemma BodyBetweenQuotes(p: string, pieces: seq<string>, appendNewline: bool)
    ensures var b := Concat(pieces);
            var s := Line(p + b, appendNewline);
            |p| + |b| < |s| && s[..|p|] == p && s[|p|..|p| + |b|] == b && s[|p| + |b|] == '\''
  {
    var b := Concat(pieces);
    var nl := if appendNewline then "\n" else "";
    Assoc(p + b, "'", nl);
    Assoc(p, b, "'" + nl);
    Split(p, b + ("'" + nl));
    Split(b, "'" + nl);
  }

}
