/**
 * The library's test cases, replayed on the model. Each method sets up the
 * test fixture, runs the statements of one test and states, as its
 * postcondition, the exact sink content or the predicate answers that test
 * expects. The line numbers are those of the statements in the test file.
 */
module Scenarios {
  import opened Levels
  import opened Format
  import opened Logging
  import opened Gate

  /** The test file's path as the compiler records it. */
  const TestFile: string := "/src/logging/tests/logging.cpp"

  /** Stand-in for the file-name helper: the text after the last '/'. */
  function FinalSegment(path: string): (r: string)
    ensures |r| <= |path|
  {
    if path == [] then []
    else if path[|path| - 1] == '/' then []
    else FinalSegment(path[..|path| - 1]) + [path[|path| - 1]]
  }

  /** The final segment of a path is the text after its last '/'. */
  lemma {:induction false} FinalSegmentAfterSlash(dir: string, name: string)
    requires forall i :: 0 <= i < |name| ==> name[i] != '/'
    ensures FinalSegment(dir + "/" + name) == name
  {
    var p := dir + "/" + name;
    if name != [] {
      var last := name[|name| - 1];
      assert p[..|p| - 1] == dir + "/" + name[..|name| - 1];
      FinalSegmentAfterSlash(dir, name[..|name| - 1]);
      assert name == name[..|name| - 1] + [last];
    }
  }

  lemma TestFileShortName()
    ensures FinalSegment(TestFile) == "logging.cpp"
  {
    assert TestFile == "/src/logging/tests" + "/" + "logging.cpp";
    FinalSegmentAfterSlash("/src/logging/tests", "logging.cpp");
  }

  /** The fixture: a fresh sink, default flags, every topic at the default level. */
  method Fixture() returns (reg: Registry, config: Configuration, sink: Sink)
    ensures reg.Valid() && fresh(reg) && fresh(config) && fresh(sink)
    ensures fresh(reg.noTopic) && fresh(reg.dev) && fresh(reg.network) && fresh(reg.engine)
    ensures config.stream == sink && sink.content == [] && !sink.failing
    ensures !config.prefixNewline && config.appendNewline && config.showFilename && config.showFunction
    ensures forall i :: 0 <= i < |reg.All()| ==> reg.All()[i].activationLevel == DefaultLevel
  {
    sink := new Sink();
    config := new Configuration(sink);
    reg := new Registry();
    reg.SetLevelAll(DefaultLevel);
  }

  /** The line of a statement, piece by piece. */
  lemma RenderLine(e: Entry, d: Decor, body: string, appendNewline: bool)
    ensures Line(Prefix(e, d) + body, appendNewline)
      == Lead(d.prefixNewline) + Head(e.id, e.level) + TopicTag(e.topicId, e.topicName)
         + Location(d.showFilename, e.file, e.line) + FunctionTag(d.showFunction, e.func) + ": '"
         + body + "'" + (if appendNewline then "\n" else "")
  {
    PrefixInOrder(e, d);
  }

  /** Regroups a rendered line around its line number. */
  lemma Regroup(lead: string, head: string, topic: string, at: string, num: string,
                func: string, body: string, nl: string)
    ensures lead + head + topic + (at + num) + func + ": '" + body + "'" + nl
         == (lead + head + topic + at) + num + (func + ": '" + body + "'" + nl)
  {
    var x := lead + head + topic;
    Assoc(x, at, num);
    Assoc(x + at + num, func, ": '");
    Assoc(x + at, num, func + ": '");
    Assoc(x + at + num, func + ": '", body);
    Assoc(x + at, num, func + ": '" + body);
    Assoc(x + at + num, func + ": '" + body, "'");
    Assoc(x + at, num, func + ": '" + body + "'");
    Assoc(x + at + num, func + ": '" + body + "'", nl);
    Assoc(x + at, num, func + ": '" + body + "'" + nl);
  }

  /** Regroups a rendered line without location into its two halves. */
  lemma RegroupNoLocation(lead: string, head: string, topic: string, func: string, body: string, nl: string)
    ensures lead + head + topic + "" + func + ": '" + body + "'" + nl
         == (lead + head + topic + "") + (func + ": '" + body + "'" + nl)
  {
    var x := lead + head + topic + "";
    Assoc(x, func, ": '");
    Assoc(x, func + ": '", body);
    Assoc(x, func + ": '" + body, "'");
    Assoc(x, func + ": '" + body + "'", nl);
  }

  /** The body of a statement with a single piece. */
  lemma ConcatOne(a: string)
    ensures Concat([a]) == a
  {
    assert [a][1..] == [];
  }

  /** The body of a statement with two pieces. */
  lemma ConcatTwo(a: string, b: string)
    ensures Concat([a, b]) == a + b
  {
    assert [a, b][1..] == [b];
    ConcatOne(b);
  }

  lemma CafeNohaText()
    ensures "2 Cafe " + "NOHA" == "2 Cafe NOHA"
  {
  }

  lemma ConstDevWarnHeadText()
    ensures Head("@@@@", Warn) == "[@@@@] warning"
  {
  }

  lemma DevTopicText()
    ensures TopicTag(2, "development") == " (development)"
  {
  }

  lemma TestBodyText()
    ensures FunctionTag(true, "TestBody") == " in TestBody()"
  {
  }

  lemma ConstDevWarnDevLocatedFrontText()
    ensures "" + "[@@@@] warning" + " (development)" + " logging.cpp:" == "[@@@@] warning (development) logging.cpp:"
  {
  }

  lemma DevelopmentBackText()
    ensures " in TestBody()" + ": '" + "development" + "'" + "\n" == " in TestBody(): 'development'\n"
  {
  }

  lemma VariableDevWarnHeadText()
    ensures Head("$$$$", Warn) == "[$$$$] warning"
  {
  }

  lemma VariableDevWarnDevLocatedFrontText()
    ensures "" + "[$$$$] warning" + " (development)" + " logging.cpp:" == "[$$$$] warning (development) logging.cpp:"
  {
  }

  lemma BadcafeWarnHeadText()
    ensures Head("badcafe", Warn) == "[badcafe] warning"
  {
  }

  lemma BadcafeWarnLocatedFrontText()
    ensures "" + "[badcafe] warning" + "" + " logging.cpp:" == "[badcafe] warning logging.cpp:"
  {
  }

  lemma CafeNohaBackText()
    ensures " in TestBody()" + ": '" + "2 Cafe NOHA" + "'" + "\n" == " in TestBody(): '2 Cafe NOHA'\n"
  {
  }

  lemma BadcafeWarnFrontText()
    ensures "" + "[badcafe] warning" + "" + "" == "[badcafe] warning"
  {
  }

  lemma CafeNohaNoFunctionBackText()
    ensures "" + ": '" + "2 Cafe NOHA" + "'" + "\n" == ": '2 Cafe NOHA'\n"
  {
  }

  lemma LogIdErrorHeadText()
    ensures Head("log-id", Error) == "[log-id] error"
  {
  }

  lemma LogIdErrorLocatedFrontText()
    ensures "" + "[log-id] error" + "" + " logging.cpp:" == "[log-id] error logging.cpp:"
  {
  }

  lemma PierreBackText()
    ensures " in TestBody()" + ": '" + "Where is Pierre?" + "'" + "\n" == " in TestBody(): 'Where is Pierre?'\n"
  {
  }

  lemma NetworkTopicText()
    ensures TopicTag(3, "network") == " (network)"
  {
  }

  lemma LogIdErrorNetworkLocatedFrontText()
    ensures "" + "[log-id] error" + " (network)" + " logging.cpp:" == "[log-id] error (network) logging.cpp:"
  {
  }

  lemma BabeWarnHeadText()
    ensures Head("babe", Warn) == "[babe] warning"
  {
  }

  lemma BabeWarnLocatedFrontText()
    ensures "" + "[babe] warning" + "" + " logging.cpp:" == "[babe] warning logging.cpp:"
  {
  }

  lemma CafeBackText()
    ensures " in TestBody()" + ": '" + "cafe?" + "'" + "\n" == " in TestBody(): 'cafe?'\n"
  {
  }

  lemma WorkFatalHeadText()
    ensures Head("work", Fatal) == "[work] fatal"
  {
  }

  lemma WorkFatalNetworkLocatedFrontText()
    ensures "" + "[work] fatal" + " (network)" + " logging.cpp:" == "[work] fatal (network) logging.cpp:"
  {
  }

  lemma NoCafeBackText()
    ensures " in TestBody()" + ": '" + "What?!?! No Cafe!?!?!? :(" + "'" + "\n" == " in TestBody(): 'What?!?! No Cafe!?!?!? :('\n"
  {
  }

  lemma NewlineBabeWarnLocatedFrontText()
    ensures "\n" + "[babe] warning" + "" + " logging.cpp:" == "\n[babe] warning logging.cpp:"
  {
  }

  lemma TwoCafeNoNewlineBackText()
    ensures " in TestBody()" + ": '" + "2cafe?" + "'" + "" == " in TestBody(): '2cafe?'"
  {
  }

  lemma LoggingDevLocationText()
    ensures Location(true, "logging.cpp", 56) == " logging.cpp:" + "56"
  {
    assert NatToDecimal(56) == "56" by {
      assert NatToDecimal(5) == "5";
    }
  }

  /** The line the statement of test LoggingDev renders. */
  lemma LoggingDevLine()
    ensures Line(Prefix(Entry("@@@@", 2, "development", Warn, "logging.cpp", 56, "TestBody"), Decor(false, true, true)) + "development", true)
      == "[@@@@] warning (development) logging.cpp:" + "56" + " in TestBody(): 'development'\n"
  {
    RenderLine(Entry("@@@@", 2, "development", Warn, "logging.cpp", 56, "TestBody"), Decor(false, true, true), "development", true);
    ConstDevWarnHeadText();
    DevTopicText();
    TestBodyText();
    LoggingDevLocationText();
    ConstDevWarnDevLocatedFrontText();
    DevelopmentBackText();
    Regroup("", "[@@@@] warning", " (development)", " logging.cpp:", "56", " in TestBody()", "development", "\n");
  }

  /** EXT_DEV goes through the constant gate with id "@@@@", topic dev and the default level. */
  method LoggingDev() returns (output: string)
    ensures output == "[@@@@] warning (development) logging.cpp:" + "56" + " in TestBody(): 'development'\n"
  {
    var reg, config, sink := Fixture();
    var emitted, terminated := LogConst(DevCall(Compiled, true), reg, config, Site(TestFile, 56, "TestBody"), FinalSegment, ["development"]);
    output := sink.content;
    ghost var c := DevCall(Compiled, true);
    ghost var t := reg.Resolve(Dev);
    assert c == Call("@@@@", Dev, Warn, true);
    assert t == reg.All()[1];
    assert emitted;
    assert output == Rendered(c, t, config, Site(TestFile, 56, "TestBody"), FinalSegment, ["development"]);
    TestFileShortName();
    ConcatOne("development");
    assert config.Decoration() == Decor(false, true, true) && config.appendNewline == true;
    assert output == Line(Prefix(Entry("@@@@", 2, "development", Warn, "logging.cpp", 56, "TestBody"), Decor(false, true, true)) + "development", true);
    LoggingDevLine();
  }

  lemma LoggingDevIfStaticLocationText()
    ensures Location(true, "logging.cpp", 62) == " logging.cpp:" + "62"
  {
    assert NatToDecimal(62) == "62" by {
      assert NatToDecimal(6) == "6";
    }
  }

  /** The line the statement of test LoggingDevIfStatic renders. */
  lemma LoggingDevIfStaticLine()
    ensures Line(Prefix(Entry("@@@@", 2, "development", Warn, "logging.cpp", 62, "TestBody"), Decor(false, true, true)) + "development", true)
      == "[@@@@] warning (development) logging.cpp:" + "62" + " in TestBody(): 'development'\n"
  {
    RenderLine(Entry("@@@@", 2, "development", Warn, "logging.cpp", 62, "TestBody"), Decor(false, true, true), "development", true);
    ConstDevWarnHeadText();
    DevTopicText();
    TestBodyText();
    LoggingDevIfStaticLocationText();
    ConstDevWarnDevLocatedFrontText();
    DevelopmentBackText();
    Regroup("", "[@@@@] warning", " (development)", " logging.cpp:", "62", " in TestBody()", "development", "\n");
  }

  /** EXT_DEV_IF_CONST(true) behaves as EXT_DEV. */
  method LoggingDevIfStatic() returns (output: string)
    ensures output == "[@@@@] warning (development) logging.cpp:" + "62" + " in TestBody(): 'development'\n"
  {
    var reg, config, sink := Fixture();
    var emitted, terminated := LogConst(DevCall(Compiled, true), reg, config, Site(TestFile, 62, "TestBody"), FinalSegment, ["development"]);
    output := sink.content;
    ghost var c := DevCall(Compiled, true);
    ghost var t := reg.Resolve(Dev);
    assert c == Call("@@@@", Dev, Warn, true);
    assert t == reg.All()[1];
    assert emitted;
    assert output == Rendered(c, t, config, Site(TestFile, 62, "TestBody"), FinalSegment, ["development"]);
    TestFileShortName();
    ConcatOne("development");
    assert config.Decoration() == Decor(false, true, true) && config.appendNewline == true;
    assert output == Line(Prefix(Entry("@@@@", 2, "development", Warn, "logging.cpp", 62, "TestBody"), Decor(false, true, true)) + "development", true);
    LoggingDevIfStaticLine();
  }

  lemma LoggingDevVariableLocationText()
    ensures Location(true, "logging.cpp", 68) == " logging.cpp:" + "68"
  {
    assert NatToDecimal(68) == "68" by {
      assert NatToDecimal(6) == "6";
    }
  }

  /** The line the statement of test LoggingDevVariable renders. */
  lemma LoggingDevVariableLine()
    ensures Line(Prefix(Entry("$$$$", 2, "development", Warn, "logging.cpp", 68, "TestBody"), Decor(false, true, true)) + "development", true)
      == "[$$$$] warning (development) logging.cpp:" + "68" + " in TestBody(): 'development'\n"
  {
    RenderLine(Entry("$$$$", 2, "development", Warn, "logging.cpp", 68, "TestBody"), Decor(false, true, true), "development", true);
    VariableDevWarnHeadText();
    DevTopicText();
    TestBodyText();
    LoggingDevVariableLocationText();
    VariableDevWarnDevLocatedFrontText();
    DevelopmentBackText();
    Regroup("", "[$$$$] warning", " (development)", " logging.cpp:", "68", " in TestBody()", "development", "\n");
  }

  /** EXT_DEV_VARIABLE goes through the runtime gate with id "$$$$". */
  method LoggingDevVariable() returns (output: string)
    ensures output == "[$$$$] warning (development) logging.cpp:" + "68" + " in TestBody(): 'development'\n"
  {
    var reg, config, sink := Fixture();
    var evaluated, emitted, terminated := LogVariable(DevCall(Runtime, true), reg, config, Site(TestFile, 68, "TestBody"), FinalSegment, ["development"]);
    output := sink.content;
    ghost var c := DevCall(Runtime, true);
    ghost var t := reg.Resolve(Dev);
    assert c == Call("$$$$", Dev, Warn, true);
    assert t == reg.All()[1];
    assert emitted;
    assert output == Rendered(c, t, config, Site(TestFile, 68, "TestBody"), FinalSegment, ["development"]);
    TestFileShortName();
    ConcatOne("development");
    assert config.Decoration() == Decor(false, true, true) && config.appendNewline == true;
    assert output == Line(Prefix(Entry("$$$$", 2, "development", Warn, "logging.cpp", 68, "TestBody"), Decor(false, true, true)) + "development", true);
    LoggingDevVariableLine();
  }

  lemma LoggingDevIfLocationText()
    ensures Location(true, "logging.cpp", 74) == " logging.cpp:" + "74"
  {
    assert NatToDecimal(74) == "74" by {
      assert NatToDecimal(7) == "7";
    }
  }

  /** The line the statement of test LoggingDevIf renders. */
  lemma LoggingDevIfLine()
    ensures Line(Prefix(Entry("$$$$", 2, "development", Warn, "logging.cpp", 74, "TestBody"), Decor(false, true, true)) + "development", true)
      == "[$$$$] warning (development) logging.cpp:" + "74" + " in TestBody(): 'development'\n"
  {
    RenderLine(Entry("$$$$", 2, "development", Warn, "logging.cpp", 74, "TestBody"), Decor(false, true, true), "development", true);
    VariableDevWarnHeadText();
    DevTopicText();
    TestBodyText();
    LoggingDevIfLocationText();
    VariableDevWarnDevLocatedFrontText();
    DevelopmentBackText();
    Regroup("", "[$$$$] warning", " (development)", " logging.cpp:", "74", " in TestBody()", "development", "\n");
  }

  /** EXT_DEV_IF(true) behaves as EXT_DEV_VARIABLE. */
  method LoggingDevIf() returns (output: string)
    ensures output == "[$$$$] warning (development) logging.cpp:" + "74" + " in TestBody(): 'development'\n"
  {
    var reg, config, sink := Fixture();
    var evaluated, emitted, terminated := LogVariable(DevCall(Runtime, true), reg, config, Site(TestFile, 74, "TestBody"), FinalSegment, ["development"]);
    output := sink.content;
    ghost var c := DevCall(Runtime, true);
    ghost var t := reg.Resolve(Dev);
    assert c == Call("$$$$", Dev, Warn, true);
    assert t == reg.All()[1];
    assert emitted;
    assert output == Rendered(c, t, config, Site(TestFile, 74, "TestBody"), FinalSegment, ["development"]);
    TestFileShortName();
    ConcatOne("development");
    assert config.Decoration() == Decor(false, true, true) && config.appendNewline == true;
    assert output == Line(Prefix(Entry("$$$$", 2, "development", Warn, "logging.cpp", 74, "TestBody"), Decor(false, true, true)) + "development", true);
    LoggingDevIfLine();
  }

  lemma LoggingDefaultLocationText()
    ensures Location(true, "logging.cpp", 80) == " logging.cpp:" + "80"
  {
    assert NatToDecimal(80) == "80" by {
      assert NatToDecimal(8) == "8";
    }
  }

  /** The line the statement of test LoggingDefault renders. */
  lemma LoggingDefaultLine()
    ensures Line(Prefix(Entry("badcafe", NoTopicId, "default", Warn, "logging.cpp", 80, "TestBody"), Decor(false, true, true)) + "2 Cafe NOHA", true)
      == "[badcafe] warning logging.cpp:" + "80" + " in TestBody(): '2 Cafe NOHA'\n"
  {
    RenderLine(Entry("badcafe", NoTopicId, "default", Warn, "logging.cpp", 80, "TestBody"), Decor(false, true, true), "2 Cafe NOHA", true);
    BadcafeWarnHeadText();
    TestBodyText();
    LoggingDefaultLocationText();
    BadcafeWarnLocatedFrontText();
    CafeNohaBackText();
    Regroup("", "[badcafe] warning", "", " logging.cpp:", "80", " in TestBody()", "2 Cafe NOHA", "\n");
  }

  /** One argument: default topic (not annotated), default level; the body pieces are joined in order. */
  method LoggingDefault() returns (output: string)
    ensures output == "[badcafe] warning logging.cpp:" + "80" + " in TestBody(): '2 Cafe NOHA'\n"
  {
    var reg, config, sink := Fixture();
    var evaluated, emitted, terminated := LogVariable(Expand(Args1("badcafe")), reg, config, Site(TestFile, 80, "TestBody"), FinalSegment, ["2 Cafe ", "NOHA"]);
    output := sink.content;
    ghost var c := Expand(Args1("badcafe"));
    ghost var t := reg.Resolve(NoTopic);
    assert c == Call("badcafe", NoTopic, Warn, true);
    assert t == reg.All()[0];
    assert emitted;
    assert output == Rendered(c, t, config, Site(TestFile, 80, "TestBody"), FinalSegment, ["2 Cafe ", "NOHA"]);
    TestFileShortName();
    ConcatTwo("2 Cafe ", "NOHA");
    CafeNohaText();
    assert config.Decoration() == Decor(false, true, true) && config.appendNewline == true;
    assert output == Line(Prefix(Entry("badcafe", NoTopicId, "default", Warn, "logging.cpp", 80, "TestBody"), Decor(false, true, true)) + "2 Cafe NOHA", true);
    LoggingDefaultLine();
  }

  lemma LoggingNoFilenameWholeText()
    ensures "[badcafe] warning" + " in TestBody(): '2 Cafe NOHA'\n" == "[badcafe] warning in TestBody(): '2 Cafe NOHA'\n"
  {
  }

  /** The line the statement of test LoggingNoFilename renders. */
  lemma LoggingNoFilenameLine()
    ensures Line(Prefix(Entry("badcafe", NoTopicId, "default", Warn, "logging.cpp", 87, "TestBody"), Decor(false, false, true)) + "2 Cafe NOHA", true)
      == "[badcafe] warning in TestBody(): '2 Cafe NOHA'\n"
  {
    RenderLine(Entry("badcafe", NoTopicId, "default", Warn, "logging.cpp", 87, "TestBody"), Decor(false, false, true), "2 Cafe NOHA", true);
    BadcafeWarnHeadText();
    TestBodyText();
    BadcafeWarnFrontText();
    CafeNohaBackText();
    LoggingNoFilenameWholeText();
    RegroupNoLocation("", "[badcafe] warning", "", " in TestBody()", "2 Cafe NOHA", "\n");
  }

  /** Without show_filename the location is left out. */
  method LoggingNoFilename() returns (output: string)
    ensures output == "[badcafe] warning in TestBody(): '2 Cafe NOHA'\n"
  {
    var reg, config, sink := Fixture();
    config.showFilename := false;
    var evaluated, emitted, terminated := LogVariable(Expand(Args1("badcafe")), reg, config, Site(TestFile, 87, "TestBody"), FinalSegment, ["2 Cafe ", "NOHA"]);
    output := sink.content;
    ghost var c := Expand(Args1("badcafe"));
    ghost var t := reg.Resolve(NoTopic);
    assert c == Call("badcafe", NoTopic, Warn, true);
    assert t == reg.All()[0];
    assert emitted;
    assert output == Rendered(c, t, config, Site(TestFile, 87, "TestBody"), FinalSegment, ["2 Cafe ", "NOHA"]);
    TestFileShortName();
    ConcatTwo("2 Cafe ", "NOHA");
    CafeNohaText();
    assert config.Decoration() == Decor(false, false, true) && config.appendNewline == true;
    assert output == Line(Prefix(Entry("badcafe", NoTopicId, "default", Warn, "logging.cpp", 87, "TestBody"), Decor(false, false, true)) + "2 Cafe NOHA", true);
    LoggingNoFilenameLine();
  }

  lemma LoggingNoFunctionLocationText()
    ensures Location(true, "logging.cpp", 94) == " logging.cpp:" + "94"
  {
    assert NatToDecimal(94) == "94" by {
      assert NatToDecimal(9) == "9";
    }
  }

  /** The line the statement of test LoggingNoFunction renders. */
  lemma LoggingNoFunctionLine()
    ensures Line(Prefix(Entry("badcafe", NoTopicId, "default", Warn, "logging.cpp", 94, "TestBody"), Decor(false, true, false)) + "2 Cafe NOHA", true)
      == "[badcafe] warning logging.cpp:" + "94" + ": '2 Cafe NOHA'\n"
  {
    RenderLine(Entry("badcafe", NoTopicId, "default", Warn, "logging.cpp", 94, "TestBody"), Decor(false, true, false), "2 Cafe NOHA", true);
    BadcafeWarnHeadText();
    LoggingNoFunctionLocationText();
    BadcafeWarnLocatedFrontText();
    CafeNohaNoFunctionBackText();
    Regroup("", "[badcafe] warning", "", " logging.cpp:", "94", "", "2 Cafe NOHA", "\n");
  }

  /** Without show_function the function is left out. */
  method LoggingNoFunction() returns (output: string)
    ensures output == "[badcafe] warning logging.cpp:" + "94" + ": '2 Cafe NOHA'\n"
  {
    var reg, config, sink := Fixture();
    config.showFunction := false;
    var evaluated, emitted, terminated := LogVariable(Expand(Args1("badcafe")), reg, config, Site(TestFile, 94, "TestBody"), FinalSegment, ["2 Cafe ", "NOHA"]);
    output := sink.content;
    ghost var c := Expand(Args1("badcafe"));
    ghost var t := reg.Resolve(NoTopic);
    assert c == Call("badcafe", NoTopic, Warn, true);
    assert t == reg.All()[0];
    assert emitted;
    assert output == Rendered(c, t, config, Site(TestFile, 94, "TestBody"), FinalSegment, ["2 Cafe ", "NOHA"]);
    TestFileShortName();
    ConcatTwo("2 Cafe ", "NOHA");
    CafeNohaText();
    assert config.Decoration() == Decor(false, true, false) && config.appendNewline == true;
    assert output == Line(Prefix(Entry("badcafe", NoTopicId, "default", Warn, "logging.cpp", 94, "TestBody"), Decor(false, true, false)) + "2 Cafe NOHA", true);
    LoggingNoFunctionLine();
  }

  lemma LoggingNoFileNoFunctionWholeText()
    ensures "[badcafe] warning" + ": '2 Cafe NOHA'\n" == "[badcafe] warning: '2 Cafe NOHA'\n"
  {
  }

  /** The line the statement of test LoggingNoFileNoFunction renders. */
  lemma LoggingNoFileNoFunctionLine()
    ensures Line(Prefix(Entry("badcafe", NoTopicId, "default", Warn, "logging.cpp", 102, "TestBody"), Decor(false, false, false)) + "2 Cafe NOHA", true)
      == "[badcafe] warning: '2 Cafe NOHA'\n"
  {
    RenderLine(Entry("badcafe", NoTopicId, "default", Warn, "logging.cpp", 102, "TestBody"), Decor(false, false, false), "2 Cafe NOHA", true);
    BadcafeWarnHeadText();
    BadcafeWarnFrontText();
    CafeNohaNoFunctionBackText();
    LoggingNoFileNoFunctionWholeText();
    RegroupNoLocation("", "[badcafe] warning", "", "", "2 Cafe NOHA", "\n");
  }

  /** Without both, only id, level and body remain. */
  method LoggingNoFileNoFunction() returns (output: string)
    ensures output == "[badcafe] warning: '2 Cafe NOHA'\n"
  {
    var reg, config, sink := Fixture();
    config.showFilename := false;
    config.showFunction := false;
    var evaluated, emitted, terminated := LogVariable(Expand(Args1("badcafe")), reg, config, Site(TestFile, 102, "TestBody"), FinalSegment, ["2 Cafe ", "NOHA"]);
    output := sink.content;
    ghost var c := Expand(Args1("badcafe"));
    ghost var t := reg.Resolve(NoTopic);
    assert c == Call("badcafe", NoTopic, Warn, true);
    assert t == reg.All()[0];
    assert emitted;
    assert output == Rendered(c, t, config, Site(TestFile, 102, "TestBody"), FinalSegment, ["2 Cafe ", "NOHA"]);
    TestFileShortName();
    ConcatTwo("2 Cafe ", "NOHA");
    CafeNohaText();
    assert config.Decoration() == Decor(false, false, false) && config.appendNewline == true;
    assert output == Line(Prefix(Entry("badcafe", NoTopicId, "default", Warn, "logging.cpp", 102, "TestBody"), Decor(false, false, false)) + "2 Cafe NOHA", true);
    LoggingNoFileNoFunctionLine();
  }

  lemma LoggingIdLevelLocationText()
    ensures Location(true, "logging.cpp", 108) == " logging.cpp:" + "108"
  {
    assert NatToDecimal(108) == "108" by {
      assert NatToDecimal(1) == "1";
      assert NatToDecimal(10) == "10";
    }
  }

  /** The line the statement of test LoggingIdLevel renders. */
  lemma LoggingIdLevelLine()
    ensures Line(Prefix(Entry("log-id", NoTopicId, "default", Error, "logging.cpp", 108, "TestBody"), Decor(false, true, true)) + "Where is Pierre?", true)
      == "[log-id] error logging.cpp:" + "108" + " in TestBody(): 'Where is Pierre?'\n"
  {
    RenderLine(Entry("log-id", NoTopicId, "default", Error, "logging.cpp", 108, "TestBody"), Decor(false, true, true), "Where is Pierre?", true);
    LogIdErrorHeadText();
    TestBodyText();
    LoggingIdLevelLocationText();
    LogIdErrorLocatedFrontText();
    PierreBackText();
    Regroup("", "[log-id] error", "", " logging.cpp:", "108", " in TestBody()", "Where is Pierre?", "\n");
  }

  /** Two arguments: id and level, default topic. */
  method LoggingIdLevel() returns (output: string)
    ensures output == "[log-id] error logging.cpp:" + "108" + " in TestBody(): 'Where is Pierre?'\n"
  {
    var reg, config, sink := Fixture();
    var evaluated, emitted, terminated := LogVariable(Expand(Args2("log-id", Error)), reg, config, Site(TestFile, 108, "TestBody"), FinalSegment, ["Where is Pierre?"]);
    output := sink.content;
    ghost var c := Expand(Args2("log-id", Error));
    ghost var t := reg.Resolve(NoTopic);
    assert c == Call("log-id", NoTopic, Error, true);
    assert t == reg.All()[0];
    assert emitted;
    assert output == Rendered(c, t, config, Site(TestFile, 108, "TestBody"), FinalSegment, ["Where is Pierre?"]);
    TestFileShortName();
    ConcatOne("Where is Pierre?");
    assert config.Decoration() == Decor(false, true, true) && config.appendNewline == true;
    assert output == Line(Prefix(Entry("log-id", NoTopicId, "default", Error, "logging.cpp", 108, "TestBody"), Decor(false, true, true)) + "Where is Pierre?", true);
    LoggingIdLevelLine();
  }

  lemma LoggingIdTopicLevelLocationText()
    ensures Location(true, "logging.cpp", 114) == " logging.cpp:" + "114"
  {
    assert NatToDecimal(114) == "114" by {
      assert NatToDecimal(1) == "1";
      assert NatToDecimal(11) == "11";
    }
  }

  /** The line the statement of test LoggingIdTopicLevel renders. */
  lemma LoggingIdTopicLevelLine()
    ensures Line(Prefix(Entry("log-id", 3, "network", Error, "logging.cpp", 114, "TestBody"), Decor(false, true, true)) + "Where is Pierre?", true)
      == "[log-id] error (network) logging.cpp:" + "114" + " in TestBody(): 'Where is Pierre?'\n"
  {
    RenderLine(Entry("log-id", 3, "network", Error, "logging.cpp", 114, "TestBody"), Decor(false, true, true), "Where is Pierre?", true);
    LogIdErrorHeadText();
    NetworkTopicText();
    TestBodyText();
    LoggingIdTopicLevelLocationText();
    LogIdErrorNetworkLocatedFrontText();
    PierreBackText();
    Regroup("", "[log-id] error", " (network)", " logging.cpp:", "114", " in TestBody()", "Where is Pierre?", "\n");
  }

  /** Three arguments: a non-default topic is annotated after the level. */
  method LoggingIdTopicLevel() returns (output: string)
    ensures output == "[log-id] error (network) logging.cpp:" + "114" + " in TestBody(): 'Where is Pierre?'\n"
  {
    var reg, config, sink := Fixture();
    var evaluated, emitted, terminated := LogVariable(Expand(Args3("log-id", Network, Error)), reg, config, Site(TestFile, 114, "TestBody"), FinalSegment, ["Where is Pierre?"]);
    output := sink.content;
    ghost var c := Expand(Args3("log-id", Network, Error));
    ghost var t := reg.Resolve(Network);
    assert c == Call("log-id", Network, Error, true);
    assert t == reg.All()[2];
    assert emitted;
    assert output == Rendered(c, t, config, Site(TestFile, 114, "TestBody"), FinalSegment, ["Where is Pierre?"]);
    TestFileShortName();
    ConcatOne("Where is Pierre?");
    assert config.Decoration() == Decor(false, true, true) && config.appendNewline == true;
    assert output == Line(Prefix(Entry("log-id", 3, "network", Error, "logging.cpp", 114, "TestBody"), Decor(false, true, true)) + "Where is Pierre?", true);
    LoggingIdTopicLevelLine();
  }

  lemma LoggingConditionTrueLocationText()
    ensures Location(true, "logging.cpp", 120) == " logging.cpp:" + "120"
  {
    assert NatToDecimal(120) == "120" by {
      assert NatToDecimal(1) == "1";
      assert NatToDecimal(12) == "12";
    }
  }

  /** The line the statement of test LoggingConditionTrue renders. */
  lemma LoggingConditionTrueLine()
    ensures Line(Prefix(Entry("log-id", 3, "network", Error, "logging.cpp", 120, "TestBody"), Decor(false, true, true)) + "Where is Pierre?", true)
      == "[log-id] error (network) logging.cpp:" + "120" + " in TestBody(): 'Where is Pierre?'\n"
  {
    RenderLine(Entry("log-id", 3, "network", Error, "logging.cpp", 120, "TestBody"), Decor(false, true, true), "Where is Pierre?", true);
    LogIdErrorHeadText();
    NetworkTopicText();
    TestBodyText();
    LoggingConditionTrueLocationText();
    LogIdErrorNetworkLocatedFrontText();
    PierreBackText();
    Regroup("", "[log-id] error", " (network)", " logging.cpp:", "120", " in TestBody()", "Where is Pierre?", "\n");
  }

  /** Four arguments with a true condition. */
  method LoggingConditionTrue() returns (output: string)
    ensures output == "[log-id] error (network) logging.cpp:" + "120" + " in TestBody(): 'Where is Pierre?'\n"
  {
    var reg, config, sink := Fixture();
    var evaluated, emitted, terminated := LogVariable(Expand(Args4("log-id", Network, Error, true)), reg, config, Site(TestFile, 120, "TestBody"), FinalSegment, ["Where is Pierre?"]);
    output := sink.content;
    ghost var c := Expand(Args4("log-id", Network, Error, true));
    ghost var t := reg.Resolve(Network);
    assert c == Call("log-id", Network, Error, true);
    assert t == reg.All()[2];
    assert emitted;
    assert output == Rendered(c, t, config, Site(TestFile, 120, "TestBody"), FinalSegment, ["Where is Pierre?"]);
    TestFileShortName();
    ConcatOne("Where is Pierre?");
    assert config.Decoration() == Decor(false, true, true) && config.appendNewline == true;
    assert output == Line(Prefix(Entry("log-id", 3, "network", Error, "logging.cpp", 120, "TestBody"), Decor(false, true, true)) + "Where is Pierre?", true);
    LoggingConditionTrueLine();
  }

  lemma LoggingStaticConditionTrueLocationText()
    ensures Location(true, "logging.cpp", 126) == " logging.cpp:" + "126"
  {
    assert NatToDecimal(126) == "126" by {
      assert NatToDecimal(1) == "1";
      assert NatToDecimal(12) == "12";
    }
  }

  /** The line the statement of test LoggingStaticConditionTrue renders. */
  lemma LoggingStaticConditionTrueLine()
    ensures Line(Prefix(Entry("log-id", 3, "network", Error, "logging.cpp", 126, "TestBody"), Decor(false, true, true)) + "Where is Pierre?", true)
      == "[log-id] error (network) logging.cpp:" + "126" + " in TestBody(): 'Where is Pierre?'\n"
  {
    RenderLine(Entry("log-id", 3, "network", Error, "logging.cpp", 126, "TestBody"), Decor(false, true, true), "Where is Pierre?", true);
    LogIdErrorHeadText();
    NetworkTopicText();
    TestBodyText();
    LoggingStaticConditionTrueLocationText();
    LogIdErrorNetworkLocatedFrontText();
    PierreBackText();
    Regroup("", "[log-id] error", " (network)", " logging.cpp:", "126", " in TestBody()", "Where is Pierre?", "\n");
  }

  /** The constant gate with a true condition produces the same line. */
  method LoggingStaticConditionTrue() returns (output: string)
    ensures output == "[log-id] error (network) logging.cpp:" + "126" + " in TestBody(): 'Where is Pierre?'\n"
  {
    var reg, config, sink := Fixture();
    var emitted, terminated := LogConst(Expand(Args4("log-id", Network, Error, true)), reg, config, Site(TestFile, 126, "TestBody"), FinalSegment, ["Where is Pierre?"]);
    output := sink.content;
    ghost var c := Expand(Args4("log-id", Network, Error, true));
    ghost var t := reg.Resolve(Network);
    assert c == Call("log-id", Network, Error, true);
    assert t == reg.All()[2];
    assert emitted;
    assert output == Rendered(c, t, config, Site(TestFile, 126, "TestBody"), FinalSegment, ["Where is Pierre?"]);
    TestFileShortName();
    ConcatOne("Where is Pierre?");
    assert config.Decoration() == Decor(false, true, true) && config.appendNewline == true;
    assert output == Line(Prefix(Entry("log-id", 3, "network", Error, "logging.cpp", 126, "TestBody"), Decor(false, true, true)) + "Where is Pierre?", true);
    LoggingStaticConditionTrueLine();
  }

  lemma LoggingGdbVimLocationText()
    ensures Location(true, "logging.cpp", 157) == " logging.cpp:" + "157"
  {
    assert NatToDecimal(157) == "157" by {
      assert NatToDecimal(1) == "1";
      assert NatToDecimal(15) == "15";
    }
  }

  /** The line the statement of test LoggingGdbVim renders. */
  lemma LoggingGdbVimLine()
    ensures Line(Prefix(Entry("babe", NoTopicId, "default", Warn, "logging.cpp", 157, "TestBody"), Decor(false, true, true)) + "cafe?", true)
      == "[babe] warning logging.cpp:" + "157" + " in TestBody(): 'cafe?'\n"
  {
    RenderLine(Entry("babe", NoTopicId, "default", Warn, "logging.cpp", 157, "TestBody"), Decor(false, true, true), "cafe?", true);
    BabeWarnHeadText();
    TestBodyText();
    LoggingGdbVimLocationText();
    BabeWarnLocatedFrontText();
    CafeBackText();
    Regroup("", "[babe] warning", "", " logging.cpp:", "157", " in TestBody()", "cafe?", "\n");
  }

  /** With the vim and gdb lines compiled out, the plain line. */
  method LoggingGdbVim() returns (output: string)
    ensures output == "[babe] warning logging.cpp:" + "157" + " in TestBody(): 'cafe?'\n"
  {
    var reg, config, sink := Fixture();
    var evaluated, emitted, terminated := LogVariable(Expand(Args1("babe")), reg, config, Site(TestFile, 157, "TestBody"), FinalSegment, ["cafe?"]);
    output := sink.content;
    ghost var c := Expand(Args1("babe"));
    ghost var t := reg.Resolve(NoTopic);
    assert c == Call("babe", NoTopic, Warn, true);
    assert t == reg.All()[0];
    assert emitted;
    assert output == Rendered(c, t, config, Site(TestFile, 157, "TestBody"), FinalSegment, ["cafe?"]);
    TestFileShortName();
    ConcatOne("cafe?");
    assert config.Decoration() == Decor(false, true, true) && config.appendNewline == true;
    assert output == Line(Prefix(Entry("babe", NoTopicId, "default", Warn, "logging.cpp", 157, "TestBody"), Decor(false, true, true)) + "cafe?", true);
    LoggingGdbVimLine();
  }

  lemma LoggingFatalLocationText()
    ensures Location(true, "logging.cpp", 183) == " logging.cpp:" + "183"
  {
    assert NatToDecimal(183) == "183" by {
      assert NatToDecimal(1) == "1";
      assert NatToDecimal(18) == "18";
    }
  }

  /** The line the statement of test LoggingFatal renders. */
  lemma LoggingFatalLine()
    ensures Line(Prefix(Entry("work", 3, "network", Fatal, "logging.cpp", 183, "TestBody"), Decor(false, true, true)) + "What?!?! No Cafe!?!?!? :(", true)
      == "[work] fatal (network) logging.cpp:" + "183" + " in TestBody(): 'What?!?! No Cafe!?!?!? :('\n"
  {
    RenderLine(Entry("work", 3, "network", Fatal, "logging.cpp", 183, "TestBody"), Decor(false, true, true), "What?!?! No Cafe!?!?!? :(", true);
    WorkFatalHeadText();
    NetworkTopicText();
    TestBodyText();
    LoggingFatalLocationText();
    WorkFatalNetworkLocatedFrontText();
    NoCafeBackText();
    Regroup("", "[work] fatal", " (network)", " logging.cpp:", "183", " in TestBody()", "What?!?! No Cafe!?!?!? :(", "\n");
  }

  /** A fatal statement writes its complete line and then ends the process. */
  method LoggingFatal() returns (output: string, terminated: bool)
    ensures terminated
    ensures output == "[work] fatal (network) logging.cpp:" + "183" + " in TestBody(): 'What?!?! No Cafe!?!?!? :('\n"
  {
    var reg, config, sink := Fixture();
    var evaluated, emitted;
    evaluated, emitted, terminated := LogVariable(Expand(Args3("work", Network, Fatal)), reg, config, Site(TestFile, 183, "TestBody"), FinalSegment, ["What?!?! No Cafe!?!?!? :("]);
    output := sink.content;
    ghost var c := Expand(Args3("work", Network, Fatal));
    ghost var t := reg.Resolve(Network);
    assert c == Call("work", Network, Fatal, true);
    assert t == reg.All()[2];
    assert emitted;
    assert output == Rendered(c, t, config, Site(TestFile, 183, "TestBody"), FinalSegment, ["What?!?! No Cafe!?!?!? :("]);
    TestFileShortName();
    ConcatOne("What?!?! No Cafe!?!?!? :(");
    assert config.Decoration() == Decor(false, true, true) && config.appendNewline == true;
    assert output == Line(Prefix(Entry("work", 3, "network", Fatal, "logging.cpp", 183, "TestBody"), Decor(false, true, true)) + "What?!?! No Cafe!?!?!? :(", true);
    LoggingFatalLine();
  }

  lemma LoggingPrependNewlineLocationText()
    ensures Location(true, "logging.cpp", 174) == " logging.cpp:" + "174"
  {
    assert NatToDecimal(174) == "174" by {
      assert NatToDecimal(1) == "1";
      assert NatToDecimal(17) == "17";
    }
  }

  /** The line the statement of test LoggingPrependNewline renders. */
  lemma LoggingPrependNewlineLine()
    ensures Line(Prefix(Entry("babe", NoTopicId, "default", Warn, "logging.cpp", 174, "TestBody"), Decor(true, true, true)) + "2cafe?", false)
      == "\n[babe] warning logging.cpp:" + "174" + " in TestBody(): '2cafe?'"
  {
    RenderLine(Entry("babe", NoTopicId, "default", Warn, "logging.cpp", 174, "TestBody"), Decor(true, true, true), "2cafe?", false);
    BabeWarnHeadText();
    TestBodyText();
    LoggingPrependNewlineLocationText();
    NewlineBabeWarnLocatedFrontText();
    TwoCafeNoNewlineBackText();
    Regroup("\n", "[babe] warning", "", " logging.cpp:", "174", " in TestBody()", "2cafe?", "");
  }

  /** prefix_newline on and append_newline off: a leading newline and no trailing one. */
  method LoggingPrependNewline() returns (output: string)
    ensures output == "\n[babe] warning logging.cpp:" + "174" + " in TestBody(): '2cafe?'"
  {
    var reg, config, sink := Fixture();
    config.prefixNewline := true;
    config.appendNewline := false;
    var evaluated, emitted, terminated := LogVariable(Expand(Args1("babe")), reg, config, Site(TestFile, 174, "TestBody"), FinalSegment, ["2cafe?"]);
    output := sink.content;
    ghost var c := Expand(Args1("babe"));
    ghost var t := reg.Resolve(NoTopic);
    assert c == Call("babe", NoTopic, Warn, true);
    assert t == reg.All()[0];
    assert emitted;
    assert output == Rendered(c, t, config, Site(TestFile, 174, "TestBody"), FinalSegment, ["2cafe?"]);
    TestFileShortName();
    ConcatOne("2cafe?");
    assert config.Decoration() == Decor(true, true, true) && config.appendNewline == false;
    assert output == Line(Prefix(Entry("babe", NoTopicId, "default", Warn, "logging.cpp", 174, "TestBody"), Decor(true, true, true)) + "2cafe?", false);
    LoggingPrependNewlineLine();
  }

  /** A false condition: the level passes and the condition is evaluated, but nothing is written. */
  method LoggingConditionFalse() returns (output: string, evaluated: bool)
    ensures output == "" && evaluated
  {
    var reg, config, sink := Fixture();
    var emitted, terminated;
    evaluated, emitted, terminated := LogVariable(Expand(Args4("log-id", Network, Error, false)), reg, config,
                                                  Site(TestFile, 132, "TestBody"), FinalSegment, ["Where is Pierre?"]);
    output := sink.content;
    assert reg.All()[2] == reg.Resolve(Network);
  }

  /** A level less severe than the topic's: nothing is written and the condition is not evaluated. */
  method LoggingLevelTooLow1() returns (output: string, evaluated: bool)
    ensures output == "" && !evaluated
  {
    var reg, config, sink := Fixture();
    var emitted, terminated;
    evaluated, emitted, terminated := LogVariable(Expand(Args2("id", Info)), reg, config,
                                                  Site(TestFile, 138, "TestBody"), FinalSegment, ["will not be logged"]);
    output := sink.content;
    assert reg.All()[0] == reg.Resolve(NoTopic);
  }

  /** Lowering one topic's activation level below the statement's level silences it. */
  method LoggingLevelTooLow2() returns (output: string, evaluated: bool)
    ensures output == "" && !evaluated
  {
    var reg, config, sink := Fixture();
    reg.network.activationLevel := Error;
    var emitted, terminated;
    evaluated, emitted, terminated := LogVariable(Expand(Args3("music", Network, Warn)), reg, config,
                                                  Site(TestFile, 145, "TestBody"), FinalSegment, ["will not be logged"]);
    output := sink.content;
  }

  /**
   * The runtime check follows set_level_all; the constant check stays at the
   * compiled-in floor. Each sequence holds the answers for error, warn, info
   * and trace on the default topic.
   */
  method ChangeAllLevels() returns (before: seq<bool>, beforeConst: seq<bool>, after: seq<bool>, afterConst: seq<bool>)
    ensures before == [true, true, false, false] && beforeConst == [true, true, false, false]
    ensures after == [true, false, false, false] && afterConst == [true, true, false, false]
  {
    var reg, config, sink := Fixture();
    var t := reg.Resolve(NoTopic);
    assert reg.All()[0] == t;
    before := [VariableLevelIsActive(Error, t), VariableLevelIsActive(Warn, t),
               VariableLevelIsActive(Info, t), VariableLevelIsActive(Trace, t)];
    beforeConst := [ConstexprLevelIsActive(Error), ConstexprLevelIsActive(Warn),
                    ConstexprLevelIsActive(Info), ConstexprLevelIsActive(Trace)];
    reg.SetLevelAll(Error);
    assert reg.All()[0] == t;
    after := [VariableLevelIsActive(Error, t), VariableLevelIsActive(Warn, t),
              VariableLevelIsActive(Info, t), VariableLevelIsActive(Trace, t)];
    afterConst := [ConstexprLevelIsActive(Error), ConstexprLevelIsActive(Warn),
                   ConstexprLevelIsActive(Info), ConstexprLevelIsActive(Trace)];
  }

  /** Raising one topic's activation level to info lets info through on that topic. */
  method ChangeSingleLevel() returns (before: bool, after: bool)
    ensures !before && after
  {
    var reg, config, sink := Fixture();
    assert reg.All()[2] == reg.network;
    before := VariableLevelIsActive(Info, reg.network);
    reg.network.activationLevel := Info;
    after := VariableLevelIsActive(Info, reg.network);
  }

  /** The six names, and "unknown" for a value outside the ranks. */
  lemma LevelsToString()
    ensures LevelName(Fatal) == "fatal" && LevelName(Error) == "error" && LevelName(Warn) == "warning"
    ensures LevelName(Info) == "info" && LevelName(Debug) == "debug" && LevelName(Trace) == "trace"
    ensures LevelName(1337 as Level) == "unknown"
  {
  }
}
