/**
 * The per-statement logger, the built-in topics and the process-wide
 * configuration.
 *
 * A logger is created for one log statement: its constructor builds the
 * message prefix in a buffer, the caller appends the body, and at the end of
 * the statement the destructor writes buffer, closing quote and optional
 * newline to the sink, then ends the process if the level is fatal.
 */
module Logging {
  import opened Levels
  import opened Format

  /** A logging topic: fixed id and name, mutable activation level. */
  class Topic {
    const id: int
    const name: string
    var activationLevel: Level

    constructor (id: int, name: string, activationLevel: Level)
      ensures this.id == id && this.name == name && this.activationLevel == activationLevel
    {
      this.id := id;
      this.name := name;
      this.activationLevel := activationLevel;
    }
  }

  /** The names a call site uses for the built-in topics. */
  datatype TopicName = NoTopic | Dev | Network | Engine

  /** The built-in topics, registered once at start-up. */
  class Registry {
    const noTopic: Topic
    const dev: Topic
    const network: Topic
    const engine: Topic

    /** Every registered topic, in registration order. */
    function All(): seq<Topic> {
      [noTopic, dev, network, engine]
    }

    /** Ids and names of the built-in topics; the ids are distinct, so the topics are too. */
    predicate Valid() {
      noTopic.id == NoTopicId && noTopic.name == "default"
      && dev.id == 2 && dev.name == "development"
      && network.id == 3 && network.name == "network"
      && engine.id == 4 && engine.name == "engine"
    }

    constructor ()
      ensures Valid()
      ensures noTopic.activationLevel == Warn && dev.activationLevel == Debug
      ensures network.activationLevel == Warn && engine.activationLevel == Warn
      ensures fresh(noTopic) && fresh(dev) && fresh(network) && fresh(engine)
    {
      noTopic := new Topic(1, "default", Warn);
      dev := new Topic(2, "development", Debug);
      network := new Topic(3, "network", Warn);
      engine := new Topic(4, "engine", Warn);
    }

    /** The topic object a call-site name stands for. */
    function Resolve(n: TopicName): (t: Topic)
      requires Valid()
      ensures t in All()
      ensures (t.id == NoTopicId) <==> n == NoTopic
    {
      match n
      case NoTopic => noTopic
      case Dev => dev
      case Network => network
      case Engine => engine
    }

    /** Sets the activation level of every registered topic. */
    method SetLevelAll(l: Level)
      requires Valid()
      modifies All()
      ensures forall i :: 0 <= i < |All()| ==> All()[i].activationLevel == l
    {
      var topics := All();
      var i := 0;
      while i < |topics|
        invariant 0 <= i <= |topics|
        invariant forall k :: 0 <= k < i ==> topics[k].activationLevel == l
      {
        topics[i].activationLevel := l;
        i := i + 1;
      }
    }
  }

  /**
   * The output stream. It only ever grows. A stream that fails on every
   * write (`failing`) raises instead of accepting text.
   */
  class Sink {
    var content: string
    var failing: bool

    constructor ()
      ensures content == [] && !failing
    {
      content := [];
      failing := false;
    }

    method Put(s: string) returns (raised: bool)
      modifies this
      ensures raised == failing && failing == old(failing)
      ensures content == if raised then old(content) else old(content) + s
    {
      raised := failing;
      if !raised {
        content := content + s;
      }
    }
  }

  /** The process-wide configuration flags and the stream to log to. */
  class Configuration {
    var prefixNewline: bool
    var appendNewline: bool
    var showFilename: bool
    var showFunction: bool
    var stream: Sink

    constructor (stream: Sink)
      ensures !prefixNewline && appendNewline && showFilename && showFunction
      ensures this.stream == stream
    {
      prefixNewline := false;
      appendNewline := true;
      showFilename := true;
      showFunction := true;
      this.stream := stream;
    }

    /** The flags the logger's constructor reads. */
    function Decoration(): Decor
      reads this
    {
      Decor(prefixNewline, showFilename, showFunction)
    }
  }

  /** Life cycle of one logger. */
  datatype State =
    | Open        // accepting body text
    | Written     // the line is in the sink
    | Terminated  // the line is in the sink and the process has ended (fatal)
    | Dropped     // the sink raised; the line was not written

  class Logger {
    const level: Level
    const out: Sink
    const config: Configuration
    var buffer: string
    var state: State
    /** The prefix the constructor built, and the body pieces appended since. */
    ghost const prefix: string
    ghost var pieces: seq<string>

    ghost predicate Valid()
      reads this
    {
      buffer == prefix + Concat(pieces)
    }

    /** Builds the prefix from the statement's details and the current configuration. */
    constructor (id: string, topic: Topic, level: Level, fileName: string, lineNo: int, func: string,
                 config: Configuration, shorten: string -> string)
      ensures Valid() && state == Open && pieces == []
      ensures this.level == level && this.config == config && out == config.stream
      ensures prefix == Prefix(Entry(id, topic.id, topic.name, level, shorten(fileName), lineNo, func), config.Decoration())
      ensures buffer == prefix
    {
      var b := "";
      if config.prefixNewline {
        b := b + "\n";
      }
      assert b == Lead(config.prefixNewline);
      // id
      b := b + ("[" + id + "] ");
      // level name
      Assoc(Lead(config.prefixNewline), "[" + id + "] ", LevelName(level));
      b := b + LevelName(level);
      assert b == Lead(config.prefixNewline) + Head(id, level);
      // topic, unless it is the default one
      if topic.id != NoTopicId {
        b := b + (" (" + topic.name + ")");
      }
      ghost var e := Entry(id, topic.id, topic.name, level, shorten(fileName), lineNo, func);
      ghost var d := config.Decoration();
      assert b == Lead(d.prefixNewline) + Head(id, level) + TopicTag(e.topicId, e.topicName);
      // the shortened file name and the line
      if config.showFilename {
        b := b + (" " + shorten(fileName) + ":" + IntToDecimal(lineNo));
      }
      assert b == Lead(d.prefixNewline) + Head(id, level) + TopicTag(e.topicId, e.topicName)
        + Location(d.showFilename, e.file, e.line);
      // the function
      if config.showFunction {
        b := b + (" in " + func + "()");
      }
      assert b == Lead(d.prefixNewline) + Head(id, level) + TopicTag(e.topicId, e.topicName)
        + Location(d.showFilename, e.file, e.line) + FunctionTag(d.showFunction, e.func);
      b := b + ": '";
      PrefixInOrder(e, d);
      this.level := level;
      this.config := config;
      out := config.stream;
      buffer := b;
      state := Open;
      prefix := b;
      pieces := [];
    }

    /** The caller's `<<`: appends one piece of body text. */
    method Append(s: string)
      requires Valid() && state == Open
      modifies this
      ensures Valid() && state == Open
      ensures buffer == old(buffer) + s && pieces == old(pieces) + [s]
    {
      ConcatAppend(pieces, s);
      buffer := buffer + s;
      pieces := pieces + [s];
    }

    /**
     * Appends buffer, closing quote and (if configured at this moment) a
     * newline to the sink, then terminates if the level is fatal. A sink
     * that raises leaves its content unchanged and the raise skips the
     * termination.
     */
    method Write() returns (raised: bool)
      requires Valid() && state == Open
      modifies this, out
      ensures raised == old(out.failing) && out.failing == old(out.failing)
      ensures out.content == old(out.content) + (if raised then "" else Line(old(buffer), config.appendNewline))
      ensures buffer == old(buffer) && pieces == old(pieces) && Valid()
      ensures state == if raised then Dropped else if level == Fatal then Terminated else Written
    {
      var text := buffer + "'";
      if config.appendNewline {
        text := text + "\n";
      }
      raised := out.Put(text);
      if raised {
        state := Dropped;
      } else if level == Fatal {
        state := Terminated;
      } else {
        state := Written;
      }
    }

    /** The destructor: writes, and never lets a raise from the write escape. */
    method Finish()
      requires Valid() && state == Open
      modifies this, out
      ensures out.failing == old(out.failing)
      ensures out.content == old(out.content) + (if old(out.failing) then "" else Line(old(buffer), config.appendNewline))
      ensures state == if old(out.failing) then Dropped else if level == Fatal then Terminated else Written
    {
      var raised := Write();
    }
  }
}
