/**
 * The call-site surface: how a log statement's arguments are completed with
 * defaults, and the guard that decides whether a logger is created at all.
 *
 * The runtime gate tests the level against the topic's current activation
 * level, and only then evaluates the caller's condition. The constant gate
 * tests the level against a floor fixed at compile time, so the topics'
 * current levels play no part in it.
 */
module Gate {
  import opened Levels
  import opened Format
  import opened Logging

  /** The level used when a statement names none: `EXT_LOGGING_DEFAULT_LEVEL`, warn as the tests define it. */
  const DefaultLevel: Level := Warn

  /** The compiled-in floor the constant gate tests against. */
  const CompiledFloor: Level := DefaultLevel

  /** A fully specified log statement. */
  datatype Call = Call(id: string, topic: TopicName, level: Level, cond: bool)

  /** The statement's arguments as the caller wrote them, by arity. */
  datatype Args =
    | Args1(id: string)
    | Args2(id: string, level: Level)
    | Args3(id: string, topic: TopicName, level: Level)
    | Args4(id: string, topic: TopicName, level: Level, cond: bool)

  /** Where the statement stands in the source: file, line and enclosing function. */
  datatype Site = Site(file: string, line: int, func: string)

  /**
   * Completes the arguments: a missing topic is the default topic, a missing
   * level the default level, a missing condition true; given arguments pass
   * through unchanged.
   */
  function Expand(a: Args): (c: Call)
    ensures c.id == a.id
    ensures c.topic == if a.Args1? || a.Args2? then NoTopic else a.topic
    ensures c.level == if a.Args1? then DefaultLevel else a.level
    ensures c.cond == if a.Args4? then a.cond else true
  {
    match a
    case Args1(id) => Call(id, NoTopic, DefaultLevel, true)
    case Args2(id, l) => Call(id, NoTopic, l, true)
    case Args3(id, t, l) => Call(id, t, l, true)
    case Args4(id, t, l, c) => Call(id, t, l, c)
  }

  /** Every shorter form is the four-argument form with the defaults written out. */
  lemma ExpandAsFourArguments(id: string, t: TopicName, l: Level)
    ensures Expand(Args1(id)) == Expand(Args4(id, NoTopic, DefaultLevel, true))
    ensures Expand(Args2(id, l)) == Expand(Args4(id, NoTopic, l, true))
    ensures Expand(Args3(id, t, l)) == Expand(Args4(id, t, l, true))
  {
  }

  /** Which gate a development shortcut goes through. */
  datatype Path = Runtime | Compiled

  /**
   * The development shortcuts: topic dev at the default level, id "$$$$" on
   * the runtime gate and "@@@@" on the constant gate.
   */
  function DevCall(path: Path, cond: bool): (c: Call)
    ensures c == Expand(Args4(if path == Runtime then "$$$$" else "@@@@", Dev, DefaultLevel, cond))
  {
    Call(if path.Runtime? then "$$$$" else "@@@@", Dev, DefaultLevel, cond)
  }

  /** The runtime activation check against the topic's current level. */
  predicate VariableLevelIsActive(l: Level, t: Topic)
    reads t
  {
    Active(l, t.activationLevel)
  }

  /** The compile-time activation check against the fixed floor. */
  predicate ConstexprLevelIsActive(l: Level) {
    Active(l, CompiledFloor)
  }

  /** The line a statement produces under the configuration in force. */
  ghost function Rendered(c: Call, t: Topic, config: Configuration, site: Site,
                          shorten: string -> string, body: seq<string>): string
    reads t, config
  {
    Line(Prefix(Entry(c.id, t.id, t.name, c.level, shorten(site.file), site.line, site.func), config.Decoration())
           + Concat(body),
         config.appendNewline)
  }

  /**
   * One accepted statement: construct the logger, append the body pieces in
   * order, and destroy it (which writes). Returns whether the process ended.
   */
  method Emit(c: Call, t: Topic, config: Configuration, site: Site, shorten: string -> string, body: seq<string>)
    returns (terminated: bool)
    modifies config.stream
    ensures config.stream.failing == old(config.stream.failing)
    ensures config.stream.content == old(config.stream.content)
              + (if old(config.stream.failing) then "" else Rendered(c, t, config, site, shorten, body))
    ensures terminated == (!old(config.stream.failing) && c.level == Fatal)
  {
    var logger := new Logger(c.id, t, c.level, site.file, site.line, site.func, config, shorten);
    var i := 0;
    while i < |body|
      invariant 0 <= i <= |body|
      invariant logger.Valid() && logger.state == Open && logger.pieces == body[..i]
      invariant config.stream.content == old(config.stream.content)
      invariant config.stream.failing == old(config.stream.failing)
    {
      logger.Append(body[i]);
      i := i + 1;
    }
    assert body[..i] == body;
    logger.Finish();
    terminated := logger.state == Terminated;
  }

  /**
   * The runtime gate: the level is checked against the topic's current
   * activation level first, and the condition is evaluated only if that
   * passes; a logger is created only if both hold.
   */
  method LogVariable(c: Call, reg: Registry, config: Configuration, site: Site,
                     shorten: string -> string, body: seq<string>)
    returns (condEvaluated: bool, emitted: bool, terminated: bool)
    requires reg.Valid()
    modifies config.stream
    ensures condEvaluated == VariableLevelIsActive(c.level, reg.Resolve(c.topic))
    ensures emitted == Guard(condEvaluated, c.cond)
    ensures config.stream.failing == old(config.stream.failing)
    ensures config.stream.content == old(config.stream.content)
              + (if emitted && !old(config.stream.failing)
                 then Rendered(c, reg.Resolve(c.topic), config, site, shorten, body) else "")
    ensures terminated == (emitted && !old(config.stream.failing) && c.level == Fatal)
  {
    condEvaluated, emitted, terminated := false, false, false;
    var t := reg.Resolve(c.topic);
    if VariableLevelIsActive(c.level, t) {
      condEvaluated := true;
      if c.cond {
        emitted := true;
        terminated := Emit(c, t, config, site, shorten, body);
      }
    }
  }

  /**
   * The constant gate: the level is checked against the compiled-in floor
   * together with the condition; the topics' activation levels are not read.
   */
  method LogConst(c: Call, reg: Registry, config: Configuration, site: Site,
                  shorten: string -> string, body: seq<string>)
    returns (emitted: bool, terminated: bool)
    requires reg.Valid()
    modifies config.stream
    ensures emitted == Guard(ConstexprLevelIsActive(c.level), c.cond)
    ensures config.stream.failing == old(config.stream.failing)
    ensures config.stream.content == old(config.stream.content)
              + (if emitted && !old(config.stream.failing)
                 then Rendered(c, reg.Resolve(c.topic), config, site, shorten, body) else "")
    ensures terminated == (emitted && !old(config.stream.failing) && c.level == Fatal)
  {
    emitted, terminated := false, false;
    if Guard(ConstexprLevelIsActive(c.level), c.cond) {
      emitted := true;
      terminated := Emit(c, reg.Resolve(c.topic), config, site, shorten, body);
    }
  }

  /**
   * After setting every topic to x, the runtime check on any registered topic
   * accepts exactly the levels numerically at most x.
   */
  lemma ActiveAfterSetLevelAll(reg: Registry, x: Level, l: Level, n: TopicName)
    requires reg.Valid()
    requires forall i :: 0 <= i < |reg.All()| ==> reg.All()[i].activationLevel == x
    ensures VariableLevelIsActive(l, reg.Resolve(n)) <==> l <= x
  {
    var t := reg.Resolve(n);
    var i :| 0 <= i < |reg.All()| && reg.All()[i] == t;
  }

  /**
   * The two gates agree on a topic whose activation level is the compiled-in
   * floor (the constant gate reads no topic level at all).
   */
  lemma GatesAgreeAtFloor(l: Level, t: Topic)
    requires t.activationLevel == CompiledFloor
    ensures VariableLevelIsActive(l, t) <==> ConstexprLevelIsActive(l)
  {
  }

  /**
   * After a topic's level is moved below the floor, a level between the two
   * still passes the constant gate but no longer the runtime gate.
   */
  lemma GatesDisagreeBelowFloor(l: Level, t: Topic)
    requires t.activationLevel < l <= CompiledFloor
    ensures ConstexprLevelIsActive(l) && !VariableLevelIsActive(l, t)
  {
  }

  /**
   * The guard as the preprocessor spells it out when the condition argument
   * is itself a disjunction `left || right`: the argument is pasted without
   * parentheses, and since `&&` binds tighter than `||` the level check
   * covers `left` alone.
   */
  function GuardAsWritten(levelActive: bool, left: bool, right: bool): bool {
    (levelActive && left) || right
  }

  /** With a disjunctive condition the pasted guard lets an inactive level through. */
  lemma GuardAsWrittenIgnoresLevel()
    ensures !Active(Info, DefaultLevel) && GuardAsWritten(Active(Info, DefaultLevel), false, true)
  {
  }

  /** The guard with the condition parenthesized, as the gates above use it. */
  function Guard(levelActive: bool, cond: bool): (r: bool)
    ensures r ==> levelActive
    ensures levelActive ==> r == cond
  {
    levelActive && cond
  }

  /** With the condition parenthesized, no condition lets an inactive level through. */
  lemma GuardNeedsLevel(levelActive: bool, left: bool, right: bool)
    requires !levelActive
    ensures !Guard(levelActive, left || right)
  {
  }
}
