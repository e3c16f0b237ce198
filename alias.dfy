/**
 * The alias command handler: the command table it installs in the
 * dispatcher, the console pass-through (vrun), the fire-and-acknowledge
 * blueprint call (vexec) and the fire-and-capture blueprint call (vbp),
 * which re-implements the engine's call-by-name so that it can report the
 * out, reference and return values of the call.
 */
module Alias {
  import opened Wrappers
  import opened Tokens
  import opened Reflection

  /** The body of a successful answer: nothing, or the result map (sent as a JSON object). */
  datatype Body = NoBody | Fields(entries: map<string, string>)

  /** What a handler answers. */
  datatype ExecStatus = OK(body: Body) | Error(message: string) | InvalidArgument

  /** The handlers this file binds. */
  datatype Handler = VRunHandler | VExecHandler | VExecWithOutputHandler
                   | PersistentLevelIdHandler | LevelScriptActorIdHandler

  /**
   * A command pattern: the literal words and the number of "[str]" slots
   * after them ("vexec [str] [str]" is Signature("vexec", 2)).
   */
  datatype Signature = Signature(name: string, arity: nat)

  datatype Registration = Registration(handler: Handler, help: string)

  const RunHelp := "Run UE4 built-in commands"
  const BlueprintHelp := "Run UE4 blueprint function"
  const LevelHelp := "Get persistent level id, so that we can call BP function defined in it"
  const PersistentLevelPath := "vget /persistent_level/id"
  const LevelScriptActorPath := "vget /persistent_level/level_script_actor/id"

  /** The command table: each pattern is matched by exact words and exact arity. */
  class CommandDispatcher {
    var table: map<Signature, Registration>

    constructor ()
      ensures table == map[]
    {
      table := map[];
    }

    /** The registration for a pattern, if any. */
    function Lookup(name: string, arity: nat): Option<Registration>
      reads this
    {
      Find(table, name, arity)
    }

    /** Bind a pattern to a handler; binding an existing pattern again replaces it. */
    method BindCommand(name: string, arity: nat, handler: Handler, help: string)
      modifies this
      ensures table == old(table)[Signature(name, arity) := Registration(handler, help)]
    {
      table := table[Signature(name, arity) := Registration(handler, help)];
    }
  }

  /** The registration for a pattern in a table, if any. */
  function Find(table: map<Signature, Registration>, name: string, arity: nat): Option<Registration> {
    var s := Signature(name, arity);
    if s in table then Some(table[s]) else None
  }

  /** The table after the alias commands have been bound, in the order they are bound. */
  function WithAliases(table: map<Signature, Registration>): map<Signature, Registration> {
    table
    [Signature("vrun", 1) := Registration(VRunHandler, RunHelp)]
    [Signature("vrun", 2) := Registration(VRunHandler, RunHelp)]
    [Signature("vrun", 3) := Registration(VRunHandler, RunHelp)]
    [Signature("vrun", 4) := Registration(VRunHandler, RunHelp)]
    [Signature("vrun", 5) := Registration(VRunHandler, RunHelp)]
    [Signature("vrun", 6) := Registration(VRunHandler, RunHelp)]
    [Signature("vexec", 2) := Registration(VExecHandler, BlueprintHelp)]
    [Signature("vexec", 3) := Registration(VExecHandler, BlueprintHelp)]
    [Signature("vexec", 4) := Registration(VExecHandler, BlueprintHelp)]
    [Signature("vexec", 5) := Registration(VExecHandler, BlueprintHelp)]
    [Signature("vexec", 6) := Registration(VExecHandler, BlueprintHelp)]
    [Signature("vexec", 7) := Registration(VExecHandler, BlueprintHelp)]
    [Signature("vexec", 8) := Registration(VExecHandler, BlueprintHelp)]
    [Signature("vexec", 9) := Registration(VExecHandler, BlueprintHelp)]
    [Signature("vbp", 2) := Registration(VExecWithOutputHandler, BlueprintHelp)]
    [Signature("vbp", 3) := Registration(VExecWithOutputHandler, BlueprintHelp)]
    [Signature("vbp", 4) := Registration(VExecWithOutputHandler, BlueprintHelp)]
    [Signature("vbp", 5) := Registration(VExecWithOutputHandler, BlueprintHelp)]
    [Signature("vbp", 6) := Registration(VExecWithOutputHandler, BlueprintHelp)]
    [Signature("vbp", 7) := Registration(VExecWithOutputHandler, BlueprintHelp)]
    [Signature("vbp", 8) := Registration(VExecWithOutputHandler, BlueprintHelp)]
    [Signature("vbp", 9) := Registration(VExecWithOutputHandler, BlueprintHelp)]
    [Signature("vbp", 10) := Registration(VExecWithOutputHandler, BlueprintHelp)]
    [Signature("vbp", 11) := Registration(VExecWithOutputHandler, BlueprintHelp)]
    [Signature(PersistentLevelPath, 0) := Registration(PersistentLevelIdHandler, LevelHelp)]
    [Signature(LevelScriptActorPath, 0) := Registration(LevelScriptActorIdHandler, LevelHelp)]
  }

  /** vrun is bound for exactly 1 to 6 arguments. */
  lemma WithAliasesRun(table: map<Signature, Registration>)
    ensures forall n :: (Find(WithAliases(table), "vrun", n) ==
      if 1 <= n <= 6 then Some(Registration(VRunHandler, RunHelp)) else Find(table, "vrun", n))
  {
  }

  /** vexec is bound for exactly 2 to 9 arguments. */
  lemma WithAliasesExec(table: map<Signature, Registration>)
    ensures forall n :: (Find(WithAliases(table), "vexec", n) ==
      if 2 <= n <= 9 then Some(Registration(VExecHandler, BlueprintHelp)) else Find(table, "vexec", n))
  {
  }

  /** vbp is bound for exactly 2 to 11 arguments. */
  lemma WithAliasesCapture(table: map<Signature, Registration>)
    ensures forall n :: (Find(WithAliases(table), "vbp", n) ==
      if 2 <= n <= 11 then Some(Registration(VExecWithOutputHandler, BlueprintHelp)) else Find(table, "vbp", n))
  {
  }

  /** The two level-id paths are bound with no arguments only; their other arities keep their binding. */
  lemma WithAliasesLevels(table: map<Signature, Registration>)
    ensures forall n :: (Find(WithAliases(table), PersistentLevelPath, n) ==
      if n == 0 then Some(Registration(PersistentLevelIdHandler, LevelHelp)) else Find(table, PersistentLevelPath, n))
    ensures forall n :: (Find(WithAliases(table), LevelScriptActorPath, n) ==
      if n == 0 then Some(Registration(LevelScriptActorIdHandler, LevelHelp)) else Find(table, LevelScriptActorPath, n))
  {
  }

  /** Patterns with any other name keep their binding. */
  lemma WithAliasesOthers(table: map<Signature, Registration>)
    ensures forall s: Signature :: s.name !in {"vrun", "vexec", "vbp", PersistentLevelPath, LevelScriptActorPath} ==>
      Find(WithAliases(table), s.name, s.arity) == Find(table, s.name, s.arity)
  {
  }

  /**
   * Each alias arity is bound separately to its handler: vrun takes exactly
   * 1 to 6 arguments, vexec 2 to 9, vbp 2 to 11, the two level queries none;
   * every other pattern, other arities of the five names included, keeps its binding.
   */
  lemma WithAliasesLookup(table: map<Signature, Registration>)
    ensures forall n :: (Find(WithAliases(table), "vrun", n) ==
      if 1 <= n <= 6 then Some(Registration(VRunHandler, RunHelp)) else Find(table, "vrun", n))
    ensures forall n :: (Find(WithAliases(table), "vexec", n) ==
      if 2 <= n <= 9 then Some(Registration(VExecHandler, BlueprintHelp)) else Find(table, "vexec", n))
    ensures forall n :: (Find(WithAliases(table), "vbp", n) ==
      if 2 <= n <= 11 then Some(Registration(VExecWithOutputHandler, BlueprintHelp)) else Find(table, "vbp", n))
    ensures forall n :: (Find(WithAliases(table), PersistentLevelPath, n) ==
      if n == 0 then Some(Registration(PersistentLevelIdHandler, LevelHelp)) else Find(table, PersistentLevelPath, n))
    ensures forall n :: (Find(WithAliases(table), LevelScriptActorPath, n) ==
      if n == 0 then Some(Registration(LevelScriptActorIdHandler, LevelHelp)) else Find(table, LevelScriptActorPath, n))
    ensures forall s: Signature :: s.name !in {"vrun", "vexec", "vbp", PersistentLevelPath, LevelScriptActorPath} ==>
      Find(WithAliases(table), s.name, s.arity) == Find(table, s.name, s.arity)
  {
    WithAliasesRun(table);
    WithAliasesExec(table);
    WithAliasesCapture(table);
    WithAliasesLevels(table);
    WithAliasesOthers(table);
  }

  /** A call handed to the engine's call-by-name: the object and the command line. */
  datatype HostCall = CallByName(obj: ObjectRef, command: string)

  /** A call of a function through the parameter buffer: the object, the function and the filled buffer. */
  datatype Invocation = ProcessEvent(obj: ObjectRef, fn: BlueprintFunction, frame: seq<Value>)

  /**
   * The answer of the capture call for a resolved object, given the command
   * line after the id: the first token names the function; the rest fills
   * the parameters (Walk); then AfterWalk.
   */
  function CaptureCall(host: Host, withEditor: bool, obj: ObjectRef, cmd: string): (ExecStatus, Option<Invocation>)
  {
    var t := Token(cmd);
    if !t.found || !host.nameExists(t.token) then (InvalidArgument, None)
    else match host.findFunction(obj, t.token)
      case None => (InvalidArgument, None)
      case Some(f) =>
        var ps := f.properties;
        AfterWalk(host, obj, f, Walk(host, withEditor, ps, LeadingParms(ps) - 1, 0, t.rest, InitialFrame(ps)))
  }

  /**
   * The answer once the parameters are filled: the call is made only if
   * every import succeeded; the answer is the result map of the buffer,
   * whether or not the call was made.
   */
  function AfterWalk(host: Host, obj: ObjectRef, f: BlueprintFunction, w: WalkOutcome): (ExecStatus, Option<Invocation>)
    requires |w.frame| == |f.properties|
  {
    var ps := f.properties;
    var after := if w.failed then w.frame else ApplyWrites(w.frame, host.processEvent(obj, f, w.frame));
    (OK(Fields(ResultsUpTo(ps, after, |ps|))), if w.failed then None else Some(ProcessEvent(obj, f, w.frame)))
  }

  /** The message for an id that resolves to no object. */
  function NotFound(id: string): string {
    "Can not find actor with id '" + id + "'"
  }

  /** Specification of the capture call (vbp): the argument checks, then CaptureCall on the end-trimmed command line. */
  function ExecWithOutput(host: Host, withEditor: bool, args: seq<string>): (ExecStatus, Option<Invocation>)
  {
    if |args| < 1 then (Error("The ActorId can not be empty."), None)
    else if |args| < 2 then (Error("The blueprint function name can not be empty."), None)
    else match host.objectById(args[0])
      case None => (Error(NotFound(args[0])), None)
      case Some(obj) => CaptureCall(host, withEditor, obj, TrimEnd(JoinSpace(args[1..])))
  }

  /**
   * Reference answer of the capture call for a command line made of plain
   * words: the parameters read the words after the function name one by
   * one (WordWalk); then AfterWalk, as in CaptureCall.
   */
  function CaptureOnWords(host: Host, withEditor: bool, obj: ObjectRef, f: BlueprintFunction, words: seq<string>): (ExecStatus, Option<Invocation>)
  {
    var ps := f.properties;
    AfterWalk(host, obj, f, WordWalk(host, withEditor, ps, LeadingParms(ps) - 1, 0, words, InitialFrame(ps)))
  }

  /**
   * For arguments that are plain words and an object that resolves, vbp
   * answers InvalidArgument exactly when the function name is unknown or the
   * object has no such function; otherwise its parameters read the words
   * after the function name, as the word reference says.
   */
  lemma ExecWithOutputOnWords(host: Host, withEditor: bool, args: seq<string>)
    requires |args| >= 2 && AllPlain(args) && host.objectById(args[0]).Some?
    ensures var obj := host.objectById(args[0]).value;
            ExecWithOutput(host, withEditor, args) ==
              if !host.nameExists(args[1]) then (InvalidArgument, None)
              else match host.findFunction(obj, args[1])
                case None => (InvalidArgument, None)
                case Some(f) => CaptureOnWords(host, withEditor, obj, f, args[2..])
  {
    var ws := args[1..];
    assert AllPlain(ws);
    TrimEndJoinSpace(ws);
    TokenOfJoin(ws);
    assert ws[1..] == args[2..];
    var obj := host.objectById(args[0]).value;
    var found := host.findFunction(obj, args[1]);
    if found.Some? {
      var ps := found.value.properties;
      WalkMatchesWords(host, withEditor, ps, LeadingParms(ps) - 1, 0, args[2..], InitialFrame(ps));
    }
    CaptureCallOnWords(host, withEditor, obj, JoinSpace(ws), args[1], Spaced(args[2..]), args[2..]);
  }

  /**
   * The capture call on a line whose first token is a name and whose rest
   * the walk reads as the words do, is the word reference.
   */
  lemma CaptureCallOnWords(host: Host, withEditor: bool, obj: ObjectRef, cmd: string, name: string, rest: string, words: seq<string>)
    requires Token(cmd) == TokenResult(true, name, rest)
    requires host.findFunction(obj, name).Some? ==>
               var ps := host.findFunction(obj, name).value.properties;
               Walk(host, withEditor, ps, LeadingParms(ps) - 1, 0, rest, InitialFrame(ps)) ==
               WordWalk(host, withEditor, ps, LeadingParms(ps) - 1, 0, words, InitialFrame(ps))
    ensures CaptureCall(host, withEditor, obj, cmd) ==
              if !host.nameExists(name) then (InvalidArgument, None)
              else match host.findFunction(obj, name)
                case None => (InvalidArgument, None)
                case Some(f) => CaptureOnWords(host, withEditor, obj, f, words)
  {
  }

  lemma LiteralWords()
    ensures PlainWord("Obj1") && PlainWord("GetStatus")
  {
    forall k | 0 <= k < 4 ensures WordChar("Obj1"[k]) { }
    forall k | 0 <= k < 9 ensures WordChar("GetStatus"[k]) { }
  }

  /**
   * The last string parameter takes the whole rest of the line: with two or
   * more words after the name of a function whose one parameter is a
   * string, the call receives all of them joined by single spaces (as in
   * vbp Obj1 cheat giveall weapons, which calls cheat with
   * "giveall weapons", not with "giveall").
   */
  lemma TrailingTextCapture(host: Host, id: string, name: string, words: seq<string>, obj: ObjectRef, p: Property)
    requires AllPlain([id, name] + words) && |words| > 1
    requires host.objectById(id) == Some(obj) && host.nameExists(name)
    requires IsPlainParm(p) && !p.isOut && !p.isReference && p.tag == StrTag
    requires host.findFunction(obj, name) == Some(BlueprintFunction(name, [p]))
    requires host.importText(StrTag, JoinSpace(words)) == Some(StrValue(JoinSpace(words)))
    ensures ExecWithOutput(host, false, [id, name] + words).1
            == Some(ProcessEvent(obj, BlueprintFunction(name, [p]), [StrValue(JoinSpace(words))]))
  {
    var args := [id, name] + words;
    ExecWithOutputOnWords(host, false, args);
    var f := BlueprintFunction(name, [p]);
    assert args[2..] == words;
    assert ExecWithOutput(host, false, args) == CaptureOnWords(host, false, obj, f, words);
    LastStringTakesRest(host, p, words);
    assert LeadingParms([p]) - 1 == 0 by {
      assert [p][1..] == [];
    }
  }

  /** A function with one string parameter, given two or more words, imports them all joined. */
  lemma LastStringTakesRest(host: Host, p: Property, words: seq<string>)
    requires IsPlainParm(p) && !p.isOut && !p.isReference && p.tag == StrTag && |words| > 1
    requires host.importText(StrTag, JoinSpace(words)).Some?
    ensures WordWalk(host, false, [p], 0, 0, words, InitialFrame([p]))
            == WalkOutcome(false, [host.importText(StrTag, JoinSpace(words)).value])
  {
    var ps := [p];
    assert LeadingParms(ps) == 1 by {
      assert ps[1..] == [];
    }
    var v := host.importText(StrTag, JoinSpace(words)).value;
    var frame := InitialFrame(ps);
    assert WordText(false, p, true, words) == JoinSpace(words);
    assert frame[0 := v] == [v];
    assert WordWalk(host, false, ps, 0, 0, words, frame) == WordWalk(host, false, ps, 0, 1, Rest(words), [v]);
    assert WordWalk(host, false, ps, 0, 1, Rest(words), [v]) == WalkOutcome(false, [v]);
  }

  /**
   * A call of a function whose only property is a string return value, with
   * no arguments after its name, is made with the zeroed buffer and reports
   * what the call wrote under the property's name.
   */
  lemma ReturnOnlyReported(host: Host, id: string, name: string, obj: ObjectRef, r: Property, value: string)
    requires AllPlain([id, name])
    requires host.objectById(id) == Some(obj) && host.nameExists(name)
    requires r.isParm && r.isReturn && r.tag == StrTag
    requires host.findFunction(obj, name) == Some(BlueprintFunction(name, [r]))
    requires host.processEvent(obj, BlueprintFunction(name, [r]), [StrValue("")]) == map[0 := StrValue(value)]
    ensures ExecWithOutput(host, false, [id, name])
            == (OK(Fields(map[r.name := value])),
                Some(ProcessEvent(obj, BlueprintFunction(name, [r]), [StrValue("")])))
  {
    var args := [id, name];
    ExecWithOutputOnWords(host, false, args);
    assert args[2..] == [];
    CaptureReturnOnly(host, obj, BlueprintFunction(name, [r]), value);
  }

  /** The word reference for a function whose only property is a return value, given no words. */
  lemma CaptureReturnOnly(host: Host, obj: ObjectRef, f: BlueprintFunction, value: string)
    requires |f.properties| == 1
    requires f.properties[0].isParm && f.properties[0].isReturn && f.properties[0].tag == StrTag
    requires host.processEvent(obj, f, [StrValue("")]) == map[0 := StrValue(value)]
    ensures CaptureOnWords(host, false, obj, f, [])
            == (OK(Fields(map[f.properties[0].name := value])), Some(ProcessEvent(obj, f, [StrValue("")])))
  {
    var ps := f.properties;
    var frame := InitialFrame(ps);
    assert frame == [StrValue("")];
    assert LeadingParms(ps) == 0;
    var after := ApplyWrites(frame, map[0 := StrValue(value)]);
    assert after == [StrValue(value)];
    assert Reported(ps, after, 0);
    assert ResultsUpTo(ps, after, 0) == map[];
  }

  /**
   * A failed import skips the call but still answers OK, with the result map
   * of the buffer as it was before any argument was read: the walk writes
   * only input slots, and the map reads only output slots.
   */
  lemma FailedImportReportsInitial(host: Host, withEditor: bool, obj: ObjectRef, cmd: string, f: BlueprintFunction)
    requires Token(cmd).found && host.nameExists(Token(cmd).token)
    requires host.findFunction(obj, Token(cmd).token) == Some(f)
    requires var ps := f.properties;
             Walk(host, withEditor, ps, LeadingParms(ps) - 1, 0, Token(cmd).rest, InitialFrame(ps)).failed
    ensures var ps := f.properties;
            CaptureCall(host, withEditor, obj, cmd) == (OK(Fields(ResultsUpTo(ps, InitialFrame(ps), |ps|))), None)
  {
    var ps := f.properties;
    var frame := InitialFrame(ps);
    var w := Walk(host, withEditor, ps, LeadingParms(ps) - 1, 0, Token(cmd).rest, frame);
    WalkKeepsOtherSlots(host, withEditor, ps, LeadingParms(ps) - 1, 0, Token(cmd).rest, frame);
    forall j | 0 <= j < |ps| && IsOutputSlot(ps[j])
      ensures w.frame[j] == frame[j]
    {
      assert !IsInputSlot(ps, j) by {
        if j < LeadingParms(ps) {
          assert IsPlainParm(ps[j]);
        }
      }
    }
    ResultsUpToOutputsOnly(ps, w.frame, frame, |ps|);
  }

  /**
   * With editor metadata, an input parameter that gets no word takes its
   * declared default: the word reference imports the default text.
   */
  lemma DefaultFallback(host: Host, obj: ObjectRef, f: BlueprintFunction, v: Value)
    requires |f.properties| == 1
    requires var p := f.properties[0];
             IsPlainParm(p) && !p.isOut && !p.isReference && p.cppDefault != ""
             && host.importText(p.tag, p.cppDefault) == Some(v)
    ensures CaptureOnWords(host, true, obj, f, []).1 == Some(ProcessEvent(obj, f, [v]))
  {
    var ps := f.properties;
    assert LeadingParms(ps) == 1 by {
      assert ps[1..] == [];
    }
    var frame := InitialFrame(ps);
    assert WordText(true, ps[0], true, []) == ps[0].cppDefault;
    assert frame[0 := v] == [v];
    assert WordWalk(host, true, ps, 0, 0, [], frame) == WordWalk(host, true, ps, 0, 1, [], [v]);
  }

  /**
   * vbp Obj1 SetSpeed, where SetSpeed's one input parameter declares a
   * default in the editor metadata, calls SetSpeed with the default
   * imported into the parameter.
   */
  lemma DefaultFallbackCall(host: Host, id: string, name: string, obj: ObjectRef, p: Property, v: Value)
    requires AllPlain([id, name])
    requires host.objectById(id) == Some(obj) && host.nameExists(name)
    requires host.findFunction(obj, name) == Some(BlueprintFunction(name, [p]))
    requires IsPlainParm(p) && !p.isOut && !p.isReference && p.cppDefault != ""
    requires host.importText(p.tag, p.cppDefault) == Some(v)
    ensures ExecWithOutput(host, true, [id, name]).1 == Some(ProcessEvent(obj, BlueprintFunction(name, [p]), [v]))
  {
    var args := [id, name];
    ExecWithOutputOnWords(host, true, args);
    assert args[2..] == [];
    DefaultFallback(host, obj, BlueprintFunction(name, [p]), v);
  }

  /**
   * A return value is reported under its property name: vbp Obj1 GetStatus,
   * where GetStatus takes nothing and returns the string "Ready", answers
   * {"ReturnValue": "Ready"}.
   */
  lemma ReturnValueReported(host: Host, obj: ObjectRef, r: Property)
    requires host.objectById("Obj1") == Some(obj) && host.nameExists("GetStatus")
    requires r.isParm && r.isReturn && r.tag == StrTag && r.name == "ReturnValue"
    requires host.findFunction(obj, "GetStatus") == Some(BlueprintFunction("GetStatus", [r]))
    requires host.processEvent(obj, BlueprintFunction("GetStatus", [r]), [StrValue("")]) == map[0 := StrValue("Ready")]
    ensures ExecWithOutput(host, false, ["Obj1", "GetStatus"])
            == (OK(Fields(map["ReturnValue" := "Ready"])),
                Some(ProcessEvent(obj, BlueprintFunction("GetStatus", [r]), [StrValue("")])))
  {
    LiteralWords();
    ReturnOnlyReported(host, "Obj1", "GetStatus", obj, r, "Ready");
  }

  class AliasHandler {
    const dispatcher: CommandDispatcher

    constructor (d: CommandDispatcher)
      ensures dispatcher == d
    {
      dispatcher := d;
    }

    /**
     * Install the alias commands: vrun with 1 to 6 arguments, vexec with 2 to
     * 9, vbp with 2 to 11, each arity bound separately to the same handler,
     * and the two level-id queries without arguments. Every other pattern
     * keeps its binding.
     */
    method RegisterCommands()
      modifies dispatcher
      ensures dispatcher.table == WithAliases(old(dispatcher.table))
      ensures forall n :: (dispatcher.Lookup("vrun", n) ==
        if 1 <= n <= 6 then Some(Registration(VRunHandler, RunHelp)) else old(dispatcher.Lookup("vrun", n)))
      ensures forall n :: (dispatcher.Lookup("vexec", n) ==
        if 2 <= n <= 9 then Some(Registration(VExecHandler, BlueprintHelp)) else old(dispatcher.Lookup("vexec", n)))
      ensures forall n :: (dispatcher.Lookup("vbp", n) ==
        if 2 <= n <= 11 then Some(Registration(VExecWithOutputHandler, BlueprintHelp)) else old(dispatcher.Lookup("vbp", n)))
      ensures dispatcher.Lookup(PersistentLevelPath, 0) == Some(Registration(PersistentLevelIdHandler, LevelHelp))
      ensures dispatcher.Lookup(LevelScriptActorPath, 0) == Some(Registration(LevelScriptActorIdHandler, LevelHelp))
    {
      dispatcher.BindCommand("vrun", 1, VRunHandler, RunHelp);
      dispatcher.BindCommand("vrun", 2, VRunHandler, RunHelp);
      dispatcher.BindCommand("vrun", 3, VRunHandler, RunHelp);
      dispatcher.BindCommand("vrun", 4, VRunHandler, RunHelp);
      dispatcher.BindCommand("vrun", 5, VRunHandler, RunHelp);
      dispatcher.BindCommand("vrun", 6, VRunHandler, RunHelp);

      dispatcher.BindCommand("vexec", 2, VExecHandler, BlueprintHelp);
      dispatcher.BindCommand("vexec", 3, VExecHandler, BlueprintHelp);
      dispatcher.BindCommand("vexec", 4, VExecHandler, BlueprintHelp);
      dispatcher.BindCommand("vexec", 5, VExecHandler, BlueprintHelp);
      dispatcher.BindCommand("vexec", 6, VExecHandler, BlueprintHelp);
      dispatcher.BindCommand("vexec", 7, VExecHandler, BlueprintHelp);
      dispatcher.BindCommand("vexec", 8, VExecHandler, BlueprintHelp);
      dispatcher.BindCommand("vexec", 9, VExecHandler, BlueprintHelp);

      dispatcher.BindCommand("vbp", 2, VExecWithOutputHandler, BlueprintHelp);
      dispatcher.BindCommand("vbp", 3, VExecWithOutputHandler, BlueprintHelp);
      dispatcher.BindCommand("vbp", 4, VExecWithOutputHandler, BlueprintHelp);
      dispatcher.BindCommand("vbp", 5, VExecWithOutputHandler, BlueprintHelp);
      dispatcher.BindCommand("vbp", 6, VExecWithOutputHandler, BlueprintHelp);
      dispatcher.BindCommand("vbp", 7, VExecWithOutputHandler, BlueprintHelp);
      dispatcher.BindCommand("vbp", 8, VExecWithOutputHandler, BlueprintHelp);
      dispatcher.BindCommand("vbp", 9, VExecWithOutputHandler, BlueprintHelp);
      dispatcher.BindCommand("vbp", 10, VExecWithOutputHandler, BlueprintHelp);
      dispatcher.BindCommand("vbp", 11, VExecWithOutputHandler, BlueprintHelp);

      dispatcher.BindCommand(PersistentLevelPath, 0, PersistentLevelIdHandler, LevelHelp);
      dispatcher.BindCommand(LevelScriptActorPath, 0, LevelScriptActorIdHandler, LevelHelp);
      WithAliasesLookup(old(dispatcher.table));
    }

    /**
     * vrun: the console command issued to the first player controller is the
     * arguments joined by single spaces; the answer is always OK. At least
     * one argument is needed: the loop bound is an unsigned count minus one.
     */
    method VRun(args: seq<string>) returns (status: ExecStatus, console: string)
      requires |args| >= 1
      ensures console == JoinSpace(args)
      ensures status == OK(NoBody)
    {
      console := "";
      var n := |args|;
      for i := 0 to n - 1
        invariant console == if i == 0 then "" else JoinSpace(args[..i]) + " "
      {
        if i > 0 {
          assert args[..i + 1] == args[..i] + [args[i]];
          JoinSpaceSnoc(args[..i], args[i]);
        }
        console := console + args[i] + " ";
      }
      status := OK(NoBody);
      if n > 1 {
        assert args == args[..n - 1] + [args[n - 1]];
        JoinSpaceSnoc(args[..n - 1], args[n - 1]);
      }
      console := console + args[n - 1];
    }

    /** The function name followed by " " and each later argument, in order. */
    method BuildCallString(args: seq<string>) returns (cmd: string)
      requires |args| >= 2
      ensures cmd == JoinSpace(args[1..])
    {
      cmd := args[1];
      assert args[1..2] == [args[1]];
      var argId := 2;
      while argId < |args|
        invariant 2 <= argId <= |args|
        invariant cmd == JoinSpace(args[1..argId])
      {
        assert args[1..argId + 1] == args[1..argId] + [args[argId]];
        JoinSpaceSnoc(args[1..argId], args[argId]);
        cmd := cmd + " " + args[argId];
        argId := argId + 1;
      }
      assert args[1..argId] == args[1..];
    }

    /**
     * vexec: check the id and the function name, resolve the object, hand
     * "FuncName arg..." to the engine's call-by-name and turn its success
     * into OK, its failure into an error naming the command and the id. No
     * call is made on the three error paths.
     */
    method VExec(host: Host, args: seq<string>) returns (status: ExecStatus, call: Option<HostCall>)
      ensures |args| == 0 ==> status == Error("The ActorId can not be empty.") && call == None
      ensures |args| == 1 ==> status == Error("The blueprint function name can not be empty.") && call == None
      ensures |args| >= 2 && host.objectById(args[0]).None? ==> status == Error(NotFound(args[0])) && call == None
      ensures |args| >= 2 && host.objectById(args[0]).Some? ==>
        var obj := host.objectById(args[0]).value;
        var cmd := JoinSpace(args[1..]);
        && call == Some(CallByName(obj, cmd))
        && status == if host.callByName(obj, cmd) then OK(NoBody)
                     else Error("Fail to execute the function '" + cmd + "' of " + args[0])
    {
      if |args| < 1 {
        return Error("The ActorId can not be empty."), None;
      }
      var actorId := args[0];
      if |args| < 2 {
        return Error("The blueprint function name can not be empty."), None;
      }
      var obj := host.objectById(actorId);
      if obj.None? {
        return Error(NotFound(actorId)), None;
      }
      var cmd := BuildCallString(args);
      call := Some(CallByName(obj.value, cmd));
      if host.callByName(obj.value, cmd) {
        status := OK(NoBody);
      } else {
        status := Error("Fail to execute the function '" + cmd + "' of " + actorId);
      }
    }

    /**
     * vbp: as vexec up to the object, then the engine's call-by-name done
     * step by step so that the output slots can be reported (CaptureCall).
     * No call is made on an error path or after a failed import; the answer
     * is OK with the result map whenever the function was found.
     */
    method VExecWithOutput(host: Host, withEditor: bool, args: seq<string>) returns (status: ExecStatus, call: Option<Invocation>)
      ensures (status, call) == ExecWithOutput(host, withEditor, args)
      ensures |args| == 0 ==> status == Error("The ActorId can not be empty.") && call == None
      ensures |args| == 1 ==> status == Error("The blueprint function name can not be empty.") && call == None
      ensures |args| >= 2 && host.objectById(args[0]).None? ==> status == Error(NotFound(args[0])) && call == None
      ensures call.Some? ==> status.OK? && call.value.obj == host.objectById(args[0]).value
      ensures !status.OK? ==> call == None
    {
      if |args| < 1 {
        return Error("The ActorId can not be empty."), None;
      }
      var actorId := args[0];
      if |args| < 2 {
        return Error("The blueprint function name can not be empty."), None;
      }
      var obj := host.objectById(actorId);
      if obj.None? {
        return Error(NotFound(actorId)), None;
      }
      var cmd := BuildCallString(args);
      cmd := TrimEnd(cmd);

      // The function name.
      var msg := Token(cmd);
      if !msg.found || !host.nameExists(msg.token) {
        return InvalidArgument, None;
      }
      var found := host.findFunction(obj.value, msg.token);
      if found.None? {
        return InvalidArgument, None;
      }
      var fn := found.value;
      var ps := fn.properties;
      var last := LastParameter(ps);
      var failed, frame := FillParameters(host, withEditor, ps, last, msg.rest);

      // The call, unless an import failed.
      if !failed {
        call := Some(ProcessEvent(obj.value, fn, frame));
        frame := ApplyWrites(frame, host.processEvent(obj.value, fn, frame));
      } else {
        call := None;
      }
      var dict := CollectResults(ps, frame);
      status := OK(Fields(dict));
    }
    /** The index of the last slot of the leading run of parameters (-1 when the run is empty). */
    method LastParameter(ps: seq<Property>) returns (last: int)
      ensures last == LeadingParms(ps) - 1
      ensures last >= 0 ==> IsPlainParm(ps[last]) && (last + 1 == |ps| || !IsPlainParm(ps[last + 1]))
    {
      last := -1;
      var k := 0;
      while k < |ps| && IsPlainParm(ps[k])
        invariant 0 <= k <= LeadingParms(ps)
        invariant last == k - 1
      {
        last := k;
        k := k + 1;
      }
    }

    /**
     * Fill the parameter buffer from the text after the function name: the
     * slots of the leading run in order, out and reference slots skipped, one
     * token per slot (or the default, or the whole rest for a last string
     * parameter); stop at the first failed import.
     */
    method FillParameters(host: Host, withEditor: bool, ps: seq<Property>, last: int, text: string)
      returns (failed: bool, frame: seq<Value>)
      ensures WalkOutcome(failed, frame) == Walk(host, withEditor, ps, last, 0, text, InitialFrame(ps))
    {
      var str := text;
      frame := InitialFrame(ps);
      failed := false;
      var i := 0;
      while i < |ps| && IsPlainParm(ps[i])
        invariant 0 <= i <= LeadingParms(ps)
        invariant |frame| == |ps|
        invariant Walk(host, withEditor, ps, last, i, str, frame) ==
                  Walk(host, withEditor, ps, last, 0, text, InitialFrame(ps))
      {
        if ps[i].isOut || ps[i].isReference {
          i := i + 1;
          continue;
        }
        var remaining := str;
        var tok := Token(str);
        var argStr := tok.token;
        str := tok.rest;
        var foundDefault := false;
        var imported: Option<Value> := None;
        if withEditor && argStr == "" && ps[i].cppDefault != "" {
          foundDefault := true;
          imported := host.importText(ps[i].tag, ps[i].cppDefault);
        }
        if !foundDefault {
          if i == last && ps[i].tag == StrTag && str != "" {
            argStr := TrimStart(remaining);
          }
          imported := host.importText(ps[i].tag, argStr);
        }
        WalkAtInput(host, withEditor, ps, last, i, remaining, frame);
        assert imported == host.importText(ps[i].tag, ArgumentText(withEditor, ps[i], i == last, remaining).0);
        if imported.None? {
          failed := true;
          break;
        }
        frame := frame[i := imported.value];
        i := i + 1;
      }
    }

    /** The result map: every out, reference and return slot with a text form, by name. */
    method CollectResults(ps: seq<Property>, frame: seq<Value>) returns (dict: map<string, string>)
      requires |frame| == |ps|
      ensures dict == ResultsUpTo(ps, frame, |ps|)
    {
      dict := map[];
      var j := 0;
      while j < |ps|
        invariant 0 <= j <= |ps|
        invariant dict == ResultsUpTo(ps, frame, j)
      {
        if IsOutputSlot(ps[j]) {
          var text := CellText(ps[j].tag, frame[j]);
          if text.Some? {
            dict := dict[ps[j].name := text.value];
          }
        }
        j := j + 1;
      }
    }
  }
}
