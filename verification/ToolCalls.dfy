/**
 * Tool-call normalization (toolCalls.ts): the index of allowed tools and the resolution of
 * whatever name and argument shape the model produced to one of them.
 */
module ToolCalls {
  import opened Wrappers
  import opened Texts
  import ToolIds

  datatype Json =
    | JNull
    | JBool(flag: bool)
    | JNumber(digits: string)
    | JString(text: string)
    | JArray(items: seq<Json>)
    | JObject(fields: map<string, Json>)

  type Args = map<string, Json>

  /** Library functions of the host language: Unicode lower-casing and JSON parsing. */
  datatype Library = Library(lower: string -> string, parse: string -> Option<Json>)

  datatype SideEffect = Read | Write | Irreversible | Unknown

  /**
   * An allowed tool. `object` stands for the identity of the specification object: the
   * index compares objects, not contents.
   */
  datatype ToolSpec = ToolSpec(object: nat, name: string, properties: set<string>,
                               sideEffect: SideEffect, requiresApproval: bool)
  {
    /** Fails closed: anything but a plain read or write needs a human. */
    predicate NeedsApproval() {
      requiresApproval || (sideEffect != Read && sideEffect != Write)
    }
  }

  type Index = map<string, ToolSpec>

  // ---- Names ----

  const WIRE_NAME_MAX := 64

  function WireChars(name: string): (r: string)
    ensures ToolIds.SafeText(r)
    ensures ToolIds.SafeText(name) ==> r == name
    ensures name != "" ==> r != ""
  {
    if name == "" then ""
    else
      var rest := WireChars(name[1..]);
      if name[0] == '/' then "__" + rest
      else if ToolIds.SafeChar(name[0]) then [name[0]] + rest
      else "_" + rest
  }

  /** Provider-safe function name: `/` becomes `__`, other unsafe characters `_`, cut at 64. */
  function WireName(name: string): (r: string)
    ensures ToolIds.SafeText(r) && |r| <= WIRE_NAME_MAX
    ensures ToolIds.SafeText(name) && |name| <= WIRE_NAME_MAX ==> r == name
  {
    var r := WireChars(name);
    if |r| <= WIRE_NAME_MAX then r else r[..WIRE_NAME_MAX]
  }

  function LowerAscii(s: string): (r: string)
    ensures |r| == |s|
  {
    seq(|s|, i requires 0 <= i < |s| =>
      if 'A' <= s[i] <= 'Z' then ((s[i] as int) + 32) as char else s[i])
  }

  predicate HasPrefixWord(s: string, word: string) {
    |s| > |word| && LowerAscii(s[..|word|]) == word && (s[|word|] == '.' || s[|word|] == ':')
  }

  /** Drops one leading `functions.`, `function:`, `tools.`, `tool:` and the like. */
  function StripPrefixWord(s: string): string {
    if HasPrefixWord(s, "functions") then s[|"functions"| + 1..]
    else if HasPrefixWord(s, "function") then s[|"function"| + 1..]
    else if HasPrefixWord(s, "tools") then s[|"tools"| + 1..]
    else if HasPrefixWord(s, "tool") then s[|"tool"| + 1..]
    else s
  }

  function TrailingDigits(s: string): (n: nat)
    ensures n <= |s|
  {
    if s != "" && '0' <= s[|s| - 1] <= '9' then TrailingDigits(s[..|s| - 1]) + 1 else 0
  }

  /** Drops a trailing `:<digits>`. */
  function StripCount(s: string): string {
    var n := TrailingDigits(s);
    if 0 < n < |s| && s[|s| - n - 1] == ':' then s[..|s| - n - 1] else s
  }

  function CleanName(name: string): string {
    Trim(StripCount(StripPrefixWord(Trim(name))))
  }

  lemma SafeTextIsClean(name: string)
    requires ToolIds.SafeText(name)
    ensures CleanName(name) == name
  {
    TrimKeeps(name);
    assert forall word | HasPrefixWord(name, word) :: !ToolIds.SafeChar(name[|word|]);
    assert StripPrefixWord(name) == name;
    assert StripCount(name) == name;
  }

  // ---- The index of allowed tools ----

  datatype IndexResult = Indexed(index: Index) | Clash(key: string)

  /** The two keys a tool is indexed under. */
  predicate HasKey(spec: ToolSpec, key: string) {
    key == spec.name || key == WireName(spec.name)
  }

  /** Two different tools share this name or wire name. */
  ghost predicate ClashAt(tools: seq<ToolSpec>, key: string) {
    exists s, t :: s in tools && t in tools && s != t && HasKey(s, key) && HasKey(t, key)
  }

  ghost predicate HasClash(tools: seq<ToolSpec>) {
    exists key :: ClashAt(tools, key)
  }

  /** Each tool is found under its name and its wire name, and nothing else is in the index. */
  ghost predicate IndexFor(tools: seq<ToolSpec>, index: Index) {
    && (forall s, k :: s in tools && HasKey(s, k) ==> k in index && index[k] == s)
    && (forall k :: k in index ==> index[k] in tools && HasKey(index[k], k))
  }

  /** Building the index fails exactly when two different tools share a key, and names such a key. */
  method BuildToolIndex(tools: seq<ToolSpec>) returns (r: IndexResult)
    ensures r.Clash? <==> HasClash(tools)
    ensures r.Clash? ==> ClashAt(tools, r.key)
    ensures r.Indexed? ==> IndexFor(tools, r.index)
  {
    var byName: Index := map[];
    for i := 0 to |tools|
      invariant IndexFor(tools[..i], byName)
    {
      var spec := tools[i];
      var keys := [spec.name, WireName(spec.name)];
      var before := byName;
      for j := 0 to |keys|
        invariant forall k :: k in byName <==> k in before || k in keys[..j]
        invariant forall k :: k in before ==> byName[k] == before[k]
        invariant forall k :: k in keys[..j] ==> byName[k] == spec
      {
        var key := keys[j];
        if key in byName && byName[key] != spec {
          assert HasKey(before[key], key) && HasKey(spec, key);
          assert ClashAt(tools, key);
          return Clash(key);
        }
        byName := byName[key := spec];
      }
      assert keys[..|keys|] == keys;
      assert tools[..i + 1] == tools[..i] + [spec];
    }
    assert tools[..|tools|] == tools;
    assert forall s, k :: s in tools && HasKey(s, k) ==> byName[k] == s;
    r := Indexed(byName);
  }

  // ---- Resolution ----

  datatype Problem = BadArguments(name: string) | ExecNeedsToolId | UnknownTool(name: string)

  datatype Resolved = Dispatch(spec: ToolSpec, args: Args) | Unresolved(problem: Problem)

  function ReplaceChar(s: string, a: char, b: char): (r: string)
    ensures |r| == |s|
  {
    seq(|s|, i requires 0 <= i < |s| => if s[i] == a then b else s[i])
  }

  function Candidates(lib: Library, name: string): seq<string> {
    [name,
     lib.lower(ReplaceChar(name, '-', '_')),
     lib.lower(ReplaceChar(name, '_', '-')),
     ReplaceChar(name, '.', '/'),
     WireName(name)]
  }

  function FirstHit(candidates: seq<string>, index: Index): (r: Option<ToolSpec>)
    ensures r.Some? ==> exists k :: k in candidates && k in index && r.value == index[k]
    ensures r.None? ==> forall k :: k in candidates ==> k !in index
  {
    if candidates == [] then None
    else if candidates[0] in index then Some(index[candidates[0]])
    else FirstHit(candidates[1..], index)
  }

  function FindSpec(lib: Library, name: string, index: Index): Option<ToolSpec> {
    FirstHit(Candidates(lib, name), index)
  }

  /** An object, or a string that parses to one. */
  function AsObject(lib: Library, v: Option<Json>): Option<Args> {
    match v
    case Some(JObject(fields)) => Some(fields)
    case Some(JString(text)) =>
      if |Trim(text)| > 0 && Trim(text)[0] == '{' then
        match lib.parse(text)
        case Some(JObject(fields)) => Some(fields)
        case _ => None
      else None
    case _ => None
  }

  function Get(args: Args, key: string): Option<Json> {
    if key in args then Some(args[key]) else None
  }

  const EXEC_ID_KEYS := ["tool_id", "toolId", "id", "tool", "endpoint", "name"]
  const EXEC_SKIP_KEYS := ["tool_id", "toolId", "tool", "endpoint", "params", "arguments", "args"]

  function FirstText(args: Args, keys: seq<string>): Option<string> {
    if keys == [] then None
    else
      match Get(args, keys[0])
      case Some(JString(text)) => if Trim(text) != "" then Some(text) else FirstText(args, keys[1..])
      case _ => FirstText(args, keys[1..])
  }

  function OrElse<T>(a: Option<T>, b: Option<T>): Option<T> {
    if a.Some? then a else b
  }

  /** The parameters of an `exec` call: nested under one of three keys, or flattened beside the id. */
  function ExecParams(lib: Library, args: Args, rawId: string): Args {
    var nested := OrElse(AsObject(lib, Get(args, "params")),
                         OrElse(AsObject(lib, Get(args, "arguments")), AsObject(lib, Get(args, "args"))));
    if nested.Some? then nested.value
    else
      map k | k in args && k !in EXEC_SKIP_KEYS
              && !((k == "id" || k == "name") && args[k] == JString(rawId)) :: args[k]
  }

  function ResolveExec(lib: Library, args: Args, index: Index): Resolved {
    match FirstText(args, EXEC_ID_KEYS)
    case None => Unresolved(ExecNeedsToolId)
    case Some(rawId) =>
      match FindSpec(lib, CleanName(rawId), index)
      case None => Unresolved(UnknownTool(rawId))
      case Some(spec) => Dispatch(spec, ExecParams(lib, args, rawId))
  }

  /** Undoes a `{ params: {…} }` wrapper the tool's own schema does not ask for. */
  function Unwrap(lib: Library, spec: ToolSpec, args: Args): Args {
    var wrapped := AsObject(lib, Get(args, "params"));
    if wrapped.Some? && |args| == 1 && "params" !in spec.properties then wrapped.value else args
  }

  function ResolveNamed(lib: Library, name: string, args: Args, index: Index): Resolved {
    match FindSpec(lib, name, index)
    case None => Unresolved(UnknownTool(name))
    case Some(spec) => Dispatch(spec, Unwrap(lib, spec, args))
  }

  function ResolveToolCall(lib: Library, rawName: string, rawArgs: Json, index: Index): Resolved {
    var name := CleanName(rawName);
    match AsObject(lib, Some(rawArgs))
    case None => Unresolved(BadArguments(name))
    case Some(args) =>
      if name == "exec" && "exec" !in index then ResolveExec(lib, args, index)
      else ResolveNamed(lib, name, args, index)
  }

  // ---- What resolution promises ----

  /** Whatever the model wrote, only an allowed tool is ever dispatched. */
  lemma OnlyAllowedToolsRun(lib: Library, tools: seq<ToolSpec>, index: Index, rawName: string, rawArgs: Json)
    requires IndexFor(tools, index)
    ensures var r := ResolveToolCall(lib, rawName, rawArgs, index);
            r.Dispatch? ==> r.spec in tools
  {
    match AsObject(lib, Some(rawArgs))
    case None =>
    case Some(args) =>
      var name := CleanName(rawName);
      if name == "exec" && "exec" !in index {
        var rawId := FirstText(args, EXEC_ID_KEYS);
        if rawId.Some? {
          var hit := FindSpec(lib, CleanName(rawId.value), index);
        }
      } else {
        var hit := FindSpec(lib, name, index);
      }
  }

  /** The canonical wire name of an allowed tool always resolves back to that tool. */
  lemma WireNameResolvesBack(lib: Library, tools: seq<ToolSpec>, index: Index, spec: ToolSpec, args: Args)
    requires IndexFor(tools, index) && spec in tools
    ensures ResolveToolCall(lib, WireName(spec.name), JObject(args), index)
            == Dispatch(spec, Unwrap(lib, spec, args))
  {
    var wire := WireName(spec.name);
    SafeTextIsClean(wire);
    assert HasKey(spec, wire);
    assert Candidates(lib, wire)[0] == wire;
  }

  /** The arguments look like a `{ params: {…} }` wrapper around others. */
  predicate LooksWrapped(lib: Library, spec: ToolSpec, args: Args) {
    var inner := AsObject(lib, Get(args, "params"));
    inner.Some? && |args| == 1 && "params" !in spec.properties && inner.value != args
  }

  /** The call of a tool through the `exec` meta tool. */
  function ExecCall(name: string, args: Args): Json {
    JObject(map["tool_id" := JString(name), "params" := JObject(args)])
  }

  /**
   * Wrapping a call in the `exec` meta tool dispatches the same tool or none, and hands over the
   * arguments as they are; so it changes nothing exactly when the arguments do not look like a
   * wrapper themselves. Only a blank id and one that means `exec` itself are treated differently.
   */
  lemma ExecWrapperIsTransparent(lib: Library, index: Index, name: string, args: Args)
    requires "exec" !in index
    ensures var direct := ResolveToolCall(lib, name, JObject(args), index);
            var wrapped := ResolveToolCall(lib, "exec", ExecCall(name, args), index);
            && (Trim(name) == "" ==> wrapped == Unresolved(ExecNeedsToolId))
            && (Trim(name) != "" && CleanName(name) != "exec" ==>
                  && direct.Dispatch? == wrapped.Dispatch?
                  && (direct.Dispatch? ==>
                        && direct.spec == wrapped.spec && wrapped.args == args
                        && (direct == wrapped <==> !LooksWrapped(lib, direct.spec, args))))
            && (Trim(name) != "" && CleanName(name) == "exec" ==>
                  && direct == ResolveExec(lib, args, index)
                  && wrapped == match FindSpec(lib, "exec", index)
                                case None => Unresolved(UnknownTool(name))
                                case Some(spec) => Dispatch(spec, args))
  {
    var outer := map["tool_id" := JString(name), "params" := JObject(args)];
    ExecBranch(lib, index, "exec", outer);
    if Trim(name) == "" {
      NoToolId(outer, name, args);
    } else {
      ExecNames(lib, index, name, args, outer);
    }
  }

  lemma NoToolId(outer: Args, name: string, args: Args)
    requires Trim(name) == "" && outer == map["tool_id" := JString(name), "params" := JObject(args)]
    ensures FirstText(outer, EXEC_ID_KEYS) == None
  {
    NoTextAmong(outer, EXEC_ID_KEYS);
  }

  lemma {:induction false} NoTextAmong(args: Args, keys: seq<string>)
    requires forall k :: k in keys && k in args && args[k].JString? ==> Trim(args[k].text) == ""
    ensures FirstText(args, keys) == None
  {
    if keys != [] {
      assert keys[0] in keys;
      NoTextAmong(args, keys[1..]);
    }
  }

  lemma ExecBranch(lib: Library, index: Index, word: string, outer: Args)
    requires word == "exec" && "exec" !in index
    ensures ResolveToolCall(lib, word, JObject(outer), index) == ResolveExec(lib, outer, index)
  {
    SafeTextIsClean(word);
  }

  /** The wrapped call's tool id and parameters are found. */
  lemma ExecNames(lib: Library, index: Index, name: string, args: Args, outer: Args)
    requires Trim(name) != "" && outer == map["tool_id" := JString(name), "params" := JObject(args)]
    ensures FirstText(outer, EXEC_ID_KEYS) == Some(name) && ExecParams(lib, outer, name) == args
  {
    assert EXEC_ID_KEYS[0] == "tool_id" && Get(outer, "tool_id") == Some(JString(name));
    assert Get(outer, "params") == Some(JObject(args));
  }
}
