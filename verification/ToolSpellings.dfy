/** Which spellings of a tool's name, and which shapes of its arguments, reach the tool. */
module ToolSpellings {
  import opened Wrappers
  import opened Texts
  import opened ToolCalls
  import ToolIds

  // ---- Wire names ----

  /** What a wire name has for one character. */
  function WirePiece(c: char): string {
    if c == '/' then "__" else if ToolIds.SafeChar(c) then [c] else "_"
  }

  /** A wire name is made of the pieces of the name's characters, in order, and cut after 64. */
  lemma WireNamePieces(name: string, c: char)
    ensures WireChars("") == "" && WireChars(name + [c]) == WireChars(name) + WirePiece(c)
    ensures WireName(name) <= WireChars(name)
    ensures |WireName(name)| == if |WireChars(name)| <= 64 then |WireChars(name)| else 64
  {
    OnePieceMore(name, c);
  }

  lemma {:induction false} OnePieceMore(name: string, c: char)
    ensures WireChars(name + [c]) == WireChars(name) + WirePiece(c)
  {
    hide WireChars, WirePiece, ToolIds.SafeText;
    var more := name + [c];
    FirstPiece(more);
    if name == "" {
      assert more[1..] == "";
      FirstPiece("");
    } else {
      OnePieceMore(name[1..], c);
      FirstPiece(name);
      assert more[1..] == name[1..] + [c];
    }
  }

  lemma FirstPiece(name: string)
    ensures WireChars(name) == if name == "" then "" else WirePiece(name[0]) + WireChars(name[1..])
  {
  }

  // ---- Slips in names ----

  predicate AllSpace(s: string) {
    forall k :: 0 <= k < |s| ==> IsSpace(s[k])
  }

  predicate AllDigits(s: string) {
    forall k :: 0 <= k < |s| ==> '0' <= s[k] <= '9'
  }

  /** A word that models put before a tool's name, in any case. */
  predicate IsWord(word: string) {
    LowerAscii(word) in {"functions", "function", "tools", "tool"}
  }

  /** Such a word with its dot or colon, or nothing. */
  predicate IsPrefix(prefix: string) {
    prefix == "" || (prefix[|prefix| - 1] in {'.', ':'} && IsWord(prefix[..|prefix| - 1]))
  }

  /** A counter that models put behind it. */
  predicate IsCount(count: string) {
    count == "" || (|count| >= 2 && count[0] == ':' && AllDigits(count[1..]))
  }

  lemma TrimsSpace(lead: string, s: string, trail: string)
    requires AllSpace(lead) && AllSpace(trail) && s != "" && !IsSpace(s[0]) && !IsSpace(s[|s| - 1])
    ensures Trim(lead + s + trail) == s
  {
    TrimsLead(lead, s + trail);
    assert lead + s + trail == lead + (s + trail);
    TrimsTrail(s, trail);
  }

  lemma {:induction false} TrimsLead(lead: string, s: string)
    requires AllSpace(lead) && s != "" && !IsSpace(s[0])
    ensures TrimStart(lead + s) == s
    decreases |lead|
  {
    if lead == "" {
      assert lead + s == s;
    } else {
      assert (lead + s)[1..] == lead[1..] + s;
      TrimsLead(lead[1..], s);
    }
  }

  lemma {:induction false} TrimsTrail(s: string, trail: string)
    requires AllSpace(trail) && s != "" && !IsSpace(s[|s| - 1])
    ensures TrimEnd(s + trail) == s
    decreases |trail|
  {
    if trail == "" {
      assert s + trail == s;
    } else {
      var n := |trail| - 1;
      assert (s + trail)[..|s + trail| - 1] == s + trail[..n];
      TrimsTrail(s, trail[..n]);
    }
  }

  lemma LowerAsciiAt(s: string)
    ensures |LowerAscii(s)| == |s|
    ensures forall k :: 0 <= k < |s| ==>
              LowerAscii(s)[k] == if 'A' <= s[k] <= 'Z' then ((s[k] as int) + 32) as char else s[k]
  {
  }

  /** A word has letters only, so the first dot or colon ends it. */
  lemma WordsAreLetters(word: string)
    requires IsWord(word)
    ensures word != "" && ToolIds.SafeText(word) && forall k :: 0 <= k < |word| ==> !('0' <= word[k] <= '9')
  {
    LowerAsciiAt(word);
    forall k | 0 <= k < |word|
      ensures ToolIds.SafeChar(word[k]) && !('0' <= word[k] <= '9')
    {
      assert 'a' <= LowerAscii(word)[k] <= 'z';
    }
  }

  lemma HasWord(s: string, word: string)
    requires word in {"functions", "function", "tools", "tool"}
    ensures HasPrefixWord(s, word) ==>
              IsPrefix(s[..|word| + 1]) && IsWord(s[..|word|]) && s == s[..|word| + 1] + s[|word| + 1..]
  {
    if HasPrefixWord(s, word) {
      assert s[..|word| + 1][..|word|] == s[..|word|];
    }
  }

  /** One prefix goes if there is one; a text without keeps all of itself. */
  lemma PrefixIsDropped(prefix: string, rest: string)
    requires IsPrefix(prefix) && prefix != ""
    ensures StripPrefixWord(prefix + rest) == rest
  {
    var s, n := prefix + rest, |prefix| - 1;
    assert s[..n] == prefix[..n] && s[n] == prefix[n] && s[n + 1..] == rest;
    forall word | word in {"functions", "function", "tools", "tool"} && HasPrefixWord(s, word)
      ensures |word| == n
    {
      HasWord(s, word);
      SameWord(s, |word|, n);
    }
  }

  lemma SameWord(s: string, m: nat, n: nat)
    requires m < |s| && n < |s| && IsWord(s[..m]) && IsWord(s[..n])
    requires s[m] in {'.', ':'} && s[n] in {'.', ':'}
    ensures m == n
  {
    WordsAreLetters(s[..m]);
    WordsAreLetters(s[..n]);
    assert forall k :: 0 <= k < m ==> s[..m][k] == s[k];
    assert forall k :: 0 <= k < n ==> s[..n][k] == s[k];
    assert !ToolIds.SafeChar(s[m]) && !ToolIds.SafeChar(s[n]);
  }

  lemma PrefixOrNothing(s: string)
    ensures StripPrefixWord(s) == s || exists p :: p != "" && IsPrefix(p) && s == p + StripPrefixWord(s)
  {
    HasWord(s, "functions");
    HasWord(s, "function");
    HasWord(s, "tools");
    HasWord(s, "tool");
  }

  lemma {:induction false} CountDigits(s: string, digits: string)
    requires AllDigits(digits) && s != "" && !('0' <= s[|s| - 1] <= '9')
    ensures TrailingDigits(s + digits) == |digits|
    decreases |digits|
  {
    if digits == "" {
      assert s + digits == s;
    } else {
      var n := |digits| - 1;
      assert (s + digits)[..|s + digits| - 1] == s + digits[..n];
      CountDigits(s, digits[..n]);
    }
  }

  /** One counter goes if there is one. */
  lemma CountIsDropped(s: string, count: string)
    requires IsCount(count) && count != ""
    ensures StripCount(s + count) == s
  {
    var digits, all := count[1..], s + count;
    assert all == (s + [':']) + digits;
    CountDigits(s + [':'], digits);
    assert all[|all| - |digits| - 1] == ':' && all[..|all| - |digits| - 1] == s;
  }

  lemma {:induction false} DigitsAtEnd(s: string)
    ensures forall k :: |s| - TrailingDigits(s) <= k < |s| ==> '0' <= s[k] <= '9'
    decreases |s|
  {
    if s != "" && '0' <= s[|s| - 1] <= '9' {
      var t := s[..|s| - 1];
      DigitsAtEnd(t);
      assert forall k :: 0 <= k < |t| ==> t[k] == s[k];
    }
  }

  lemma CountOrNothing(s: string)
    ensures StripCount(s) == s || exists c :: c != "" && IsCount(c) && s == StripCount(s) + c
  {
    var n := TrailingDigits(s);
    DigitsAtEnd(s);
    if 0 < n < |s| && s[|s| - n - 1] == ':' {
      var at := |s| - n - 1;
      var c := s[at..];
      assert forall k :: 1 <= k < |c| ==> c[k] == s[at + k];
      assert s == StripCount(s) + c;
    }
  }

  /**
   * White space around a tool's name, one prefix word before it and one counter behind it are
   * forgiven, in any mixture, unless a counter follows a name that is a prefix word itself: of
   * `tool:1` only the 1 is left.
   */
  lemma SlipsAreForgivenExactly(lead: string, prefix: string, name: string, count: string, trail: string)
    requires AllSpace(lead) && IsPrefix(prefix) && IsCount(count) && AllSpace(trail)
    requires name != "" && ToolIds.SafeText(name)
    ensures CleanName(lead + prefix + name + count + trail) == name
            <==> !(prefix == "" && count != "" && IsWord(name))
  {
    hide Trim, IsSpace, AllSpace, StripPrefixWord, StripCount, IsWord, IsPrefix, IsCount, ToolIds.SafeText;
    var core := prefix + name + count;
    EndsAreNoSpace(prefix, name, count);
    assert lead + prefix + name + count + trail == lead + core + trail;
    TrimsSpace(lead, core, trail);
    CoreExactly(prefix, name, count);
  }

  lemma CoreExactly(prefix: string, name: string, count: string)
    requires IsPrefix(prefix) && IsCount(count) && name != "" && ToolIds.SafeText(name)
    ensures Trim(StripCount(StripPrefixWord(prefix + name + count))) == name
            <==> !(prefix == "" && count != "" && IsWord(name))
  {
    hide Trim, IsSpace, StripPrefixWord, StripCount, IsWord, ToolIds.SafeText;
    var core := prefix + name + count;
    if prefix != "" {
      PrefixIsDropped(prefix, name + count);
      assert core == prefix + (name + count);
      NameIsLeft(name, count);
    } else if count != "" && IsWord(name) {
      var word := name + [':'];
      assert word[..|word| - 1] == name;
      assert core == word + count[1..];
      PrefixIsDropped(word, count[1..]);
      DigitsAreLeft(name, count[1..]);
    } else {
      assert core == name + count;
      NothingToDrop(name, count);
      NameIsLeft(name, count);
    }
  }

  lemma EndsAreNoSpace(prefix: string, name: string, count: string)
    requires IsPrefix(prefix) && IsCount(count) && name != "" && ToolIds.SafeText(name)
    ensures var core := prefix + name + count; !IsSpace(core[0]) && !IsSpace(core[|core| - 1])
  {
    if prefix != "" {
      WordsAreLetters(prefix[..|prefix| - 1]);
      assert prefix[0] == prefix[..|prefix| - 1][0];
    }
    if count != "" {
      assert count[|count| - 1] == count[1..][|count| - 2];
    }
  }

  lemma NameIsLeft(name: string, count: string)
    requires IsCount(count) && name != "" && ToolIds.SafeText(name)
    ensures Trim(StripCount(name + count)) == name
  {
    if count != "" {
      CountIsDropped(name, count);
    } else {
      assert name + count == name;
    }
    TrimKeeps(name);
  }

  lemma DigitsAreLeft(name: string, digits: string)
    requires IsWord(name) && digits != "" && AllDigits(digits)
    ensures Trim(StripCount(digits)) != name
  {
    CountOrNothing(digits);
    assert StripCount(digits) == digits;
    TrimKeeps(digits);
    WordsAreLetters(name);
  }

  lemma NothingToDrop(name: string, count: string)
    requires IsCount(count) && name != "" && ToolIds.SafeText(name)
    requires count == "" || !IsWord(name)
    ensures StripPrefixWord(name + count) == name + count
  {
    PrefixOrNothing(name + count);
    OnlyPrefixIsName(name, count);
  }

  lemma OnlyPrefixIsName(name: string, count: string)
    requires IsCount(count) && ToolIds.SafeText(name)
    ensures forall p, rest :: p != "" && IsPrefix(p) && name + count == p + rest ==> IsWord(name) && count != ""
  {
    forall p, rest | p != "" && IsPrefix(p) && name + count == p + rest
      ensures IsWord(name) && count != ""
    {
      PrefixIsName(name, count, p, rest);
    }
  }

  lemma PrefixIsName(name: string, count: string, p: string, rest: string)
    requires IsCount(count) && ToolIds.SafeText(name)
    requires p != "" && IsPrefix(p) && name + count == p + rest
    ensures IsWord(name) && count != ""
  {
    var s, n := name + count, |p| - 1;
    WordsAreLetters(p[..n]);
    assert s[..n] == p[..n] && s[n] == p[n] && !ToolIds.SafeChar(s[n]);
    assert forall k :: 0 <= k < n ==> s[k] == p[..n][k] && ToolIds.SafeChar(s[k]);
    assert forall k :: 0 <= k < |name| ==> s[k] == name[k] && ToolIds.SafeChar(s[k]);
    assert n == |name|;
    assert name == s[..n];
  }

  /** So a slip of an allowed tool's wire name still reaches the tool. */
  lemma SlipReachesTool(lib: Library, tools: seq<ToolSpec>, index: Index, spec: ToolSpec, args: Args,
                        lead: string, prefix: string, count: string, trail: string)
    requires IndexFor(tools, index) && spec in tools && spec.name != ""
    requires AllSpace(lead) && IsPrefix(prefix) && IsCount(count) && AllSpace(trail)
    requires !(prefix == "" && count != "" && IsWord(WireName(spec.name)))
    ensures ResolveToolCall(lib, lead + prefix + WireName(spec.name) + count + trail, JObject(args), index)
            == Dispatch(spec, Unwrap(lib, spec, args))
  {
    hide CleanName, Unwrap, ReplaceChar, IsWord, IsPrefix, IsCount, AllSpace;
    var wire := WireName(spec.name);
    SlipsAreForgivenExactly(lead, prefix, wire, count, trail);
    assert HasKey(spec, wire);
    assert Candidates(lib, wire)[0] == wire;
  }

  // ---- Spellings tried ----

  /** `t` is `s` with each `a` written as `b`. */
  predicate Respells(s: string, a: char, b: char, t: string) {
    |t| == |s| && forall k :: 0 <= k < |s| ==> t[k] == if s[k] == a then b else s[k]
  }

  /** The spellings of a name in the order they are looked up. */
  ghost predicate IsSpelling(lib: Library, name: string, rank: nat, t: string) {
    || (rank == 0 && t == name)
    || (rank == 1 && exists u :: Respells(name, '-', '_', u) && t == lib.lower(u))
    || (rank == 2 && exists u :: Respells(name, '_', '-', u) && t == lib.lower(u))
    || (rank == 3 && Respells(name, '.', '/', t))
    || (rank == 4 && t == WireName(name))
  }

  lemma SpellingExactly(lib: Library, name: string, rank: nat, t: string)
    ensures |Candidates(lib, name)| == 5
    ensures IsSpelling(lib, name, rank, t) <==> rank < 5 && Candidates(lib, name)[rank] == t
  {
    RespellingIsOne(name, '-', '_');
    RespellingIsOne(name, '_', '-');
    RespellingIsOne(name, '.', '/');
  }

  lemma RespellingIsOne(s: string, a: char, b: char)
    ensures forall t :: Respells(s, a, b, t) <==> t == ReplaceChar(s, a, b)
  {
    forall t | Respells(s, a, b, t) ensures t == ReplaceChar(s, a, b) {}
  }

  lemma {:induction false} FirstHitIsFirst(candidates: seq<string>, index: Index)
    ensures match FirstHit(candidates, index)
            case None => forall j :: 0 <= j < |candidates| ==> candidates[j] !in index
            case Some(spec) =>
              exists i :: 0 <= i < |candidates| && candidates[i] in index && index[candidates[i]] == spec
                          && forall j :: 0 <= j < i ==> candidates[j] !in index
  {
    if candidates != [] && candidates[0] !in index {
      var rest := candidates[1..];
      FirstHitIsFirst(rest, index);
      assert forall j :: 0 < j < |candidates| ==> candidates[j] == rest[j - 1];
      match FirstHit(rest, index)
      case None =>
      case Some(spec) =>
        var i :| 0 <= i < |rest| && rest[i] in index && index[rest[i]] == spec
                 && forall j :: 0 <= j < i ==> rest[j] !in index;
        assert candidates[i + 1] == rest[i];
    }
  }

  /** The tool of the first spelling that is in the index is meant, and there is none if no spelling is. */
  lemma FirstSpellingWins(lib: Library, name: string, index: Index)
    ensures match FindSpec(lib, name, index)
            case None => forall rank: nat, t :: IsSpelling(lib, name, rank, t) ==> t !in index
            case Some(spec) =>
              exists rank: nat, t ::
                && IsSpelling(lib, name, rank, t) && t in index && index[t] == spec
                && forall j: nat, u :: j < rank && IsSpelling(lib, name, j, u) ==> u !in index
  {
    hide IsSpelling, Candidates, FirstHit;
    var all := Candidates(lib, name);
    FirstHitIsFirst(all, index);
    forall rank: nat, t ensures IsSpelling(lib, name, rank, t) <==> rank < |all| && all[rank] == t {
      SpellingExactly(lib, name, rank, t);
    }
    match FirstHit(all, index)
    case None =>
    case Some(spec) =>
      var i: nat :| i < |all| && all[i] in index && index[all[i]] == spec
                    && forall j :: 0 <= j < i ==> all[j] !in index;
      assert IsSpelling(lib, name, i, all[i]);
  }

  // ---- Shapes of arguments ----

  /** Arguments as an object, or as text that holds one. */
  ghost predicate Holds(lib: Library, v: Json, fields: Args) {
    || v == JObject(fields)
    || (v.JString? && Trim(v.text) != "" && Trim(v.text)[0] == '{' && lib.parse(v.text) == Some(JObject(fields)))
  }

  /** Every way to hold the same arguments resolves alike; anything else is refused with the clean name. */
  lemma ArgumentsExactly(lib: Library, name: string, v: Json, index: Index)
    ensures forall fields :: Holds(lib, v, fields) ==>
              ResolveToolCall(lib, name, v, index) == ResolveToolCall(lib, name, JObject(fields), index)
    ensures (forall fields :: !Holds(lib, v, fields)) <==>
            ResolveToolCall(lib, name, v, index) == Unresolved(BadArguments(CleanName(name)))
  {
    var o := AsObject(lib, Some(v));
    assert forall fields :: Holds(lib, v, fields) <==> o == Some(fields);
    if o.Some? {
      assert Holds(lib, v, o.value);
    }
  }

  /** An `exec` call is one by its clean name only, and only while no tool has that name. */
  predicate IsExec(name: string, index: Index) {
    CleanName(name) == "exec" && "exec" !in index
  }

  /**
   * A call reaches the tool its clean name finds. A lone `params` that the tool's schema does not
   * have is taken for the arguments it holds; all other arguments are passed on as they are.
   */
  lemma CallExactly(lib: Library, name: string, args: Args, index: Index)
    ensures IsExec(name, index) ==> ResolveToolCall(lib, name, JObject(args), index) == ResolveExec(lib, args, index)
    ensures !IsExec(name, index) ==>
              var found := FindSpec(lib, CleanName(name), index);
              match ResolveToolCall(lib, name, JObject(args), index)
              case Unresolved(problem) => found == None && problem == UnknownTool(CleanName(name))
              case Dispatch(spec, passed) =>
                && found == Some(spec)
                && if "params" in args && args.Keys == {"params"} && "params" !in spec.properties
                      && (exists inner :: Holds(lib, args["params"], inner))
                   then Holds(lib, args["params"], passed) else passed == args
  {
    var wrapped := AsObject(lib, Get(args, "params"));
    if "params" in args {
      assert forall inner :: Holds(lib, args["params"], inner) <==> wrapped == Some(inner);
      OneKey(args, "params");
    }
  }

  lemma OneKey(args: Args, key: string)
    requires key in args
    ensures |args| == 1 <==> args.Keys == {key}
  {
    assert |args| == |args.Keys|;
    var rest := args.Keys - {key};
    assert args.Keys == rest + {key} && |args.Keys| == |rest| + 1;
  }

  /** The key has a text that is not blank. */
  predicate HasText(args: Args, key: string) {
    key in args && args[key].JString? && Trim(args[key].text) != ""
  }

  /** The key under which an `exec` call names the tool: the first of six with such a text. */
  ghost predicate IdKey(args: Args, key: string) {
    var keys := ["tool_id", "toolId", "id", "tool", "endpoint", "name"];
    exists i :: 0 <= i < 6 && keys[i] == key && HasText(args, key)
                && forall j :: 0 <= j < i ==> !HasText(args, keys[j])
  }

  /** The key holds an object. */
  ghost predicate IsNested(lib: Library, args: Args, key: string) {
    key in args && exists inner :: Holds(lib, args[key], inner)
  }

  /**
   * What an `exec` call passes on: the object under `params`, else under `arguments`, else under
   * `args`; without one, whatever lies beside the tool's id.
   */
  ghost predicate PassedOn(lib: Library, args: Args, id: string, passed: Args) {
    if IsNested(lib, args, "params") then Holds(lib, args["params"], passed)
    else if IsNested(lib, args, "arguments") then Holds(lib, args["arguments"], passed)
    else if IsNested(lib, args, "args") then Holds(lib, args["args"], passed)
    else
      && (forall k :: k in passed ==> k in args && passed[k] == args[k])
      && (forall k :: k in args ==>
            (k !in passed <==>
               || k in {"tool_id", "toolId", "tool", "endpoint", "params", "arguments", "args"}
               || (k in {"id", "name"} && args[k] == JString(id))))
  }

  /** An `exec` call reaches the tool its id names, with exactly the parameters it carries. */
  lemma ExecExactly(lib: Library, args: Args, index: Index)
    ensures match ResolveExec(lib, args, index)
            case Dispatch(spec, passed) =>
              exists key :: IdKey(args, key) && FindSpec(lib, CleanName(args[key].text), index) == Some(spec)
                            && PassedOn(lib, args, args[key].text, passed)
            case Unresolved(ExecNeedsToolId) => forall key :: !IdKey(args, key)
            case Unresolved(problem) =>
              exists key :: IdKey(args, key) && FindSpec(lib, CleanName(args[key].text), index) == None
                            && problem == UnknownTool(args[key].text)
  {
    hide PassedOn, FirstText, FindSpec, CleanName, ExecParams, IdKey;
    IdKeyExactly(args);
    var id := FirstText(args, EXEC_ID_KEYS);
    if id.Some? {
      PassesParams(lib, args, id.value);
    }
  }

  lemma PassesParams(lib: Library, args: Args, id: string)
    ensures PassedOn(lib, args, id, ExecParams(lib, args, id))
  {
    NestedExactly(lib, args, "params");
    NestedExactly(lib, args, "arguments");
    NestedExactly(lib, args, "args");
    hide Holds, AsObject, IsNested;
  }

  lemma NestedExactly(lib: Library, args: Args, key: string)
    ensures var o := AsObject(lib, Get(args, key));
            (IsNested(lib, args, key) <==> o.Some?) && (o.Some? ==> Holds(lib, args[key], o.value))
  {
    if key in args {
      var o := AsObject(lib, Get(args, key));
      assert forall inner :: Holds(lib, args[key], inner) <==> o == Some(inner);
    }
  }

  lemma IdKeyExactly(args: Args)
    ensures match FirstText(args, EXEC_ID_KEYS)
            case None => forall key :: !IdKey(args, key)
            case Some(id) => exists key :: IdKey(args, key) && args[key].text == id
  {
    FirstTextIsFirst(args, EXEC_ID_KEYS);
    match FirstText(args, EXEC_ID_KEYS)
    case None =>
    case Some(id) =>
      var i :| 0 <= i < |EXEC_ID_KEYS| && HasText(args, EXEC_ID_KEYS[i]) && args[EXEC_ID_KEYS[i]].text == id
               && forall j :: 0 <= j < i ==> !HasText(args, EXEC_ID_KEYS[j]);
      assert IdKey(args, EXEC_ID_KEYS[i]);
  }

  lemma {:induction false} FirstTextIsFirst(args: Args, keys: seq<string>)
    ensures match FirstText(args, keys)
            case None => forall j :: 0 <= j < |keys| ==> !HasText(args, keys[j])
            case Some(id) =>
              exists i :: 0 <= i < |keys| && HasText(args, keys[i]) && args[keys[i]].text == id
                          && forall j :: 0 <= j < i ==> !HasText(args, keys[j])
  {
    if keys != [] && !HasText(args, keys[0]) {
      var rest := keys[1..];
      FirstTextIsFirst(args, rest);
      assert forall j :: 0 < j < |keys| ==> keys[j] == rest[j - 1];
      match FirstText(args, rest)
      case None =>
      case Some(id) =>
        var i :| 0 <= i < |rest| && HasText(args, rest[i]) && args[rest[i]].text == id
                 && forall j :: 0 <= j < i ==> !HasText(args, rest[j]);
        assert HasText(args, keys[i + 1]);
    }
  }
}
