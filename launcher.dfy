/**
 * Launch-argument assembly and templating (src-tauri/src/minecraft/launcher/mod.rs):
 * the argument vector handed to the JVM, in its fixed order, and the `${name}`
 * substitution applied to every argument. The directories, the class path and the
 * launcher version are given as strings; creating and resolving them is left to the
 * caller.
 */
module Launcher {
  import opened Wrappers
  import opened Strings
  import opened RuleInterpreter
  import opened Version

  // ---------------------------------------------------------------- process_templates

  /** The characters allowed between `${` and `}`: `[a-zA-Z0-9_]`. */
  predicate IsNameChar(c: char) {
    'a' <= c <= 'z' || 'A' <= c <= 'Z' || c == '_' || '0' <= c <= '9'
  }

  predicate IsName(s: string) {
    forall i :: 0 <= i < |s| ==> IsNameChar(s[i])
  }

  /** No `${` occurs in `s`. */
  predicate NoTemplate(s: string) {
    forall i :: 0 <= i < |s| - 1 ==> !(s[i] == '$' && s[i + 1] == '{')
  }

  const MissingBrace: LauncherError := InvalidVersionProfile("invalid template, missing '}'")

  function InvalidChar(c: char): LauncherError {
    InvalidVersionProfile("invalid character in template: '" + [c] + "'")
  }

  /**
   * The inner loop of `process_templates`, after `${`: the template name up to the
   * closing `}` and the text after it.
   */
  function ScanName(s: string): (r: Result<(string, string), LauncherError>)
    ensures r.Ok? ==> IsName(r.value.0) && s == r.value.0 + "}" + r.value.1
    decreases |s|
  {
    if |s| == 0 then Err(MissingBrace)
    else if s[0] == '}' then Ok(("", s[1..]))
    else if !IsNameChar(s[0]) then Err(InvalidChar(s[0]))
    else
      var rest := ScanName(s[1..]);
      if rest.Err? then rest
      else Ok(([s[0]] + rest.value.0, rest.value.1))
  }

  /**
   * What `process_templates` returns: the input with every `${name}` replaced by the
   * retriever's text for `name`. The retriever stands for the closure passed in, which
   * appends to the output or fails.
   */
  function Expand(s: string, retriever: string -> Result<string, LauncherError>): Result<string, LauncherError>
    decreases |s|
  {
    if |s| == 0 then Ok("")
    else if s[0] == '$' && |s| > 1 && s[1] == '{' then
      var scanned := ScanName(s[2..]);
      if scanned.Err? then Err(scanned.error)
      else
        var text := retriever(scanned.value.0);
        if text.Err? then Err(text.error)
        else PrependOk(text.value, Expand(scanned.value.1, retriever))
    else PrependOk([s[0]], Expand(s[1..], retriever))
  }

  /** The name scanned so far, in front of what the rest of the scan finds. */
  function PrependName(prefix: string, r: Result<(string, string), LauncherError>)
    : Result<(string, string), LauncherError>
  {
    if r.Ok? then Ok((prefix + r.value.0, r.value.1)) else r
  }

  /**
   * `process_templates`: a scanner over the characters of `input` that copies them to
   * `output`, except that `${` starts a template name which must consist of
   * `[a-zA-Z0-9_]` and end with `}`; the retriever then supplies the replacement text.
   */
  method ProcessTemplates(input: string, retriever: string -> Result<string, LauncherError>)
    returns (r: Result<string, LauncherError>)
    ensures r == Expand(input, retriever)
  {
    var output := "";
    var i := 0;
    assert input[0..] == input;
    PrependOkAssoc([], [], Expand(input, retriever));
    while i < |input|
      invariant 0 <= i <= |input|
      invariant PrependOk(output, Expand(input[i..], retriever)) == Expand(input, retriever)
    {
      var start := i;
      var c := input[i];
      i := i + 1;
      if c == '$' && i < |input| && input[i] == '{' {
        var name := ReadTemplateName(input, i + 1);
        if name.Err? {
          return Err(name.error);
        }
        var templateArg := name.value.0;
        i := name.value.1;
        assert input[start..][2..] == input[start + 2..];
        var text := retriever(templateArg);
        if text.Err? {
          return Err(text.error);
        }
        PrependOkAssoc(output, text.value, Expand(input[i..], retriever));
        output := output + text.value;
        continue;
      }
      assert input[start..][1..] == input[i..];
      PrependOkAssoc(output, [c], Expand(input[i..], retriever));
      output := output + [c];
    }
    assert input[|input|..] == [];
    assert output + [] == output;
    return Ok(output);
  }

  /**
   * The inner loop of `process_templates`: reads the template name starting at `j`,
   * just after `${`, and returns it with the index after the closing `}`.
   */
  method ReadTemplateName(input: string, j: nat) returns (r: Result<(string, nat), LauncherError>)
    requires j <= |input|
    ensures r.Err? <==> ScanName(input[j..]).Err?
    ensures r.Err? ==> r.error == ScanName(input[j..]).error
    ensures r.Ok? ==> j < r.value.1 <= |input|
                      && ScanName(input[j..]) == Ok((r.value.0, input[r.value.1..]))
  {
    var i := j;
    var templateArg := "";
    var first := ScanName(input[i..]);
    if first.Ok? {
      assert "" + first.value.0 == first.value.0;
    }
    while true
      invariant j <= i <= |input|
      invariant ScanName(input[j..]) == PrependName(templateArg, ScanName(input[i..]))
      decreases |input| - i
    {
      if i >= |input| {
        assert input[i..] == [];
        return Err(MissingBrace);
      }
      var c := input[i];
      assert input[i..][1..] == input[i + 1..];
      ScanNameStep(input[i..], templateArg);
      i := i + 1;
      if c == '}' {
        break;
      }
      if !IsNameChar(c) {
        return Err(InvalidChar(c));
      }
      templateArg := templateArg + [c];
    }
    return Ok((templateArg, i));
  }

  /** One character of the name scan, with the name read so far in front. */
  lemma ScanNameStep(s: string, prefix: string)
    requires |s| > 0
    ensures s[0] == '}' ==> PrependName(prefix, ScanName(s)) == Ok((prefix, s[1..]))
    ensures s[0] != '}' && !IsNameChar(s[0]) ==> PrependName(prefix, ScanName(s)) == Err(InvalidChar(s[0]))
    ensures s[0] != '}' && IsNameChar(s[0]) ==>
      PrependName(prefix, ScanName(s)) == PrependName(prefix + [s[0]], ScanName(s[1..]))
  {
    assert prefix + "" == prefix;
    var later := ScanName(s[1..]);
    if later.Ok? {
      assert prefix + [s[0]] + later.value.0 == prefix + ([s[0]] + later.value.0);
    }
  }

  /** A name followed by `}` is scanned up to that brace. */
  lemma {:induction false} ScanNameOf(name: string, post: string)
    requires IsName(name)
    ensures ScanName(name + "}" + post) == Ok((name, post))
    decreases |name|
  {
    var s := name + "}" + post;
    if |name| == 0 {
      assert s[1..] == post;
    } else {
      assert s[1..] == name[1..] + "}" + post;
      ScanNameOf(name[1..], post);
      assert name == [name[0]] + name[1..];
    }
  }

  /** Text without `${` is copied literally, however it continues (as long as no `${` straddles the join). */
  lemma {:induction false} ExpandLiteralPrefix(pre: string, rest: string, retriever: string -> Result<string, LauncherError>)
    requires NoTemplate(pre)
    requires |pre| > 0 && pre[|pre| - 1] == '$' ==> |rest| == 0 || rest[0] != '{'
    ensures Expand(pre + rest, retriever) == PrependOk(pre, Expand(rest, retriever))
    decreases |pre|
  {
    if |pre| == 0 {
      assert pre + rest == rest;
      PrependOkAssoc([], [], Expand(rest, retriever));
    } else {
      var s := pre + rest;
      assert s[1..] == pre[1..] + rest;
      assert !(s[0] == '$' && |s| > 1 && s[1] == '{');
      ExpandLiteralPrefix(pre[1..], rest, retriever);
      PrependOkAssoc([pre[0]], pre[1..], Expand(rest, retriever));
      assert [pre[0]] + pre[1..] == pre;
    }
  }

  /** An input without `${` is returned unchanged, whatever the retriever; a lone `$` is copied. */
  lemma NoTemplateUnchanged(s: string, retriever: string -> Result<string, LauncherError>)
    requires NoTemplate(s)
    ensures Expand(s, retriever) == Ok(s)
  {
    ExpandLiteralPrefix(s, "", retriever);
    assert s + "" == s;
    assert s + [] == s;
  }

  /**
   * Each `${name}` is replaced by exactly the retriever's text: surrounding text keeps its
   * place, and the substituted text is not scanned again (it is prefixed to the expansion
   * of what follows). A retriever error stops the whole expansion.
   */
  lemma SubstituteOne(pre: string, name: string, post: string, retriever: string -> Result<string, LauncherError>)
    requires NoTemplate(pre) && IsName(name)
    ensures retriever(name).Ok? ==>
      Expand(pre + "${" + name + "}" + post, retriever)
        == PrependOk(pre + retriever(name).value, Expand(post, retriever))
    ensures retriever(name).Err? ==>
      Expand(pre + "${" + name + "}" + post, retriever) == Err(retriever(name).error)
  {
    var t := "${" + name + "}" + post;
    assert pre + "${" + name + "}" + post == pre + t;
    ExpandLiteralPrefix(pre, t, retriever);
    assert t[2..] == name + "}" + post;
    ScanNameOf(name, post);
    if retriever(name).Ok? {
      PrependOkAssoc(pre, retriever(name).value, Expand(post, retriever));
    }
  }

  /** A template that is not closed before the end of the input fails with "missing '}'". */
  lemma {:induction false} UnterminatedTemplate(pre: string, name: string, retriever: string -> Result<string, LauncherError>)
    requires NoTemplate(pre) && IsName(name)
    ensures Expand(pre + "${" + name, retriever) == Err(MissingBrace)
  {
    var t := "${" + name;
    assert pre + "${" + name == pre + t;
    ExpandLiteralPrefix(pre, t, retriever);
    assert t[2..] == name;
    ScanNameUnterminated(name);
  }

  lemma {:induction false} ScanNameUnterminated(name: string)
    requires IsName(name)
    ensures ScanName(name) == Err(MissingBrace)
    decreases |name|
  {
    if |name| > 0 {
      ScanNameUnterminated(name[1..]);
    }
  }

  /** A character outside `[a-zA-Z0-9_]` before the closing brace is rejected. */
  lemma InvalidTemplateChar(pre: string, name: string, c: char, post: string,
                            retriever: string -> Result<string, LauncherError>)
    requires NoTemplate(pre) && IsName(name) && !IsNameChar(c) && c != '}'
    ensures Expand(pre + "${" + name + [c] + post, retriever) == Err(InvalidChar(c))
  {
    var t := "${" + name + [c] + post;
    assert pre + "${" + name + [c] + post == pre + t;
    ExpandLiteralPrefix(pre, t, retriever);
    assert t[2..] == name + ([c] + post);
    ScanNameInvalid(name, c, post);
  }

  lemma {:induction false} ScanNameInvalid(name: string, c: char, post: string)
    requires IsName(name) && !IsNameChar(c) && c != '}'
    ensures ScanName(name + ([c] + post)) == Err(InvalidChar(c))
    decreases |name|
  {
    var s := name + ([c] + post);
    if |name| > 0 {
      assert s[1..] == name[1..] + ([c] + post);
      ScanNameInvalid(name[1..], c, post);
    } else {
      assert s == [c] + post;
    }
  }

  /** The retriever that writes every template back as it was. */
  function Reinsert(name: string): Result<string, LauncherError> {
    Ok("${" + name + "}")
  }

  /**
   * A round trip: with a retriever that writes each template back, every input that
   * expands without error is returned unchanged. So the expansion consumes exactly the
   * `${name}` sequences and nothing else.
   */
  lemma {:induction false} ReinsertIsIdentity(s: string)
    requires Expand(s, Reinsert).Ok?
    ensures Expand(s, Reinsert) == Ok(s)
    decreases |s|
  {
    if |s| > 0 {
      if s[0] == '$' && |s| > 1 && s[1] == '{' {
        ReinsertTemplateStep(s);
        var scanned := ScanName(s[2..]).value;
        ReinsertIsIdentity(scanned.1);
      } else {
        ReinsertLiteralStep(s);
        ReinsertIsIdentity(s[1..]);
        assert s == [s[0]] + s[1..];
      }
    }
  }

  /** One template of the round trip: it is written back and the scan goes on after it. */
  lemma ReinsertTemplateStep(s: string)
    requires |s| > 1 && s[0] == '$' && s[1] == '{'
    requires Expand(s, Reinsert).Ok?
    ensures ScanName(s[2..]).Ok?
    ensures var scanned := ScanName(s[2..]).value;
      |scanned.1| < |s|
      && Expand(s, Reinsert) == PrependOk("${" + scanned.0 + "}", Expand(scanned.1, Reinsert))
      && (Expand(scanned.1, Reinsert) == Ok(scanned.1) ==> Expand(s, Reinsert) == Ok(s))
  {
    var scanned := ScanName(s[2..]).value;
    var template := "${" + scanned.0 + "}";
    assert s == s[..2] + s[2..] && s[..2] == "${";
    assert s[2..] == scanned.0 + "}" + scanned.1;
    assert s == template + scanned.1;
  }

  /** One literal character of the round trip. */
  lemma ReinsertLiteralStep(s: string)
    requires |s| > 0 && !(s[0] == '$' && |s| > 1 && s[1] == '{')
    ensures Expand(s, Reinsert) == PrependOk([s[0]], Expand(s[1..], Reinsert))
  {
  }

  /**
   * As written, the first `${` makes the scanner allocate a name buffer of
   * `input.len() - 3` bytes: for an input of fewer than 3 bytes this subtraction
   * underflows `usize` and the program panics instead of reporting the missing brace.
   */
  datatype Outcome<T> = Completed(result: T) | Panicked

  function NameCapacityAsWritten(inputLength: nat): Option<nat> {
    if inputLength < 3 then None else Some(inputLength - 3)
  }

  /** `process_templates` as written, including the capacity computation. */
  function ProcessTemplatesAsWritten(input: string, retriever: string -> Result<string, LauncherError>)
    : Outcome<Result<string, LauncherError>>
  {
    if !NoTemplate(input) && NameCapacityAsWritten(|input|).None? then Panicked
    else Completed(Expand(input, retriever))
  }

  /** The only input on which the written code panics is `${`, which should fail with "missing '}'". */
  lemma TemplateCapacityUnderflow(retriever: string -> Result<string, LauncherError>)
    ensures ProcessTemplatesAsWritten("${", retriever) == Panicked
    ensures Expand("${", retriever) == Err(MissingBrace)
    ensures forall input :: ProcessTemplatesAsWritten(input, retriever).Panicked? ==> input == "${"
  {
    assert "${"[2..] == "";
    forall input | ProcessTemplatesAsWritten(input, retriever).Panicked?
      ensures input == "${"
    {
      var i :| 0 <= i < |input| - 1 && input[i] == '$' && input[i + 1] == '{';
      assert i == 0 && |input| == 2;
    }
  }

  // ---------------------------------------------------------------- launch

  /** The values `launch` substitutes, gathered from the start parameter, profile and folders. */
  datatype TemplateValues = TemplateValues(
    authPlayerName: string,
    versionName: string,
    gameDirectory: string,
    assetsRoot: string,
    assetsIndexName: string,
    authUuid: string,
    authAccessToken: string,
    userType: string,
    versionType: string,
    nativesDirectory: string,
    launcherVersion: string,
    classpath: string,
    clientid: string,
    authXuid: string)

  const TEMPLATE_PARAMETERS: set<string> := {
    "auth_player_name", "version_name", "game_directory", "assets_root", "assets_index_name",
    "auth_uuid", "auth_access_token", "user_type", "version_type", "natives_directory",
    "launcher_name", "launcher_version", "classpath", "user_properties", "clientid", "auth_xuid"}

  /** The retriever `launch` passes to `process_templates`: sixteen known names. */
  function LaunchRetriever(v: TemplateValues, name: string): (r: Result<string, LauncherError>)
    ensures r.Err? <==> name !in TEMPLATE_PARAMETERS
    ensures r.Err? ==> r.error == UnknownTemplateParameter(name)
    ensures name == "launcher_name" ==> r == Ok("LiquidLauncher")
    ensures name == "user_properties" ==> r == Ok("{}")
  {
    if name == "auth_player_name" then Ok(v.authPlayerName)
    else if name == "version_name" then Ok(v.versionName)
    else if name == "game_directory" then Ok(v.gameDirectory)
    else if name == "assets_root" then Ok(v.assetsRoot)
    else if name == "assets_index_name" then Ok(v.assetsIndexName)
    else if name == "auth_uuid" then Ok(v.authUuid)
    else if name == "auth_access_token" then Ok(v.authAccessToken)
    else if name == "user_type" then Ok(v.userType)
    else if name == "version_type" then Ok(v.versionType)
    else if name == "natives_directory" then Ok(v.nativesDirectory)
    else if name == "launcher_name" then Ok("LiquidLauncher")
    else if name == "launcher_version" then Ok(v.launcherVersion)
    else if name == "classpath" then Ok(v.classpath)
    else if name == "user_properties" then Ok("{}")
    else if name == "clientid" then Ok(v.clientid)
    else if name == "auth_xuid" then Ok(v.authXuid)
    else Err(UnknownTemplateParameter(name))
  }

  /** An empty `${}`, or any name outside the sixteen, fails with UnknownTemplateParameter. */
  lemma UnknownParameterRejected(v: TemplateValues, pre: string, name: string, post: string)
    requires NoTemplate(pre) && IsName(name) && name !in TEMPLATE_PARAMETERS
    ensures Expand(pre + "${" + name + "}" + post, n => LaunchRetriever(v, n))
         == Err(UnknownTemplateParameter(name))
    ensures Expand("${}", n => LaunchRetriever(v, n)) == Err(UnknownTemplateParameter(""))
  {
    SubstituteOne(pre, name, post, n => LaunchRetriever(v, n));
    SubstituteOne("", "", "", n => LaunchRetriever(v, n));
    assert "" + "${" + "" + "}" + "" == "${}";
  }

  /** Every argument expanded in order; the first failure stops it. */
  function ExpandAll(args: seq<string>, retriever: string -> Result<string, LauncherError>)
    : Result<seq<string>, LauncherError>
    decreases |args|
  {
    if |args| == 0 then Ok([])
    else
      var first := Expand(args[0], retriever);
      if first.Err? then Err(first.error)
      else PrependOk([first.value], ExpandAll(args[1..], retriever))
  }

  /** The loop over `command_arguments` that fills `mapped`. */
  method MapTemplates(commandArguments: seq<string>, retriever: string -> Result<string, LauncherError>)
    returns (r: Result<seq<string>, LauncherError>)
    ensures r == ExpandAll(commandArguments, retriever)
  {
    var mapped: seq<string> := [];
    assert commandArguments[0..] == commandArguments;
    PrependOkAssoc([], [], ExpandAll(commandArguments, retriever));
    for i := 0 to |commandArguments|
      invariant PrependOk(mapped, ExpandAll(commandArguments[i..], retriever))
             == ExpandAll(commandArguments, retriever)
    {
      assert commandArguments[i..][1..] == commandArguments[i + 1..];
      var x := ProcessTemplates(commandArguments[i], retriever);
      if x.Err? {
        return Err(x.error);
      }
      PrependOkAssoc(mapped, [x.value], ExpandAll(commandArguments[i + 1..], retriever));
      mapped := mapped + [x.value];
    }
    assert commandArguments[|commandArguments|..] == [];
    assert mapped + [] == mapped;
    return Ok(mapped);
  }

  /** `mapped` has one entry per argument, in the same order: the expansion of that argument. */
  lemma {:induction false} ExpandAllPointwise(args: seq<string>, retriever: string -> Result<string, LauncherError>)
    ensures ExpandAll(args, retriever).Ok? <==> forall i :: 0 <= i < |args| ==> Expand(args[i], retriever).Ok?
    ensures ExpandAll(args, retriever).Ok? ==>
      |ExpandAll(args, retriever).value| == |args|
      && forall i :: 0 <= i < |args| ==> ExpandAll(args, retriever).value[i] == Expand(args[i], retriever).value
    decreases |args|
  {
    if |args| > 0 {
      ExpandAllPointwise(args[1..], retriever);
      assert forall i :: 1 <= i < |args| ==> args[i] == args[1..][i - 1];
    }
  }

  /**
   * The command line before substitution: the profile's JVM arguments, then the user's
   * own JVM arguments, then the main class, then the profile's game arguments. A missing
   * main class fails once the JVM arguments have been built.
   */
  function CommandArguments(decl: ArgumentDeclaration, memory: nat, userJvmArgs: seq<string>,
                            mainClass: Option<string>, features: set<string>, env: Env)
    : Result<seq<string>, LauncherError>
  {
    var jvm := JvmArgs(decl, memory, features, env);
    if jvm.Err? then Err(jvm.error)
    else if mainClass.None? then Err(InvalidVersionProfile("Main class unspecified"))
    else PrependOk(jvm.value + userJvmArgs + [mainClass.value], GameArgs(decl, features, env))
  }

  /** The part of `launch` that builds `command_arguments`. */
  method AssembleCommand(decl: ArgumentDeclaration, memory: nat, userJvmArgs: seq<string>,
                         mainClass: Option<string>, features: set<string>, env: Env)
    returns (r: Result<seq<string>, LauncherError>)
    ensures r == CommandArguments(decl, memory, userJvmArgs, mainClass, features, env)
  {
    var commandArguments: seq<string> := [];
    var jvm := AddJvmArgsToVec(commandArguments, decl, memory, features, env);
    PrependOkAssoc([], [], JvmArgs(decl, memory, features, env));
    if jvm.Err? {
      return Err(jvm.error);
    }
    commandArguments := jvm.value;
    commandArguments := commandArguments + userJvmArgs;
    if mainClass.None? {
      return Err(InvalidVersionProfile("Main class unspecified"));
    }
    commandArguments := commandArguments + [mainClass.value];
    r := AddGameArgsToVec(commandArguments, decl, features, env);
  }

  /** The order of the final command line, and the error for a missing main class. */
  lemma CommandOrder(decl: ArgumentDeclaration, memory: nat, userJvmArgs: seq<string>,
                     mainClass: Option<string>, features: set<string>, env: Env)
    ensures JvmArgs(decl, memory, features, env).Ok? && mainClass.None? ==>
      CommandArguments(decl, memory, userJvmArgs, mainClass, features, env)
        == Err(InvalidVersionProfile("Main class unspecified"))
    ensures CommandArguments(decl, memory, userJvmArgs, mainClass, features, env).Ok? ==>
      var jvm := JvmArgs(decl, memory, features, env).value;
      var cmd := CommandArguments(decl, memory, userJvmArgs, mainClass, features, env).value;
      mainClass.Some? && GameArgs(decl, features, env).Ok?
      && cmd == jvm + userJvmArgs + [mainClass.value] + GameArgs(decl, features, env).value
      && cmd[|jvm| + |userJvmArgs|] == mainClass.value
      && cmd[..7] == MemoryFlags(memory)
  {
    if CommandArguments(decl, memory, userJvmArgs, mainClass, features, env).Ok? {
      JvmArgsShape(decl, memory, features, env);
      var jvm := JvmArgs(decl, memory, features, env).value;
      var cmd := CommandArguments(decl, memory, userJvmArgs, mainClass, features, env).value;
      assert cmd[..|jvm|] == jvm;
      assert cmd[..7] == jvm[..7];
    }
  }

  /**
   * The argument vector of `launch`: assembled with no features enabled, then every
   * argument passed through `process_templates` with the launch retriever.
   */
  method LaunchArguments(decl: ArgumentDeclaration, memory: nat, userJvmArgs: seq<string>,
                         mainClass: Option<string>, env: Env, values: TemplateValues)
    returns (r: Result<seq<string>, LauncherError>)
    ensures var cmd := CommandArguments(decl, memory, userJvmArgs, mainClass, {}, env);
      r == (if cmd.Err? then Err(cmd.error) else ExpandAll(cmd.value, n => LaunchRetriever(values, n)))
  {
    var commandArguments := AssembleCommand(decl, memory, userJvmArgs, mainClass, {}, env);
    if commandArguments.Err? {
      return Err(commandArguments.error);
    }
    r := MapTemplates(commandArguments.value, n => LaunchRetriever(values, n));
  }
}
