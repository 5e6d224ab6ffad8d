/** What answers and options mean, in plain words. */
module AgentChoices {
  import opened Wrappers
  import opened AgentTypes
  import opened AgentSteps
  import Text
  import Transcripts

  // ----- Answers -----

  /** The user says yes: allows, or chooses an option. */
  predicate Permits(answer: Answer) { answer.Allow? || answer.Choose? }

  lemma YesExactly(answer: Answer)
    ensures Yes(answer) <==> Permits(answer)
  {
  }

  /** The option is one the answer asks for: the named one; one that allows, for an allow; one that does
      not, for a denial, and for a form that was submitted. */
  predicate Wants(choice: Choice, answer: Answer) {
    match answer
    case Choose(id) => choice.id == id
    case Allow => choice.allow
    case Deny => !choice.allow
    case Submit(_) => !choice.allow
  }

  /** The first such option. */
  ghost predicate Picks(choices: seq<Choice>, answer: Answer, k: nat) {
    k < |choices| && Wants(choices[k], answer) && forall j :: 0 <= j < k ==> !Wants(choices[j], answer)
  }

  lemma {:induction false} WithIsFirst(choices: seq<Choice>, allow: bool)
    ensures match ChoiceWith(choices, allow)
            case None => forall k :: 0 <= k < |choices| ==> choices[k].allow != allow
            case Some(c) => exists k :: 0 <= k < |choices| && choices[k] == c && choices[k].allow == allow && forall j :: 0 <= j < k ==> choices[j].allow != allow
  {
    if choices != [] && choices[0].allow != allow {
      var rest := choices[1..];
      WithIsFirst(rest, allow);
      assert forall k :: 0 < k < |choices| ==> choices[k] == rest[k - 1];
      if ChoiceWith(rest, allow).Some? {
        var k :| 0 <= k < |rest| && rest[k] == ChoiceWith(rest, allow).value && rest[k].allow == allow
          && forall j :: 0 <= j < k ==> rest[j].allow != allow;
        assert choices[k + 1] == rest[k];
      }
    } else if choices != [] {
      assert choices[0].allow == allow;
    }
  }

  lemma {:induction false} NamedIsFirst(choices: seq<Choice>, id: string)
    ensures match ChoiceNamed(choices, id)
            case None => forall k :: 0 <= k < |choices| ==> choices[k].id != id
            case Some(c) => exists k :: 0 <= k < |choices| && choices[k] == c && choices[k].id == id && forall j :: 0 <= j < k ==> choices[j].id != id
  {
    if choices != [] && choices[0].id != id {
      var rest := choices[1..];
      NamedIsFirst(rest, id);
      assert forall k :: 0 < k < |choices| ==> choices[k] == rest[k - 1];
      if ChoiceNamed(rest, id).Some? {
        var k :| 0 <= k < |rest| && rest[k] == ChoiceNamed(rest, id).value && rest[k].id == id && forall j :: 0 <= j < k ==> rest[j].id != id;
        assert choices[k + 1] == rest[k];
      }
    } else if choices != [] {
      assert choices[0].id == id;
    }
  }

  /** The option an answer selects: the first it asks for, or none when there is none. */
  lemma ChoiceExactly(choices: seq<Choice>, answer: Answer)
    ensures match ChoiceOf(choices, answer)
            case None => forall k :: 0 <= k < |choices| ==> !Wants(choices[k], answer)
            case Some(c) => exists k: nat :: Picks(choices, answer, k) && choices[k] == c
  {
    hide ChoiceWith, ChoiceNamed;
    WithIsFirst(choices, answer.Allow?);
    if answer.Choose? {
      NamedIsFirst(choices, answer.option);
    }
  }

  lemma OnePick(choices: seq<Choice>, answer: Answer, k: nat)
    requires Picks(choices, answer, k)
    ensures ChoiceOf(choices, answer) == Some(choices[k])
  {
    ChoiceExactly(choices, answer);
  }

  // ----- Kubyl's own tools -----

  predicate IsTool(name: string) {
    || name == "cluster_info" || name == "list_resources" || name == "get_resource" || name == "describe"
    || name == "events" || name == "logs" || name == "top" || name == "query_prometheus"
    || name == "alerts" || name == "can_i" || name == "api_resources" || name == "apply_manifest"
    || name == "patch_resource" || name == "delete_resource" || name == "scale_resource" || name == "restart_resource"
  }

  predicate IsPrefix(prefix: string) {
    prefix == "mcp__kubyl__" || prefix == "kubyl__" || prefix == "kubyl." || prefix == "kubyl/" || prefix == "kubyl_"
  }

  /** The text, trimmed, is exactly the name of one of Kubyl's tools as some agent writes it. */
  ghost predicate OwnTool(text: string) {
    exists prefix, tool :: IsPrefix(prefix) && IsTool(tool) && Text.Trim(text) == prefix + tool
  }

  lemma ToolsListed(name: string)
    ensures name in KubylTools <==> IsTool(name)
    ensures IsTool(name) ==> name != [] && name[0] != '_'
  {
    assert KubylTools[0] == "cluster_info" && KubylTools[1] == "list_resources" && KubylTools[2] == "get_resource";
    assert KubylTools[3] == "describe" && KubylTools[4] == "events" && KubylTools[5] == "logs" && KubylTools[6] == "top";
    assert KubylTools[7] == "query_prometheus" && KubylTools[8] == "alerts" && KubylTools[9] == "can_i";
    assert KubylTools[10] == "api_resources" && KubylTools[11] == "apply_manifest" && KubylTools[12] == "patch_resource";
    assert KubylTools[13] == "delete_resource" && KubylTools[14] == "scale_resource" && KubylTools[15] == "restart_resource";
  }

  /** The prefix is the one the code strips. */
  lemma StripsOwn(name: string, prefix: string, tool: string)
    requires IsPrefix(prefix) && tool != [] && tool[0] != '_' && name == prefix + tool
    ensures if "mcp__kubyl__" <= name then prefix == "mcp__kubyl__" && name[12..] == tool
            else if "kubyl__" <= name then prefix == "kubyl__" && name[7..] == tool
            else if "kubyl." <= name then prefix == "kubyl." && name[6..] == tool
            else if "kubyl/" <= name then prefix == "kubyl/" && name[6..] == tool
            else prefix == "kubyl_" && "kubyl_" <= name && name[6..] == tool
  {
    assert name[|prefix|..] == tool && name[..|prefix|] == prefix && name[|prefix|] == tool[0];
    assert "mcp__kubyl__" <= name ==> name[0] == 'm';
    assert "kubyl__" <= name ==> name[0] == 'k' && name[5] == '_' && name[6] == '_';
    assert "kubyl." <= name ==> name[0] == 'k' && name[5] == '.';
    assert "kubyl/" <= name ==> name[0] == 'k' && name[5] == '/';
    assert prefix != "mcp__kubyl__" ==> name[0] == 'k' && name[5] == prefix[5];
  }

  /** Only Kubyl's own tools pass for such. */
  lemma OwnToolExactly(text: string)
    ensures IsKubylTool(text) <==> OwnTool(text)
  {
    hide IsKubylTool, OwnTool;
    if IsKubylTool(text) {
      AllowedIsOwn(text);
    }
    if OwnTool(text) {
      OwnIsAllowed(text);
    }
  }

  lemma AllowedIsOwn(text: string)
    requires IsKubylTool(text)
    ensures OwnTool(text)
  {
    hide OwnTool, Text.Trim;
    var name := Text.Trim(text);
    if "mcp__kubyl__" <= name {
      TakesOff(text, "mcp__kubyl__");
    } else if "kubyl__" <= name {
      TakesOff(text, "kubyl__");
    } else if "kubyl." <= name {
      TakesOff(text, "kubyl.");
    } else if "kubyl/" <= name {
      TakesOff(text, "kubyl/");
    } else {
      TakesOff(text, "kubyl_");
    }
  }

  lemma TakesOff(text: string, prefix: string)
    requires IsPrefix(prefix) && prefix <= Text.Trim(text) && Text.Trim(text)[|prefix|..] in KubylTools
    ensures OwnTool(text)
  {
    hide IsTool, IsPrefix, Text.Trim;
    var name := Text.Trim(text);
    ToolsListed(name[|prefix|..]);
    assert name == prefix + name[|prefix|..];
  }

  lemma OwnIsAllowed(text: string)
    requires OwnTool(text)
    ensures IsKubylTool(text)
  {
    hide IsTool, Text.Trim;
    var name := Text.Trim(text);
    var prefix, tool :| IsPrefix(prefix) && IsTool(tool) && name == prefix + tool;
    ToolsListed(tool);
    StripsOwn(name, prefix, tool);
  }

  /** A permission request for one of Kubyl's own tools: by its name, its title, or the title the thread
      knows the tool call by. */
  ghost predicate ForOwnTool(p: PermissionRequest, known: Option<string>) {
    || (p.name.Some? && OwnTool(p.name.value))
    || (p.title.Some? && OwnTool(p.title.value))
    || (known.Some? && OwnTool(known.value))
  }

  lemma KubylExactly(t: Thread, p: PermissionRequest)
    ensures Kubyl(t, p) <==> ForOwnTool(p, KnownTitle(t, p))
  {
    hide IsKubylTool, OwnTool, KnownTitle;
    forall text ensures IsKubylTool(text) <==> OwnTool(text) {
      OwnToolExactly(text);
    }
  }

  // ----- The option that allows -----

  ghost predicate FirstOf(options: seq<PermissionOption>, kind: OptionKind, id: string) {
    exists k :: 0 <= k < |options| && options[k].kind == kind && options[k].id == id && forall j :: 0 <= j < k ==> options[j].kind != kind
  }

  ghost predicate HasNone(options: seq<PermissionOption>, kind: OptionKind) {
    forall k :: 0 <= k < |options| ==> options[k].kind != kind
  }

  /** The first option that allows for ever, or, without one, the first that allows once. */
  ghost predicate LastingFirst(options: seq<PermissionOption>, id: string) {
    || FirstOf(options, AllowAlways, id)
    || (HasNone(options, AllowAlways) && FirstOf(options, AllowOnce, id))
  }

  lemma OneFirst(options: seq<PermissionOption>, kind: OptionKind, k: nat)
    requires k < |options| && options[k].kind == kind && forall j :: 0 <= j < k ==> options[j].kind != kind
    ensures FirstOf(options, kind, options[k].id) && forall other :: FirstOf(options, kind, other) ==> other == options[k].id
  {
    forall other | FirstOf(options, kind, other) ensures other == options[k].id {
      var l :| 0 <= l < |options| && options[l].kind == kind && options[l].id == other && forall j :: 0 <= j < l ==> options[j].kind != kind;
      assert l == k;
    }
  }

  lemma {:induction false} OfKindExactly(options: seq<PermissionOption>, kind: OptionKind)
    ensures match OfKind(options, kind)
            case None => HasNone(options, kind)
            case Some(id) => FirstOf(options, kind, id) && !HasNone(options, kind) && forall other :: FirstOf(options, kind, other) ==> other == id
  {
    if options != [] && options[0].kind != kind {
      var rest := options[1..];
      OfKindExactly(rest, kind);
      assert forall k :: 0 < k < |options| ==> options[k] == rest[k - 1];
      if OfKind(rest, kind).Some? {
        var id := OfKind(rest, kind).value;
        var k :| 0 <= k < |rest| && rest[k].kind == kind && rest[k].id == id && forall j :: 0 <= j < k ==> rest[j].kind != kind;
        assert options[k + 1] == rest[k];
        OneFirst(options, kind, k + 1);
      }
    } else if options != [] {
      assert options[0].kind == kind;
    }
  }

  lemma AllowOptionExactly(options: seq<PermissionOption>, id: string)
    ensures AllowOption(options) == Some(id) <==> LastingFirst(options, id)
    ensures AllowOption(options).None? <==> HasNone(options, AllowAlways) && HasNone(options, AllowOnce)
  {
    hide OfKind;
    OfKindExactly(options, AllowAlways);
    OfKindExactly(options, AllowOnce);
  }
}
