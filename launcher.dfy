/** The session launcher modal: the custom-session form, the `canfar create`
    command it launches, the command preview it shows, the environment-variable
    list editor and the idle -> launching -> success life cycle. */
module LauncherModal {
  import opened Wrappers
  import opened Strings

  datatype Tab = Quick | Custom

  /** `error` is a declared state that no handler ever sets. */
  datatype LaunchState = Idle | Launching | Success | Error

  datatype ResourceMode = Flexible | Fixed

  datatype EnvVar = EnvVar(key: string, value: string)

  datatype EnvField = Key | Value

  /** The custom-session form (`formData`). */
  datatype Form = Form(
    kind: string,
    image: string,
    name: string,
    resourceMode: ResourceMode,
    cpu: int,
    memory: int,
    gpu: int,
    envVars: seq<EnvVar>)

  /** A quick-launch template; only the fields the command uses. */
  datatype Template = Template(id: string, kind: string, image: string)

  /** `generateSessionName(kind)`: the kind, a dash and a random suffix (given here). */
  function SessionName(kind: string, suffix: string): string {
    kind + "-" + suffix
  }

  /** The form as first shown and as restored by a reset. */
  function DefaultForm(suffix: string): (f: Form)
    ensures f.kind == "notebook" && f.image == "" && f.name == SessionName("notebook", suffix)
    ensures f.resourceMode == Flexible && f.cpu == 2 && f.memory == 8 && f.gpu == 0 && f.envVars == []
  {
    Form("notebook", "", SessionName("notebook", suffix), Flexible, 2, 8, 0, [])
  }

  // ---------------------------------------------------------------------------
  // The command: an abstract argument list and how it is written out

  /** One optional argument of `canfar create`. */
  datatype Flag =
    | NameFlag(name: string)
    | CpuFlag(cpu: int)
    | MemoryFlag(memory: int)
    | GpuFlag(gpu: int)
    | EnvFlag(key: string, value: string)

  /** Position of a flag kind in the fixed flag order. */
  function Rank(fl: Flag): nat {
    match fl
    case NameFlag(_) => 0
    case CpuFlag(_) => 1
    case MemoryFlag(_) => 2
    case GpuFlag(_) => 3
    case EnvFlag(_, _) => 4
  }

  function RenderFlag(fl: Flag): string {
    match fl
    case NameFlag(n) => " --name " + n
    case CpuFlag(c) => " --cpu " + IntToString(c)
    case MemoryFlag(m) => " --memory " + IntToString(m)
    case GpuFlag(g) => " --gpu " + IntToString(g)
    case EnvFlag(k, v) => " --env " + k + "=" + v
  }

  function RenderFlags(flags: seq<Flag>): string {
    if flags == [] then "" else RenderFlag(flags[0]) + RenderFlags(flags[1..])
  }

  lemma {:induction false} RenderFlagsAppend(a: seq<Flag>, b: seq<Flag>)
    ensures RenderFlags(a + b) == RenderFlags(a) + RenderFlags(b)
  {
    if a == [] {
      assert a + b == b;
    } else {
      assert (a + b)[1..] == a[1..] + b;
      RenderFlagsAppend(a[1..], b);
    }
  }

  /** An environment variable is passed on only when both its key and its value are filled in. */
  predicate IsComplete(e: EnvVar) {
    e.key != "" && e.value != ""
  }

  /** The `--env` flags of an environment-variable list, in list order. */
  function EnvFlags(envs: seq<EnvVar>): (r: seq<Flag>)
    ensures |r| <= |envs|
  {
    if envs == [] then []
    else
      (if IsComplete(envs[0]) then [EnvFlag(envs[0].key, envs[0].value)] else [])
      + EnvFlags(envs[1..])
  }

  /** The `--env` flags are exactly the complete variables of the list. */
  lemma {:induction false} EnvFlagsMembers(envs: seq<EnvVar>)
    ensures forall fl :: fl in EnvFlags(envs) ==> fl.EnvFlag? && IsComplete(EnvVar(fl.key, fl.value))
    ensures forall fl :: fl in EnvFlags(envs) ==> EnvVar(fl.key, fl.value) in envs
    ensures forall e :: e in envs && IsComplete(e) ==> EnvFlag(e.key, e.value) in EnvFlags(envs)
  {
    if envs != [] {
      EnvFlagsMembers(envs[1..]);
      assert envs == [envs[0]] + envs[1..];
    }
  }

  /** One more variable adds its own flag, if any, at the end. */
  lemma EnvFlagsStep(envs: seq<EnvVar>, i: nat)
    requires i < |envs|
    ensures RenderFlags(EnvFlags(envs[..i + 1]))
         == RenderFlags(EnvFlags(envs[..i]))
            + (if IsComplete(envs[i]) then " --env " + envs[i].key + "=" + envs[i].value else "")
  {
    assert envs[..i + 1] == envs[..i] + [envs[i]];
    EnvFlagsAppend(envs[..i], [envs[i]]);
    RenderFlagsAppend(EnvFlags(envs[..i]), EnvFlags([envs[i]]));
    assert EnvFlags([envs[i]]) == if IsComplete(envs[i]) then [EnvFlag(envs[i].key, envs[i].value)] else [];
  }

  lemma {:induction false} EnvFlagsAppend(a: seq<EnvVar>, b: seq<EnvVar>)
    ensures EnvFlags(a + b) == EnvFlags(a) + EnvFlags(b)
  {
    if a == [] {
      assert a + b == b;
    } else {
      var head := if IsComplete(a[0]) then [EnvFlag(a[0].key, a[0].value)] else [];
      assert (a + b)[0] == a[0];
      assert (a + b)[1..] == a[1..] + b;
      assert EnvFlags(a + b) == head + EnvFlags(a[1..] + b);
      EnvFlagsAppend(a[1..], b);
      assert EnvFlags(a) == head + EnvFlags(a[1..]);
    }
  }

  /** The flags that come from the form's single fields: name, cpu and memory, gpu. */
  function NameFlags(f: Form): seq<Flag> {
    if f.name != "" then [NameFlag(f.name)] else []
  }

  function ResourceFlags(f: Form): seq<Flag> {
    if f.resourceMode == Fixed then [CpuFlag(f.cpu), MemoryFlag(f.memory)] else []
  }

  function GpuFlags(f: Form): seq<Flag> {
    if f.gpu > 0 then [GpuFlag(f.gpu)] else []
  }

  function FixedFlags(f: Form): seq<Flag> {
    NameFlags(f) + ResourceFlags(f) + GpuFlags(f)
  }

  /** The argument list a custom session is launched with: name, cpu and
      memory, gpu, then the environment variables. */
  function FlagsOf(f: Form): seq<Flag> {
    FixedFlags(f) + EnvFlags(f.envVars)
  }

  /** A flag of the command comes from exactly one of the four groups. */
  lemma FlagsOfMembers(f: Form)
    ensures forall fl :: fl in FlagsOf(f) <==>
      fl in NameFlags(f) || fl in ResourceFlags(f) || fl in GpuFlags(f) || fl in EnvFlags(f.envVars)
  {
  }

  /** How the single-field flags are written out, piece by piece. */
  lemma RenderFixedFlags(f: Form)
    ensures RenderFlags(FixedFlags(f)) == NameArg(f) + ResourceArgs(f) + GpuArg(f)
  {
    assert RenderFlags(NameFlags(f)) == NameArg(f) by { RenderSingle(NameFlag(f.name)); }
    assert RenderFlags(GpuFlags(f)) == GpuArg(f) by { RenderSingle(GpuFlag(f.gpu)); }
    assert RenderFlags(ResourceFlags(f)) == ResourceArgs(f) by { RenderPair(CpuFlag(f.cpu), MemoryFlag(f.memory)); }
    RenderFlagsAppend(NameFlags(f), ResourceFlags(f));
    RenderFlagsAppend(NameFlags(f) + ResourceFlags(f), GpuFlags(f));
  }

  lemma RenderSingle(fl: Flag)
    ensures RenderFlags([fl]) == RenderFlag(fl)
  {
    assert [fl][1..] == [];
    assert RenderFlag(fl) + "" == RenderFlag(fl);
  }

  lemma RenderPair(a: Flag, b: Flag)
    ensures RenderFlags([a, b]) == RenderFlag(a) + RenderFlag(b)
  {
    assert [a, b][1..] == [b];
    RenderSingle(b);
  }

  /** `canfar create <flags> <kind> <image>`; the image may be empty. */
  function CustomCommand(f: Form): (r: string)
    ensures StartsWith(r, "canfar create")
    ensures EndsWith(r, " " + f.kind + " " + f.image)
  {
    var flags := RenderFlags(FlagsOf(f));
    StartsWithAppend("canfar create", "canfar create", flags);
    CommandShape4("canfar create" + flags, "canfar create", " ", f.kind, " ", f.image);
    "canfar create" + flags + " " + f.kind + " " + f.image
  }

  /** A command line keeps the prefix of its head and ends with its tail pieces. */
  lemma CommandShape4(p: string, q: string, a: string, b: string, c: string, d: string)
    requires StartsWith(p, q)
    ensures StartsWith(p + a + b + c + d, q) && EndsWith(p + a + b + c + d, a + b + c + d)
  {
    assert p + a + b + c + d == p + (a + b + c + d);
    StartsWithAppend(p, q, a + b + c + d);
  }

  lemma CommandShape3(p: string, q: string, a: string, b: string, c: string)
    requires StartsWith(p, q)
    ensures StartsWith(p + a + b + c, q) && EndsWith(p + a + b + c, a + b + c)
  {
    assert p + a + b + c == p + (a + b + c);
    StartsWithAppend(p, q, a + b + c);
  }

  /** `quickLaunchTemplates.find(t => t.id === id)`: the first template with that id. */
  function FindTemplate(templates: seq<Template>, id: string): (r: Option<Template>)
    ensures r.Some? ==> r.value in templates && r.value.id == id
    ensures r.Some? ==> exists i :: 0 <= i < |templates| && templates[i] == r.value
                                    && forall j :: 0 <= j < i ==> templates[j].id != id
    ensures r.None? <==> forall t :: t in templates ==> t.id != id
  {
    if templates == [] then None
    else if templates[0].id == id then Some(templates[0])
    else
      var r := FindTemplate(templates[1..], id);
      FirstMatchShift(templates, id, r);
      r
  }

  /** A first match in the tail is a first match in the whole list when the head does not match. */
  lemma FirstMatchShift(templates: seq<Template>, id: string, r: Option<Template>)
    requires templates != [] && templates[0].id != id
    requires r.Some? ==> exists i :: 0 <= i < |templates[1..]| && templates[1..][i] == r.value
                                     && forall j :: 0 <= j < i ==> templates[1..][j].id != id
    ensures r.Some? ==> exists i :: 0 <= i < |templates| && templates[i] == r.value
                                    && forall j :: 0 <= j < i ==> templates[j].id != id
  {
    if r.Some? {
      var i :| 0 <= i < |templates[1..]| && templates[1..][i] == r.value
               && forall j :: 0 <= j < i ==> templates[1..][j].id != id;
      assert templates[i + 1] == r.value;
      forall j | 0 <= j < i + 1 ensures templates[j].id != id {
        if j > 0 { assert templates[j] == templates[1..][j - 1]; }
      }
    }
  }

  /** The quick tab is in force only with a selected template id that is a
      non-empty string (`selectedTemplate` is tested for truthiness). */
  predicate UsesTemplate(tab: Tab, selected: Option<string>) {
    tab == Quick && selected.Some? && selected.value != ""
  }

  /** The command `handleLaunch` logs. */
  function LaunchCommand(tab: Tab, selected: Option<string>, templates: seq<Template>, f: Form): (r: string)
    ensures StartsWith(r, "canfar create")
    ensures !UsesTemplate(tab, selected) ==> EndsWith(r, " " + f.kind + " " + f.image)
  {
    if UsesTemplate(tab, selected) then
      match FindTemplate(templates, selected.value)
      case Some(t) =>
        StartsWithAppend("canfar create", "canfar create", " " + t.kind + " " + t.image);
        assert "canfar create " + t.kind + " " + t.image == "canfar create" + (" " + t.kind + " " + t.image);
        "canfar create " + t.kind + " " + t.image
      case None => "canfar create"
    else
      CustomCommand(f)
  }

  /** `handleLaunch`'s command construction: successive appends and a loop over
      the environment variables. */
  method BuildLaunchCommand(tab: Tab, selected: Option<string>, templates: seq<Template>, f: Form)
    returns (cmd: string)
    ensures cmd == LaunchCommand(tab, selected, templates, f)
  {
    cmd := "canfar create";
    if tab == Quick && selected.Some? && selected.value != "" {
      var template := FindTemplate(templates, selected.value);
      if template.Some? {
        cmd := cmd + " " + template.value.kind + " " + template.value.image;
      }
    } else {
      if f.name != "" {
        cmd := cmd + " --name " + f.name;
        Assoc("canfar create", " --name ", f.name);
      }
      ghost var afterName := cmd;
      assert afterName == "canfar create" + NameArg(f);
      if f.resourceMode == Fixed {
        cmd := cmd + " --cpu " + IntToString(f.cpu) + " --memory " + IntToString(f.memory);
        Assoc4(afterName, " --cpu ", IntToString(f.cpu), " --memory ", IntToString(f.memory));
      }
      ghost var afterResources := cmd;
      assert afterResources == afterName + ResourceArgs(f);
      if f.gpu > 0 {
        cmd := cmd + " --gpu " + IntToString(f.gpu);
        Assoc(afterResources, " --gpu ", IntToString(f.gpu));
      }
      assert cmd == afterResources + GpuArg(f);
      ghost var head := "canfar create" + RenderFlags(FixedFlags(f));
      assert cmd == head by {
        RenderFixedFlags(f);
        Assoc(afterName, ResourceArgs(f), GpuArg(f));
        Assoc("canfar create", NameArg(f), ResourceArgs(f) + GpuArg(f));
        Assoc(NameArg(f), ResourceArgs(f), GpuArg(f));
      }
      var i := 0;
      while i < |f.envVars|
        invariant 0 <= i <= |f.envVars|
        invariant cmd == head + RenderFlags(EnvFlags(f.envVars[..i]))
      {
        var env := f.envVars[i];
        ghost var before := cmd;
        EnvFlagsStep(f.envVars, i);
        if env.key != "" && env.value != "" {
          cmd := cmd + " --env " + env.key + "=" + env.value;
          Assoc4(before, " --env ", env.key, "=", env.value);
          Assoc(head, RenderFlags(EnvFlags(f.envVars[..i])), " --env " + env.key + "=" + env.value);
        } else {
          assert RenderFlags(EnvFlags(f.envVars[..i])) + "" == RenderFlags(EnvFlags(f.envVars[..i]));
        }
        i := i + 1;
      }
      assert f.envVars[..i] == f.envVars;
      assert cmd == "canfar create" + RenderFlags(FlagsOf(f)) by {
        RenderFlagsAppend(FixedFlags(f), EnvFlags(f.envVars));
        Assoc("canfar create", RenderFlags(FixedFlags(f)), RenderFlags(EnvFlags(f.envVars)));
      }
      cmd := cmd + " " + f.kind + " " + f.image;
    }
  }

  lemma Assoc(a: string, b: string, c: string)
    ensures a + b + c == a + (b + c)
  {
  }

  lemma Assoc4(a: string, b: string, c: string, d: string, e: string)
    ensures a + b + c + d + e == a + (b + c + d + e)
  {
  }

  // ---------------------------------------------------------------------------
  // The preview shown under the form

  /** `envVars.filter(e => e.key && e.value)` */
  function CompleteVars(envs: seq<EnvVar>): seq<EnvVar> {
    if envs == [] then []
    else (if IsComplete(envs[0]) then [envs[0]] else []) + CompleteVars(envs[1..])
  }

  /** `.map(e => ` --env ${e.key}=${e.value}`)` */
  function EnvArgs(envs: seq<EnvVar>): seq<string> {
    if envs == [] then [] else [" --env " + envs[0].key + "=" + envs[0].value] + EnvArgs(envs[1..])
  }

  /** The CLI preview: the same pieces as the launch command, written as one
      expression, with `<image>` standing in for a missing image. */
  function PreviewCommand(f: Form): (r: string)
    ensures StartsWith(r, "canfar create")
    ensures EndsWith(r, " " + f.kind + ImageArg(f))
  {
    var head := "canfar create" + NameArg(f) + ResourceArgs(f) + GpuArg(f) + EnvPart(f);
    Assoc4("canfar create", NameArg(f), ResourceArgs(f), GpuArg(f), EnvPart(f));
    StartsWithAppend("canfar create", "canfar create", NameArg(f) + ResourceArgs(f) + GpuArg(f) + EnvPart(f));
    CommandShape3(head, "canfar create", " ", f.kind, ImageArg(f));
    "canfar create" + NameArg(f) + ResourceArgs(f) + GpuArg(f) + EnvPart(f) + " " + f.kind + ImageArg(f)
  }

  /** The pieces of the preview, each present only when its field calls for it. */
  function NameArg(f: Form): string {
    if f.name != "" then " --name " + f.name else ""
  }

  function ResourceArgs(f: Form): string {
    if f.resourceMode == Fixed then " --cpu " + IntToString(f.cpu) + " --memory " + IntToString(f.memory) else ""
  }

  function GpuArg(f: Form): string {
    if f.gpu > 0 then " --gpu " + IntToString(f.gpu) else ""
  }

  function EnvPart(f: Form): string {
    Join(EnvArgs(CompleteVars(f.envVars)), "")
  }

  function ImageArg(f: Form): string {
    if f.image != "" then " " + f.image else " <image>"
  }

  lemma {:induction false} EnvArgsRenderEnvFlags(envs: seq<EnvVar>)
    ensures Concat(EnvArgs(CompleteVars(envs))) == RenderFlags(EnvFlags(envs))
  {
    if envs != [] {
      EnvArgsRenderEnvFlags(envs[1..]);
      if IsComplete(envs[0]) {
        var arg := " --env " + envs[0].key + "=" + envs[0].value;
        assert CompleteVars(envs) == [envs[0]] + CompleteVars(envs[1..]);
        assert EnvArgs(CompleteVars(envs)) == [arg] + EnvArgs(CompleteVars(envs[1..]));
        assert EnvFlags(envs) == [EnvFlag(envs[0].key, envs[0].value)] + EnvFlags(envs[1..]);
      } else {
        assert CompleteVars(envs) == CompleteVars(envs[1..]);
        assert EnvFlags(envs) == EnvFlags(envs[1..]);
      }
    }
  }

  /** With an image chosen the preview is exactly the command that is
      launched; without one the launched command ends in a bare space where
      the preview shows `<image>`. */
  lemma PreviewMatchesCustomCommand(f: Form)
    ensures f.image != "" ==> PreviewCommand(f) == CustomCommand(f)
    ensures f.image == "" ==> PreviewCommand(f) == CustomCommand(f) + "<image>"
  {
    RenderedFlagsArePreviewPieces(f);
    Regroup("canfar create", NameArg(f), ResourceArgs(f), GpuArg(f), EnvPart(f), RenderFlags(FlagsOf(f)), f.kind, f.image);
  }

  /** The flags of the launch command, written out, are the flag pieces of the preview. */
  lemma RenderedFlagsArePreviewPieces(f: Form)
    ensures RenderFlags(FlagsOf(f)) == NameArg(f) + ResourceArgs(f) + GpuArg(f) + EnvPart(f)
  {
    RenderFixedFlags(f);
    JoinEmptySeparator(EnvArgs(CompleteVars(f.envVars)));
    EnvArgsRenderEnvFlags(f.envVars);
    RenderFlagsAppend(FixedFlags(f), EnvFlags(f.envVars));
  }

  /** Regrouping the concatenations of the preview into those of the command. */
  lemma Regroup(cc: string, n: string, r: string, g: string, e: string, flags: string, kind: string, image: string)
    requires flags == n + r + g + e
    ensures cc + n + r + g + e + " " + kind + (" " + image) == cc + flags + " " + kind + " " + image
    ensures cc + n + r + g + e + " " + kind + " <image>" == cc + flags + " " + kind + " " + "" + "<image>"
  {
  }

  // ---------------------------------------------------------------------------
  // Flag presence and order

  /** `--name` is passed iff the name is non-empty, and then with that name. */
  lemma NameFlagIffNamed(f: Form)
    ensures (exists fl :: fl in FlagsOf(f) && fl.NameFlag?) <==> f.name != ""
    ensures forall fl :: fl in FlagsOf(f) && fl.NameFlag? ==> fl == NameFlag(f.name)
  {
    EnvFlagsMembers(f.envVars);
    FlagsOfMembers(f);
    if f.name != "" {
      assert NameFlag(f.name) in NameFlags(f);
    }
  }

  /** `--cpu` and `--memory` are passed iff resources are fixed, with the form's values. */
  lemma ResourceFlagsIffFixed(f: Form)
    ensures (exists fl :: fl in FlagsOf(f) && fl.CpuFlag?) <==> f.resourceMode == Fixed
    ensures (exists fl :: fl in FlagsOf(f) && fl.MemoryFlag?) <==> f.resourceMode == Fixed
    ensures forall fl :: fl in FlagsOf(f) && fl.CpuFlag? ==> fl == CpuFlag(f.cpu)
    ensures forall fl :: fl in FlagsOf(f) && fl.MemoryFlag? ==> fl == MemoryFlag(f.memory)
  {
    EnvFlagsMembers(f.envVars);
    FlagsOfMembers(f);
    if f.resourceMode == Fixed {
      assert CpuFlag(f.cpu) in ResourceFlags(f);
      assert MemoryFlag(f.memory) in ResourceFlags(f);
    }
  }

  /** `--gpu` is passed iff the gpu count is positive, whatever the resource mode. */
  lemma GpuFlagIffPositive(f: Form)
    ensures (exists fl :: fl in FlagsOf(f) && fl.GpuFlag?) <==> f.gpu > 0
    ensures forall fl :: fl in FlagsOf(f) && fl.GpuFlag? ==> fl == GpuFlag(f.gpu)
  {
    EnvFlagsMembers(f.envVars);
    FlagsOfMembers(f);
    if f.gpu > 0 {
      assert GpuFlag(f.gpu) in GpuFlags(f);
    }
  }

  /** `--env k=v` is passed iff some variable of the list is `k=v` with both parts non-empty. */
  lemma EnvFlagIffCompleteVar(f: Form, k: string, v: string)
    ensures EnvFlag(k, v) in FlagsOf(f) <==> EnvVar(k, v) in f.envVars && k != "" && v != ""
  {
    EnvFlagsMembers(f.envVars);
    assert EnvFlag(k, v) !in FixedFlags(f);
  }

  /** A variable with an empty key or value leaves the command as it would be without it. */
  lemma IncompleteVarContributesNothing(before: seq<EnvVar>, e: EnvVar, after: seq<EnvVar>)
    requires !IsComplete(e)
    ensures EnvFlags(before + [e] + after) == EnvFlags(before + after)
  {
    EnvFlagsAppend(before + [e], after);
    EnvFlagsAppend(before, [e]);
    EnvFlagsAppend(before, after);
  }

  /** Flags come in the fixed order name, cpu, memory, gpu, env. */
  lemma FlagOrderFixed(f: Form)
    ensures forall i, j :: 0 <= i < j < |FlagsOf(f)| ==> Rank(FlagsOf(f)[i]) <= Rank(FlagsOf(f)[j])
  {
    var flags := FlagsOf(f);
    var fixedFlags := FixedFlags(f);
    EnvFlagsMembers(f.envVars);
    forall i | |fixedFlags| <= i < |flags| ensures Rank(flags[i]) == 4 {
      assert flags[i] == EnvFlags(f.envVars)[i - |fixedFlags|];
      assert flags[i] in EnvFlags(f.envVars);
    }
    assert forall i, j :: 0 <= i < j < |fixedFlags| ==> Rank(fixedFlags[i]) < Rank(fixedFlags[j]);
    assert forall i :: 0 <= i < |fixedFlags| ==> Rank(fixedFlags[i]) <= 3;
  }

  // ---------------------------------------------------------------------------
  // Whether launching is possible

  /** `canLaunch`: a selected template on the quick tab, a kind and an image on the custom tab. */
  predicate CanLaunch(tab: Tab, selected: Option<string>, f: Form) {
    if tab == Quick then selected.Some? else f.kind != "" && f.image != ""
  }

  /** On the quick tab only the selection decides; on the custom tab only the
      kind and image do, whatever else the form holds. */
  lemma CanLaunchIff(tab: Tab, selected: Option<string>, f: Form)
    ensures tab == Quick ==> (CanLaunch(tab, selected, f) <==> selected.Some?)
    ensures tab == Custom ==> (CanLaunch(tab, selected, f) <==> f.kind != "" && f.image != "")
    ensures tab == Quick ==> forall g :: CanLaunch(tab, selected, f) == CanLaunch(tab, selected, g)
    ensures tab == Custom ==> forall s :: CanLaunch(tab, selected, f) == CanLaunch(tab, s, f)
  {
  }

  /** On the custom tab, whenever launching is enabled the preview shows
      exactly the command that is launched. */
  lemma LaunchablePreviewIsExact(tab: Tab, selected: Option<string>, templates: seq<Template>, f: Form)
    requires tab == Custom && CanLaunch(tab, selected, f)
    ensures PreviewCommand(f) == LaunchCommand(tab, selected, templates, f)
  {
    PreviewMatchesCustomCommand(f);
  }

  /** On the quick tab with a template selected, the first template with that
      id launches `canfar create <kind> <image>`; an id no template has
      launches the bare `canfar create`. The form plays no part. */
  lemma QuickLaunchUsesTemplate(selected: Option<string>, templates: seq<Template>, f: Form, g: Form)
    requires selected.Some? && selected.value != ""
    ensures FindTemplate(templates, selected.value).Some? ==>
      LaunchCommand(Quick, selected, templates, f)
        == "canfar create " + FindTemplate(templates, selected.value).value.kind
           + " " + FindTemplate(templates, selected.value).value.image
    ensures FindTemplate(templates, selected.value).None? ==> LaunchCommand(Quick, selected, templates, f) == "canfar create"
    ensures LaunchCommand(Quick, selected, templates, f) == LaunchCommand(Quick, selected, templates, g)
  {
  }

  /** A selected template id that is the empty string enables launching, yet
      the command is then built from the custom form. */
  lemma EmptyTemplateIdLaunchesCustomForm(templates: seq<Template>, f: Form)
    ensures CanLaunch(Quick, Some(""), f)
    ensures LaunchCommand(Quick, Some(""), templates, f) == CustomCommand(f)
  {
  }

  // ---------------------------------------------------------------------------
  // Editing the environment-variable list

  /** `addEnvVar`: one more, blank, variable at the end. */
  function AddEnvVar(envs: seq<EnvVar>): (r: seq<EnvVar>)
    ensures |r| == |envs| + 1 && r[..|envs|] == envs
    ensures r[|envs|].key == "" && r[|envs|].value == ""
  {
    envs + [EnvVar("", "")]
  }

  /** `removeEnvVar(index)`: keep every entry whose position is not `index`. */
  function RemoveEnvVar(envs: seq<EnvVar>, index: int): (r: seq<EnvVar>)
    ensures r == if 0 <= index < |envs| then envs[..index] + envs[index + 1..] else envs
  {
    if envs == [] then []
    else
      var rest := RemoveEnvVar(envs[1..], index - 1);
      if index == 0 then rest
      else
        assert 0 <= index < |envs| ==> [envs[0]] + envs[1..][..index - 1] == envs[..index];
        [envs[0]] + rest
  }

  /** The entry with one field replaced (`{ ...env, [field]: value }`). */
  function SetField(e: EnvVar, field: EnvField, value: string): EnvVar {
    match field
    case Key => e.(key := value)
    case Value => e.(value := value)
  }

  /** `updateEnvVar(index, field, value)`: the entry at `index` gets the new
      field; every other entry, and the other field, stay as they were. */
  function UpdateEnvVar(envs: seq<EnvVar>, index: int, field: EnvField, value: string): (r: seq<EnvVar>)
    ensures |r| == |envs|
    ensures forall j :: 0 <= j < |envs| && j != index ==> r[j] == envs[j]
    ensures 0 <= index < |envs| && field == Key ==> r[index] == EnvVar(value, envs[index].value)
    ensures 0 <= index < |envs| && field == Value ==> r[index] == EnvVar(envs[index].key, value)
  {
    if envs == [] then []
    else [if index == 0 then SetField(envs[0], field, value) else envs[0]]
         + UpdateEnvVar(envs[1..], index - 1, field, value)
  }

  /** A new blank variable does not change the command. */
  lemma AddEnvVarKeepsCommand(f: Form)
    ensures CustomCommand(f.(envVars := AddEnvVar(f.envVars))) == CustomCommand(f)
  {
    EnvFlagsAppend(f.envVars, [EnvVar("", "")]);
    assert EnvFlags([EnvVar("", "")]) == [];
    assert EnvFlags(AddEnvVar(f.envVars)) == EnvFlags(f.envVars);
  }

  /** Removing a variable drops exactly its own `--env` flag, if it had one. */
  lemma RemoveEnvVarFlags(envs: seq<EnvVar>, index: int)
    requires 0 <= index < |envs|
    ensures EnvFlags(envs) == EnvFlags(envs[..index]) + EnvFlags([envs[index]]) + EnvFlags(envs[index + 1..])
    ensures EnvFlags(RemoveEnvVar(envs, index)) == EnvFlags(envs[..index]) + EnvFlags(envs[index + 1..])
  {
    SplitAround(envs, index);
    EnvFlagsAround(envs[..index], envs[index], envs[index + 1..]);
  }

  lemma SplitAround(envs: seq<EnvVar>, index: int)
    requires 0 <= index < |envs|
    ensures envs == envs[..index] + [envs[index]] + envs[index + 1..]
    ensures RemoveEnvVar(envs, index) == envs[..index] + envs[index + 1..]
  {
    assert envs[..index] + [envs[index]] == envs[..index + 1];
    assert envs[..index + 1] + envs[index + 1..] == envs;
  }

  lemma EnvFlagsAround(before: seq<EnvVar>, e: EnvVar, after: seq<EnvVar>)
    ensures EnvFlags(before + [e] + after) == EnvFlags(before) + EnvFlags([e]) + EnvFlags(after)
    ensures EnvFlags(before + after) == EnvFlags(before) + EnvFlags(after)
  {
    EnvFlagsAppend(before + [e], after);
    EnvFlagsAppend(before, [e]);
    EnvFlagsAppend(before, after);
  }

  // ---------------------------------------------------------------------------
  // The form's other edits

  /** `parseInt(text) || fallback`: an unreadable number (NaN) or 0 gives the fallback. */
  function ParsedOr(parsed: Option<int>, fallback: int): (r: int)
    ensures parsed.Some? && parsed.value != 0 ==> r == parsed.value
    ensures parsed.None? || parsed.value == 0 ==> r == fallback
  {
    match parsed
    case Some(n) => if n != 0 then n else fallback
    case None => fallback
  }

  /** Choosing a session type. When the kind really changes the image is
      cleared, and the name is regenerated unless it already starts with the
      part of the kind before its first dash. */
  function ChooseKind(f: Form, kind: string, suffix: string): (r: Form)
    ensures r.kind == kind
    ensures r.resourceMode == f.resourceMode && r.cpu == f.cpu && r.memory == f.memory
    ensures r.gpu == f.gpu && r.envVars == f.envVars
    ensures kind == f.kind ==> r == f
    ensures kind != f.kind ==> r.image == ""
    ensures kind != f.kind && StartsWith(f.name, BeforeFirst(kind, '-')) ==> r.name == f.name
    ensures kind != f.kind && !StartsWith(f.name, BeforeFirst(kind, '-')) ==> r.name == SessionName(kind, suffix)
  {
    if kind == f.kind then f
    else
      var renamed := if StartsWith(f.name, BeforeFirst(kind, '-')) then f.name else SessionName(kind, suffix);
      f.(kind := kind, image := "", name := renamed)
  }

  /** After a change of kind the name always begins with the kind's first segment. */
  lemma ChooseKindNameMatchesKind(f: Form, kind: string, suffix: string)
    requires kind != f.kind
    ensures StartsWith(ChooseKind(f, kind, suffix).name, BeforeFirst(kind, '-'))
  {
    var p := BeforeFirst(kind, '-');
    var r := ChooseKind(f, kind, suffix);
    if !StartsWith(f.name, p) {
      assert r.name == kind + "-" + suffix;
      assert r.name[..|p|] == kind[..|p|];
    }
  }

  // ---------------------------------------------------------------------------
  // The component's state

  /** What the modal body shows. */
  datatype ModalView = Hidden | SuccessPanel | LaunchingPanel | FormPanel | EmptyPanel

  function ViewOf(open: bool, state: LaunchState): (v: ModalView)
    ensures !open <==> v == Hidden
    ensures open ==> (v == SuccessPanel <==> state == Success)
    ensures open ==> (v == LaunchingPanel <==> state == Launching)
    ensures open ==> (v == FormPanel <==> state == Idle)
    ensures open ==> (v == EmptyPanel <==> state == Error)
  {
    if !open then Hidden
    else match state
      case Success => SuccessPanel
      case Launching => LaunchingPanel
      case Idle => FormPanel
      case Error => EmptyPanel
  }

  /** The state hooks of `SessionLauncher`. */
  class Launcher {
    var activeTab: Tab
    var launchState: LaunchState
    var launchedSessionId: Option<string>
    var selectedTemplate: Option<string>
    var form: Form

    /** A session id is known exactly when the launch has succeeded. */
    predicate Valid()
      reads this
    {
      launchState != Error && (launchState == Success <==> launchedSessionId.Some?)
    }

    constructor (suffix: string)
      ensures Valid()
      ensures activeTab == Quick && launchState == Idle && launchedSessionId == None
      ensures selectedTemplate == None && form == DefaultForm(suffix)
    {
      activeTab := Quick;
      launchState := Idle;
      launchedSessionId := None;
      selectedTemplate := None;
      form := DefaultForm(suffix);
    }

    predicate CanLaunchNow()
      reads this
    {
      CanLaunch(activeTab, selectedTemplate, form)
    }

    /** `handleReset`: everything but the active tab back to the start. */
    method Reset(suffix: string)
      modifies this
      ensures Valid()
      ensures launchState == Idle && selectedTemplate == None && launchedSessionId == None
      ensures form == DefaultForm(suffix) && activeTab == old(activeTab)
      ensures !CanLaunchNow()
    {
      selectedTemplate := None;
      launchState := Idle;
      launchedSessionId := None;
      form := DefaultForm(suffix);
    }

    /** `handleClose`: reset, then ask the parent to close (`closed`). The
        form's close and Cancel buttons and the success panel's Close and
        View Sessions buttons call it directly, without looking at the state. */
    method Close(suffix: string) returns (closed: bool)
      requires Valid()
      modifies this
      ensures Valid() && closed
      ensures launchState == Idle && selectedTemplate == None && launchedSessionId == None
      ensures form == DefaultForm(suffix) && activeTab == old(activeTab)
    {
      Reset(suffix);
      closed := true;
    }

    /** A click on the backdrop closes (and resets) the modal only while idle. */
    method ClickBackdrop(suffix: string) returns (closed: bool)
      requires Valid()
      modifies this
      ensures Valid()
      ensures closed <==> old(launchState) == Idle
      ensures closed ==> launchState == Idle && selectedTemplate == None && launchedSessionId == None
                         && form == DefaultForm(suffix) && activeTab == old(activeTab)
      ensures !closed ==> launchState == old(launchState) && selectedTemplate == old(selectedTemplate)
                          && launchedSessionId == old(launchedSessionId) && form == old(form)
                          && activeTab == old(activeTab)
    {
      if launchState == Idle {
        closed := Close(suffix);
      } else {
        closed := false;
      }
    }

    method SelectTab(tab: Tab)
      requires Valid()
      modifies this`activeTab
      ensures Valid() && activeTab == tab
      ensures CanLaunchNow() <==> if tab == Quick then selectedTemplate.Some? else form.kind != "" && form.image != ""
    {
      activeTab := tab;
    }

    method SelectTemplate(id: string)
      requires Valid()
      modifies this`selectedTemplate
      ensures Valid() && selectedTemplate == Some(id)
      ensures activeTab == Quick ==> CanLaunchNow()
    {
      selectedTemplate := Some(id);
    }

    method SelectKind(kind: string, suffix: string)
      requires Valid()
      modifies this`form
      ensures Valid() && form == ChooseKind(old(form), kind, suffix)
    {
      form := ChooseKind(form, kind, suffix);
    }

    method SetImage(image: string)
      requires Valid()
      modifies this`form
      ensures Valid() && form == old(form).(image := image)
      ensures activeTab == Custom ==> (CanLaunchNow() <==> form.kind != "" && image != "")
    {
      form := form.(image := image);
    }

    method SetName(name: string)
      requires Valid()
      modifies this`form
      ensures Valid() && form == old(form).(name := name)
    {
      form := form.(name := name);
    }

    method SetResourceMode(mode: ResourceMode)
      requires Valid()
      modifies this`form
      ensures Valid() && form == old(form).(resourceMode := mode)
    {
      form := form.(resourceMode := mode);
    }

    /** The cpu and memory inputs fall back to 1, the gpu input to 0. */
    method SetCpu(parsed: Option<int>)
      requires Valid()
      modifies this`form
      ensures Valid() && form == old(form).(cpu := ParsedOr(parsed, 1))
    {
      form := form.(cpu := ParsedOr(parsed, 1));
    }

    method SetMemory(parsed: Option<int>)
      requires Valid()
      modifies this`form
      ensures Valid() && form == old(form).(memory := ParsedOr(parsed, 1))
    {
      form := form.(memory := ParsedOr(parsed, 1));
    }

    method SetGpu(parsed: Option<int>)
      requires Valid()
      modifies this`form
      ensures Valid() && form == old(form).(gpu := ParsedOr(parsed, 0))
    {
      form := form.(gpu := ParsedOr(parsed, 0));
    }

    method AddVariable()
      requires Valid()
      modifies this`form
      ensures Valid() && form == old(form).(envVars := AddEnvVar(old(form).envVars))
    {
      form := form.(envVars := AddEnvVar(form.envVars));
    }

    method RemoveVariable(index: int)
      requires Valid()
      modifies this`form
      ensures Valid() && form == old(form).(envVars := RemoveEnvVar(old(form).envVars, index))
    {
      form := form.(envVars := RemoveEnvVar(form.envVars, index));
    }

    method UpdateVariable(index: int, field: EnvField, value: string)
      requires Valid()
      modifies this`form
      ensures Valid() && form == old(form).(envVars := UpdateEnvVar(old(form).envVars, index, field, value))
    {
      form := form.(envVars := UpdateEnvVar(form.envVars, index, field, value));
    }

    /** The first half of `handleLaunch`: enter `launching` and build the command.
        The launch button exists only in the idle panel. */
    method BeginLaunch(templates: seq<Template>) returns (cmd: string)
      requires Valid() && launchState == Idle
      modifies this`launchState
      ensures Valid() && launchState == Launching
      ensures cmd == LaunchCommand(activeTab, selectedTemplate, templates, form)
    {
      launchState := Launching;
      cmd := BuildLaunchCommand(activeTab, selectedTemplate, templates, form);
    }

    /** The second half of `handleLaunch`, after the simulated delay: record
        the (random, here given) session id and succeed. */
    method CompleteLaunch(sessionId: string)
      requires Valid() && launchState == Launching
      modifies this`launchState, this`launchedSessionId
      ensures Valid() && launchState == Success && launchedSessionId == Some(sessionId)
    {
      launchedSessionId := Some(sessionId);
      launchState := Success;
    }
  }
}
