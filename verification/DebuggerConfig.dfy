/**
  ConfigStore and ConfigLoad: the debugger's options, breakpoints and source code mappings in the
  numbered groups of the application's configuration.
 */
module DebuggerConfig {
  import opened DebuggerTypes
  import opened Strings

  datatype Value = Str(s: string) | Num(n: int) | Flag(b: bool)

  type Group = map<string, Value>

  type Groups = map<string, Group>

  const DEBUGGER := "Debugger"
  const BREAKPOINTS := "DebuggerBreakpoint_"
  const MAPPINGS := "DebuggerMapping_"

  /** The name of a numbered group. */
  function Name(start: string, i: nat): string {
    start + Decimal(i)
  }

  // ---------------------------------------------------------------- the configuration object

  function Written(c: Groups, group: string, key: string, value: Value): Groups {
    c[group := (if group in c then c[group] else map[])[key := value]]
  }

  function ReadStr(c: Groups, group: string, key: string, byDefault: string): string {
    if group in c && key in c[group] && c[group][key].Str? then c[group][key].s else byDefault
  }

  function ReadNum(c: Groups, group: string, key: string, byDefault: int): int {
    if group in c && key in c[group] && c[group][key].Num? then c[group][key].n else byDefault
  }

  function ReadFlag(c: Groups, group: string, key: string, byDefault: bool): bool {
    if group in c && key in c[group] && c[group][key].Flag? then c[group][key].b else byDefault
  }

  /** The groups, each once, in the order in which the configuration enumerates them. */
  ghost predicate Enumerates(order: seq<string>, names: set<string>) {
    && (forall g :: g in order <==> g in names)
    && (forall j, k :: 0 <= j < k < |order| ==> order[j] != order[k])
  }

  class Config {
    var Contents: Groups

    constructor ()
      ensures Contents == map[]
    {
      Contents := map[];
    }

    method Write(group: string, key: string, value: Value)
      modifies this
      ensures Contents == Written(old(Contents), group, key, value)
    {
      Contents := Contents[group := (if group in Contents then Contents[group] else map[])[key := value]];
    }

    method DeleteGroup(group: string)
      modifies this
      ensures Contents == old(Contents) - {group}
    {
      Contents := Contents - {group};
    }
  }

  // ---------------------------------------------------------------- storing

  function Without(c: Groups, start: string): Groups {
    map g | g in c && !StartsWith(g, start) :: c[g]
  }

  function OptionsGroup(before: Group, o: Options): Group {
    before["Port" := Num(o.port)]["MaxChildren" := Num(o.maxChildren)]["MaxDepth" := Num(o.maxDepth)]
      ["DoListenOnAppReady" := Flag(o.doListenOnAppReady)]["DoBreakOnStart" := Flag(o.doBreakOnStart)]
  }

  function WithOptions(c: Groups, o: Options): Groups {
    c[DEBUGGER := OptionsGroup(if DEBUGGER in c then c[DEBUGGER] else map[], o)]
  }

  function GroupOf(b: Breakpoint): Group {
    map["Filename" := Str(b.filename), "LineNumber" := Num(b.lineNumber), "IsEnabled" := Flag(b.isEnabled),
      "BreakpointType" := Str(b.breakpointType), "Exception" := Str(b.exception_), "Expression" := Str(b.expression),
      "Function" := Str(b.function_), "HitCondition" := Str(b.hitCondition), "HitValue" := Num(b.hitValue)]
  }

  function GroupsOf(bs: seq<BreakpointWithHandle>): seq<Group> {
    seq(|bs|, k requires 0 <= k < |bs| => GroupOf(bs[k].breakpoint))
  }

  function MappingGroup(local: string, remote: string): Group {
    map["LocalPath" := Str(local), "RemotePath" := Str(remote)]
  }

  /** The groups of the mappings, in the order in which they are visited. */
  function MappingGroups(ms: map<string, string>, locals: seq<string>): seq<Group>
    requires forall l :: l in locals ==> l in ms
  {
    seq(|locals|, k requires 0 <= k < |locals| => MappingGroup(locals[k], ms[locals[k]]))
  }

  /** Numbered groups added from 0 on. */
  function WithGroups(c: Groups, start: string, contents: seq<Group>): Groups {
    if contents == [] then c
    else
      var n := |contents| - 1;
      WithGroups(c, start, contents[..n])[Name(start, n) := contents[n]]
  }

  function Stored(c: Groups, o: Options, bs: seq<BreakpointWithHandle>, locals: seq<string>): Groups
    requires forall l :: l in locals ==> l in o.sourceCodeMappings
  {
    var cleared := Without(Without(WithOptions(c, o), BREAKPOINTS), MAPPINGS);
    WithGroups(WithGroups(cleared, BREAKPOINTS, GroupsOf(bs)), MAPPINGS, MappingGroups(o.sourceCodeMappings, locals))
  }

  // ---------------------------------------------------------------- which groups there are

  lemma NamesDiffer(start: string, i: nat, j: nat)
    requires i != j
    ensures Name(start, i) != Name(start, j)
  {
    if Name(start, i) == Name(start, j) {
      assert Decimal(i) == Name(start, i)[|start|..] == Decimal(j);
      DecimalInjective(i, j);
    }
  }

  lemma {:induction false} GroupStored(c: Groups, start: string, contents: seq<Group>, k: nat)
    requires k < |contents|
    ensures var w := WithGroups(c, start, contents); Name(start, k) in w && w[Name(start, k)] == contents[k]
  {
    var n := |contents| - 1;
    if k < n {
      GroupStored(c, start, contents[..n], k);
      NamesDiffer(start, k, n);
    }
  }

  lemma {:induction false} OtherGroupKept(c: Groups, start: string, contents: seq<Group>, g: string)
    requires forall k :: 0 <= k < |contents| ==> g != Name(start, k)
    ensures var w := WithGroups(c, start, contents); (g in w <==> g in c) && (g in c ==> w[g] == c[g])
  {
    if contents != [] {
      OtherGroupKept(c, start, contents[..|contents| - 1], g);
    }
  }

  lemma NamesAreApart(g: string)
    ensures !(StartsWith(g, BREAKPOINTS) && StartsWith(g, MAPPINGS))
    ensures StartsWith(g, BREAKPOINTS) || StartsWith(g, MAPPINGS) ==> g != DEBUGGER
  {
    if StartsWith(g, BREAKPOINTS) {
      assert g[8] == BREAKPOINTS[8];
    }
    if StartsWith(g, MAPPINGS) {
      assert g[8] == MAPPINGS[8];
    }
  }

  /** One more group: its name is still free. */
  lemma NextGroup(c: Groups, start: string, contents: seq<Group>, more: Group)
    requires forall g :: g in c ==> !StartsWith(g, start)
    ensures Name(start, |contents|) !in WithGroups(c, start, contents)
    ensures WithGroups(c, start, contents + [more])
      == WithGroups(c, start, contents)[Name(start, |contents|) := more]
  {
    assert (contents + [more])[..|contents|] == contents;
    forall k: nat | k < |contents| ensures Name(start, |contents|) != Name(start, k) {
      NamesDiffer(start, k, |contents|);
    }
    OtherGroupKept(c, start, contents, Name(start, |contents|));
  }

  /** Groups with another kind of name are not disturbed. */
  lemma OtherKindKept(c: Groups, start: string, contents: seq<Group>, g: string)
    requires !StartsWith(g, start)
    ensures var w := WithGroups(c, start, contents); (g in w <==> g in c) && (g in c ==> w[g] == c[g])
  {
    OtherGroupKept(c, start, contents, g);
  }

  // ---------------------------------------------------------------- the methods that store

  /** Groups may be deleted in any order once they are collected. */
  method ConfigDeleteGroups(config: Config, groupNameStart: string)
    modifies config
    ensures config.Contents == Without(old(config.Contents), groupNameStart)
  {
    var names := config.Contents.Keys;
    var keysToDelete: seq<string> := [];
    while names != {}
      invariant config.Contents == old(config.Contents) && names <= config.Contents.Keys
      invariant forall g :: g in keysToDelete <==> g in config.Contents && g !in names && StartsWith(g, groupNameStart)
      decreases |names|
    {
      var groupName :| groupName in names;
      names := names - {groupName};
      if StartsWith(groupName, groupNameStart) {
        keysToDelete := keysToDelete + [groupName];
      }
    }
    for j := 0 to |keysToDelete|
      invariant forall g :: g in config.Contents <==> g in old(config.Contents) && g !in keysToDelete[..j]
      invariant forall g :: g in config.Contents ==> config.Contents[g] == old(config.Contents)[g]
    {
      assert keysToDelete[..j + 1] == keysToDelete[..j] + [keysToDelete[j]];
      config.DeleteGroup(keysToDelete[j]);
    }
    assert keysToDelete[..|keysToDelete|] == keysToDelete;
  }

  /** Write to a group whose contents are known. */
  method StoreField(config: Config, group: string, ghost c: Groups, ghost g: Group, key: string, value: Value)
    returns (ghost g': Group)
    requires config.Contents == c[group := g]
    modifies config
    ensures g' == g[key := value] && config.Contents == c[group := g']
  {
    config.Write(group, key, value);
    g' := g[key := value];
  }

  method StoreBreakpoint(config: Config, i: nat, b: Breakpoint)
    requires Name(BREAKPOINTS, i) !in config.Contents
    modifies config
    ensures config.Contents == old(config.Contents)[Name(BREAKPOINTS, i) := GroupOf(b)]
  {
    var group := Name(BREAKPOINTS, i);
    ghost var c := config.Contents;
    config.Write(group, "Filename", Str(b.filename));
    ghost var g: Group := map["Filename" := Str(b.filename)];
    g := StoreField(config, group, c, g, "LineNumber", Num(b.lineNumber));
    g := StoreField(config, group, c, g, "IsEnabled", Flag(b.isEnabled));
    g := StoreField(config, group, c, g, "BreakpointType", Str(b.breakpointType));
    g := StoreField(config, group, c, g, "Exception", Str(b.exception_));
    g := StoreField(config, group, c, g, "Expression", Str(b.expression));
    g := StoreField(config, group, c, g, "Function", Str(b.function_));
    g := StoreField(config, group, c, g, "HitCondition", Str(b.hitCondition));
    g := StoreField(config, group, c, g, "HitValue", Num(b.hitValue));
    assert g == GroupOf(b);
  }

  method StoreMapping(config: Config, i: nat, local: string, remote: string)
    requires Name(MAPPINGS, i) !in config.Contents
    modifies config
    ensures config.Contents == old(config.Contents)[Name(MAPPINGS, i) := MappingGroup(local, remote)]
  {
    config.Write(Name(MAPPINGS, i), "LocalPath", Str(local));
    config.Write(Name(MAPPINGS, i), "RemotePath", Str(remote));
  }

  method StoreOptions(config: Config, o: Options)
    modifies config
    ensures config.Contents == WithOptions(old(config.Contents), o)
  {
    ghost var c := config.Contents;
    config.Write(DEBUGGER, "Port", Num(o.port));
    ghost var g := (if DEBUGGER in c then c[DEBUGGER] else map[])["Port" := Num(o.port)];
    g := StoreField(config, DEBUGGER, c, g, "MaxChildren", Num(o.maxChildren));
    g := StoreField(config, DEBUGGER, c, g, "MaxDepth", Num(o.maxDepth));
    g := StoreField(config, DEBUGGER, c, g, "DoListenOnAppReady", Flag(o.doListenOnAppReady));
    g := StoreField(config, DEBUGGER, c, g, "DoBreakOnStart", Flag(o.doBreakOnStart));
  }

  method StoreBreakpoints(config: Config, breakpoints: seq<BreakpointWithHandle>)
    requires forall g :: g in config.Contents ==> !StartsWith(g, BREAKPOINTS)
    modifies config
    ensures config.Contents == WithGroups(old(config.Contents), BREAKPOINTS, GroupsOf(breakpoints))
  {
    ghost var cleared := config.Contents;
    var i := 0;
    while i < |breakpoints|
      invariant 0 <= i <= |breakpoints|
      invariant config.Contents == WithGroups(cleared, BREAKPOINTS, GroupsOf(breakpoints[..i]))
    {
      NextGroup(cleared, BREAKPOINTS, GroupsOf(breakpoints[..i]), GroupOf(breakpoints[i].breakpoint));
      assert GroupsOf(breakpoints[..i + 1]) == GroupsOf(breakpoints[..i]) + [GroupOf(breakpoints[i].breakpoint)];
      StoreBreakpoint(config, i, breakpoints[i].breakpoint);
      i := i + 1;
    }
    assert breakpoints[..i] == breakpoints;
  }

  method StoreMappings(config: Config, ms: map<string, string>) returns (ghost locals: seq<string>)
    requires forall g :: g in config.Contents ==> !StartsWith(g, MAPPINGS)
    modifies config
    ensures Enumerates(locals, ms.Keys)
    ensures config.Contents == WithGroups(old(config.Contents), MAPPINGS, MappingGroups(ms, locals))
  {
    ghost var cleared := config.Contents;
    locals := [];
    var i := 0;
    var rest := ms.Keys;
    while rest != {}
      invariant rest <= ms.Keys && i == |locals|
      invariant Enumerates(locals, ms.Keys - rest)
      invariant config.Contents == WithGroups(cleared, MAPPINGS, MappingGroups(ms, locals))
      decreases |rest|
    {
      var local :| local in rest;
      EnumerateNext(locals, ms.Keys, rest, local);
      rest := rest - {local};
      NextGroup(cleared, MAPPINGS, MappingGroups(ms, locals), MappingGroup(local, ms[local]));
      assert MappingGroups(ms, locals + [local]) == MappingGroups(ms, locals) + [MappingGroup(local, ms[local])];
      StoreMapping(config, i, local, ms[local]);
      locals := locals + [local];
      i := i + 1;
    }
  }

  /** `locals` is the order in which the mappings were visited. */
  method ConfigStore(config: Config, options: Options, breakpoints: seq<BreakpointWithHandle>)
    returns (ghost locals: seq<string>)
    modifies config
    ensures Enumerates(locals, options.sourceCodeMappings.Keys)
    ensures config.Contents == Stored(old(config.Contents), options, breakpoints, locals)
  {
    StoreOptions(config, options);
    ConfigDeleteGroups(config, BREAKPOINTS);
    ConfigDeleteGroups(config, MAPPINGS);
    ghost var cleared := config.Contents;
    StoreBreakpoints(config, breakpoints);
    forall g | g in config.Contents ensures !StartsWith(g, MAPPINGS) {
      if StartsWith(g, MAPPINGS) {
        NamesAreApart(g);
        OtherKindKept(cleared, BREAKPOINTS, GroupsOf(breakpoints), g);
      }
    }
    locals := StoreMappings(config, options.sourceCodeMappings);
  }

  // ---------------------------------------------------------------- loading

  function BreakpointOf(c: Groups, g: string): Breakpoint {
    Breakpoint(ReadStr(c, g, "Filename", ""), ReadNum(c, g, "LineNumber", 0), ReadFlag(c, g, "IsEnabled", false),
      ReadStr(c, g, "BreakpointType", ""), ReadStr(c, g, "Exception", ""), ReadStr(c, g, "Expression", ""),
      ReadStr(c, g, "Function", ""), ReadStr(c, g, "HitCondition", ""), ReadNum(c, g, "HitValue", 0))
  }

  /** The names with the given start, in order. */
  function Chosen(order: seq<string>, start: string): seq<string> {
    if order == [] then []
    else
      var n := |order| - 1;
      if StartsWith(order[n], start) then Chosen(order[..n], start) + [order[n]] else Chosen(order[..n], start)
  }

  /** A loaded breakpoint knows nothing of a debug session. */
  function Loaded(b: Breakpoint): BreakpointWithHandle {
    BreakpointWithHandle(b, "", 0, 0, "")
  }

  function LoadedBreakpoints(c: Groups, names: seq<string>): seq<BreakpointWithHandle> {
    seq(|names|, k requires 0 <= k < |names| => Loaded(BreakpointOf(c, names[k])))
  }

  function WithMapping(ms: map<string, string>, c: Groups, g: string): map<string, string> {
    var local, remote := ReadStr(c, g, "LocalPath", ""), ReadStr(c, g, "RemotePath", "");
    if local != "" && remote != "" then ms[local := remote] else ms
  }

  function LoadedMappings(c: Groups, names: seq<string>, ms: map<string, string>): map<string, string> {
    if names == [] then ms
    else WithMapping(LoadedMappings(c, names[..|names| - 1], ms), c, names[|names| - 1])
  }

  function LoadedOptions(c: Groups, o: Options, ms: map<string, string>): Options {
    Options(ReadNum(c, DEBUGGER, "Port", o.port), ReadNum(c, DEBUGGER, "MaxChildren", o.maxChildren),
      ReadNum(c, DEBUGGER, "MaxDepth", o.maxDepth), ReadFlag(c, DEBUGGER, "DoListenOnAppReady", o.doListenOnAppReady),
      ReadFlag(c, DEBUGGER, "DoBreakOnStart", o.doBreakOnStart), ms)
  }

  lemma EnumerateNext(order: seq<string>, all: set<string>, rest: set<string>, g: string)
    requires rest <= all && g in rest && Enumerates(order, all - rest)
    ensures Enumerates(order + [g], all - (rest - {g}))
  {
  }

  lemma LoadNext(c: Groups, order: seq<string>, g: string, ms: map<string, string>)
    ensures LoadedBreakpoints(c, Chosen(order + [g], BREAKPOINTS)) == LoadedBreakpoints(c, Chosen(order, BREAKPOINTS))
      + (if StartsWith(g, BREAKPOINTS) then [Loaded(BreakpointOf(c, g))] else [])
    ensures LoadedMappings(c, Chosen(order + [g], MAPPINGS), ms)
      == var loaded := LoadedMappings(c, Chosen(order, MAPPINGS), ms);
         if StartsWith(g, MAPPINGS) then WithMapping(loaded, c, g) else loaded
  {
    assert (order + [g])[..|order|] == order;
    var before := Chosen(order, MAPPINGS);
    assert (before + [g])[..|before|] == before;
  }

  /** Adds to the options and breakpoints it is given; `order` is the order of the enumeration. */
  method ConfigLoad(config: Config, options0: Options, breakpoints0: seq<BreakpointWithHandle>)
    returns (options: Options, breakpoints: seq<BreakpointWithHandle>, ghost order: seq<string>)
    ensures breakpoints0 <= breakpoints
    ensures options == LoadedOptions(config.Contents, options0, options.sourceCodeMappings)
    ensures Enumerates(order, config.Contents.Keys)
    ensures breakpoints == breakpoints0 + LoadedBreakpoints(config.Contents, Chosen(order, BREAKPOINTS))
    ensures options == LoadedOptions(config.Contents, options0,
      LoadedMappings(config.Contents, Chosen(order, MAPPINGS), options0.sourceCodeMappings))
  {
    var c := config.Contents;
    var ms := options0.sourceCodeMappings;
    breakpoints, order := breakpoints0, [];
    var names := c.Keys;
    while names != {}
      invariant names <= c.Keys && Enumerates(order, c.Keys - names)
      invariant breakpoints == breakpoints0 + LoadedBreakpoints(c, Chosen(order, BREAKPOINTS))
      invariant ms == LoadedMappings(c, Chosen(order, MAPPINGS), options0.sourceCodeMappings)
      decreases |names|
    {
      var groupName :| groupName in names;
      EnumerateNext(order, c.Keys, names, groupName);
      names := names - {groupName};
      LoadNext(c, order, groupName, options0.sourceCodeMappings);
      if StartsWith(groupName, BREAKPOINTS) {
        breakpoints := breakpoints + [Loaded(BreakpointOf(c, groupName))];
      }
      if StartsWith(groupName, MAPPINGS) {
        var localPath := ReadStr(c, groupName, "LocalPath", "");
        var remotePath := ReadStr(c, groupName, "RemotePath", "");
        if localPath != "" && remotePath != "" {
          ms := ms[localPath := remotePath];
        }
      }
      order := order + [groupName];
    }
    options := LoadedOptions(c, options0, ms);
  }
}
