/**
  What ConfigStore writes, ConfigLoad reads back, whatever the configuration held before.
 */
module ConfigRoundTrip {
  import opened DebuggerTypes
  import opened DebuggerConfig
  import opened Strings

  // ---------------------------------------------------------------- the stored configuration

  ghost predicate Covers(locals: seq<string>, ms: map<string, string>) {
    Enumerates(locals, ms.Keys)
  }

  lemma StoredBreakpointGroup(c: Groups, o: Options, bs: seq<BreakpointWithHandle>, locals: seq<string>, k: nat)
    requires Covers(locals, o.sourceCodeMappings) && k < |bs|
    ensures var s := Stored(c, o, bs, locals); var g := Name(BREAKPOINTS, k);
      g in s && StartsWith(g, BREAKPOINTS) && s[g] == GroupOf(bs[k].breakpoint)
  {
    var g := Name(BREAKPOINTS, k);
    var cleared := Without(Without(WithOptions(c, o), BREAKPOINTS), MAPPINGS);
    NamesAreApart(g);
    GroupStored(cleared, BREAKPOINTS, GroupsOf(bs), k);
    OtherKindKept(WithGroups(cleared, BREAKPOINTS, GroupsOf(bs)), MAPPINGS,
      MappingGroups(o.sourceCodeMappings, locals), g);
  }

  lemma StoredMappingGroup(c: Groups, o: Options, bs: seq<BreakpointWithHandle>, locals: seq<string>, k: nat)
    requires Covers(locals, o.sourceCodeMappings) && k < |locals|
    ensures var s := Stored(c, o, bs, locals); var g := Name(MAPPINGS, k);
      g in s && StartsWith(g, MAPPINGS) && s[g] == MappingGroup(locals[k], o.sourceCodeMappings[locals[k]])
  {
    var cleared := Without(Without(WithOptions(c, o), BREAKPOINTS), MAPPINGS);
    GroupStored(WithGroups(cleared, BREAKPOINTS, GroupsOf(bs)), MAPPINGS,
      MappingGroups(o.sourceCodeMappings, locals), k);
  }

  /** The groups and keys of the stored configuration. */
  lemma StoredFormat(c: Groups, o: Options, bs: seq<BreakpointWithHandle>, locals: seq<string>, k: nat)
    requires Covers(locals, o.sourceCodeMappings)
    ensures var s := Stored(c, o, bs, locals);
      && "Debugger" in s
      && map["Port" := Num(o.port), "MaxChildren" := Num(o.maxChildren), "MaxDepth" := Num(o.maxDepth),
             "DoListenOnAppReady" := Flag(o.doListenOnAppReady), "DoBreakOnStart" := Flag(o.doBreakOnStart)].Items
           <= s["Debugger"].Items
      && (k < |bs| ==>
            var b := bs[k].breakpoint; var g := "DebuggerBreakpoint_" + Decimal(k);
            g in s && s[g] == map["Filename" := Str(b.filename), "LineNumber" := Num(b.lineNumber),
              "IsEnabled" := Flag(b.isEnabled), "BreakpointType" := Str(b.breakpointType),
              "Exception" := Str(b.exception_), "Expression" := Str(b.expression), "Function" := Str(b.function_),
              "HitCondition" := Str(b.hitCondition), "HitValue" := Num(b.hitValue)])
      && (k < |locals| ==>
            var g := "DebuggerMapping_" + Decimal(k);
            g in s && s[g] == map["LocalPath" := Str(locals[k]), "RemotePath" := Str(o.sourceCodeMappings[locals[k]])])
  {
    OptionsStored(c, o, bs, locals);
    if k < |bs| {
      StoredBreakpointGroup(c, o, bs, locals, k);
    }
    if k < |locals| {
      StoredMappingGroup(c, o, bs, locals, k);
    }
  }

  lemma OptionsStored(c: Groups, o: Options, bs: seq<BreakpointWithHandle>, locals: seq<string>)
    requires Covers(locals, o.sourceCodeMappings)
    ensures var s := Stored(c, o, bs, locals);
      && "Debugger" in s
      && map["Port" := Num(o.port), "MaxChildren" := Num(o.maxChildren), "MaxDepth" := Num(o.maxDepth),
             "DoListenOnAppReady" := Flag(o.doListenOnAppReady), "DoBreakOnStart" := Flag(o.doBreakOnStart)].Items
           <= s["Debugger"].Items
  {
    OtherGroupsUntouched(c, o, bs, locals, "Debugger");
  }

  /** An option that is not there stays as it was. */
  lemma MissingOptionsStay(c: Groups, o: Options)
    ensures "Debugger" !in c || c["Debugger"] == map[] ==> LoadedOptions(c, o, o.sourceCodeMappings) == o
  {
  }

  /** What is read from such a group, whoever wrote it; a key that is not there leaves the field as it was. */
  lemma ReadFormat(c: Groups, g: string, b: Breakpoint)
    requires g in c
    ensures c[g] == map["Filename" := Str(b.filename), "LineNumber" := Num(b.lineNumber),
        "IsEnabled" := Flag(b.isEnabled), "BreakpointType" := Str(b.breakpointType), "Exception" := Str(b.exception_),
        "Expression" := Str(b.expression), "Function" := Str(b.function_), "HitCondition" := Str(b.hitCondition),
        "HitValue" := Num(b.hitValue)]
      ==> BreakpointOf(c, g) == b
    ensures c[g] == map[] ==> BreakpointOf(c, g) == NO_BREAKPOINT
  {
  }

  /** Nothing is left over from a longer list. */
  lemma NoLeftoverBreakpoint(c: Groups, o: Options, bs: seq<BreakpointWithHandle>, locals: seq<string>, g: string)
    requires Covers(locals, o.sourceCodeMappings) && StartsWith(g, BREAKPOINTS)
    ensures g in Stored(c, o, bs, locals) ==> exists k :: 0 <= k < |bs| && g == Name(BREAKPOINTS, k)
  {
    var cleared := Without(Without(WithOptions(c, o), BREAKPOINTS), MAPPINGS);
    NamesAreApart(g);
    OtherKindKept(WithGroups(cleared, BREAKPOINTS, GroupsOf(bs)), MAPPINGS,
      MappingGroups(o.sourceCodeMappings, locals), g);
    if forall k :: 0 <= k < |bs| ==> g != Name(BREAKPOINTS, k) {
      OtherGroupKept(cleared, BREAKPOINTS, GroupsOf(bs), g);
    }
  }

  lemma NoLeftoverMapping(c: Groups, o: Options, bs: seq<BreakpointWithHandle>, locals: seq<string>, g: string)
    requires Covers(locals, o.sourceCodeMappings) && StartsWith(g, MAPPINGS)
    ensures g in Stored(c, o, bs, locals) ==> exists k :: 0 <= k < |locals| && g == Name(MAPPINGS, k)
  {
    var cleared := Without(Without(WithOptions(c, o), BREAKPOINTS), MAPPINGS);
    NamesAreApart(g);
    OtherKindKept(cleared, BREAKPOINTS, GroupsOf(bs), g);
    if forall k :: 0 <= k < |locals| ==> g != Name(MAPPINGS, k) {
      OtherGroupKept(WithGroups(cleared, BREAKPOINTS, GroupsOf(bs)), MAPPINGS,
        MappingGroups(o.sourceCodeMappings, locals), g);
    }
  }

  /** Storing touches no group of another kind, and the debugger's own group only in the five options. */
  lemma OtherGroupsUntouched(c: Groups, o: Options, bs: seq<BreakpointWithHandle>, locals: seq<string>, g: string)
    requires Covers(locals, o.sourceCodeMappings) && !StartsWith(g, BREAKPOINTS) && !StartsWith(g, MAPPINGS)
    ensures var s := Stored(c, o, bs, locals);
      if g == DEBUGGER then g in s && s[g] == OptionsGroup(if g in c then c[g] else map[], o)
      else (g in s <==> g in c) && (g in c ==> s[g] == c[g])
  {
    var cleared := Without(Without(WithOptions(c, o), BREAKPOINTS), MAPPINGS);
    OtherKindKept(cleared, BREAKPOINTS, GroupsOf(bs), g);
    OtherKindKept(WithGroups(cleared, BREAKPOINTS, GroupsOf(bs)), MAPPINGS,
      MappingGroups(o.sourceCodeMappings, locals), g);
  }

  // ---------------------------------------------------------------- enumerations

  predicate Distinct(names: seq<string>) {
    forall j, k :: 0 <= j < k < |names| ==> names[j] != names[k]
  }

  lemma {:induction false} ChosenAre(order: seq<string>, start: string)
    requires Distinct(order)
    ensures forall g :: g in Chosen(order, start) <==> g in order && StartsWith(g, start)
    ensures Distinct(Chosen(order, start))
  {
    if order != [] {
      ChosenAre(order[..|order| - 1], start);
      assert order == order[..|order| - 1] + [order[|order| - 1]];
    }
  }

  /** The groups that say x. */
  function Saying(c: Groups, names: seq<string>, x: BreakpointWithHandle): set<string> {
    set g | g in names && Loaded(BreakpointOf(c, g)) == x
  }

  lemma SayingLast(c: Groups, before: seq<string>, last: string, x: BreakpointWithHandle)
    requires last !in before
    ensures |Saying(c, before + [last], x)|
      == |Saying(c, before, x)| + if Loaded(BreakpointOf(c, last)) == x then 1 else 0
  {
    var all, those := Saying(c, before + [last], x), Saying(c, before, x);
    if Loaded(BreakpointOf(c, last)) == x {
      assert all == those + {last};
    } else {
      assert all == those;
    }
  }

  lemma CountLast(s: seq<BreakpointWithHandle>, y: BreakpointWithHandle, x: BreakpointWithHandle)
    ensures multiset(s + [y])[x] == multiset(s)[x] + if y == x then 1 else 0
  {
  }

  /** How many of the breakpoints read are x: as many as there are groups that say x. */
  lemma {:induction false} CountOfLoaded(c: Groups, names: seq<string>, x: BreakpointWithHandle)
    requires Distinct(names)
    ensures multiset(LoadedBreakpoints(c, names))[x] == |Saying(c, names, x)|
  {
    if names == [] {
      assert Saying(c, names, x) == {};
    } else {
      var n := |names| - 1;
      CountOfLoaded(c, names[..n], x);
      assert names == names[..n] + [names[n]];
      LoadedLast(c, names[..n], names[n]);
      CountLast(LoadedBreakpoints(c, names[..n]), Loaded(BreakpointOf(c, names[n])), x);
      SayingLast(c, names[..n], names[n], x);
    }
  }

  lemma LoadedLast(c: Groups, before: seq<string>, last: string)
    ensures LoadedBreakpoints(c, before + [last]) == LoadedBreakpoints(c, before) + [Loaded(BreakpointOf(c, last))]
  {
  }

  /** Reading the same groups in another order reads the same breakpoints. */
  lemma OrderIsIrrelevant(c: Groups, a: seq<string>, b: seq<string>)
    requires Distinct(a) && Distinct(b) && forall g :: g in a <==> g in b
    ensures multiset(LoadedBreakpoints(c, a)) == multiset(LoadedBreakpoints(c, b))
  {
    forall x ensures multiset(LoadedBreakpoints(c, a))[x] == multiset(LoadedBreakpoints(c, b))[x] {
      CountOfLoaded(c, a, x);
      CountOfLoaded(c, b, x);
      assert Saying(c, a, x) == Saying(c, b, x);
    }
  }

  // ---------------------------------------------------------------- breakpoints

  /** The breakpoints as they are after a restart of the application: what the session knew is gone. */
  function Persisted(bs: seq<BreakpointWithHandle>): seq<BreakpointWithHandle> {
    seq(|bs|, k requires 0 <= k < |bs| => Loaded(bs[k].breakpoint))
  }

  lemma PersistedAre(bs: seq<BreakpointWithHandle>)
    ensures |Persisted(bs)| == |bs|
    ensures forall k :: 0 <= k < |bs| ==> Persisted(bs)[k] == BreakpointWithHandle(bs[k].breakpoint, "", 0, 0, "")
  {
  }

  function Names(start: string, n: nat): seq<string> {
    seq(n, k requires 0 <= k < n => Name(start, k))
  }

  lemma NamesAreDistinct(start: string, n: nat)
    ensures Distinct(Names(start, n))
  {
    forall j, k | 0 <= j < k < n ensures Names(start, n)[j] != Names(start, n)[k] {
      NamesDiffer(start, j, k);
    }
  }

  lemma GroupReadsBack(c: Groups, g: string, b: Breakpoint)
    requires g in c && c[g] == GroupOf(b)
    ensures BreakpointOf(c, g) == b
  {
  }

  lemma BreakpointsReadBack(c: Groups, o: Options, bs: seq<BreakpointWithHandle>, locals: seq<string>)
    requires Covers(locals, o.sourceCodeMappings)
    ensures LoadedBreakpoints(Stored(c, o, bs, locals), Names(BREAKPOINTS, |bs|)) == Persisted(bs)
  {
    var s := Stored(c, o, bs, locals);
    forall k | 0 <= k < |bs| ensures BreakpointOf(s, Name(BREAKPOINTS, k)) == bs[k].breakpoint {
      StoredBreakpointGroup(c, o, bs, locals, k);
      GroupReadsBack(s, Name(BREAKPOINTS, k), bs[k].breakpoint);
    }
  }

  lemma ChosenBreakpointNames(
      c: Groups, o: Options, bs: seq<BreakpointWithHandle>, locals: seq<string>, order: seq<string>)
    requires Covers(locals, o.sourceCodeMappings) && Enumerates(order, Stored(c, o, bs, locals).Keys)
    ensures Distinct(Chosen(order, BREAKPOINTS)) && Distinct(Names(BREAKPOINTS, |bs|))
    ensures forall g :: g in Chosen(order, BREAKPOINTS) <==> g in Names(BREAKPOINTS, |bs|)
  {
    var chosen, names := Chosen(order, BREAKPOINTS), Names(BREAKPOINTS, |bs|);
    ChosenAre(order, BREAKPOINTS);
    NamesAreDistinct(BREAKPOINTS, |bs|);
    forall g ensures g in chosen <==> g in names {
      if g in chosen {
        NoLeftoverBreakpoint(c, o, bs, locals, g);
        var k :| 0 <= k < |bs| && g == Name(BREAKPOINTS, k);
        assert names[k] == g;
      }
      if g in names {
        var k :| 0 <= k < |names| && names[k] == g;
        StoredBreakpointGroup(c, o, bs, locals, k);
      }
    }
  }

  // ---------------------------------------------------------------- mappings

  /** The mappings that survive: those with both paths. */
  function Kept(ms: map<string, string>): map<string, string> {
    map l | l in ms && l != "" && ms[l] != "" :: ms[l]
  }

  function LocalOf(c: Groups, g: string): string {
    ReadStr(c, g, "LocalPath", "")
  }

  /** The group is that of one of the mappings. */
  predicate IsGroupOf(c: Groups, g: string, ms: map<string, string>) {
    g in c && LocalOf(c, g) in ms && c[g] == MappingGroup(LocalOf(c, g), ms[LocalOf(c, g)])
  }

  /** The mappings that survive among those whose groups were read. */
  function KeptOf(c: Groups, names: seq<string>, ms: map<string, string>): map<string, string> {
    map l | l in Kept(ms) && l in Locals(c, names) :: ms[l]
  }

  function Locals(c: Groups, names: seq<string>): set<string> {
    set g | g in names :: LocalOf(c, g)
  }

  lemma OneMappingLoaded(c: Groups, g: string, ms: map<string, string>, before: map<string, string>)
    requires IsGroupOf(c, g, ms)
    ensures var l := LocalOf(c, g); WithMapping(before, c, g) == if l in Kept(ms) then before[l := ms[l]] else before
  {
  }

  lemma LocalsLast(c: Groups, before: seq<string>, last: string)
    ensures Locals(c, before + [last]) == Locals(c, before) + {LocalOf(c, last)}
  {
    assert forall g :: g in before + [last] <==> g in before || g == last;
  }

  ghost predicate AllGroupsOf(c: Groups, names: seq<string>, ms: map<string, string>) {
    forall g :: g in names ==> IsGroupOf(c, g, ms)
  }

  lemma MappingStep(
      c: Groups, before: seq<string>, last: string, ms: map<string, string>, ms0: map<string, string>,
      loaded: map<string, string>)
    requires IsGroupOf(c, last, ms) && loaded == ms0 + KeptOf(c, before, ms)
    ensures WithMapping(loaded, c, last) == ms0 + KeptOf(c, before + [last], ms)
  {
    OneMappingLoaded(c, last, ms, loaded);
    LocalsLast(c, before, last);
    KeptLast(c, before, last, ms);
  }

  lemma LoadedMappingsLast(c: Groups, before: seq<string>, last: string, ms0: map<string, string>)
    ensures LoadedMappings(c, before + [last], ms0) == WithMapping(LoadedMappings(c, before, ms0), c, last)
  {
    assert (before + [last])[..|before|] == before;
  }

  /** Loading adds, among the mappings stored, those whose group was read. */
  lemma {:induction false} MappingsLoaded(c: Groups, names: seq<string>, ms: map<string, string>, ms0: map<string, string>)
    requires AllGroupsOf(c, names, ms)
    ensures LoadedMappings(c, names, ms0) == ms0 + KeptOf(c, names, ms)
  {
    if names == [] {
      assert KeptOf(c, names, ms) == map[];
    } else {
      var before, last := names[..|names| - 1], names[|names| - 1];
      assert names == before + [last] && last in names;
      MappingsLoaded(c, before, ms, ms0);
      LoadedMappingsLast(c, before, last, ms0);
      MappingStep(c, before, last, ms, ms0, LoadedMappings(c, before, ms0));
    }
  }

  lemma KeptLast(c: Groups, before: seq<string>, last: string, ms: map<string, string>)
    requires Locals(c, before + [last]) == Locals(c, before) + {LocalOf(c, last)}
    ensures var l := LocalOf(c, last);
      KeptOf(c, before + [last], ms) == if l in Kept(ms) then KeptOf(c, before, ms)[l := ms[l]] else KeptOf(c, before, ms)
  {
  }

  lemma ChosenMappingGroups(
      c: Groups, o: Options, bs: seq<BreakpointWithHandle>, locals: seq<string>, order: seq<string>, g: string)
    requires Covers(locals, o.sourceCodeMappings) && Enumerates(order, Stored(c, o, bs, locals).Keys)
    requires g in Chosen(order, MAPPINGS)
    ensures IsGroupOf(Stored(c, o, bs, locals), g, o.sourceCodeMappings)
  {
    ChosenAre(order, MAPPINGS);
    NoLeftoverMapping(c, o, bs, locals, g);
    var k :| 0 <= k < |locals| && g == Name(MAPPINGS, k);
    StoredMappingGroup(c, o, bs, locals, k);
    assert locals[k] in locals;
  }

  lemma EveryLocalIsRead(
      c: Groups, o: Options, bs: seq<BreakpointWithHandle>, locals: seq<string>, order: seq<string>, l: string)
    requires Covers(locals, o.sourceCodeMappings) && Enumerates(order, Stored(c, o, bs, locals).Keys)
    requires l in o.sourceCodeMappings
    ensures l in Locals(Stored(c, o, bs, locals), Chosen(order, MAPPINGS))
  {
    assert l in locals;
    var k :| 0 <= k < |locals| && locals[k] == l;
    StoredMappingGroup(c, o, bs, locals, k);
    ChosenAre(order, MAPPINGS);
    assert Name(MAPPINGS, k) in Chosen(order, MAPPINGS);
    assert LocalOf(Stored(c, o, bs, locals), Name(MAPPINGS, k)) == l;
  }

  lemma MappingsReadBack(
      c: Groups, o: Options, bs: seq<BreakpointWithHandle>, locals: seq<string>, order: seq<string>,
      s: Groups, ms0: map<string, string>)
    requires Covers(locals, o.sourceCodeMappings) && s == Stored(c, o, bs, locals) && Enumerates(order, s.Keys)
    ensures LoadedMappings(s, Chosen(order, MAPPINGS), ms0) == ms0 + Kept(o.sourceCodeMappings)
  {
    var ms, chosen := o.sourceCodeMappings, Chosen(order, MAPPINGS);
    forall g | g in chosen ensures IsGroupOf(s, g, ms) {
      ChosenMappingGroups(c, o, bs, locals, order, g);
    }
    MappingsLoaded(s, chosen, ms, ms0);
    forall l | l in ms ensures l in Locals(s, chosen) {
      EveryLocalIsRead(c, o, bs, locals, order, l);
    }
    assert KeptOf(s, chosen, ms) == Kept(ms);
  }

  // ---------------------------------------------------------------- the main results

  /** The options and mappings that ConfigLoad reads from groups enumerated in the given order. */
  function LoadOptions(c: Groups, order: seq<string>, o0: Options): Options {
    LoadedOptions(c, o0, LoadedMappings(c, Chosen(order, MAPPINGS), o0.sourceCodeMappings))
  }

  /**
    Over any earlier configuration, whatever order the configuration enumerates its groups in:
    the options come back, and the mappings with both paths in addition to those there were.
   */
  lemma OptionsComeBack(
      c: Groups, o: Options, bs: seq<BreakpointWithHandle>, locals: seq<string>, order: seq<string>, o0: Options)
    requires Covers(locals, o.sourceCodeMappings) && Enumerates(order, Stored(c, o, bs, locals).Keys)
    ensures LoadOptions(Stored(c, o, bs, locals), order, o0)
      == o.(sourceCodeMappings := o0.sourceCodeMappings + Kept(o.sourceCodeMappings))
  {
    OtherGroupsUntouched(c, o, bs, locals, DEBUGGER);
    MappingsReadBack(c, o, bs, locals, order, Stored(c, o, bs, locals), o0.sourceCodeMappings);
  }

  /** And the breakpoints come back, each as often as it was stored. */
  lemma BreakpointsComeBack(
      c: Groups, o: Options, bs: seq<BreakpointWithHandle>, locals: seq<string>, order: seq<string>)
    requires Covers(locals, o.sourceCodeMappings) && Enumerates(order, Stored(c, o, bs, locals).Keys)
    ensures multiset(LoadedBreakpoints(Stored(c, o, bs, locals), Chosen(order, BREAKPOINTS))) == multiset(Persisted(bs))
  {
    ChosenBreakpointNames(c, o, bs, locals, order);
    OrderIsIrrelevant(Stored(c, o, bs, locals), Chosen(order, BREAKPOINTS), Names(BREAKPOINTS, |bs|));
    BreakpointsReadBack(c, o, bs, locals);
  }

  lemma KeptAll(ms: map<string, string>)
    ensures Kept(ms) == ms <==> forall l :: l in ms ==> l != "" && ms[l] != ""
  {
    if Kept(ms) == ms {
      forall l | l in ms ensures l != "" && ms[l] != "" {
        assert l in Kept(ms);
      }
    }
  }

  /** Into an empty list of mappings, they all come back exactly when no path is empty. */
  lemma MappingsComeBack(
      c: Groups, o: Options, bs: seq<BreakpointWithHandle>, locals: seq<string>, order: seq<string>, o0: Options)
    requires Covers(locals, o.sourceCodeMappings) && Enumerates(order, Stored(c, o, bs, locals).Keys)
    requires o0.sourceCodeMappings == map[]
    ensures LoadOptions(Stored(c, o, bs, locals), order, o0) == o
      <==> forall l :: l in o.sourceCodeMappings ==> l != "" && o.sourceCodeMappings[l] != ""
  {
    OptionsComeBack(c, o, bs, locals, order, o0);
    KeptAll(o.sourceCodeMappings);
    assert o0.sourceCodeMappings + Kept(o.sourceCodeMappings) == Kept(o.sourceCodeMappings);
  }

  /** A restart of the application, through the two methods: storing here, loading there. */
  method Restart(config: Config, options: Options, breakpoints: seq<BreakpointWithHandle>, fresh_: Options)
    returns (loaded: Options, restored: seq<BreakpointWithHandle>)
    modifies config
    ensures multiset(restored) == multiset(Persisted(breakpoints))
    ensures loaded == options.(sourceCodeMappings := fresh_.sourceCodeMappings + Kept(options.sourceCodeMappings))
  {
    ghost var c := config.Contents;
    ghost var locals := ConfigStore(config, options, breakpoints);
    ghost var order;
    loaded, restored, order := ConfigLoad(config, fresh_, []);
    OptionsComeBack(c, options, breakpoints, locals, order, fresh_);
    BreakpointsComeBack(c, options, breakpoints, locals, order);
    assert restored == LoadedBreakpoints(config.Contents, Chosen(order, BREAKPOINTS));
  }
}
