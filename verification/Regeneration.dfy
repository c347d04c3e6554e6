/**
 The generator run again and again over one application directory, with a maintainer editing the
 plugin and the classification between runs: which tools are governed, and what of the review
 survives.
 */
module Regeneration {
  import opened Wrappers
  import opened JsonKey

  type Name = JsString

  datatype Impact = Medium | High | Critical

  /** `definition` stands for the members no rule here reads. */
  datatype Tool = Tool(name: Name, destructive: bool, definition: string)

  // ---- sorting --------------------------------------------------------------------------

  /** UTF-16 code-unit order. */
  predicate Less(a: Name, b: Name) {
    if a == [] then b != []
    else b != [] && (a[0] < b[0] || (a[0] == b[0] && Less(a[1..], b[1..])))
  }

  function Insert(tool: Tool, sorted: seq<Tool>): seq<Tool> {
    if sorted == [] then [tool]
    else if Less(sorted[0].name, tool.name) then [sorted[0]] + Insert(tool, sorted[1..])
    else [tool] + sorted
  }

  function SortTools(tools: seq<Tool>): seq<Tool> {
    if tools == [] then [] else Insert(tools[0], SortTools(tools[1..]))
  }

  ghost predicate Ascending(tools: seq<Tool>) {
    forall i, j :: 0 <= i < j < |tools| ==> Less(tools[i].name, tools[j].name)
  }

  predicate UniqueNames(tools: seq<Tool>) {
    forall i, j :: 0 <= i < j < |tools| ==> tools[i].name != tools[j].name
  }

  lemma {:induction false} LessIsOrder(a: Name, b: Name, c: Name)
    ensures !Less(a, a)
    ensures Less(a, b) ==> !Less(b, a)
    ensures Less(a, b) || a == b || Less(b, a)
    ensures Less(a, b) && Less(b, c) ==> Less(a, c)
    decreases |a|
  {
    if a != [] && b != [] && c != [] {
      LessIsOrder(a[1..], b[1..], c[1..]);
      assert a[0] == b[0] && a[1..] == b[1..] ==> a == [a[0]] + a[1..] && b == [b[0]] + b[1..];
    } else if a != [] && b != [] {
      LessIsOrder(a[1..], b[1..], c);
      assert a[0] == b[0] && a[1..] == b[1..] ==> a == [a[0]] + a[1..] && b == [b[0]] + b[1..];
    } else if a != [] {
      LessIsOrder(a[1..], b, c);
    }
  }

  lemma {:induction false} InsertKeeps(tool: Tool, sorted: seq<Tool>)
    ensures multiset(Insert(tool, sorted)) == multiset(sorted) + multiset{tool}
    ensures forall t :: t in Insert(tool, sorted) <==> t in sorted || t == tool
  {
    hide Less;
    if sorted != [] {
      InsertKeeps(tool, sorted[1..]);
      assert sorted == [sorted[0]] + sorted[1..];
    }
  }

  lemma AscendingPrepend(first: Tool, rest: seq<Tool>)
    requires Ascending(rest) && forall t :: t in rest ==> Less(first.name, t.name)
    ensures Ascending([first] + rest)
  {
    hide Less;
    var all := [first] + rest;
    forall i, j | 0 <= i < j < |all|
      ensures Less(all[i].name, all[j].name)
    {
      assert all[j] in rest;
    }
  }

  lemma AscendingFirst(sorted: seq<Tool>)
    requires Ascending(sorted) && sorted != []
    ensures Ascending(sorted[1..]) && forall t :: t in sorted[1..] ==> Less(sorted[0].name, t.name)
  {
    hide Less;
    forall t | t in sorted[1..]
      ensures Less(sorted[0].name, t.name)
    {
      var j :| 0 <= j < |sorted[1..]| && sorted[1..][j] == t;
      assert sorted[j + 1] == t;
    }
  }

  lemma {:induction false} InsertSorts(tool: Tool, sorted: seq<Tool>)
    requires Ascending(sorted) && forall t :: t in sorted ==> t.name != tool.name
    ensures Ascending(Insert(tool, sorted))
  {
    hide Less, Ascending;
    if sorted == [] {
      AscendingOne(tool);
    } else {
      AscendingFirst(sorted);
      if Less(sorted[0].name, tool.name) {
        InsertSorts(tool, sorted[1..]);
        InsertKeeps(tool, sorted[1..]);
        AscendingPrepend(sorted[0], Insert(tool, sorted[1..]));
      } else {
        LessIsOrder(tool.name, sorted[0].name, sorted[0].name);
        forall t | t in sorted
          ensures Less(tool.name, t.name)
        {
          LessIsOrder(tool.name, sorted[0].name, t.name);
        }
        AscendingPrepend(tool, sorted);
      }
    }
  }

  lemma AscendingOne(tool: Tool)
    ensures Ascending([tool])
  {
  }

  /** The sorted list is in ascending order and holds exactly the tools given. */
  lemma {:induction false} SortToolsSorts(tools: seq<Tool>)
    requires UniqueNames(tools)
    ensures Ascending(SortTools(tools)) && multiset(SortTools(tools)) == multiset(tools)
  {
    if tools != [] {
      SortToolsSorts(tools[1..]);
      assert tools == [tools[0]] + tools[1..];
      forall t | t in SortTools(tools[1..])
        ensures t.name != tools[0].name
      {
        assert t in multiset(SortTools(tools[1..]));
        assert t in tools[1..];
        var j :| 0 <= j < |tools[1..]| && tools[1..][j] == t;
        assert tools[j + 1] == t;
      }
      InsertSorts(tools[0], SortTools(tools[1..]));
      InsertKeeps(tools[0], SortTools(tools[1..]));
    }
  }

  lemma {:induction false} AscendingIsUnique(a: seq<Tool>, b: seq<Tool>)
    requires Ascending(a) && Ascending(b) && multiset(a) == multiset(b)
    ensures a == b
  {
    if a == [] {
      assert multiset(b) == multiset{};
      assert |b| == 0;
    } else {
      assert a[0] in multiset(b) && |multiset(a)| == |multiset(b)|;
      assert b[0] in multiset(a);
      FirstIsLeast(a, b);
      assert a == [a[0]] + a[1..] && b == [b[0]] + b[1..];
      assert multiset(a[1..]) == multiset(a) - multiset{a[0]};
      assert multiset(b[1..]) == multiset(b) - multiset{b[0]};
      AscendingIsUnique(a[1..], b[1..]);
    }
  }

  lemma FirstIsLeast(a: seq<Tool>, b: seq<Tool>)
    requires Ascending(a) && Ascending(b) && a != [] && b != [] && a[0] in b && b[0] in a
    ensures a[0] == b[0]
  {
    var i :| 0 <= i < |b| && b[i] == a[0];
    var j :| 0 <= j < |a| && a[j] == b[0];
    if i != 0 && j != 0 {
      LessIsOrder(a[0].name, b[0].name, a[0].name);
    }
  }

  /** The order in which the upstream lists its tools does not matter. */
  lemma SortIgnoresOrder(a: seq<Tool>, b: seq<Tool>)
    requires UniqueNames(a) && UniqueNames(b)
    ensures SortTools(a) == SortTools(b) <==> multiset(a) == multiset(b)
  {
    SortToolsSorts(a);
    SortToolsSorts(b);
    if multiset(a) == multiset(b) {
      AscendingIsUnique(SortTools(a), SortTools(b));
    }
  }

  // ---- classification -------------------------------------------------------------------

  datatype Rationale = NameHeuristic | DestructiveAnnotation | Reviewed(text: string)

  datatype Entry = Entry(impact: Impact, rationale: Rationale)

  datatype Classification = Classification(draft: bool, operations: map<Name, Entry>)

  /** `infer` stands for the words in a name that hint at its impact. */
  function ClassifyTool(tool: Tool, infer: Name -> Impact): Entry {
    if tool.destructive then Entry(Critical, DestructiveAnnotation) else Entry(infer(tool.name), NameHeuristic)
  }

  function NamesOf(tools: seq<Tool>): set<Name> {
    set t | t in tools :: t.name
  }

  /** A first draft, or the existing classification brought up to the tools. */
  function MergedClassification(existing: Option<Classification>, tools: seq<Tool>,
                                infer: Name -> Impact): Classification
    requires UniqueNames(tools)
  {
    var operations := map t | t in tools :: t.name := EntryFor(existing, t, infer);
    match existing
    case None => Classification(true, operations)
    case Some(c) => Classification(c.draft || exists t :: t in tools && t.name !in c.operations, operations)
  }

  function EntryFor(existing: Option<Classification>, tool: Tool, infer: Name -> Impact): Entry {
    if existing.Some? && tool.name in existing.value.operations then existing.value.operations[tool.name]
    else ClassifyTool(tool, infer)
  }

  ghost predicate MergedUpTo(existing: Classification, tools: seq<Tool>, infer: Name -> Impact,
                             operations: map<Name, Entry>,
                             added: bool) {
    && operations.Keys == NamesOf(tools)
    && (forall t :: t in tools ==>
          operations[t.name] == if t.name in existing.operations then existing.operations[t.name]
              else ClassifyTool(t, infer))
    && (added <==> exists t :: t in tools && t.name !in existing.operations)
  }

  /** Fills the operations in sorted order. */
  method MergeClassificationDraft(existing: Classification, tools: seq<Tool>, infer: Name -> Impact)
    returns (result: Classification)
    requires UniqueNames(tools)
    ensures result == MergedClassification(Some(existing), tools, infer)
  {
    var operations: map<Name, Entry> := map[];
    var addedUnreviewed := false;
    var sorted := SortTools(tools);
    SortToolsSorts(tools);
    AscendingNames(sorted);
    hide Less, SortTools, Ascending, ClassifyTool, MergedUpTo, MergedClassification, UniqueNames;
    MergeStarts(existing, infer);
    for i := 0 to |sorted|
      invariant MergedUpTo(existing, sorted[..i], infer, operations, addedUnreviewed)
    {
      MergeNext(existing, sorted, infer, operations, addedUnreviewed, i);
      var tool := sorted[i];
      if tool.name in existing.operations {
        operations := operations[tool.name := existing.operations[tool.name]];
      } else {
        operations := operations[tool.name := ClassifyTool(tool, infer)];
        addedUnreviewed := true;
      }
    }
    assert sorted[..|sorted|] == sorted;
    MergeEnds(existing, tools, sorted, infer, operations, addedUnreviewed);
    result := Classification(existing.draft || addedUnreviewed, operations);
  }

  lemma MergeStarts(existing: Classification, infer: Name -> Impact)
    ensures MergedUpTo(existing, [], infer, map[], false)
  {
  }

  lemma MergeEnds(existing: Classification, tools: seq<Tool>, sorted: seq<Tool>, infer: Name -> Impact,
                  operations: map<Name, Entry>, added: bool)
    requires UniqueNames(tools) && multiset(tools) == multiset(sorted) &&
               MergedUpTo(existing, sorted, infer, operations, added)
    ensures Classification(existing.draft || added, operations) == MergedClassification(Some(existing), tools, infer)
  {
    hide ClassifyTool;
    SameTools(tools, sorted);
    assert operations == MergedClassification(Some(existing), tools, infer).operations;
  }

  /**
   A merge has an entry for each tool and no other; an entry that was there is kept verbatim; and
   the draft flag stays down exactly if it was down and no tool was without an entry.
   */
  lemma MergeKeepsReviews(existing: Classification, tools: seq<Tool>, infer: Name -> Impact)
    requires UniqueNames(tools)
    ensures var merged := MergedClassification(Some(existing), tools, infer);
            && merged.operations.Keys == NamesOf(tools)
            && (forall n :: n in merged.operations && n in existing.operations ==>
                 merged.operations[n] == existing.operations[n])
            && (!merged.draft <==> !existing.draft && NamesOf(tools) <= existing.operations.Keys)
  {
  }

  lemma AscendingNames(sorted: seq<Tool>)
    requires Ascending(sorted)
    ensures UniqueNames(sorted)
  {
    forall i, j | 0 <= i < j < |sorted|
      ensures sorted[i].name != sorted[j].name
    {
      LessIsOrder(sorted[i].name, sorted[j].name, sorted[i].name);
    }
  }

  lemma MergeNext(existing: Classification, sorted: seq<Tool>, infer: Name -> Impact, operations: map<Name, Entry>,
                  added: bool, i: nat)
    requires UniqueNames(sorted) && i < |sorted| && MergedUpTo(existing, sorted[..i], infer, operations, added)
    ensures var tool := sorted[i];
            var entry :=
              if tool.name in existing.operations then existing.operations[tool.name] else ClassifyTool(tool, infer);
            MergedUpTo(existing, sorted[..i + 1], infer, operations[tool.name := entry], added ||
                tool.name !in existing.operations)
  {
    hide ClassifyTool;
    assert sorted[..i + 1] == sorted[..i] + [sorted[i]];
    forall t | t in sorted[..i]
      ensures t.name != sorted[i].name
    {
      var k :| 0 <= k < i && sorted[..i][k] == t;
      assert sorted[k] == t;
    }
  }

  lemma SameTools(tools: seq<Tool>, sorted: seq<Tool>)
    requires multiset(tools) == multiset(sorted)
    ensures forall t :: t in tools <==> t in sorted
  {
    assert forall t :: t in tools <==> t in multiset(tools);
    assert forall t :: t in sorted <==> t in multiset(sorted);
  }

  // ---- membership -----------------------------------------------------------------------

  /** The plugin's operations with their impacts, and the last tool list, as far as the files exist. */
  datatype Files =
    Files(plugin: Option<map<Name, Impact>>, snapshot: Option<set<Name>>, classification: Option<Classification>)

  const NO_FILES := Files(None, None, None)

  /** First run, known plugin without a tool list, or both. */
  function SelectGovernedTools(tools: set<Name>,
                               plugin: Option<map<Name, Impact>>, snapshot: Option<set<Name>>): set<Name> {
    if plugin.None? then tools
    else if snapshot.None? then set n | n in tools && n in plugin.value
    else set n | n in tools && (n in plugin.value || n !in snapshot.value)
  }

  // ---- runs and reviews -----------------------------------------------------------------

  datatype Event =
    | Generate(tools: seq<Tool>)
      /**
       A run that stopped, or threw, after its tool list was written and before its plugin was;
       `classified` says whether the classification was written between the two.
       */
    | CutOff(tools: seq<Tool>, classified: bool)
    | ReviewPlugin(deleted: set<Name>, impacts: map<Name, Impact>)
    | ReviewClassification(entries: map<Name, Entry>, draft: bool)
      /** The tool list is removed. */
    | LoseList

  function NewPlugin(files: Files, tools: seq<Tool>, c: Classification): map<Name, Impact>
    requires NamesOf(tools) <= c.operations.Keys
  {
    map n | n in SelectGovernedTools(NamesOf(tools), files.plugin, files.snapshot) ::
      if files.plugin.Some? && n in files.plugin.value then files.plugin.value[n] else c.operations[n].impact
  }

  /** Duplicate tool names end a run before it writes anything. */
  function Do(files: Files, event: Event, infer: Name -> Impact): Files {
    match event
    case Generate(tools) =>
      if !UniqueNames(tools) then files
      else
        var c := MergedClassification(files.classification, tools, infer);
        Files(Some(NewPlugin(files, tools, c)), Some(NamesOf(tools)), Some(c))
    case CutOff(tools, classified) =>
      if !UniqueNames(tools) then files
      else
        files.(snapshot := Some(NamesOf(tools)),
               classification := if classified then Some(MergedClassification(files.classification, tools, infer))
                                 else files.classification)
    case ReviewPlugin(deleted, impacts) =>
      if files.plugin.None? then files
      else files.(plugin := Some(map n | n in files.plugin.value && n !in deleted ::
                                   if n in impacts then impacts[n] else files.plugin.value[n]))
    case ReviewClassification(entries, draft) =>
      if files.classification.None? then files
      else
        var was := files.classification.value.operations;
        files.(classification :=
            Some(Classification(draft, map n | n in was :: if n in entries then entries[n] else was[n])))
    case LoseList => files.(snapshot := None)
  }

  function Run(events: seq<Event>, infer: Name -> Impact): Files {
    if events == [] then NO_FILES else Do(Run(events[..|events| - 1], infer), events[|events| - 1], infer)
  }

  lemma RunLast(events: seq<Event>, infer: Name -> Impact)
    requires events != []
    ensures Run(events, infer) == Do(Run(events[..|events| - 1], infer), events[|events| - 1], infer)
  {
  }

  // ---- what the runs wrote --------------------------------------------------------------

  /** This event wrote the plugin, the tool list, or the classification. */
  predicate Completes(event: Event) { event.Generate? && UniqueNames(event.tools) }

  predicate Lists(event: Event) { (event.Generate? || event.CutOff?) && UniqueNames(event.tools) }

  predicate Classifies(event: Event) { Lists(event) && (event.CutOff? ==> event.classified) }

  /** The tool list written last, unless it was removed since. */
  function LastList(events: seq<Event>): Option<set<Name>> {
    if events == [] then None
    else
      var last := events[|events| - 1];
      if Lists(last) then Some(NamesOf(last.tools))
      else if last.LoseList? then None
      else LastList(events[..|events| - 1])
  }

  /** The tools of the classification written last; reviews change its entries only. */
  function LastClassified(events: seq<Event>): Option<set<Name>> {
    if events == [] then None
    else if Classifies(events[|events| - 1]) then Some(NamesOf(events[|events| - 1].tools))
    else LastClassified(events[..|events| - 1])
  }

  ghost predicate HasPlugin(events: seq<Event>) {
    exists i :: 0 <= i < |events| && Completes(events[i])
  }

  /** The completed run `i` takes the tool in: it is the first, or the list before it lacks the tool. */
  ghost predicate Admits(events: seq<Event>, i: nat, n: Name)
    requires i < |events|
  {
    && Completes(events[i]) && n in NamesOf(events[i].tools)
    && (!HasPlugin(events[..i]) || (LastList(events[..i]).Some? && n !in LastList(events[..i]).value))
  }

  /** This event leaves a governed tool governed: the run finds it, the review does not delete it. */
  predicate Retains(event: Event, n: Name) {
    && (Completes(event) ==> n in NamesOf(event.tools))
    && (event.ReviewPlugin? ==> n !in event.deleted)
  }

  ghost predicate RetainedFrom(events: seq<Event>, k: nat, n: Name) {
    forall j :: k <= j < |events| ==> Retains(events[j], n)
  }

  /** Some completed run took the tool in, and nothing since put it out. */
  ghost predicate Governed(events: seq<Event>, n: Name) {
    exists i :: 0 <= i < |events| && Admits(events, i, n) && RetainedFrom(events, i + 1, n)
  }

  function PluginNames(files: Files): set<Name> {
    if files.plugin.Some? then files.plugin.value.Keys else {}
  }

  lemma {:induction false} FilesAreWritten(events: seq<Event>, infer: Name -> Impact)
    ensures Run(events, infer).plugin.Some? <==> HasPlugin(events)
    ensures Run(events, infer).snapshot == LastList(events)
    ensures match Run(events, infer).classification
            case None => LastClassified(events) == None
            case Some(c) => LastClassified(events) == Some(c.operations.Keys)
  {
    hide UniqueNames, NewPlugin;
    if events != [] {
      var front, last := events[..|events| - 1], events[|events| - 1];
      FilesAreWritten(front, infer);
      HasPluginNext(events);
      ClassifiedAfter(Run(front, infer), last, infer);
    }
  }

  /** A run that classifies covers its tools; a review covers what was covered. */
  lemma ClassifiedAfter(files: Files, event: Event, infer: Name -> Impact)
    ensures var c := Do(files, event, infer).classification;
            if Classifies(event) then c.Some? && c.value.operations.Keys == NamesOf(event.tools)
            else if files.classification.Some? then c.Some? &&
                c.value.operations.Keys == files.classification.value.operations.Keys
            else c.None?
  {
    hide UniqueNames, NewPlugin, EntryFor;
    if Classifies(event) {
      assert MergedClassification(files.classification, event.tools, infer).operations.Keys == NamesOf(event.tools);
    } else if event.ReviewClassification? && files.classification.Some? {
      assert Do(files, event, infer).classification.value.operations.Keys == files.classification.value.operations.Keys;
    }
  }

  lemma HasPluginNext(events: seq<Event>)
    requires events != []
    ensures HasPlugin(events) <==> HasPlugin(events[..|events| - 1]) || Completes(events[|events| - 1])
  {
    hide Completes;
    var front := events[..|events| - 1];
    assert forall i :: 0 <= i < |front| ==> front[i] == events[i];
  }

  /** How the last event changes whether a tool is governed. */
  lemma GovernedNext(events: seq<Event>, n: Name)
    requires events != []
    ensures var front, last := events[..|events| - 1], events[|events| - 1];
            Governed(events, n) <==> (Governed(front, n) && Retains(last, n)) || Admits(events, |events| - 1, n)
  {
    hide Completes, Retains, HasPlugin, LastList;
    var front, last := events[..|events| - 1], events[|events| - 1];
    forall i | 0 <= i < |front|
      ensures Admits(front, i, n) <==> Admits(events, i, n)
    {
      assert front[..i] == events[..i] && front[i] == events[i];
    }
    if Governed(front, n) && Retains(last, n) {
      var i :| 0 <= i < |front| && Admits(front, i, n) && RetainedFrom(front, i + 1, n);
      forall j | i + 1 <= j < |events|
        ensures Retains(events[j], n)
      {
        if j < |front| {
          assert front[j] == events[j];
        }
      }
      assert Admits(events, i, n) && RetainedFrom(events, i + 1, n);
    }
    if Admits(events, |front|, n) {
      assert RetainedFrom(events, |front| + 1, n);
    }
    if Governed(events, n) {
      var i :| 0 <= i < |events| && Admits(events, i, n) && RetainedFrom(events, i + 1, n);
      if i < |front| {
        assert Retains(events[|front|], n);
        assert forall j :: 0 <= j < |front| ==> front[j] == events[j];
        assert Admits(front, i, n) && RetainedFrom(front, i + 1, n);
      }
    }
  }

  /**
   After any runs, completed or cut off, and any reviews: a tool is governed exactly when some
   completed run took it in, being the first or finding it absent from the list before, and
   every completed run since found it and no review since deleted it.
   */
  lemma {:induction false} MembershipIsExact(events: seq<Event>, n: Name, infer: Name -> Impact)
    ensures n in PluginNames(Run(events, infer)) <==> Governed(events, n)
  {
    hide UniqueNames, MergedClassification, Governed, HasPlugin, LastList;
    if events == [] {
      NothingGoverned(n);
    } else {
      var front, last := events[..|events| - 1], events[|events| - 1];
      MembershipIsExact(front, n, infer);
      FilesAreWritten(front, infer);
      GovernedNext(events, n);
    }
  }

  lemma NothingGoverned(n: Name)
    ensures !Governed([], n)
  {
  }

  /**
   The next run governs a tool it finds exactly when there was no plugin, the plugin already had
   it, or a list was written and the last one lacks it.
   */
  lemma NextRunIsExact(events: seq<Event>, tools: seq<Tool>, n: Name, infer: Name -> Impact)
    requires UniqueNames(tools) && n in NamesOf(tools)
    ensures var before := Run(events, infer);
            n in PluginNames(Run(events + [Generate(tools)], infer)) <==>
            || !HasPlugin(events)
            || n in PluginNames(before)
            || (LastList(events).Some? && n !in LastList(events).value)
  {
    hide MergedClassification, HasPlugin, LastList;
    var all := events + [Generate(tools)];
    assert all[..|all| - 1] == events;
    FilesAreWritten(events, infer);
    RunLast(all, infer);
  }

  /** The impact a maintainer finds for an operation nobody has reviewed: a destructive tool's is critical. */
  ghost predicate Hinted(entry: Entry, tool: Tool, infer: Name -> Impact) {
    if tool.destructive then entry.impact.Critical? && entry.rationale.DestructiveAnnotation?
    else entry.impact == infer(tool.name) && entry.rationale.NameHeuristic?
  }

  /**
   A run gives a tool without an entry the one its own hints call for, and an operation new to the
   plugin the impact its tool's entry has after the run.
   */
  lemma NewOperationIsHinted(events: seq<Event>, tools: seq<Tool>, tool: Tool, infer: Name -> Impact)
    requires UniqueNames(tools) && tool in tools
    ensures var w, x := Run(events, infer), Run(events + [Generate(tools)], infer);
            var n := tool.name;
            && x.classification.Some? && n in x.classification.value.operations
            && (w.classification.None? || n !in w.classification.value.operations ==>
                  Hinted(x.classification.value.operations[n], tool, infer))
            && (w.classification.Some? && n in w.classification.value.operations ==>
                  x.classification.value.operations[n] == w.classification.value.operations[n])
            && (n in PluginNames(x) && n !in PluginNames(w) ==>
                  x.plugin.value[n] == x.classification.value.operations[n].impact)
  {
    var all := events + [Generate(tools)];
    assert all[..|all| - 1] == events;
    RunLast(all, infer);
    hide Run;
    SameNameSameTool(tools, tool);
  }

  lemma SameNameSameTool(tools: seq<Tool>, tool: Tool)
    requires UniqueNames(tools) && tool in tools
    ensures forall t :: t in tools && t.name == tool.name ==> t == tool
  {
  }

  /** A tool absent from the list written last is added by the next run that finds it. */
  lemma AbsentIsAdded(events: seq<Event>, tools: seq<Tool>, n: Name, infer: Name -> Impact)
    requires UniqueNames(tools) && n in NamesOf(tools)
    requires LastList(events).Some? && n !in LastList(events).value
    ensures n in PluginNames(Run(events + [Generate(tools)], infer))
  {
    hide HasPlugin, LastList, Run;
    NextRunIsExact(events, tools, n, infer);
  }

  /** Without a tool list the plugin alone decides. */
  lemma MissingListIsConservative(events: seq<Event>, tools: seq<Tool>, n: Name, infer: Name -> Impact)
    requires UniqueNames(tools) && n in NamesOf(tools) && HasPlugin(events) && LastList(events).None?
    ensures n in PluginNames(Run(events + [Generate(tools)], infer)) <==> n in PluginNames(Run(events, infer))
  {
    hide HasPlugin, LastList, Run;
    NextRunIsExact(events, tools, n, infer);
  }

  // ---- tools that stay out, and tools that stay in --------------------------------------

  /** On the list written last, and not in the plugin there is. */
  ghost predicate KeptOut(events: seq<Event>, n: Name, infer: Name -> Impact) {
    && HasPlugin(events) && n !in PluginNames(Run(events, infer))
    && LastList(events).Some? && n in LastList(events).value
  }

  /** From event `k` on, every list written holds the tool, and none is removed. */
  ghost predicate ListedFrom(events: seq<Event>, k: nat, n: Name) {
    forall i :: k <= i < |events| ==>
      !events[i].LoseList? && (Lists(events[i]) ==> n in NamesOf(events[i].tools))
  }

  /** A tool kept out stays out until a written list lacks it, however many runs complete or are cut off. */
  lemma {:induction false} OutStaysOut(events: seq<Event>, k: nat, n: Name, infer: Name -> Impact)
    requires k <= |events| && KeptOut(events[..k], n, infer) && ListedFrom(events, k, n)
    ensures KeptOut(events, n, infer)
  {
    if k == |events| {
      assert events[..k] == events;
    } else {
      hide UniqueNames, MergedClassification, HasPlugin;
      var front := events[..|events| - 1];
      assert front[..k] == events[..k];
      assert ListedFrom(front, k, n);
      OutStaysOut(front, k, n, infer);
      HasPluginNext(events);
      FilesAreWritten(front, infer);
    }
  }

  /** A tool deleted from the plugin while on the list stays out while it remains upstream. */
  lemma DeletedStaysOut(events: seq<Event>, review: Event, later: seq<Event>, n: Name, infer: Name -> Impact)
    requires review.ReviewPlugin? && n in review.deleted
    requires HasPlugin(events) && LastList(events).Some? && n in LastList(events).value
    requires ListedFrom(later, 0, n)
    ensures KeptOut(events + [review] + later, n, infer)
  {
    hide HasPlugin;
    var before := events + [review];
    assert before[..|before| - 1] == events;
    HasPluginNext(before);
    FilesAreWritten(events, infer);
    assert KeptOut(before, n, infer);
    OutAfter(before, later, n, infer);
  }

  lemma OutAfter(before: seq<Event>, later: seq<Event>, n: Name, infer: Name -> Impact)
    requires KeptOut(before, n, infer) && ListedFrom(later, 0, n)
    ensures KeptOut(before + later, n, infer)
  {
    hide KeptOut;
    var all := before + later;
    assert all[..|before|] == before;
    forall i | |before| <= i < |all|
      ensures !all[i].LoseList? && (Lists(all[i]) ==> n in NamesOf(all[i].tools))
    {
      assert all[i] == later[i - |before|];
    }
    OutStaysOut(all, |before|, n, infer);
  }

  /**
   A run cut off between its tool list and its plugin loses the new tools: none of them is
   governed by any later run until a written list lacks it.
   */
  lemma CutOffLosesNewTools(events: seq<Event>, run: Event, later: seq<Event>, n: Name, infer: Name -> Impact)
    requires run.CutOff? && UniqueNames(run.tools) && n in NamesOf(run.tools)
    requires HasPlugin(events) && n !in PluginNames(Run(events, infer))
    requires ListedFrom(later, 0, n)
    ensures KeptOut(events + [run] + later, n, infer)
  {
    hide HasPlugin, MergedClassification;
    var before := events + [run];
    assert before[..|before| - 1] == events;
    HasPluginNext(before);
    FilesAreWritten(events, infer);
    assert KeptOut(before, n, infer);
    OutAfter(before, later, n, infer);
  }

  /** A governed tool stays in while every completed run finds it and no review deletes it. */
  lemma {:induction false} GovernedStaysIn(events: seq<Event>, k: nat, n: Name, infer: Name -> Impact)
    requires k <= |events| && n in PluginNames(Run(events[..k], infer)) && RetainedFrom(events, k, n)
    ensures n in PluginNames(Run(events, infer))
  {
    if k == |events| {
      assert events[..k] == events;
    } else {
      hide UniqueNames, MergedClassification;
      var front := events[..|events| - 1];
      assert front[..k] == events[..k];
      GovernedStaysIn(front, k, n, infer);
      assert Retains(events[|events| - 1], n);
    }
  }

  // ---- what else survives ---------------------------------------------------------------

  /** No review from event `k` on gives this operation another impact. */
  ghost predicate ImpactLeft(events: seq<Event>, k: nat, n: Name) {
    forall i :: k <= i < |events| && events[i].ReviewPlugin? ==> n !in events[i].impacts
  }

  /** An operation that stays keeps its impact, also a corrected one, over any runs and reviews. */
  lemma {:induction false} ImpactsSurvive(events: seq<Event>, k: nat, n: Name, impact: Impact, infer: Name -> Impact)
    requires k <= |events| && RetainedFrom(events, k, n) && ImpactLeft(events, k, n)
    requires var plugin := Run(events[..k], infer).plugin;
               plugin.Some? && n in plugin.value && plugin.value[n] == impact
    ensures var plugin := Run(events, infer).plugin; plugin.Some? && n in plugin.value && plugin.value[n] == impact
  {
    if k == |events| {
      assert events[..k] == events;
    } else {
      hide UniqueNames, MergedClassification;
      var front := events[..|events| - 1];
      assert front[..k] == events[..k];
      ImpactsSurvive(front, k, n, impact, infer);
      assert Retains(events[|events| - 1], n);
    }
  }

  /** From event `k` on, every classification written is of a list with the tool, and no review changes its entry. */
  ghost predicate EntryLeft(events: seq<Event>, k: nat, n: Name) {
    forall i :: k <= i < |events| ==>
      && (Classifies(events[i]) ==> n in NamesOf(events[i].tools))
      && (events[i].ReviewClassification? ==> n !in events[i].entries)
  }

  /** A classification entry survives any number of runs verbatim, cut-off ones too, while its tool is upstream. */
  lemma {:induction false} EntriesSurvive(events: seq<Event>, k: nat, n: Name, entry: Entry, infer: Name -> Impact)
    requires k <= |events| && EntryLeft(events, k, n)
    requires var c := Run(events[..k], infer).classification;
             c.Some? && n in c.value.operations && c.value.operations[n] == entry
    ensures var c := Run(events, infer).classification;
            c.Some? && n in c.value.operations && c.value.operations[n] == entry
  {
    if k == |events| {
      assert events[..k] == events;
    } else {
      var front, last := events[..|events| - 1], events[|events| - 1];
      assert front[..k] == events[..k];
      EntriesSurvive(front, k, n, entry, infer);
      hide Run, NewPlugin;
      EntryAfter(Run(front, infer), last, n, entry, infer);
      RunLast(events, infer);
    }
  }

  lemma EntryAfter(files: Files, event: Event, n: Name, entry: Entry, infer: Name -> Impact)
    requires files.classification.Some? && n in files.classification.value.operations
    requires files.classification.value.operations[n] == entry
    requires Classifies(event) ==> n in NamesOf(event.tools)
    requires event.ReviewClassification? ==> n !in event.entries
    ensures var c := Do(files, event, infer).classification;
            c.Some? && n in c.value.operations && c.value.operations[n] == entry
  {
    hide NewPlugin, UniqueNames, ClassifyTool;
  }

  // ---- the draft flag -------------------------------------------------------------------

  /** The review `i` of an existing classification took the flag down. */
  ghost predicate TakesDown(events: seq<Event>, i: nat)
    requires i < |events|
  {
    events[i].ReviewClassification? && !events[i].draft && LastClassified(events[..i]).Some?
  }

  /** Event `j` puts no flag up: it is no such review, and a run that classifies adds no tool. */
  ghost predicate LeavesDown(events: seq<Event>, j: nat)
    requires j < |events|
  {
    && (events[j].ReviewClassification? ==> !events[j].draft)
    && (Classifies(events[j]) && LastClassified(events[..j]).Some? ==>
         NamesOf(events[j].tools) <= LastClassified(events[..j]).value)
  }

  ghost predicate DownSince(events: seq<Event>, i: nat) {
    forall j :: i < j < |events| ==> LeavesDown(events, j)
  }

  ghost predicate Reviewed(events: seq<Event>) {
    exists i :: 0 <= i < |events| && TakesDown(events, i) && DownSince(events, i)
  }

  lemma ReviewedNext(events: seq<Event>)
    requires events != []
    ensures var front, last := events[..|events| - 1], |events| - 1;
            Reviewed(events) <==> (Reviewed(front) && LeavesDown(events, last)) || TakesDown(events, last)
  {
    hide LastClassified, Classifies;
    var front := events[..|events| - 1];
    forall i | 0 <= i < |front|
      ensures TakesDown(front, i) <==> TakesDown(events, i)
      ensures LeavesDown(front, i) <==> LeavesDown(events, i)
    {
      assert front[..i] == events[..i] && front[i] == events[i];
    }
    hide TakesDown, LeavesDown;
    if Reviewed(front) && LeavesDown(events, |front|) {
      var i :| 0 <= i < |front| && TakesDown(front, i) && DownSince(front, i);
      assert forall j :: i < j < |front| ==> LeavesDown(front, j);
      assert TakesDown(events, i) && DownSince(events, i);
    }
    if TakesDown(events, |front|) {
      assert DownSince(events, |front|);
    }
    if Reviewed(events) {
      var i :| 0 <= i < |events| && TakesDown(events, i) && DownSince(events, i);
      if i < |front| {
        assert LeavesDown(events, |front|);
        assert TakesDown(front, i) && DownSince(front, i);
      }
    }
  }

  /**
   After any runs and reviews the classification is no draft exactly when a review took the flag
   down and since then no review put it up and no run added a tool without an entry.
   */
  lemma {:induction false} DraftIsExact(events: seq<Event>, infer: Name -> Impact)
    ensures var c := Run(events, infer).classification; (c.Some? && !c.value.draft) <==> Reviewed(events)
  {
    hide UniqueNames, NewPlugin, LastClassified, Reviewed, NamesOf, EntryFor;
    if events == [] {
      NothingReviewed();
    } else {
      var front, last := events[..|events| - 1], events[|events| - 1];
      DraftIsExact(front, infer);
      FilesAreWritten(front, infer);
      ReviewedNext(events);
      RunLast(events, infer);
      if Classifies(last) && Run(front, infer).classification.Some? {
        hide Run;
        MergeKeepsReviews(Run(front, infer).classification.value, last.tools, infer);
      }
    }
  }

  lemma NothingReviewed()
    ensures !Reviewed([])
  {
  }
}
