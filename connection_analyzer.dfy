/**
 * The connection analyzer: outlets, actions and unwind segues a document
 * declares that the code does not back (`missingElements`), and outlets,
 * actions and segue identifiers the code declares that no document uses
 * (`unnecessaryElements`).
 *
 * The tool walks its dictionaries in an order it does not choose; here the
 * walk is over `nibOrder` or `classOrder`, any enumeration of the keys, and
 * the lemmas show which issues come out whatever that order is.
 */
module ConnectionAnalyzer {
  import opened Wrappers
  import opened Collections
  import opened Models
  import opened Rules
  import opened Analyzer
  import opened InheritanceSearch
  import opened ConnectionIssues

  // ---------------------------------------------------------------------------
  // Missing elements, one document class at a time
  // ---------------------------------------------------------------------------

  /**
   * The outlet a missing-outlet issue carries. Under reportMissingToController
   * it is reported at the class: its path becomes the class's path and its
   * line the class's line, when the class is known.
   */
  function BackFill(cfg: AnalyzerConfiguration, flags: Flags, className: string, outlet: Declaration): (r: Declaration)
    ensures r.name == outlet.name && r.column == outlet.column && r.url == outlet.url
    ensures r.isOptional == outlet.isOptional && r.parentClass == outlet.parentClass
    ensures !(IsEnabled(flags, ReportMissingToController) && className in cfg.classNameToClassMap) ==> r == outlet
    ensures IsEnabled(flags, ReportMissingToController) && className in cfg.classNameToClassMap ==>
              && r.parentClassPath == cfg.classNameToClassMap[className].path
              && r.line == cfg.classNameToClassMap[className].line.GetOr(outlet.line)
  {
    if IsEnabled(flags, ReportMissingToController) && className in cfg.classNameToClassMap then
      var classObject := cfg.classNameToClassMap[className];
      var withPath := outlet.(parentClassPath := classObject.path);
      if classObject.line.Some? then withPath.(line := classObject.line.value) else withPath
    else outlet
  }

  /** With the rule on, a missing outlet of a located class is reported at the class's file and line. */
  lemma BackFillReportsAtClass(cfg: AnalyzerConfiguration, flags: Flags, className: string, outlet: Declaration)
    requires IsEnabled(flags, ReportMissingToController) && className in cfg.classNameToClassMap
    requires cfg.classNameToClassMap[className].path.Some? && cfg.classNameToClassMap[className].line.Some?
    ensures DeclarationDescription(BackFill(cfg, flags, className, outlet))
            == DeclarationDescription(outlet.(parentClassPath := cfg.classNameToClassMap[className].path,
                                             line := cfg.classNameToClassMap[className].line.value))
  {
  }

  /** The document's outlets that neither the class nor anything it inherits declares. */
  ghost function MissingOutlets(cfg: AnalyzerConfiguration, flags: Flags, className: string, outlets: seq<Declaration>)
    : seq<ConnectionIssue>
    decreases |outlets|
  {
    if outlets == [] then []
    else
      var init, outlet := outlets[..|outlets| - 1], outlets[|outlets| - 1];
      MissingOutlets(cfg, flags, className, init)
        + if InheritsMatch(cfg, className, Outlet(outlet)) then []
          else [MissingOutlet(className, BackFill(cfg, flags, className, outlet))]
  }

  /** The document's actions that neither the class nor anything it inherits declares. */
  ghost function MissingActions(cfg: AnalyzerConfiguration, className: string, actions: seq<Declaration>)
    : seq<ConnectionIssue>
    decreases |actions|
  {
    if actions == [] then []
    else
      var init, action := actions[..|actions| - 1], actions[|actions| - 1];
      MissingActions(cfg, className, init)
        + if InheritsMatch(cfg, className, Action(action)) then [] else [MissingAction(className, action)]
  }

  /** A class implements an action with this name. */
  predicate ImplementsActionNamed(k: Class, name: string) {
    exists i :: 0 <= i < |k.actions| && k.actions[i].name == name
  }

  /** Some project class, any class, implements an action named like the unwind action. */
  predicate HasUnwindTarget(classes: map<string, Class>, unwindAction: string) {
    exists name :: name in classes && ImplementsActionNamed(classes[name], unwindAction)
  }

  /** The document's unwind segues whose unwind action no project class implements. */
  function BrokenUnwinds(cfg: AnalyzerConfiguration, className: string, segues: seq<SegueDeclaration>)
    : seq<ConnectionIssue>
    decreases |segues|
  {
    if segues == [] then []
    else
      var init, segue := segues[..|segues| - 1], segues[|segues| - 1];
      BrokenUnwinds(cfg, className, init)
        + if IsUnwindSegue(segue) && !HasUnwindTarget(cfg.classNameToClassMap, segue.unwindAction.value)
          then [BrokenUnwindSegue(className, segue)] else []
  }

  /** Everything one document class contributes to `missingElements`. */
  ghost function MissingFor(cfg: AnalyzerConfiguration, flags: Flags, className: string): seq<ConnectionIssue> {
    if className !in cfg.classNameToNibMap then []
    else
      var nib := cfg.classNameToNibMap[className];
      if !(|nib.actions| > 0 || |nib.outlets| > 0 || |nib.segues| > 0) then []
      else MissingOutlets(cfg, flags, className, nib.outlets) + MissingActions(cfg, className, nib.actions)
           + BrokenUnwinds(cfg, className, nib.segues)
  }

  // ---------------------------------------------------------------------------
  // Unnecessary elements, one source class at a time
  // ---------------------------------------------------------------------------

  /** The class's outlets the class's own document does not connect. */
  function UnusedOutlets(className: string, outlets: seq<Declaration>, nib: Nib): seq<ConnectionIssue>
    decreases |outlets|
  {
    if outlets == [] then []
    else
      var init, outlet := outlets[..|outlets| - 1], outlets[|outlets| - 1];
      UnusedOutlets(className, init, nib)
        + if ContainsDecl(nib.outlets, outlet) then [] else [UnnecessaryOutlet(className, outlet)]
  }

  /** A document's segue unwinds to this action, or the document connects it. */
  predicate UsedByNib(nib: Nib, action: Declaration) {
    || (exists i :: 0 <= i < |nib.segues| && nib.segues[i].unwindAction == Some(action.name))
    || ContainsDecl(nib.actions, action)
  }

  /** Some document, of any class, uses the action. */
  predicate ActionIsUsed(nibs: map<string, Nib>, action: Declaration) {
    exists name :: name in nibs && UsedByNib(nibs[name], action)
  }

  /** The class's actions no document uses. */
  function UnusedActions(cfg: AnalyzerConfiguration, className: string, actions: seq<Declaration>)
    : seq<ConnectionIssue>
    decreases |actions|
  {
    if actions == [] then []
    else
      var init, action := actions[..|actions| - 1], actions[|actions| - 1];
      UnusedActions(cfg, className, init)
        + if ActionIsUsed(cfg.classNameToNibMap, action) then [] else [UnnecessaryAction(className, action)]
  }

  /** Some segue of the document carries this identifier. */
  predicate IdentifiesSegue(nib: Nib, identifier: string) {
    exists i :: 0 <= i < |nib.segues| && nib.segues[i].identifier == Some(identifier)
  }

  /** The class's segue identifiers that no segue of its own document carries. */
  function UnknownIdentifiers(className: string, identifiers: seq<SegueIdentifier>, nib: Nib)
    : seq<ConnectionIssue>
    decreases |identifiers|
  {
    if identifiers == [] then []
    else
      var init, id := identifiers[..|identifiers| - 1], identifiers[|identifiers| - 1];
      UnknownIdentifiers(className, init, nib)
        + if IdentifiesSegue(nib, id.identifier) then [] else [UnknownSegueIdentifier(className, id)]
  }

  /** Everything one source class contributes to `unnecessaryElements`; a class without a document contributes nothing. */
  function UnnecessaryFor(cfg: AnalyzerConfiguration, className: string): seq<ConnectionIssue> {
    if className !in cfg.classNameToClassMap then []
    else
      var klass := cfg.classNameToClassMap[className];
      if !(|klass.actions| > 0 || |klass.outlets| > 0 || |klass.segueIdentifiers| > 0) then []
      else if className !in cfg.classNameToNibMap then []
      else
        var nib := cfg.classNameToNibMap[className];
        UnusedOutlets(className, klass.outlets, nib) + UnusedActions(cfg, className, klass.actions)
          + UnknownIdentifiers(className, klass.segueIdentifiers, nib)
  }

  // ---------------------------------------------------------------------------
  // The two passes over a dictionary order
  // ---------------------------------------------------------------------------

  datatype Pass = MissingPass | UnnecessaryPass

  ghost function IssuesFor(cfg: AnalyzerConfiguration, flags: Flags, pass: Pass, className: string)
    : seq<ConnectionIssue>
  {
    match pass
    case MissingPass => MissingFor(cfg, flags, className)
    case UnnecessaryPass => UnnecessaryFor(cfg, className)
  }

  /** The chunks of a list of lists, one after the other. */
  function Concat(chunks: seq<seq<ConnectionIssue>>): seq<ConnectionIssue>
    decreases |chunks|
  {
    if chunks == [] then [] else Concat(chunks[..|chunks| - 1]) + chunks[|chunks| - 1]
  }

  /** The chunk each key of `order` contributes to a pass. */
  ghost function Chunks(cfg: AnalyzerConfiguration, flags: Flags, pass: Pass, order: seq<string>)
    : (r: seq<seq<ConnectionIssue>>)
    ensures |r| == |order|
    ensures forall i :: 0 <= i < |order| ==> r[i] == IssuesFor(cfg, flags, pass, order[i])
  {
    seq(|order|, i requires 0 <= i < |order| => IssuesFor(cfg, flags, pass, order[i]))
  }

  /** A pass's issues, key after key in `order`. */
  ghost function PassIssues(cfg: AnalyzerConfiguration, flags: Flags, pass: Pass, order: seq<string>)
    : seq<ConnectionIssue>
  {
    Concat(Chunks(cfg, flags, pass, order))
  }

  ghost function MissingIssues(cfg: AnalyzerConfiguration, flags: Flags, nibOrder: seq<string>): seq<ConnectionIssue> {
    PassIssues(cfg, flags, MissingPass, nibOrder)
  }

  ghost function UnnecessaryIssues(cfg: AnalyzerConfiguration, classOrder: seq<string>): seq<ConnectionIssue> {
    PassIssues(cfg, DefaultFlags, UnnecessaryPass, classOrder)
  }

  /** `issues(for:)` without its stray lookup: the missing pass, then the unnecessary pass. */
  ghost function AnalyzerIssues(cfg: AnalyzerConfiguration, flags: Flags, nibOrder: seq<string>,
                                classOrder: seq<string>): seq<ConnectionIssue> {
    MissingIssues(cfg, flags, nibOrder) + UnnecessaryIssues(cfg, classOrder)
  }

  lemma {:induction false} ConcatAppend(u: seq<seq<ConnectionIssue>>, v: seq<seq<ConnectionIssue>>)
    ensures Concat(u + v) == Concat(u) + Concat(v)
    decreases |v|
  {
    if v == [] {
      assert u + v == u;
    } else {
      var uv := u + v;
      assert uv[..|uv| - 1] == u + v[..|v| - 1];
      ConcatAppend(u, v[..|v| - 1]);
    }
  }

  lemma {:induction false} ConcatMembers(chunks: seq<seq<ConnectionIssue>>, issue: ConnectionIssue)
    ensures issue in Concat(chunks) <==> exists i :: 0 <= i < |chunks| && issue in chunks[i]
    decreases |chunks|
  {
    if chunks != [] {
      var init := chunks[..|chunks| - 1];
      ConcatMembers(init, issue);
      if exists i :: 0 <= i < |chunks| && issue in chunks[i] {
        var i :| 0 <= i < |chunks| && issue in chunks[i];
        if i < |chunks| - 1 {
          assert init[i] == chunks[i];
        }
      }
    }
  }

  /** Reordering the chunks reorders the concatenation. */
  lemma {:induction false} ConcatPermutation(a: seq<seq<ConnectionIssue>>, b: seq<seq<ConnectionIssue>>)
    requires multiset(a) == multiset(b)
    ensures multiset(Concat(a)) == multiset(Concat(b))
    decreases |a|
  {
    if a == [] {
      assert |b| == |multiset(b)| == 0;
    } else {
      var x := a[|a| - 1];
      var rest := a[..|a| - 1];
      assert a == rest + [x];
      assert x in multiset(b);
      var j :| 0 <= j < |b| && b[j] == x;
      var before, after := b[..j], b[j + 1..];
      RemoveMatching(a, b, j);
      ConcatPermutation(rest, before + after);
      ConcatAppend(before + [x], after);
      ConcatAppend(before, [x]);
      ConcatAppend(before, after);
      assert Concat([x]) == x by {
        assert [x][..0] == [];
      }
    }
  }

  lemma PassIssuesSnoc(cfg: AnalyzerConfiguration, flags: Flags, pass: Pass, order: seq<string>, k: nat)
    requires k < |order|
    ensures PassIssues(cfg, flags, pass, order[..k + 1])
            == PassIssues(cfg, flags, pass, order[..k]) + IssuesFor(cfg, flags, pass, order[k])
  {
    var c := Chunks(cfg, flags, pass, order[..k + 1]);
    assert c[..k] == Chunks(cfg, flags, pass, order[..k]);
  }

  lemma PassIssuesMembers(cfg: AnalyzerConfiguration, flags: Flags, pass: Pass,
                          order: seq<string>, issue: ConnectionIssue)
    ensures issue in PassIssues(cfg, flags, pass, order) <==>
              exists i :: 0 <= i < |order| && issue in IssuesFor(cfg, flags, pass, order[i])
  {
    var c := Chunks(cfg, flags, pass, order);
    ConcatMembers(c, issue);
    if exists i :: 0 <= i < |c| && issue in c[i] {
      var i :| 0 <= i < |c| && issue in c[i];
      assert issue in IssuesFor(cfg, flags, pass, order[i]);
    }
  }

  /** A pass reports nothing exactly when no key contributes anything. */
  lemma PassIssuesEmpty(cfg: AnalyzerConfiguration, flags: Flags, pass: Pass, order: seq<string>)
    ensures PassIssues(cfg, flags, pass, order) == [] <==>
              forall i :: 0 <= i < |order| ==> IssuesFor(cfg, flags, pass, order[i]) == []
  {
    var all := PassIssues(cfg, flags, pass, order);
    if all != [] {
      PassIssuesMembers(cfg, flags, pass, order, all[0]);
    }
    if exists i :: 0 <= i < |order| && IssuesFor(cfg, flags, pass, order[i]) != [] {
      var i :| 0 <= i < |order| && IssuesFor(cfg, flags, pass, order[i]) != [];
      PassIssuesMembers(cfg, flags, pass, order, IssuesFor(cfg, flags, pass, order[i])[0]);
    }
  }

  lemma ChunksAppend(cfg: AnalyzerConfiguration, flags: Flags, pass: Pass, u: seq<string>, v: seq<string>)
    ensures Chunks(cfg, flags, pass, u + v) == Chunks(cfg, flags, pass, u) + Chunks(cfg, flags, pass, v)
  {
  }

  lemma {:induction false} ChunksPermutation(cfg: AnalyzerConfiguration, flags: Flags, pass: Pass,
                                             a: seq<string>, b: seq<string>)
    requires multiset(a) == multiset(b)
    ensures multiset(Chunks(cfg, flags, pass, a)) == multiset(Chunks(cfg, flags, pass, b))
    decreases |a|
  {
    if a != [] {
      var x := a[|a| - 1];
      var rest := a[..|a| - 1];
      assert x in multiset(b) by {
        assert a == rest + [x];
      }
      var j :| 0 <= j < |b| && b[j] == x;
      var before, after := b[..j], b[j + 1..];
      RemoveMatching(a, b, j);
      ChunksPermutation(cfg, flags, pass, rest, before + after);
      assert a == rest + [x];
      ChunksAppend(cfg, flags, pass, rest, [x]);
      ChunksAppend(cfg, flags, pass, before + [x], after);
      ChunksAppend(cfg, flags, pass, before, [x]);
      ChunksAppend(cfg, flags, pass, before, after);
    } else {
      assert |b| == |multiset(b)| == 0;
    }
  }

  /** Walking the keys in another order gives the same issues, each as often. */
  lemma PassIssuesPermutation(cfg: AnalyzerConfiguration, flags: Flags, pass: Pass,
                              a: seq<string>, b: seq<string>)
    requires multiset(a) == multiset(b)
    ensures multiset(PassIssues(cfg, flags, pass, a)) == multiset(PassIssues(cfg, flags, pass, b))
  {
    ChunksPermutation(cfg, flags, pass, a, b);
    ConcatPermutation(Chunks(cfg, flags, pass, a), Chunks(cfg, flags, pass, b));
  }

  /** Neither pass depends on the order the dictionaries are walked in. */
  lemma IssuesDoNotDependOnOrder(cfg: AnalyzerConfiguration, flags: Flags,
                                 nibOrder1: seq<string>, nibOrder2: seq<string>,
                                 classOrder1: seq<string>, classOrder2: seq<string>)
    requires IsEnumerationOf(nibOrder1, cfg.classNameToNibMap.Keys) && IsEnumerationOf(nibOrder2, cfg.classNameToNibMap.Keys)
    requires IsEnumerationOf(classOrder1, cfg.classNameToClassMap.Keys)
    requires IsEnumerationOf(classOrder2, cfg.classNameToClassMap.Keys)
    ensures multiset(MissingIssues(cfg, flags, nibOrder1)) == multiset(MissingIssues(cfg, flags, nibOrder2))
    ensures multiset(UnnecessaryIssues(cfg, classOrder1)) == multiset(UnnecessaryIssues(cfg, classOrder2))
    ensures multiset(AnalyzerIssues(cfg, flags, nibOrder1, classOrder1))
            == multiset(AnalyzerIssues(cfg, flags, nibOrder2, classOrder2))
  {
    EnumerationsArePermutations(nibOrder1, nibOrder2, cfg.classNameToNibMap.Keys);
    EnumerationsArePermutations(classOrder1, classOrder2, cfg.classNameToClassMap.Keys);
    PassIssuesPermutation(cfg, flags, MissingPass, nibOrder1, nibOrder2);
    PassIssuesPermutation(cfg, DefaultFlags, UnnecessaryPass, classOrder1, classOrder2);
  }

  // ---------------------------------------------------------------------------
  // Which issues come out
  // ---------------------------------------------------------------------------

  /** The missing-element issues, stated without any walk order. */
  ghost predicate IsMissingIssue(cfg: AnalyzerConfiguration, flags: Flags, issue: ConnectionIssue) {
    && issue.className in cfg.classNameToNibMap
    && var nib := cfg.classNameToNibMap[issue.className];
       match issue
       case MissingOutlet(c, d) =>
         exists o :: o in nib.outlets && d == BackFill(cfg, flags, c, o) && !InheritsMatch(cfg, c, Outlet(o))
       case MissingAction(c, a) => a in nib.actions && !InheritsMatch(cfg, c, Action(a))
       case BrokenUnwindSegue(c, s) =>
         s in nib.segues && IsUnwindSegue(s) && !HasUnwindTarget(cfg.classNameToClassMap, s.unwindAction.value)
       case _ => false
  }

  /** The unnecessary-element issues, stated without any walk order. */
  ghost predicate IsUnnecessaryIssue(cfg: AnalyzerConfiguration, issue: ConnectionIssue) {
    && issue.className in cfg.classNameToClassMap
    && issue.className in cfg.classNameToNibMap
    && var klass, nib := cfg.classNameToClassMap[issue.className], cfg.classNameToNibMap[issue.className];
       match issue
       case UnnecessaryOutlet(_, o) => o in klass.outlets && !ContainsDecl(nib.outlets, o)
       case UnnecessaryAction(_, a) => a in klass.actions && !ActionIsUsed(cfg.classNameToNibMap, a)
       case UnknownSegueIdentifier(_, id) => id in klass.segueIdentifiers && !IdentifiesSegue(nib, id.identifier)
       case _ => false
  }

  // ---------------------------------------------------------------------------
  // What each list holds
  // ---------------------------------------------------------------------------

  lemma {:induction false} MissingOutletsMembers(cfg: AnalyzerConfiguration, flags: Flags, className: string,
                                                 outlets: seq<Declaration>, issue: ConnectionIssue)
    ensures issue in MissingOutlets(cfg, flags, className, outlets) <==>
              && issue.MissingOutlet? && issue.className == className
              && exists o :: o in outlets && issue.outlet == BackFill(cfg, flags, className, o)
                             && !InheritsMatch(cfg, className, Outlet(o))
    decreases |outlets|
  {
    if outlets != [] {
      var init, outlet := outlets[..|outlets| - 1], outlets[|outlets| - 1];
      MissingOutletsMembers(cfg, flags, className, init, issue);
      assert forall o :: o in outlets <==> o in init || o == outlet;
    }
  }

  lemma {:induction false} MissingActionsMembers(cfg: AnalyzerConfiguration, className: string,
                                                 actions: seq<Declaration>, issue: ConnectionIssue)
    ensures issue in MissingActions(cfg, className, actions) <==>
              && issue.MissingAction? && issue.className == className
              && issue.action in actions && !InheritsMatch(cfg, className, Action(issue.action))
    decreases |actions|
  {
    if actions != [] {
      var init, action := actions[..|actions| - 1], actions[|actions| - 1];
      MissingActionsMembers(cfg, className, init, issue);
      assert forall a :: a in actions <==> a in init || a == action;
    }
  }

  lemma {:induction false} BrokenUnwindsMembers(cfg: AnalyzerConfiguration, className: string,
                                                segues: seq<SegueDeclaration>, issue: ConnectionIssue)
    ensures issue in BrokenUnwinds(cfg, className, segues) <==>
              && issue.BrokenUnwindSegue? && issue.className == className
              && issue.segueDeclaration in segues && IsUnwindSegue(issue.segueDeclaration)
              && !HasUnwindTarget(cfg.classNameToClassMap, issue.segueDeclaration.unwindAction.value)
    decreases |segues|
  {
    if segues != [] {
      var init, segue := segues[..|segues| - 1], segues[|segues| - 1];
      BrokenUnwindsMembers(cfg, className, init, issue);
      assert forall x :: x in segues <==> x in init || x == segue;
    }
  }

  lemma {:induction false} UnusedOutletsMembers(className: string, outlets: seq<Declaration>, nib: Nib,
                                                issue: ConnectionIssue)
    ensures issue in UnusedOutlets(className, outlets, nib) <==>
              && issue.UnnecessaryOutlet? && issue.className == className
              && issue.outlet in outlets && !ContainsDecl(nib.outlets, issue.outlet)
    decreases |outlets|
  {
    if outlets != [] {
      var init, outlet := outlets[..|outlets| - 1], outlets[|outlets| - 1];
      UnusedOutletsMembers(className, init, nib, issue);
      assert forall o :: o in outlets <==> o in init || o == outlet;
    }
  }

  lemma {:induction false} UnusedActionsMembers(cfg: AnalyzerConfiguration, className: string,
                                                actions: seq<Declaration>, issue: ConnectionIssue)
    ensures issue in UnusedActions(cfg, className, actions) <==>
              && issue.UnnecessaryAction? && issue.className == className
              && issue.action in actions && !ActionIsUsed(cfg.classNameToNibMap, issue.action)
    decreases |actions|
  {
    if actions != [] {
      var init, action := actions[..|actions| - 1], actions[|actions| - 1];
      UnusedActionsMembers(cfg, className, init, issue);
      assert forall a :: a in actions <==> a in init || a == action;
    }
  }

  lemma {:induction false} UnknownIdentifiersMembers(className: string, identifiers: seq<SegueIdentifier>, nib: Nib,
                                                     issue: ConnectionIssue)
    ensures issue in UnknownIdentifiers(className, identifiers, nib) <==>
              && issue.UnknownSegueIdentifier? && issue.className == className
              && issue.segueIdentifier in identifiers && !IdentifiesSegue(nib, issue.segueIdentifier.identifier)
    decreases |identifiers|
  {
    if identifiers != [] {
      var init, id := identifiers[..|identifiers| - 1], identifiers[|identifiers| - 1];
      UnknownIdentifiersMembers(className, init, nib, issue);
      assert forall x :: x in identifiers <==> x in init || x == id;
    }
  }

  lemma MissingForMembers(cfg: AnalyzerConfiguration, flags: Flags, className: string, issue: ConnectionIssue)
    ensures issue in MissingFor(cfg, flags, className) <==> issue.className == className && IsMissingIssue(cfg, flags, issue)
  {
    if className in cfg.classNameToNibMap {
      var nib := cfg.classNameToNibMap[className];
      MissingOutletsMembers(cfg, flags, className, nib.outlets, issue);
      MissingActionsMembers(cfg, className, nib.actions, issue);
      BrokenUnwindsMembers(cfg, className, nib.segues, issue);
    }
  }

  lemma UnnecessaryForMembers(cfg: AnalyzerConfiguration, className: string, issue: ConnectionIssue)
    ensures issue in UnnecessaryFor(cfg, className) <==> issue.className == className && IsUnnecessaryIssue(cfg, issue)
  {
    if className in cfg.classNameToClassMap && className in cfg.classNameToNibMap {
      var klass, nib := cfg.classNameToClassMap[className], cfg.classNameToNibMap[className];
      UnusedOutletsMembers(className, klass.outlets, nib, issue);
      UnusedActionsMembers(cfg, className, klass.actions, issue);
      UnknownIdentifiersMembers(className, klass.segueIdentifiers, nib, issue);
    }
  }

  /**
   * The missing pass reports exactly the document outlets and actions that no
   * class in the inheritance chain declares, and the unwind segues no class
   * can unwind to, whatever the walk order.
   */
  lemma MissingIssuesExactly(cfg: AnalyzerConfiguration, flags: Flags, nibOrder: seq<string>, issue: ConnectionIssue)
    requires IsEnumerationOf(nibOrder, cfg.classNameToNibMap.Keys)
    ensures issue in MissingIssues(cfg, flags, nibOrder) <==> IsMissingIssue(cfg, flags, issue)
  {
    PassIssuesMembers(cfg, flags, MissingPass, nibOrder, issue);
    forall i | 0 <= i < |nibOrder|
      ensures issue in IssuesFor(cfg, flags, MissingPass, nibOrder[i]) <==>
                issue.className == nibOrder[i] && IsMissingIssue(cfg, flags, issue)
    {
      MissingForMembers(cfg, flags, nibOrder[i], issue);
    }
    if IsMissingIssue(cfg, flags, issue) {
      var i :| 0 <= i < |nibOrder| && nibOrder[i] == issue.className;
      assert issue in IssuesFor(cfg, flags, MissingPass, nibOrder[i]);
    }
  }

  /**
   * The unnecessary pass reports exactly the outlets a class's own document
   * does not connect, the actions no document uses, and the segue identifiers
   * no segue of the class's document carries, for classes that have a document.
   */
  lemma UnnecessaryIssuesExactly(cfg: AnalyzerConfiguration, classOrder: seq<string>, issue: ConnectionIssue)
    requires IsEnumerationOf(classOrder, cfg.classNameToClassMap.Keys)
    ensures issue in UnnecessaryIssues(cfg, classOrder) <==> IsUnnecessaryIssue(cfg, issue)
  {
    PassIssuesMembers(cfg, DefaultFlags, UnnecessaryPass, classOrder, issue);
    forall i | 0 <= i < |classOrder|
      ensures issue in IssuesFor(cfg, DefaultFlags, UnnecessaryPass, classOrder[i]) <==>
                issue.className == classOrder[i] && IsUnnecessaryIssue(cfg, issue)
    {
      UnnecessaryForMembers(cfg, classOrder[i], issue);
    }
    if IsUnnecessaryIssue(cfg, issue) {
      var i :| 0 <= i < |classOrder| && classOrder[i] == issue.className;
      assert issue in IssuesFor(cfg, DefaultFlags, UnnecessaryPass, classOrder[i]);
    }
  }

  /** The missing pass yields only serious issues, each printable; the unnecessary pass only advisory ones. */
  lemma SeriousnessOfEachPass(cfg: AnalyzerConfiguration, flags: Flags, nibOrder: seq<string>,
                              classOrder: seq<string>, issue: ConnectionIssue)
    requires IsEnumerationOf(nibOrder, cfg.classNameToNibMap.Keys)
    requires IsEnumerationOf(classOrder, cfg.classNameToClassMap.Keys)
    ensures issue in MissingIssues(cfg, flags, nibOrder) ==> IsSeriousViolation(issue) && WellFormed(issue)
    ensures issue in UnnecessaryIssues(cfg, classOrder) ==> !IsSeriousViolation(issue) && WellFormed(issue)
  {
    MissingIssuesExactly(cfg, flags, nibOrder, issue);
    UnnecessaryIssuesExactly(cfg, classOrder, issue);
  }

  // ---------------------------------------------------------------------------
  // How many issues come out
  // ---------------------------------------------------------------------------

  /** A document outlet that no class in the chain declares. */
  ghost function OutletUnmatched(cfg: AnalyzerConfiguration, className: string): Declaration -> bool {
    (o: Declaration) => !InheritsMatch(cfg, className, Outlet(o))
  }

  /** A document action that no class in the chain declares. */
  ghost function ActionUnmatched(cfg: AnalyzerConfiguration, className: string): Declaration -> bool {
    (a: Declaration) => !InheritsMatch(cfg, className, Action(a))
  }

  /** An unwind segue whose action no project class implements. */
  function UnwindBroken(cfg: AnalyzerConfiguration): SegueDeclaration -> bool {
    (s: SegueDeclaration) => IsUnwindSegue(s) && !HasUnwindTarget(cfg.classNameToClassMap, s.unwindAction.value)
  }

  /** A class outlet that the document does not connect. */
  function OutletUnconnected(nib: Nib): Declaration -> bool {
    (o: Declaration) => !ContainsDecl(nib.outlets, o)
  }

  /** A class action that no document uses. */
  function ActionUnused(cfg: AnalyzerConfiguration): Declaration -> bool {
    (a: Declaration) => !ActionIsUsed(cfg.classNameToNibMap, a)
  }

  /** A segue identifier that no segue of the document carries. */
  function IdentifierUnknown(nib: Nib): SegueIdentifier -> bool {
    (id: SegueIdentifier) => !IdentifiesSegue(nib, id.identifier)
  }

  /** One issue per unmatched document outlet, duplicates included. */
  lemma {:induction false} MissingOutletsCount(cfg: AnalyzerConfiguration, flags: Flags, className: string,
                                               outlets: seq<Declaration>)
    ensures |MissingOutlets(cfg, flags, className, outlets)| == |Filter(outlets, OutletUnmatched(cfg, className))|
    decreases |outlets|
  {
    if outlets != [] {
      var init, outlet := outlets[..|outlets| - 1], outlets[|outlets| - 1];
      assert outlets == init + [outlet];
      FilterSnoc(init, outlet, OutletUnmatched(cfg, className));
      MissingOutletsCount(cfg, flags, className, init);
    }
  }

  /** One issue per unmatched document action. */
  lemma {:induction false} MissingActionsCount(cfg: AnalyzerConfiguration, className: string,
                                               actions: seq<Declaration>)
    ensures |MissingActions(cfg, className, actions)| == |Filter(actions, ActionUnmatched(cfg, className))|
    decreases |actions|
  {
    if actions != [] {
      var init, action := actions[..|actions| - 1], actions[|actions| - 1];
      assert actions == init + [action];
      FilterSnoc(init, action, ActionUnmatched(cfg, className));
      MissingActionsCount(cfg, className, init);
    }
  }

  /** One issue per unwind segue without a target. */
  lemma {:induction false} BrokenUnwindsCount(cfg: AnalyzerConfiguration, className: string,
                                              segues: seq<SegueDeclaration>)
    ensures |BrokenUnwinds(cfg, className, segues)| == |Filter(segues, UnwindBroken(cfg))|
    decreases |segues|
  {
    if segues != [] {
      var init, segue := segues[..|segues| - 1], segues[|segues| - 1];
      assert segues == init + [segue];
      FilterSnoc(init, segue, UnwindBroken(cfg));
      BrokenUnwindsCount(cfg, className, init);
    }
  }

  /** One issue per class outlet the document does not connect. */
  lemma {:induction false} UnusedOutletsCount(className: string, outlets: seq<Declaration>, nib: Nib)
    ensures |UnusedOutlets(className, outlets, nib)| == |Filter(outlets, OutletUnconnected(nib))|
    decreases |outlets|
  {
    if outlets != [] {
      var init, outlet := outlets[..|outlets| - 1], outlets[|outlets| - 1];
      assert outlets == init + [outlet];
      FilterSnoc(init, outlet, OutletUnconnected(nib));
      UnusedOutletsCount(className, init, nib);
    }
  }

  /** One issue per class action no document uses. */
  lemma {:induction false} UnusedActionsCount(cfg: AnalyzerConfiguration, className: string,
                                              actions: seq<Declaration>)
    ensures |UnusedActions(cfg, className, actions)| == |Filter(actions, ActionUnused(cfg))|
    decreases |actions|
  {
    if actions != [] {
      var init, action := actions[..|actions| - 1], actions[|actions| - 1];
      assert actions == init + [action];
      FilterSnoc(init, action, ActionUnused(cfg));
      UnusedActionsCount(cfg, className, init);
    }
  }

  /** One issue per segue identifier the document does not carry. */
  lemma {:induction false} UnknownIdentifiersCount(className: string, identifiers: seq<SegueIdentifier>, nib: Nib)
    ensures |UnknownIdentifiers(className, identifiers, nib)| == |Filter(identifiers, IdentifierUnknown(nib))|
    decreases |identifiers|
  {
    if identifiers != [] {
      var init, id := identifiers[..|identifiers| - 1], identifiers[|identifiers| - 1];
      assert identifiers == init + [id];
      FilterSnoc(init, id, IdentifierUnknown(nib));
      UnknownIdentifiersCount(className, init, nib);
    }
  }

  /** The number of issues one key contributes to a pass, counted from the elements that fail. */
  ghost function FailingCount(cfg: AnalyzerConfiguration, pass: Pass, className: string): nat {
    match pass
    case MissingPass =>
      if className !in cfg.classNameToNibMap then 0
      else
        var nib := cfg.classNameToNibMap[className];
        |Filter(nib.outlets, OutletUnmatched(cfg, className))| + |Filter(nib.actions, ActionUnmatched(cfg, className))|
          + |Filter(nib.segues, UnwindBroken(cfg))|
    case UnnecessaryPass =>
      if className !in cfg.classNameToClassMap || className !in cfg.classNameToNibMap then 0
      else
        var klass, nib := cfg.classNameToClassMap[className], cfg.classNameToNibMap[className];
        |Filter(klass.outlets, OutletUnconnected(nib))| + |Filter(klass.actions, ActionUnused(cfg))|
          + |Filter(klass.segueIdentifiers, IdentifierUnknown(nib))|
  }

  /** The failing elements of keys in `order`, added up. */
  ghost function FailingTotal(cfg: AnalyzerConfiguration, pass: Pass, order: seq<string>): nat
    decreases |order|
  {
    if order == [] then 0
    else FailingTotal(cfg, pass, order[..|order| - 1]) + FailingCount(cfg, pass, order[|order| - 1])
  }

  /**
   * A document class yields one issue per failing outlet, action and unwind
   * segue; the guard that skips an empty document changes no count.
   */
  lemma MissingForCount(cfg: AnalyzerConfiguration, flags: Flags, className: string)
    ensures |MissingFor(cfg, flags, className)| == FailingCount(cfg, MissingPass, className)
  {
    if className in cfg.classNameToNibMap {
      var nib := cfg.classNameToNibMap[className];
      MissingOutletsCount(cfg, flags, className, nib.outlets);
      MissingActionsCount(cfg, className, nib.actions);
      BrokenUnwindsCount(cfg, className, nib.segues);
    }
  }

  /** A source class with a document yields one issue per failing outlet, action and segue identifier. */
  lemma UnnecessaryForCount(cfg: AnalyzerConfiguration, className: string)
    ensures |UnnecessaryFor(cfg, className)| == FailingCount(cfg, UnnecessaryPass, className)
  {
    if className in cfg.classNameToClassMap && className in cfg.classNameToNibMap {
      var klass, nib := cfg.classNameToClassMap[className], cfg.classNameToNibMap[className];
      UnusedOutletsCount(className, klass.outlets, nib);
      UnusedActionsCount(cfg, className, klass.actions);
      UnknownIdentifiersCount(className, klass.segueIdentifiers, nib);
    }
  }

  /** A whole pass reports as many issues as its keys have failing elements, duplicates counted. */
  lemma {:induction false} PassIssuesCount(cfg: AnalyzerConfiguration, flags: Flags, pass: Pass, order: seq<string>)
    ensures |PassIssues(cfg, flags, pass, order)| == FailingTotal(cfg, pass, order)
    decreases |order|
  {
    if order != [] {
      var k := |order| - 1;
      PassIssuesSnoc(cfg, flags, pass, order, k);
      assert order[..k + 1] == order;
      PassIssuesCount(cfg, flags, pass, order[..k]);
      match pass
      case MissingPass => MissingForCount(cfg, flags, order[k]);
      case UnnecessaryPass => UnnecessaryForCount(cfg, order[k]);
    }
  }

  // ---------------------------------------------------------------------------
  // The passes as the tool runs them
  // ---------------------------------------------------------------------------

  /** The `unwind:` loop: does any project class implement the unwind action? */
  method FindUnwindTarget(classes: map<string, Class>, unwindAction: string) returns (found: bool)
    ensures found == HasUnwindTarget(classes, unwindAction)
  {
    var remaining := classes.Keys;
    while remaining != {}
      invariant remaining <= classes.Keys
      invariant forall name :: name in classes.Keys - remaining ==> !ImplementsActionNamed(classes[name], unwindAction)
      decreases |remaining|
    {
      var name :| name in remaining;
      if ImplementsActionNamed(classes[name], unwindAction) {
        return true;
      }
      remaining := remaining - {name};
    }
    return false;
  }

  /** The `outletLoop:` of `missingElements(for:)`. */
  method MissingOutletsOf(cfg: AnalyzerConfiguration, flags: Flags, className: string, outlets: seq<Declaration>)
    returns (issues: seq<ConnectionIssue>)
    ensures issues == MissingOutlets(cfg, flags, className, outlets)
  {
    issues := [];
    for j := 0 to |outlets|
      invariant issues == MissingOutlets(cfg, flags, className, outlets[..j])
    {
      assert outlets[..j + 1][..j] == outlets[..j];
      var outlet := outlets[j];
      var matched := ClassOrInheritedTypeOf(cfg, className, Outlet(outlet));
      if !matched {
        issues := issues + [MissingOutlet(className, BackFill(cfg, flags, className, outlet))];
      }
    }
    assert outlets[..|outlets|] == outlets;
  }

  /** The `actionLoop:` of `missingElements(for:)`. */
  method MissingActionsOf(cfg: AnalyzerConfiguration, className: string, actions: seq<Declaration>)
    returns (issues: seq<ConnectionIssue>)
    ensures issues == MissingActions(cfg, className, actions)
  {
    issues := [];
    for j := 0 to |actions|
      invariant issues == MissingActions(cfg, className, actions[..j])
    {
      assert actions[..j + 1][..j] == actions[..j];
      var action := actions[j];
      var matched := ClassOrInheritedTypeOf(cfg, className, Action(action));
      if !matched {
        issues := issues + [MissingAction(className, action)];
      }
    }
    assert actions[..|actions|] == actions;
  }

  /** The `segueLoop:` of `missingElements(for:)`. */
  method BrokenUnwindsOf(cfg: AnalyzerConfiguration, className: string, segues: seq<SegueDeclaration>)
    returns (issues: seq<ConnectionIssue>)
    ensures issues == BrokenUnwinds(cfg, className, segues)
  {
    issues := [];
    for j := 0 to |segues|
      invariant issues == BrokenUnwinds(cfg, className, segues[..j])
    {
      assert segues[..j + 1][..j] == segues[..j];
      var segue := segues[j];
      if IsUnwindSegue(segue) {
        var found := FindUnwindTarget(cfg.classNameToClassMap, segue.unwindAction.value);
        if !found {
          issues := issues + [BrokenUnwindSegue(className, segue)];
        }
      }
    }
    assert segues[..|segues|] == segues;
  }

  /** The body of `missingElements(for:)` for one document class. */
  method MissingElementsOf(cfg: AnalyzerConfiguration, flags: Flags, className: string)
    returns (issues: seq<ConnectionIssue>)
    requires className in cfg.classNameToNibMap
    ensures issues == MissingFor(cfg, flags, className)
  {
    var nib := cfg.classNameToNibMap[className];
    if !(|nib.actions| > 0 || |nib.outlets| > 0 || |nib.segues| > 0) {
      return [];
    }
    var outlets := MissingOutletsOf(cfg, flags, className, nib.outlets);
    var actions := MissingActionsOf(cfg, className, nib.actions);
    var unwinds := BrokenUnwindsOf(cfg, className, nib.segues);
    issues := outlets + actions + unwinds;
  }

  /** `missingElements(for:)`: every document class in turn. */
  method MissingElements(cfg: AnalyzerConfiguration, flags: Flags, nibOrder: seq<string>)
    returns (result: seq<ConnectionIssue>)
    requires IsEnumerationOf(nibOrder, cfg.classNameToNibMap.Keys)
    ensures result == MissingIssues(cfg, flags, nibOrder)
  {
    result := [];
    for k := 0 to |nibOrder|
      invariant result == PassIssues(cfg, flags, MissingPass, nibOrder[..k])
    {
      PassIssuesSnoc(cfg, flags, MissingPass, nibOrder, k);
      var issues := MissingElementsOf(cfg, flags, nibOrder[k]);
      result := result + issues;
    }
    assert nibOrder[..|nibOrder|] == nibOrder;
  }

  /** The `actionLoop:` body: does any document use the action? */
  method FindActionUse(nibs: map<string, Nib>, action: Declaration) returns (used: bool)
    ensures used == ActionIsUsed(nibs, action)
  {
    var remaining := nibs.Keys;
    while remaining != {}
      invariant remaining <= nibs.Keys
      invariant forall name :: name in nibs.Keys - remaining ==> !UsedByNib(nibs[name], action)
      decreases |remaining|
    {
      var name :| name in remaining;
      if UsedByNib(nibs[name], action) {
        return true;
      }
      remaining := remaining - {name};
    }
    return false;
  }

  /** The body of `unnecessaryElements(for:)` for one source class. */
  method UnnecessaryElementsOf(cfg: AnalyzerConfiguration, className: string) returns (issues: seq<ConnectionIssue>)
    requires className in cfg.classNameToClassMap
    ensures issues == UnnecessaryFor(cfg, className)
  {
    var klass := cfg.classNameToClassMap[className];
    if !(|klass.actions| > 0 || |klass.outlets| > 0 || |klass.segueIdentifiers| > 0) {
      return [];
    }
    if className !in cfg.classNameToNibMap {
      return [];
    }
    var nib := cfg.classNameToNibMap[className];
    var outletIssues := UnusedOutletsOf(className, klass.outlets, nib);
    var actionIssues := UnusedActionsOf(cfg, className, klass.actions);
    var identifierIssues := UnknownIdentifiersOf(className, klass.segueIdentifiers, nib);
    issues := outletIssues + actionIssues + identifierIssues;
  }

  /** The outlet loop of `unnecessaryElements(for:)`: outlets the document does not connect. */
  method UnusedOutletsOf(className: string, outlets: seq<Declaration>, nib: Nib) returns (issues: seq<ConnectionIssue>)
    ensures issues == UnusedOutlets(className, outlets, nib)
  {
    issues := [];
    for j := 0 to |outlets|
      invariant issues == UnusedOutlets(className, outlets[..j], nib)
    {
      assert outlets[..j + 1][..j] == outlets[..j];
      var outlet := outlets[j];
      if !ContainsDecl(nib.outlets, outlet) {
        issues := issues + [UnnecessaryOutlet(className, outlet)];
      }
    }
    assert outlets[..|outlets|] == outlets;
  }

  /** The action loop of `unnecessaryElements(for:)`: actions no document uses. */
  method UnusedActionsOf(cfg: AnalyzerConfiguration, className: string, actions: seq<Declaration>)
    returns (issues: seq<ConnectionIssue>)
    ensures issues == UnusedActions(cfg, className, actions)
  {
    issues := [];
    for j := 0 to |actions|
      invariant issues == UnusedActions(cfg, className, actions[..j])
    {
      assert actions[..j + 1][..j] == actions[..j];
      var action := actions[j];
      var used := FindActionUse(cfg.classNameToNibMap, action);
      if !used {
        issues := issues + [UnnecessaryAction(className, action)];
      }
    }
    assert actions[..|actions|] == actions;
  }

  /** The segue identifier loop of `unnecessaryElements(for:)`: identifiers no segue of the document carries. */
  method UnknownIdentifiersOf(className: string, identifiers: seq<SegueIdentifier>, nib: Nib)
    returns (issues: seq<ConnectionIssue>)
    ensures issues == UnknownIdentifiers(className, identifiers, nib)
  {
    issues := [];
    for j := 0 to |identifiers|
      invariant issues == UnknownIdentifiers(className, identifiers[..j], nib)
    {
      assert identifiers[..j + 1][..j] == identifiers[..j];
      var segueIdentifier := identifiers[j];
      if !IdentifiesSegue(nib, segueIdentifier.identifier) {
        issues := issues + [UnknownSegueIdentifier(className, segueIdentifier)];
      }
    }
    assert identifiers[..|identifiers|] == identifiers;
  }

  /** `unnecessaryElements(for:)`: every source class in turn. */
  method UnnecessaryElements(cfg: AnalyzerConfiguration, classOrder: seq<string>) returns (result: seq<ConnectionIssue>)
    requires IsEnumerationOf(classOrder, cfg.classNameToClassMap.Keys)
    ensures result == UnnecessaryIssues(cfg, classOrder)
  {
    result := [];
    for k := 0 to |classOrder|
      invariant result == PassIssues(cfg, DefaultFlags, UnnecessaryPass, classOrder[..k])
    {
      PassIssuesSnoc(cfg, DefaultFlags, UnnecessaryPass, classOrder, k);
      var issues := UnnecessaryElementsOf(cfg, classOrder[k]);
      result := result + issues;
    }
    assert classOrder[..|classOrder|] == classOrder;
  }

  /** `issues(for:)`, without the stray lookup of a fixed class name (see `IssuesAsWritten`). */
  method Issues(cfg: AnalyzerConfiguration, flags: Flags, nibOrder: seq<string>, classOrder: seq<string>)
    returns (result: seq<ConnectionIssue>)
    requires IsEnumerationOf(nibOrder, cfg.classNameToNibMap.Keys)
    requires IsEnumerationOf(classOrder, cfg.classNameToClassMap.Keys)
    ensures result == AnalyzerIssues(cfg, flags, nibOrder, classOrder)
  {
    result := MissingElements(cfg, flags, nibOrder);
    var unnecessary := UnnecessaryElements(cfg, classOrder);
    result := result + unnecessary;
  }

  /**
   * `issues(for:)` as written: after both passes it force-unwraps the document
   * entry of "SignupViewController", so it traps on every project without one.
   */
  ghost function IssuesAsWritten(cfg: AnalyzerConfiguration, flags: Flags, nibOrder: seq<string>,
                                 classOrder: seq<string>): (r: Option<seq<ConnectionIssue>>)
    ensures r.None? <==> "SignupViewController" !in cfg.classNameToNibMap
    ensures r.Some? ==> r.value == MissingIssues(cfg, flags, nibOrder) + UnnecessaryIssues(cfg, classOrder)
  {
    if "SignupViewController" in cfg.classNameToNibMap then Some(AnalyzerIssues(cfg, flags, nibOrder, classOrder))
    else None
  }
}
