/**
 * The configurations of the analyzer's own unit tests, with the issues the
 * model reports for them. The UIKit table is left open: each lemma only asks
 * that it does not know the test's class names.
 */
module AnalyzerScenarios {
  import opened Wrappers
  import opened Collections
  import opened Models
  import opened Rules
  import opened Analyzer
  import opened InheritanceSearch
  import opened ConnectionIssues
  import opened ConnectionAnalyzer

  const Label := NewDeclaration("label", 1, 0, None, false, None)
  const DidTapButton := NewDeclaration("didTapButton:", 1, 0, None, false, None)

  function Bare(outlets: seq<Declaration>, actions: seq<Declaration>, inherited: seq<string>): Class {
    NewClassWithoutLocation(outlets, actions, inherited, [])
  }

  /** A project of one class "A" and one document for it. */
  function SingleClass(nib: Nib, klass: Class, uiKit: map<string, Class>): AnalyzerConfiguration {
    AnalyzerConfiguration(map["A" := nib], map["A" := klass], uiKit, [])
  }

  /** A class that inherits nothing has no match beyond its own declarations. */
  lemma NothingInherited(cfg: AnalyzerConfiguration, className: string, m: Member)
    requires className in cfg.classNameToClassMap && cfg.classNameToClassMap[className].inherited == []
    ensures InheritsMatch(cfg, className, m) <==> Declares(cfg.classNameToClassMap[className], m)
  {
    assert forall path :: !IsChain(cfg, [], path);
  }

  /** A document and a class with nothing to connect: no issues. */
  lemma NoOutletsAndActions(uiKit: map<string, Class>, flags: Flags, nibOrder: seq<string>, classOrder: seq<string>)
    requires IsEnumerationOf(nibOrder, {"A"}) && IsEnumerationOf(classOrder, {"A"})
    ensures AnalyzerIssues(SingleClass(EmptyNib, Bare([], [], []), uiKit), flags, nibOrder, classOrder) == []
  {
    SingletonEnumeration(nibOrder, "A");
    SingletonEnumeration(classOrder, "A");
    var cfg := SingleClass(EmptyNib, Bare([], [], []), uiKit);
    PassIssuesEmpty(cfg, flags, MissingPass, nibOrder);
    PassIssuesEmpty(cfg, DefaultFlags, UnnecessaryPass, classOrder);
  }

  /** The document connects an outlet the class does not declare: one missing outlet, whatever the rules. */
  lemma MissingOutletReported(uiKit: map<string, Class>, flags: Flags, nibOrder: seq<string>, classOrder: seq<string>)
    requires IsEnumerationOf(nibOrder, {"A"}) && IsEnumerationOf(classOrder, {"A"})
    ensures AnalyzerIssues(SingleClass(Nib([Label], [], []), Bare([], [], []), uiKit), flags, nibOrder, classOrder)
            == [MissingOutlet("A", Label)]
  {
    SingletonEnumeration(nibOrder, "A");
    SingletonEnumeration(classOrder, "A");
    var cfg := SingleClass(Nib([Label], [], []), Bare([], [], []), uiKit);
    UnconnectedOutletIsMissing(uiKit, flags);
    PassIssuesSnoc(cfg, flags, MissingPass, nibOrder, 0);
    PassIssuesEmpty(cfg, DefaultFlags, UnnecessaryPass, classOrder);
  }

  lemma UnconnectedOutletIsMissing(uiKit: map<string, Class>, flags: Flags)
    ensures MissingFor(SingleClass(Nib([Label], [], []), Bare([], [], []), uiKit), flags, "A")
            == [MissingOutlet("A", Label)]
  {
    var cfg := SingleClass(Nib([Label], [], []), Bare([], [], []), uiKit);
    NothingInherited(cfg, "A", Outlet(Label));
    assert [Label][..0] == [];
    assert BackFill(cfg, flags, "A", Label) == Label;
    assert !InheritsMatch(cfg, "A", Outlet(Label));
    assert MissingOutlets(cfg, flags, "A", [Label]) == [MissingOutlet("A", Label)];
    assert MissingActions(cfg, "A", []) == [];
    assert BrokenUnwinds(cfg, "A", []) == [];
  }

  /** The document connects an action the class does not implement: one missing action. */
  lemma MissingActionReported(uiKit: map<string, Class>, flags: Flags, nibOrder: seq<string>, classOrder: seq<string>)
    requires IsEnumerationOf(nibOrder, {"A"}) && IsEnumerationOf(classOrder, {"A"})
    ensures AnalyzerIssues(SingleClass(Nib([], [DidTapButton], []), Bare([], [], []), uiKit), flags, nibOrder, classOrder)
            == [MissingAction("A", DidTapButton)]
  {
    SingletonEnumeration(nibOrder, "A");
    SingletonEnumeration(classOrder, "A");
    var cfg := SingleClass(Nib([], [DidTapButton], []), Bare([], [], []), uiKit);
    UnimplementedActionIsMissing(uiKit, flags);
    PassIssuesSnoc(cfg, flags, MissingPass, nibOrder, 0);
    PassIssuesEmpty(cfg, DefaultFlags, UnnecessaryPass, classOrder);
  }

  lemma UnimplementedActionIsMissing(uiKit: map<string, Class>, flags: Flags)
    ensures MissingFor(SingleClass(Nib([], [DidTapButton], []), Bare([], [], []), uiKit), flags, "A")
            == [MissingAction("A", DidTapButton)]
  {
    var cfg := SingleClass(Nib([], [DidTapButton], []), Bare([], [], []), uiKit);
    NothingInherited(cfg, "A", Action(DidTapButton));
    assert [DidTapButton][..0] == [];
    assert !InheritsMatch(cfg, "A", Action(DidTapButton));
    assert MissingOutlets(cfg, flags, "A", []) == [];
    assert MissingActions(cfg, "A", [DidTapButton]) == [MissingAction("A", DidTapButton)];
    assert BrokenUnwinds(cfg, "A", []) == [];
  }

  /** The class declares an outlet its document does not connect: one unnecessary outlet. */
  lemma UnnecessaryOutletReported(uiKit: map<string, Class>, flags: Flags, nibOrder: seq<string>, classOrder: seq<string>)
    requires IsEnumerationOf(nibOrder, {"A"}) && IsEnumerationOf(classOrder, {"A"})
    ensures AnalyzerIssues(SingleClass(EmptyNib, Bare([Label], [], []), uiKit), flags, nibOrder, classOrder)
            == [UnnecessaryOutlet("A", Label)]
  {
    SingletonEnumeration(nibOrder, "A");
    SingletonEnumeration(classOrder, "A");
    var cfg := SingleClass(EmptyNib, Bare([Label], [], []), uiKit);
    PassIssuesEmpty(cfg, flags, MissingPass, nibOrder);
    assert [Label][..0] == [];
    assert !ContainsDecl(EmptyNib.outlets, Label);
    assert UnusedOutlets("A", [Label], EmptyNib) == [UnnecessaryOutlet("A", Label)];
    assert UnusedActions(cfg, "A", []) == [];
    assert UnknownIdentifiers("A", [], EmptyNib) == [];
    assert UnnecessaryFor(cfg, "A") == [UnnecessaryOutlet("A", Label)];
    PassIssuesSnoc(cfg, DefaultFlags, UnnecessaryPass, classOrder, 0);
  }

  /** The class implements an action no document uses: one unnecessary action. */
  lemma UnnecessaryActionReported(uiKit: map<string, Class>, flags: Flags, nibOrder: seq<string>, classOrder: seq<string>)
    requires IsEnumerationOf(nibOrder, {"A"}) && IsEnumerationOf(classOrder, {"A"})
    ensures AnalyzerIssues(SingleClass(EmptyNib, Bare([], [DidTapButton], []), uiKit), flags, nibOrder, classOrder)
            == [UnnecessaryAction("A", DidTapButton)]
  {
    SingletonEnumeration(nibOrder, "A");
    SingletonEnumeration(classOrder, "A");
    var cfg := SingleClass(EmptyNib, Bare([], [DidTapButton], []), uiKit);
    PassIssuesEmpty(cfg, flags, MissingPass, nibOrder);
    assert [DidTapButton][..0] == [];
    assert !UsedByNib(EmptyNib, DidTapButton);
    assert !ActionIsUsed(cfg.classNameToNibMap, DidTapButton);
    assert UnusedOutlets("A", [], EmptyNib) == [];
    assert UnusedActions(cfg, "A", [DidTapButton]) == [UnnecessaryAction("A", DidTapButton)];
    assert UnknownIdentifiers("A", [], EmptyNib) == [];
    assert UnnecessaryFor(cfg, "A") == [UnnecessaryAction("A", DidTapButton)];
    PassIssuesSnoc(cfg, DefaultFlags, UnnecessaryPass, classOrder, 0);
  }

  /** "B" inherits "A", which declares the outlet; only "B" has a document, connecting it. */
  function ParentChild(uiKit: map<string, Class>): AnalyzerConfiguration {
    AnalyzerConfiguration(map["B" := Nib([Label], [], [])], map["A" := Bare([Label], [], []), "B" := Bare([], [], ["A"])],
                          uiKit, [])
  }

  /** An outlet declared one class up is not reported missing. */
  lemma NoIssueWhenOutletInSuperClass(uiKit: map<string, Class>, flags: Flags,
                                      nibOrder: seq<string>, classOrder: seq<string>)
    requires "A" !in uiKit && "B" !in uiKit
    requires IsEnumerationOf(nibOrder, {"B"}) && IsEnumerationOf(classOrder, {"A", "B"})
    ensures AnalyzerIssues(ParentChild(uiKit), flags, nibOrder, classOrder) == []
  {
    SingletonEnumeration(nibOrder, "B");
    var cfg := ParentChild(uiKit);
    ParentOutletIsNotMissing(uiKit, flags);
    OneClassQuiet(cfg, flags, MissingPass, nibOrder);
    ParentChildHasNothingUnused(uiKit, classOrder);
  }

  /** "A" has no document and "B" declares nothing, so the unnecessary pass is quiet. */
  lemma ParentChildHasNothingUnused(uiKit: map<string, Class>, classOrder: seq<string>)
    requires IsEnumerationOf(classOrder, {"A", "B"})
    ensures UnnecessaryIssues(ParentChild(uiKit), classOrder) == []
  {
    var cfg := ParentChild(uiKit);
    forall i | 0 <= i < |classOrder|
      ensures IssuesFor(cfg, DefaultFlags, UnnecessaryPass, classOrder[i]) == []
    {
      assert classOrder[i] in {"A", "B"};
    }
    PassIssuesEmpty(cfg, DefaultFlags, UnnecessaryPass, classOrder);
  }

  lemma ParentOutletIsNotMissing(uiKit: map<string, Class>, flags: Flags)
    requires "A" !in uiKit && "B" !in uiKit
    ensures MissingFor(ParentChild(uiKit), flags, "B") == []
  {
    var cfg := ParentChild(uiKit);
    var path := ["A"];
    assert IsChain(cfg, ["A"], path);
    assert DeclEquals(cfg.classNameToClassMap["A"].outlets[0], Label);
    assert Satisfies(cfg, path[0], Outlet(Label));
    assert InheritsMatch(cfg, "B", Outlet(Label));
    assert [Label][..0] == [];
    assert MissingOutlets(cfg, flags, "B", [Label]) == [];
    assert MissingActions(cfg, "B", []) == [];
    assert BrokenUnwinds(cfg, "B", []) == [];
  }

  /** "C" inherits "B", which inherits "A"; only "C" has a document. */
  function Hierarchy(nib: Nib, a: Class, uiKit: map<string, Class>): AnalyzerConfiguration {
    AnalyzerConfiguration(map["C" := nib], map["A" := a, "B" := Bare([], [], ["A"]), "C" := Bare([], [], ["B"])],
                          uiKit, [])
  }

  /** A member two levels up the hierarchy is found through the chain B, A. */
  lemma GrandparentMatch(nib: Nib, a: Class, uiKit: map<string, Class>, m: Member)
    requires "A" !in uiKit && "B" !in uiKit && "C" !in uiKit
    requires Declares(a, m)
    ensures InheritsMatch(Hierarchy(nib, a, uiKit), "C", m)
  {
    var cfg := Hierarchy(nib, a, uiKit);
    var path := ["B", "A"];
    assert IsChain(cfg, ["B"], path);
    assert Satisfies(cfg, path[|path| - 1], m);
  }

  /** The unnecessary pass over the hierarchy reports nothing: "A" has no document, "B" and "C" declare nothing. */
  lemma HierarchyHasNothingUnused(nib: Nib, a: Class, uiKit: map<string, Class>, classOrder: seq<string>)
    requires a.segueIdentifiers == []
    requires IsEnumerationOf(classOrder, {"A", "B", "C"})
    ensures UnnecessaryIssues(Hierarchy(nib, a, uiKit), classOrder) == []
  {
    var cfg := Hierarchy(nib, a, uiKit);
    forall i | 0 <= i < |classOrder|
      ensures IssuesFor(cfg, DefaultFlags, UnnecessaryPass, classOrder[i]) == []
    {
      assert classOrder[i] in {"A", "B", "C"};
    }
    PassIssuesEmpty(cfg, DefaultFlags, UnnecessaryPass, classOrder);
  }

  /** An outlet declared two classes up is not reported missing. */
  lemma NoIssueWhenOutletInSuperSuperClass(uiKit: map<string, Class>, flags: Flags,
                                           nibOrder: seq<string>, classOrder: seq<string>)
    requires "A" !in uiKit && "B" !in uiKit && "C" !in uiKit
    requires IsEnumerationOf(nibOrder, {"C"}) && IsEnumerationOf(classOrder, {"A", "B", "C"})
    ensures AnalyzerIssues(Hierarchy(Nib([Label], [], []), Bare([Label], [], []), uiKit), flags, nibOrder, classOrder) == []
  {
    SingletonEnumeration(nibOrder, "C");
    var cfg := Hierarchy(Nib([Label], [], []), Bare([Label], [], []), uiKit);
    InheritedOutletIsNotMissing(uiKit, flags);
    PassIssuesEmpty(cfg, flags, MissingPass, nibOrder);
    HierarchyHasNothingUnused(Nib([Label], [], []), Bare([Label], [], []), uiKit, classOrder);
  }

  lemma InheritedOutletIsNotMissing(uiKit: map<string, Class>, flags: Flags)
    requires "A" !in uiKit && "B" !in uiKit && "C" !in uiKit
    ensures MissingFor(Hierarchy(Nib([Label], [], []), Bare([Label], [], []), uiKit), flags, "C") == []
  {
    var a := Bare([Label], [], []);
    var cfg := Hierarchy(Nib([Label], [], []), a, uiKit);
    assert DeclEquals(a.outlets[0], Label);
    GrandparentMatch(Nib([Label], [], []), a, uiKit, Outlet(Label));
    assert [Label][..0] == [];
    assert MissingOutlets(cfg, flags, "C", [Label]) == [];
    assert MissingActions(cfg, "C", []) == [];
    assert BrokenUnwinds(cfg, "C", []) == [];
  }

  /** An action implemented two classes up is neither missing nor unused. */
  lemma NoIssueWhenActionInSuperClass(uiKit: map<string, Class>, flags: Flags,
                                      nibOrder: seq<string>, classOrder: seq<string>)
    requires "A" !in uiKit && "B" !in uiKit && "C" !in uiKit
    requires IsEnumerationOf(nibOrder, {"C"}) && IsEnumerationOf(classOrder, {"A", "B", "C"})
    ensures AnalyzerIssues(Hierarchy(Nib([], [DidTapButton], []), Bare([], [DidTapButton], []), uiKit),
                           flags, nibOrder, classOrder) == []
  {
    SingletonEnumeration(nibOrder, "C");
    var cfg := Hierarchy(Nib([], [DidTapButton], []), Bare([], [DidTapButton], []), uiKit);
    InheritedActionIsNotMissing(uiKit, flags);
    PassIssuesEmpty(cfg, flags, MissingPass, nibOrder);
    HierarchyHasNothingUnused(Nib([], [DidTapButton], []), Bare([], [DidTapButton], []), uiKit, classOrder);
  }

  lemma InheritedActionIsNotMissing(uiKit: map<string, Class>, flags: Flags)
    requires "A" !in uiKit && "B" !in uiKit && "C" !in uiKit
    ensures MissingFor(Hierarchy(Nib([], [DidTapButton], []), Bare([], [DidTapButton], []), uiKit), flags, "C") == []
  {
    var nib := Nib([], [DidTapButton], []);
    var a := Bare([], [DidTapButton], []);
    var cfg := Hierarchy(nib, a, uiKit);
    assert DeclEquals(a.actions[0], DidTapButton);
    GrandparentMatch(nib, a, uiKit, Action(DidTapButton));
    assert [DidTapButton][..0] == [];
    assert MissingOutlets(cfg, flags, "C", []) == [];
    assert MissingActions(cfg, "C", [DidTapButton]) == [];
    assert BrokenUnwinds(cfg, "C", []) == [];
  }

  /** An outlet declared by a UIKit superclass is not reported missing. */
  lemma UsesUIKitClasses(uiKit: map<string, Class>, flags: Flags, nibOrder: seq<string>, classOrder: seq<string>)
    requires "A" !in uiKit
    requires "UITextField" in uiKit && uiKit["UITextField"] == Bare([NewDeclaration("delegate:", 1, 0, None, false, None)], [], [])
    requires IsEnumerationOf(nibOrder, {"A"}) && IsEnumerationOf(classOrder, {"A"})
    ensures AnalyzerIssues(SingleClass(Nib([NewDeclaration("delegate:", 1, 0, None, false, None)], [], []),
                                       Bare([], [], ["UITextField"]), uiKit), flags, nibOrder, classOrder) == []
  {
    SingletonEnumeration(nibOrder, "A");
    SingletonEnumeration(classOrder, "A");
    var delegate := NewDeclaration("delegate:", 1, 0, None, false, None);
    var cfg := SingleClass(Nib([delegate], [], []), Bare([], [], ["UITextField"]), uiKit);
    UIKitOutletIsNotMissing(uiKit, flags);
    assert IssuesFor(cfg, flags, MissingPass, "A") == [];
    assert IssuesFor(cfg, DefaultFlags, UnnecessaryPass, "A") == [];
    OneClassQuiet(cfg, flags, MissingPass, nibOrder);
    OneClassQuiet(cfg, DefaultFlags, UnnecessaryPass, classOrder);
  }

  /** A pass over a single class reports nothing when that class contributes nothing. */
  lemma OneClassQuiet(cfg: AnalyzerConfiguration, flags: Flags, pass: Pass, order: seq<string>)
    requires |order| == 1 && IssuesFor(cfg, flags, pass, order[0]) == []
    ensures PassIssues(cfg, flags, pass, order) == []
  {
    PassIssuesEmpty(cfg, flags, pass, order);
  }

  lemma UIKitOutletIsNotMissing(uiKit: map<string, Class>, flags: Flags)
    requires "A" !in uiKit
    requires "UITextField" in uiKit && uiKit["UITextField"] == Bare([NewDeclaration("delegate:", 1, 0, None, false, None)], [], [])
    ensures MissingFor(SingleClass(Nib([NewDeclaration("delegate:", 1, 0, None, false, None)], [], []),
                                   Bare([], [], ["UITextField"]), uiKit), flags, "A") == []
  {
    var delegate := NewDeclaration("delegate:", 1, 0, None, false, None);
    var cfg := SingleClass(Nib([delegate], [], []), Bare([], [], ["UITextField"]), uiKit);
    var path := ["UITextField"];
    assert IsChain(cfg, ["UITextField"], path);
    assert DeclEquals(uiKit["UITextField"].outlets[0], delegate);
    assert Satisfies(cfg, path[0], Outlet(delegate));
    assert [delegate][..0] == [];
    assert MissingOutlets(cfg, flags, "A", [delegate]) == [];
  }

  /**
   * `issues(for:)` as written traps on the tests' projects, none of which has
   * a "SignupViewController" document, although the intended answer is empty.
   */
  lemma StrayLookupTrapsOnTestProject(uiKit: map<string, Class>, flags: Flags)
    ensures IssuesAsWritten(SingleClass(EmptyNib, Bare([], [], []), uiKit), flags, ["A"], ["A"]).None?
    ensures AnalyzerIssues(SingleClass(EmptyNib, Bare([], [], []), uiKit), flags, ["A"], ["A"]) == []
  {
    NoOutletsAndActions(uiKit, flags, ["A"], ["A"]);
  }
}
