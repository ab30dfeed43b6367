/**
 * The run over a project: every Interface Builder document is parsed and the
 * per-file mappings are merged, the Swift classes are collected, every segue of
 * the merged documents is tied to its owning class, the segue identifiers
 * supplied on the side are merged into the classes, and each analyzer's
 * issues are concatenated.
 *
 * Listing the project's files, reading them, and parsing Swift are outside
 * the model: the file list, the documents' event lists, and the Swift parser's
 * class map are inputs.
 */
module Runner {
  import opened Wrappers
  import opened Text
  import opened Collections
  import opened Models
  import opened Rules
  import opened Analyzer
  import opened ConnectionIssues
  import opened ConnectionAnalyzer
  import opened NibParser

  datatype RunError =
    | Unreadable(url: string)
    | MalformedDocument(url: string, fault: Fault)
    | UnresolvedSegue

  // ---------------------------------------------------------------------------
  // Choosing the files
  // ---------------------------------------------------------------------------

  /** The test a file passes when its extension is one of `extensions`. */
  function ExtensionIn(extensions: set<string>): string -> bool {
    (f: string) => PathExtension(f) in extensions
  }

  /** The files, in their order, whose extension is one of `extensions`. */
  function WithExtension(files: seq<string>, extensions: set<string>): seq<string> {
    Filter(files, ExtensionIn(extensions))
  }

  /** The filter keeps exactly the files with one of the extensions. */
  lemma WithExtensionMembers(files: seq<string>, extensions: set<string>, u: string)
    ensures u in WithExtension(files, extensions) <==> u in files && PathExtension(u) in extensions
  {
    FilterMembers(files, ExtensionIn(extensions), u);
  }

  /** Filtering a list in two parts filters each part, so the kept files stay in order. */
  lemma WithExtensionAppend(a: seq<string>, b: seq<string>, extensions: set<string>)
    ensures WithExtension(a + b, extensions) == WithExtension(a, extensions) + WithExtension(b, extensions)
  {
    FilterAppend(a, b, ExtensionIn(extensions));
  }

  /** `nibFiles`: the storyboards and xibs. */
  function NibFiles(files: seq<string>): seq<string> {
    WithExtension(files, {"storyboard", "xib"})
  }

  /** `swiftFiles`: the Swift sources. */
  function SwiftFiles(files: seq<string>): seq<string> {
    WithExtension(files, {"swift"})
  }

  /** A storyboard or xib is read as a document and never handed to the Swift parser. */
  lemma DocumentsAreNotSwift(file: string)
    requires PathExtension(file) == "storyboard" || PathExtension(file) == "xib"
    ensures NibFiles([file]) == [file]
    ensures SwiftFiles([file]) == []
  {
    var ext := PathExtension(file);
    assert ext != "swift" by { assert |ext| != |"swift"|; }
    var isDocument, isSwift := ExtensionIn({"storyboard", "xib"}), ExtensionIn({"swift"});
    assert isDocument(file) && !isSwift(file);
    assert [file][1..] == [] && [file][0] == file;
    assert Filter([file], isDocument) == [file] + Filter([], isDocument);
    assert Filter([file], isSwift) == [] + Filter([], isSwift);
  }

  /** A file named `….storyboard` or `….xib` is a document. */
  lemma NamedDocumentsAreNotSwift(p: string, ext: string)
    requires ext == "storyboard" || ext == "xib"
    ensures NibFiles([p + "." + ext]) == [p + "." + ext]
    ensures SwiftFiles([p + "." + ext]) == []
  {
    PathExtensionOf(p, ext);
    DocumentsAreNotSwift(p + "." + ext);
  }

  // ---------------------------------------------------------------------------
  // Merging the documents
  // ---------------------------------------------------------------------------

  /** The per-file mappings, one after the other, a later file's entry replacing an earlier one. */
  function MergeAll(mappings: seq<map<string, Nib>>): map<string, Nib>
    decreases |mappings|
  {
    if mappings == [] then map[] else MergeAll(mappings[..|mappings| - 1]) + mappings[|mappings| - 1]
  }

  /** The merged mapping knows exactly the classes some file knows. */
  lemma {:induction false} MergeAllKeys(mappings: seq<map<string, Nib>>, k: string)
    ensures k in MergeAll(mappings) <==> exists i :: 0 <= i < |mappings| && k in mappings[i]
    decreases |mappings|
  {
    if mappings != [] {
      var init := mappings[..|mappings| - 1];
      MergeAllKeys(init, k);
      if exists i :: 0 <= i < |mappings| && k in mappings[i] {
        var i :| 0 <= i < |mappings| && k in mappings[i];
        if i < |mappings| - 1 {
          assert init[i] == mappings[i];
        }
      }
    }
  }

  /** A class's entry comes from the last file that knows the class. */
  lemma {:induction false} MergeAllLastWins(mappings: seq<map<string, Nib>>, i: nat, k: string)
    requires i < |mappings| && k in mappings[i]
    requires forall j :: i < j < |mappings| ==> k !in mappings[j]
    ensures k in MergeAll(mappings) && MergeAll(mappings)[k] == mappings[i][k]
    decreases |mappings|
  {
    if i < |mappings| - 1 {
      var init := mappings[..|mappings| - 1];
      assert init[i] == mappings[i];
      MergeAllLastWins(init, i, k);
    }
  }

  /** The `for (key, value) in connections` loop: copies every entry of `source` over `target`. */
  method MergeInto(target: map<string, Nib>, source: map<string, Nib>) returns (r: map<string, Nib>)
    ensures r == target + source
  {
    RestrictEnds(source);
    assert target + map[] == target;
    r := target;
    var remaining := source.Keys;
    ghost var done: set<string> := {};
    while remaining != {}
      invariant remaining <= source.Keys && done == source.Keys - remaining
      invariant r == target + Restrict(source, done)
      decreases |remaining|
    {
      var k :| k in remaining;
      TakeOne(source.Keys, remaining, done, k);
      RestrictGrows(source, done, k);
      UnionUpdate(target, Restrict(source, done), k, source[k]);
      r := r[k := source[k]];
      remaining := remaining - {k};
      done := done + {k};
    }
    assert done == source.Keys;
  }

  /**
   * What the parser has produced so far: the mapping of each file read, the
   * segues of the last one, and the identity of the next segue object.
   */
  datatype Parsed = Parsed(mappings: seq<map<string, Nib>>, lastSegues: seq<SegueDeclaration>, nextRef: nat)

  /** Reads the documents in order with one parser; the first unreadable or malformed one stops the run. */
  function ParseDocuments(acc: Parsed, urls: seq<string>, documents: map<string, seq<Event>>): Result<Parsed, RunError>
    decreases |urls|
  {
    if urls == [] then Success(acc)
    else if urls[0] !in documents then Failure(Unreadable(urls[0]))
    else
      match Run(Initial(acc.nextRef), Some(urls[0]), documents[urls[0]])
      case Failure(f) => Failure(MalformedDocument(urls[0], f))
      case Success(st) =>
        ParseDocuments(Parsed(acc.mappings + [st.classNameToNibMap], st.allSegues, st.nextRef), urls[1..], documents)
  }

  /**
   * Reading keeps the mappings already read and adds one per file. It never
   * reuses a segue identity: each new document's segues take identities above
   * those of the documents read before it.
   */
  lemma {:induction false} ParseDocumentsExtends(acc: Parsed, urls: seq<string>, documents: map<string, seq<Event>>)
    requires ParseDocuments(acc, urls, documents).Success?
    ensures var p := ParseDocuments(acc, urls, documents).value;
            && |p.mappings| == |acc.mappings| + |urls|
            && p.mappings[..|acc.mappings|] == acc.mappings
            && acc.nextRef <= p.nextRef
            && (urls != [] ==> forall i :: 0 <= i < |p.lastSegues| ==> acc.nextRef <= p.lastSegues[i].ref < p.nextRef)
            && (forall j :: |acc.mappings| <= j < |p.mappings| ==> RefsWithin(p.mappings[j], acc.nextRef, p.nextRef))
            && (forall j1, j2 :: |acc.mappings| <= j1 < j2 < |p.mappings| ==> RefsBefore(p.mappings[j1], p.mappings[j2]))
    decreases |urls|
  {
    if urls != [] {
      var st := Run(Initial(acc.nextRef), Some(urls[0]), documents[urls[0]]).value;
      DocumentRefsWithin(acc.nextRef, urls[0], documents[urls[0]]);
      var next := Parsed(acc.mappings + [st.classNameToNibMap], st.allSegues, st.nextRef);
      ParseDocumentsExtends(next, urls[1..], documents);
      var p := ParseDocuments(acc, urls, documents).value;
      assert p == ParseDocuments(next, urls[1..], documents).value;
      assert p.mappings[..|acc.mappings|] == p.mappings[..|next.mappings|][..|acc.mappings|];
      assert p.mappings[|acc.mappings|] == next.mappings[|acc.mappings|];
      forall j | |acc.mappings| <= j < |p.mappings|
        ensures RefsWithin(p.mappings[j], acc.nextRef, p.nextRef)
      {
        if j > |acc.mappings| {
          assert RefsWithin(p.mappings[j], st.nextRef, p.nextRef);
        }
      }
      forall j1, j2 | |acc.mappings| <= j1 < j2 < |p.mappings|
        ensures RefsBefore(p.mappings[j1], p.mappings[j2])
      {
        if j1 == |acc.mappings| {
          RefsWithinThenBefore(p.mappings[j1], p.mappings[j2], acc.nextRef, st.nextRef, p.nextRef);
        }
      }
    }
  }

  /** A run that gets past reading has read every file it was given. */
  lemma {:induction false} ParseDocumentsReadsAll(acc: Parsed, urls: seq<string>,
                                                  documents: map<string, seq<Event>>)
    requires ParseDocuments(acc, urls, documents).Success?
    ensures forall u :: u in urls ==> u in documents
    decreases |urls|
  {
    if urls != [] {
      var st := Run(Initial(acc.nextRef), Some(urls[0]), documents[urls[0]]).value;
      ParseDocumentsReadsAll(Parsed(acc.mappings + [st.classNameToNibMap], st.allSegues, st.nextRef),
                             urls[1..], documents);
      assert forall u :: u in urls ==> u == urls[0] || u in urls[1..];
    }
  }

  // ---------------------------------------------------------------------------
  // Tying segues to their classes
  // ---------------------------------------------------------------------------

  predicate SegueResolvable(s: SegueDeclaration, classes: map<string, Class>) {
    ResolveFile(s, classes).Success?
  }

  /** Every segue of every document names an owner the class map knows. */
  predicate AllResolvable(nibs: map<string, Nib>, classes: map<string, Class>) {
    forall k :: k in nibs ==> ListResolvable(nibs[k].segues, classes)
  }

  predicate ListResolvable(segues: seq<SegueDeclaration>, classes: map<string, Class>) {
    forall i :: 0 <= i < |segues| ==> SegueResolvable(segues[i], classes)
  }

  function ResolveList(segues: seq<SegueDeclaration>, classes: map<string, Class>): (r: seq<SegueDeclaration>)
    requires ListResolvable(segues, classes)
    ensures |r| == |segues|
    ensures forall i :: 0 <= i < |segues| ==> r[i] == ResolveFile(segues[i], classes).value
    decreases |segues|
  {
    if segues == [] then []
    else ResolveList(segues[..|segues| - 1], classes) + [ResolveFile(segues[|segues| - 1], classes).value]
  }

  /** The documents after `resolveFile` has run on every segue, or the failure it stops with. */
  function ResolveNibs(nibs: map<string, Nib>, classes: map<string, Class>): (r: Result<map<string, Nib>, RunError>)
    ensures r.Success? <==> AllResolvable(nibs, classes)
    ensures r.Failure? ==> r.error == UnresolvedSegue
    ensures r.Success? ==> && r.value.Keys == nibs.Keys
                           && (forall k :: k in nibs ==>
                                 && r.value[k].outlets == nibs[k].outlets
                                 && r.value[k].actions == nibs[k].actions
                                 && |r.value[k].segues| == |nibs[k].segues|)
                           && (forall k, i :: k in r.value && 0 <= i < |r.value[k].segues| ==>
                                                r.value[k].segues[i].classObject.Some?)
  {
    if AllResolvable(nibs, classes) then
      Success(map k | k in nibs :: nibs[k].(segues := ResolveList(nibs[k].segues, classes)))
    else Failure(UnresolvedSegue)
  }

  /**
   * A segue the merged documents hold is the same object the parser listed;
   * once resolved there, it is resolved in the parser's list too.
   */
  function SegueRefs(nibs: map<string, Nib>): set<nat> {
    set k, i | k in nibs && 0 <= i < |nibs[k].segues| :: nibs[k].segues[i].ref
  }

  function ResolveAliases(all: seq<SegueDeclaration>, refs: set<nat>, classes: map<string, Class>)
    : (r: seq<SegueDeclaration>)
    ensures |r| == |all|
    ensures forall i :: 0 <= i < |all| ==>
              r[i] == if all[i].ref in refs && SegueResolvable(all[i], classes) then ResolveFile(all[i], classes).value
                      else all[i]
  {
    seq(|all|, i requires 0 <= i < |all| =>
      if all[i].ref in refs && SegueResolvable(all[i], classes) then ResolveFile(all[i], classes).value else all[i])
  }

  /** The `allSegueDeclarations.forEach` loop: one document's segues. */
  method ResolveSegueList(segues: seq<SegueDeclaration>, classes: map<string, Class>)
    returns (r: Result<seq<SegueDeclaration>, RunError>)
    ensures r.Success? <==> ListResolvable(segues, classes)
    ensures r.Success? ==> r.value == ResolveList(segues, classes)
    ensures r.Failure? ==> r.error == UnresolvedSegue
  {
    var resolved := [];
    for i := 0 to |segues|
      invariant ListResolvable(segues[..i], classes)
      invariant resolved == ResolveList(segues[..i], classes)
    {
      assert segues[..i + 1][..i] == segues[..i];
      var s := ResolveFile(segues[i], classes);
      if s.Failure? {
        return Failure(UnresolvedSegue);
      }
      resolved := resolved + [s.value];
    }
    assert segues[..|segues|] == segues;
    return Success(resolved);
  }

  /** The documents with the first `done` classes' segues resolved and the rest as they were. */
  function PartlyResolved(nibs: map<string, Nib>, classes: map<string, Class>, done: set<string>): map<string, Nib>
    requires forall k :: k in done && k in nibs ==> ListResolvable(nibs[k].segues, classes)
  {
    map k | k in nibs.Keys * done :: nibs[k].(segues := ResolveList(nibs[k].segues, classes))
  }

  /** Resolving one more document's segues updates that document alone. */
  lemma PartlyResolvedStep(nibs: map<string, Nib>, classes: map<string, Class>, done: set<string>, k: string)
    requires forall j :: j in done && j in nibs ==> ListResolvable(nibs[j].segues, classes)
    requires k in nibs && k !in done && ListResolvable(nibs[k].segues, classes)
    ensures PartlyResolved(nibs, classes, done + {k})
            == PartlyResolved(nibs, classes, done)[k := nibs[k].(segues := ResolveList(nibs[k].segues, classes))]
  {
  }

  /** With every document done, the partial resolution is the whole one. */
  lemma PartlyResolvedAll(nibs: map<string, Nib>, classes: map<string, Class>)
    requires AllResolvable(nibs, classes)
    ensures ResolveNibs(nibs, classes) == Success(PartlyResolved(nibs, classes, nibs.Keys))
  {
    var whole := map k | k in nibs :: nibs[k].(segues := ResolveList(nibs[k].segues, classes));
    var part := PartlyResolved(nibs, classes, nibs.Keys);
    assert whole.Keys == part.Keys;
    assert forall k :: k in whole ==> whole[k] == part[k];
  }

  /** `resolveFile` on every segue of the merged documents. */
  method ResolveSegues(nibs: map<string, Nib>, classes: map<string, Class>) returns (r: Result<map<string, Nib>, RunError>)
    ensures r.Success? <==> AllResolvable(nibs, classes)
    ensures r.Success? ==> r == ResolveNibs(nibs, classes)
    ensures r.Failure? ==> r.error == UnresolvedSegue
  {
    var result := map[];
    var remaining := nibs.Keys;
    while remaining != {}
      invariant remaining <= nibs.Keys
      invariant forall k :: k in nibs.Keys - remaining ==> ListResolvable(nibs[k].segues, classes)
      invariant result == PartlyResolved(nibs, classes, nibs.Keys - remaining)
      decreases |remaining|
    {
      var k :| k in remaining;
      var segues := ResolveSegueList(nibs[k].segues, classes);
      if segues.Failure? {
        return Failure(segues.error);
      }
      ghost var done := nibs.Keys - remaining;
      PartlyResolvedStep(nibs, classes, done, k);
      result := result[k := nibs[k].(segues := segues.value)];
      remaining := remaining - {k};
      assert nibs.Keys - remaining == done + {k};
    }
    assert nibs.Keys - remaining == nibs.Keys;
    PartlyResolvedAll(nibs, classes);
    return Success(result);
  }

  /** Resolution only fills in the owning class: names, attributes and identities stay. */
  lemma ResolutionKeepsSegues(nibs: map<string, Nib>, classes: map<string, Class>, k: string, i: nat)
    requires ResolveNibs(nibs, classes).Success? && k in nibs && i < |nibs[k].segues|
    ensures nibs[k].segues[i].parentClassName.Some? && nibs[k].segues[i].parentClassName.value in classes
    ensures var resolved := ResolveNibs(nibs, classes).value;
            && k in resolved && |resolved[k].segues| == |nibs[k].segues|
            && resolved[k].segues[i] == nibs[k].segues[i].(classObject := Some(classes[nibs[k].segues[i].parentClassName.value]))
            && resolved[k].outlets == nibs[k].outlets && resolved[k].actions == nibs[k].actions
  {
    assert SegueResolvable(nibs[k].segues[i], classes);
  }

  // ---------------------------------------------------------------------------
  // Segue identifiers supplied on the side
  // ---------------------------------------------------------------------------

  /** A known class gets the identifiers after its own; an unknown one is created with them alone. */
  function MergedClass(classes: map<string, Class>, identifiers: seq<SegueIdentifier>, className: string): Class {
    if className in classes then
      classes[className].(segueIdentifiers := classes[className].segueIdentifiers + identifiers)
    else NewClassWithoutLocation([], [], [], identifiers)
  }

  function MergeSegueIdentifiers(classes: map<string, Class>, extra: map<string, seq<SegueIdentifier>>)
    : map<string, Class>
  {
    map k | k in classes.Keys + extra.Keys :: if k in extra then MergedClass(classes, extra[k], k) else classes[k]
  }

  /** What the merge does to each class, stated field by field. */
  lemma MergeSegueIdentifiersEffect(classes: map<string, Class>, extra: map<string, seq<SegueIdentifier>>, k: string)
    ensures var merged := MergeSegueIdentifiers(classes, extra);
            && (k in merged <==> k in classes || k in extra)
            && (k in classes && k !in extra ==> merged[k] == classes[k])
            && (k in classes && k in extra ==>
                  && merged[k].segueIdentifiers == classes[k].segueIdentifiers + extra[k]
                  && merged[k].outlets == classes[k].outlets && merged[k].actions == classes[k].actions
                  && merged[k].inherited == classes[k].inherited
                  && merged[k].path == classes[k].path && merged[k].line == classes[k].line)
            && (k !in classes && k in extra ==>
                  && merged[k].segueIdentifiers == extra[k]
                  && merged[k].outlets == [] && merged[k].actions == [] && merged[k].inherited == []
                  && merged[k].path == None && merged[k].line == None)
  {
  }

  /** Merging one more class's side data, looked up in the map merged so far, updates that class alone. */
  lemma MergeOneMore(r: map<string, Class>, classes: map<string, Class>, extra: map<string, seq<SegueIdentifier>>,
                     done: set<string>, className: string)
    requires className in extra && className !in done
    requires r == MergeSegueIdentifiers(classes, Restrict(extra, done))
    ensures r[className := MergedClass(r, extra[className], className)]
            == MergeSegueIdentifiers(classes, Restrict(extra, done + {className}))
  {
    RestrictGrows(extra, done, className);
    var before, after := Restrict(extra, done), Restrict(extra, done + {className});
    var next := r[className := MergedClass(r, extra[className], className)];
    var m := MergeSegueIdentifiers(classes, after);
    assert className !in before;
    assert MergedClass(r, extra[className], className) == MergedClass(classes, extra[className], className);
    assert next.Keys == m.Keys;
    forall k | k in next ensures next[k] == m[k] {
      if k != className {
        assert (k in after) == (k in before) && (k in before ==> after[k] == before[k]);
      }
    }
  }

  /** With no side data merged the classes are as they were. */
  lemma NoSideData(classes: map<string, Class>)
    ensures MergeSegueIdentifiers(classes, map[]) == classes
  {
    assert MergeSegueIdentifiers(classes, map[]).Keys == classes.Keys;
  }

  /** The `for (className, identifiers)` loop over the decoded side data. */
  method MergeSegueIdentifiersInto(classes: map<string, Class>, extra: map<string, seq<SegueIdentifier>>)
    returns (r: map<string, Class>)
    ensures r == MergeSegueIdentifiers(classes, extra)
  {
    RestrictEnds(extra);
    NoSideData(classes);
    r := classes;
    var remaining := extra.Keys;
    ghost var done: set<string> := {};
    while remaining != {}
      invariant remaining <= extra.Keys && done == extra.Keys - remaining
      invariant r == MergeSegueIdentifiers(classes, Restrict(extra, done))
      decreases |remaining|
    {
      var className :| className in remaining;
      TakeOne(extra.Keys, remaining, done, className);
      MergeOneMore(r, classes, extra, done, className);
      r := r[className := MergedClass(r, extra[className], className)];
      remaining := remaining - {className};
      done := done + {className};
    }
    assert done == extra.Keys;
  }

  // ---------------------------------------------------------------------------
  // The run
  // ---------------------------------------------------------------------------

  /** The analyzers a run can be given; the connection analyzer is the one this model covers. */
  datatype AnalyzerKind = ConnectionAnalyzerKind

  ghost function IssuesOf(kind: AnalyzerKind, cfg: AnalyzerConfiguration, flags: Flags,
                          nibOrder: seq<string>, classOrder: seq<string>): seq<ConnectionIssue> {
    match kind
    case ConnectionAnalyzerKind => AnalyzerIssues(cfg, flags, nibOrder, classOrder)
  }

  ghost function AnalyzerChunks(analyzers: seq<AnalyzerKind>, cfg: AnalyzerConfiguration, flags: Flags,
                                nibOrder: seq<string>, classOrder: seq<string>): (r: seq<seq<ConnectionIssue>>)
    ensures |r| == |analyzers|
    ensures forall i :: 0 <= i < |analyzers| ==> r[i] == IssuesOf(analyzers[i], cfg, flags, nibOrder, classOrder)
  {
    seq(|analyzers|, i requires 0 <= i < |analyzers| => IssuesOf(analyzers[i], cfg, flags, nibOrder, classOrder))
  }

  /** `analyzers.flatMap { $0.issues(for:) }`. */
  ghost function RunAnalyzers(analyzers: seq<AnalyzerKind>, cfg: AnalyzerConfiguration, flags: Flags,
                              nibOrder: seq<string>, classOrder: seq<string>): seq<ConnectionIssue> {
    Concat(AnalyzerChunks(analyzers, cfg, flags, nibOrder, classOrder))
  }

  /** The issues of a list of analyzers are those of its first part followed by those of its second. */
  lemma RunAnalyzersAppend(a: seq<AnalyzerKind>, b: seq<AnalyzerKind>, cfg: AnalyzerConfiguration, flags: Flags,
                           nibOrder: seq<string>, classOrder: seq<string>)
    ensures RunAnalyzers(a + b, cfg, flags, nibOrder, classOrder)
            == RunAnalyzers(a, cfg, flags, nibOrder, classOrder) + RunAnalyzers(b, cfg, flags, nibOrder, classOrder)
  {
    assert AnalyzerChunks(a + b, cfg, flags, nibOrder, classOrder)
           == AnalyzerChunks(a, cfg, flags, nibOrder, classOrder) + AnalyzerChunks(b, cfg, flags, nibOrder, classOrder);
    ConcatAppend(AnalyzerChunks(a, cfg, flags, nibOrder, classOrder), AnalyzerChunks(b, cfg, flags, nibOrder, classOrder));
  }

  /** One analyzer contributes its own issues. */
  lemma RunOneAnalyzer(kind: AnalyzerKind, cfg: AnalyzerConfiguration, flags: Flags,
                       nibOrder: seq<string>, classOrder: seq<string>)
    ensures RunAnalyzers([kind], cfg, flags, nibOrder, classOrder) == IssuesOf(kind, cfg, flags, nibOrder, classOrder)
  {
    var c := AnalyzerChunks([kind], cfg, flags, nibOrder, classOrder);
    assert c[..0] == [];
    assert Concat(c) == Concat([]) + c[0];
  }

  /** Running one more analyzer of the list appends that analyzer's issues. */
  lemma RunAnalyzersSnoc(analyzers: seq<AnalyzerKind>, a: nat, cfg: AnalyzerConfiguration, flags: Flags,
                         nibOrder: seq<string>, classOrder: seq<string>)
    requires a < |analyzers|
    ensures RunAnalyzers(analyzers[..a + 1], cfg, flags, nibOrder, classOrder)
            == RunAnalyzers(analyzers[..a], cfg, flags, nibOrder, classOrder)
               + IssuesOf(analyzers[a], cfg, flags, nibOrder, classOrder)
  {
    assert analyzers[..a + 1] == analyzers[..a] + [analyzers[a]];
    RunAnalyzersAppend(analyzers[..a], [analyzers[a]], cfg, flags, nibOrder, classOrder);
    RunOneAnalyzer(analyzers[a], cfg, flags, nibOrder, classOrder);
  }

  /**
   * The configuration the analyzers receive, or the reason the run stops.
   * `lastSegues` and `nextRef` are the parser's state before the run.
   */
  function BuildConfiguration(files: seq<string>, documents: map<string, seq<Event>>,
                              lastSegues: seq<SegueDeclaration>, nextRef: nat,
                              classes: map<string, Class>, extra: Option<map<string, seq<SegueIdentifier>>>,
                              uiKit: map<string, Class>): (r: Result<AnalyzerConfiguration, RunError>)
    ensures r.Success? ==> forall u :: u in NibFiles(files) ==> u in documents
    ensures r.Success? ==> r.value.uiKitClassNameToClassMap == uiKit
    ensures r.Success? && extra.None? ==> r.value.classNameToClassMap == classes
    ensures r.Success? && extra.Some? ==> r.value.classNameToClassMap.Keys == classes.Keys + extra.value.Keys
    ensures r.Success? ==> forall k, i :: k in r.value.classNameToNibMap && 0 <= i < |r.value.classNameToNibMap[k].segues|
                                          ==> r.value.classNameToNibMap[k].segues[i].classObject.Some?
    ensures var parsed := ParseDocuments(Parsed([], lastSegues, nextRef), NibFiles(files), documents);
            && (parsed.Failure? ==> r == Failure(parsed.error))
            && (parsed.Success? ==>
                  var nibs := MergeAll(parsed.value.mappings);
                  && (r.Success? <==> AllResolvable(nibs, classes))
                  && (r.Failure? ==> r.error == UnresolvedSegue)
                  && (r.Success? ==> && r.value.classNameToNibMap.Keys == nibs.Keys
                                     && forall k :: k in nibs ==>
                                          && r.value.classNameToNibMap[k].outlets == nibs[k].outlets
                                          && r.value.classNameToNibMap[k].actions == nibs[k].actions))
    ensures r.Success? && extra.Some? ==> r.value.classNameToClassMap == MergeSegueIdentifiers(classes, extra.value)
  {
    match ParseDocuments(Parsed([], lastSegues, nextRef), NibFiles(files), documents)
    case Failure(e) => Failure(e)
    case Success(parsed) =>
      ParseDocumentsReadsAll(Parsed([], lastSegues, nextRef), NibFiles(files), documents);
      var nibs := MergeAll(parsed.mappings);
      match ResolveNibs(nibs, classes)
      case Failure(e) => Failure(e)
      case Success(resolved) =>
        var allNibSegues := ResolveAliases(parsed.lastSegues, SegueRefs(nibs), classes);
        var merged := if extra.Some? then MergeSegueIdentifiers(classes, extra.value) else classes;
        Success(AnalyzerConfiguration(resolved, merged, uiKit, allNibSegues))
  }

  /** `Runner`: the parser it reads documents with is kept from one run to the next. */
  class Runner {
    const nibParser: NibParser

    constructor(nibParser: NibParser)
      ensures this.nibParser == nibParser
    {
      this.nibParser := nibParser;
    }

    /** The first loop of `issues(using:additionalClassData:)`: reads every document and merges the mappings. */
    method MergeNibFiles(nibFiles: seq<string>, documents: map<string, seq<Event>>)
      returns (r: Result<map<string, Nib>, RunError>)
      modifies nibParser
      ensures var parsed := ParseDocuments(Parsed([], old(nibParser.allSegues), old(nibParser.nextRef)), nibFiles, documents);
              && (parsed.Failure? ==> r == Failure(parsed.error))
              && (parsed.Success? ==>
                    && r == Success(MergeAll(parsed.value.mappings))
                    && nibParser.allSegues == parsed.value.lastSegues
                    && nibParser.nextRef == parsed.value.nextRef)
    {
      ghost var start := Parsed([], nibParser.allSegues, nibParser.nextRef);
      ghost var mappings: seq<map<string, Nib>> := [];
      var classNameToNibMap: map<string, Nib> := map[];
      for k := 0 to |nibFiles|
        invariant ParseDocuments(start, nibFiles, documents)
                  == ParseDocuments(Parsed(mappings, nibParser.allSegues, nibParser.nextRef), nibFiles[k..], documents)
        invariant classNameToNibMap == MergeAll(mappings)
      {
        assert nibFiles[k..][1..] == nibFiles[k + 1..];
        var url := nibFiles[k];
        if url !in documents {
          return Failure(Unreadable(url));
        }
        var connections := nibParser.MappingForFile(url, documents[url]);
        if connections.Failure? {
          return Failure(MalformedDocument(url, connections.error));
        }
        classNameToNibMap := MergeInto(classNameToNibMap, connections.value);
        assert (mappings + [connections.value])[..|mappings|] == mappings;
        mappings := mappings + [connections.value];
      }
      return Success(classNameToNibMap);
    }

    /** `analyzers.flatMap { $0.issues(for: configuration) }`, every analyzer walking the dictionaries in one order. */
    static method RunAll(analyzers: seq<AnalyzerKind>, configuration: AnalyzerConfiguration, flags: Flags,
                         nibOrder: seq<string>, classOrder: seq<string>) returns (issues: seq<ConnectionIssue>)
      requires IsEnumerationOf(nibOrder, configuration.classNameToNibMap.Keys)
      requires IsEnumerationOf(classOrder, configuration.classNameToClassMap.Keys)
      ensures issues == RunAnalyzers(analyzers, configuration, flags, nibOrder, classOrder)
    {
      issues := [];
      for a := 0 to |analyzers|
        invariant issues == RunAnalyzers(analyzers[..a], configuration, flags, nibOrder, classOrder)
      {
        var found := ConnectionAnalyzer.Issues(configuration, flags, nibOrder, classOrder);
        RunAnalyzersSnoc(analyzers, a, configuration, flags, nibOrder, classOrder);
        issues := issues + found;
      }
      assert analyzers[..|analyzers|] == analyzers;
    }

    /**
     * `issues(using:additionalClassData:)`. `parseSwift` stands for the Swift
     * parser's pass over the Swift sources; `extra` is the side data once
     * decoded, `None` when there is none or it does not decode.
     */
    method Issues(files: seq<string>, documents: map<string, seq<Event>>,
                  parseSwift: seq<string> -> map<string, Class>,
                  extra: Option<map<string, seq<SegueIdentifier>>>, uiKit: map<string, Class>,
                  analyzers: seq<AnalyzerKind>, flags: Flags)
      returns (r: Result<seq<ConnectionIssue>, RunError>)
      modifies nibParser
      ensures var built := BuildConfiguration(files, documents, old(nibParser.allSegues), old(nibParser.nextRef),
                                              parseSwift(SwiftFiles(files)), extra, uiKit);
              && (r.Failure? <==> built.Failure?)
              && (r.Failure? ==> r.error == built.error)
              && (r.Success? ==>
                    exists nibOrder, classOrder ::
                      && IsEnumerationOf(nibOrder, built.value.classNameToNibMap.Keys)
                      && IsEnumerationOf(classOrder, built.value.classNameToClassMap.Keys)
                      && r.value == RunAnalyzers(analyzers, built.value, flags, nibOrder, classOrder))
      ensures var parsed := ParseDocuments(Parsed([], old(nibParser.allSegues), old(nibParser.nextRef)),
                                           NibFiles(files), documents);
              parsed.Success? ==> nibParser.allSegues == parsed.value.lastSegues
                                  && nibParser.nextRef == parsed.value.nextRef
    {
      var merged := MergeNibFiles(NibFiles(files), documents);
      if merged.Failure? {
        return Failure(merged.error);
      }
      var classNameToNibMap := merged.value;
      var classNameToClassMap := parseSwift(SwiftFiles(files));

      var resolved := ResolveSegues(classNameToNibMap, classNameToClassMap);
      if resolved.Failure? {
        return Failure(resolved.error);
      }
      var allNibSegues := ResolveAliases(nibParser.allSegues, SegueRefs(classNameToNibMap), classNameToClassMap);

      if extra.Some? {
        classNameToClassMap := MergeSegueIdentifiersInto(classNameToClassMap, extra.value);
      }
      var configuration := AnalyzerConfiguration(resolved.value, classNameToClassMap, uiKit, allNibSegues);

      var nibOrder := EnumerateKeys(configuration.classNameToNibMap.Keys);
      var classOrder := EnumerateKeys(configuration.classNameToClassMap.Keys);
      var issues := RunAll(analyzers, configuration, flags, nibOrder, classOrder);
      return Success(issues);
    }
  }
}
