/**
 * `classOrInheritedTypeOf`: does a class, or some type it inherits from,
 * declare a given outlet or action? The search walks a first-in first-out
 * queue of inherited type names. A name found in the UIKit table is tested
 * there and not explored further; a name found among the project's classes is
 * tested and, when it does not match, its own inherited names join the back of
 * the queue; any other name (a protocol, a type from elsewhere) is dropped.
 */
module InheritanceSearch {
  import opened Wrappers
  import opened Models
  import opened Analyzer

  /** What the match closure looks for: an outlet or an action, compared by name. */
  datatype Member = Outlet(decl: Declaration) | Action(decl: Declaration)

  predicate Declares(k: Class, m: Member) {
    match m
    case Outlet(d) => ContainsDecl(k.outlets, d)
    case Action(d) => ContainsDecl(k.actions, d)
  }

  /** The class an inherited type name stands for; the UIKit table is consulted first. */
  function LookupType(cfg: AnalyzerConfiguration, name: string): (r: Option<Class>)
    ensures name in cfg.uiKitClassNameToClassMap ==> r == Some(cfg.uiKitClassNameToClassMap[name])
    ensures name !in cfg.uiKitClassNameToClassMap ==> r == Get(cfg.classNameToClassMap, name)
  {
    if name in cfg.uiKitClassNameToClassMap then Some(cfg.uiKitClassNameToClassMap[name])
    else Get(cfg.classNameToClassMap, name)
  }

  /** Only a project class that is not also a UIKit class has its inherited types explored. */
  predicate Expands(cfg: AnalyzerConfiguration, name: string) {
    name !in cfg.uiKitClassNameToClassMap && name in cfg.classNameToClassMap
  }

  predicate Satisfies(cfg: AnalyzerConfiguration, name: string, m: Member) {
    LookupType(cfg, name).Some? && Declares(LookupType(cfg, name).value, m)
  }

  /**
   * A chain of inherited type names: it starts at one of `roots`, and each
   * further name is inherited by the previous one, which is a project class
   * the search expands.
   */
  ghost predicate IsChain(cfg: AnalyzerConfiguration, roots: seq<string>, path: seq<string>) {
    && |path| > 0
    && path[0] in roots
    && forall i :: 0 <= i < |path| - 1 ==>
         Expands(cfg, path[i]) && path[i + 1] in cfg.classNameToClassMap[path[i]].inherited
  }

  /** Some chain from `roots` ends at a type that declares the member. */
  ghost predicate ReachesMatch(cfg: AnalyzerConfiguration, roots: seq<string>, m: Member) {
    exists path :: IsChain(cfg, roots, path) && Satisfies(cfg, path[|path| - 1], m)
  }

  /** The intended answer: the class is known, and it or a type reachable from it declares the member. */
  ghost predicate InheritsMatch(cfg: AnalyzerConfiguration, className: string, m: Member) {
    && className in cfg.classNameToClassMap
    && (|| Declares(cfg.classNameToClassMap[className], m)
        || ReachesMatch(cfg, cfg.classNameToClassMap[className].inherited, m))
  }

  // ---------------------------------------------------------------------------
  // The search
  // ---------------------------------------------------------------------------

  lemma DifferenceShrinks(keys: set<string>, visited: set<string>, x: string)
    ensures |keys - (visited + {x})| <= |keys - visited|
    ensures x in keys && x !in visited ==> |keys - (visited + {x})| < |keys - visited|
  {
    if x in keys && x !in visited {
      assert keys - visited == (keys - (visited + {x})) + {x};
    } else {
      assert keys - (visited + {x}) == keys - visited;
    }
  }

  /** A set that holds the roots and is closed under expansion holds the end of every chain. */
  lemma {:induction false} ClosedSetCoversChain(cfg: AnalyzerConfiguration, roots: seq<string>, closed: set<string>,
                                                path: seq<string>)
    requires forall r :: r in roots ==> r in closed
    requires forall n :: n in closed && Expands(cfg, n) ==>
               forall p :: p in cfg.classNameToClassMap[n].inherited ==> p in closed
    requires IsChain(cfg, roots, path)
    ensures path[|path| - 1] in closed
    decreases |path|
  {
    if |path| > 1 {
      var prefix := path[..|path| - 1];
      assert IsChain(cfg, roots, prefix) by {
        forall i | 0 <= i < |prefix| - 1
          ensures Expands(cfg, prefix[i]) && prefix[i + 1] in cfg.classNameToClassMap[prefix[i]].inherited
        {
          assert prefix[i] == path[i] && prefix[i + 1] == path[i + 1];
        }
      }
      ClosedSetCoversChain(cfg, roots, closed, prefix);
      assert Expands(cfg, path[|path| - 2]);
    }
  }

  /** The names the queue holds after taking off a name that does not match. */
  function NextQueue(cfg: AnalyzerConfiguration, queue: seq<string>): (r: seq<string>)
    requires queue != []
    ensures forall p :: p in queue[1..] ==> p in r
    ensures Expands(cfg, queue[0]) ==> forall p :: p in cfg.classNameToClassMap[queue[0]].inherited ==> p in r
  {
    if Expands(cfg, queue[0]) then queue[1..] + cfg.classNameToClassMap[queue[0]].inherited else queue[1..]
  }

  /** Every name in `chainTo` is the end of the chain it maps to. */
  ghost predicate ChainsEndAt(cfg: AnalyzerConfiguration, roots: seq<string>, chainTo: map<string, seq<string>>) {
    forall n :: n in chainTo ==> IsChain(cfg, roots, chainTo[n]) && chainTo[n][|chainTo[n]| - 1] == n
  }

  /** The parents of every expanded visited name are visited or still queued. */
  ghost predicate ClosedUpTo(cfg: AnalyzerConfiguration, visited: set<string>, queue: seq<string>) {
    forall n :: n in visited && Expands(cfg, n) ==>
      forall p :: p in cfg.classNameToClassMap[n].inherited ==> p in visited || p in queue
  }

  lemma ExtendChains(cfg: AnalyzerConfiguration, roots: seq<string>, chainTo: map<string, seq<string>>, name: string)
    requires ChainsEndAt(cfg, roots, chainTo)
    requires name in chainTo && Expands(cfg, name)
    ensures ChainsEndAt(cfg, roots, chainTo + map p | p in cfg.classNameToClassMap[name].inherited :: chainTo[name] + [p])
  {
    var base := chainTo[name];
    var parents := cfg.classNameToClassMap[name].inherited;
    forall p | p in parents
      ensures IsChain(cfg, roots, base + [p])
    {
      var path := base + [p];
      forall i | 0 <= i < |path| - 1
        ensures Expands(cfg, path[i]) && path[i + 1] in cfg.classNameToClassMap[path[i]].inherited
      {
        if i < |base| - 1 {
          assert path[i] == base[i] && path[i + 1] == base[i + 1];
        } else {
          assert path[i] == name && path[i + 1] == p;
        }
      }
    }
  }

  /** The chains known after expanding `name`: one more for each of its inherited types. */
  ghost function ExtendedChains(cfg: AnalyzerConfiguration, chainTo: map<string, seq<string>>, name: string)
    : map<string, seq<string>>
    requires name in chainTo
  {
    if Expands(cfg, name) then chainTo + map p | p in cfg.classNameToClassMap[name].inherited :: chainTo[name] + [p]
    else chainTo
  }

  /** What the search loop keeps: every queued name has a chain, and nothing visited matches or escapes. */
  ghost predicate SearchInvariant(cfg: AnalyzerConfiguration, roots: seq<string>, m: Member,
                                  chainTo: map<string, seq<string>>, visited: set<string>, queue: seq<string>) {
    && (forall n :: n in queue ==> n in chainTo)
    && ChainsEndAt(cfg, roots, chainTo)
    && (forall n :: n in visited ==> !Satisfies(cfg, n, m))
    && ClosedUpTo(cfg, visited, queue)
    && (forall r :: r in roots ==> r in visited || r in queue)
  }

  /** Taking off a name already visited keeps the invariant. */
  lemma SkipKeepsInvariant(cfg: AnalyzerConfiguration, roots: seq<string>, m: Member,
                           chainTo: map<string, seq<string>>, visited: set<string>, queue: seq<string>)
    requires queue != [] && queue[0] in visited
    requires SearchInvariant(cfg, roots, m, chainTo, visited, queue)
    ensures SearchInvariant(cfg, roots, m, chainTo, visited, queue[1..])
  {
    assert forall p :: p in queue ==> p == queue[0] || p in queue[1..];
  }

  /** Taking off and expanding a new name that does not match keeps the invariant. */
  lemma VisitKeepsInvariant(cfg: AnalyzerConfiguration, roots: seq<string>, m: Member,
                            chainTo: map<string, seq<string>>, visited: set<string>, queue: seq<string>)
    requires queue != [] && !Satisfies(cfg, queue[0], m)
    requires SearchInvariant(cfg, roots, m, chainTo, visited, queue)
    ensures SearchInvariant(cfg, roots, m, ExtendedChains(cfg, chainTo, queue[0]), visited + {queue[0]},
                            NextQueue(cfg, queue))
  {
    assert forall p :: p in queue ==> p == queue[0] || p in queue[1..];
    if Expands(cfg, queue[0]) {
      ExtendChains(cfg, roots, chainTo, queue[0]);
    }
  }

  /** A queued name that declares the member ends a chain from the roots. */
  lemma QueuedMatchIsReached(cfg: AnalyzerConfiguration, roots: seq<string>, m: Member,
                             chainTo: map<string, seq<string>>, visited: set<string>, queue: seq<string>)
    requires queue != [] && Satisfies(cfg, queue[0], m)
    requires SearchInvariant(cfg, roots, m, chainTo, visited, queue)
    ensures ReachesMatch(cfg, roots, m)
  {
    assert IsChain(cfg, roots, chainTo[queue[0]]);
  }

  /** Once the queue is empty, the visited set is closed, so no chain ends at a match. */
  lemma EmptyQueueMeansNoMatch(cfg: AnalyzerConfiguration, roots: seq<string>, m: Member,
                               chainTo: map<string, seq<string>>, visited: set<string>)
    requires SearchInvariant(cfg, roots, m, chainTo, visited, [])
    ensures !ReachesMatch(cfg, roots, m)
  {
    forall path | IsChain(cfg, roots, path)
      ensures !Satisfies(cfg, path[|path| - 1], m)
    {
      ClosedSetCoversChain(cfg, roots, visited, path);
    }
  }

  /**
   * `classOrInheritedTypeOf`, with a visited set: a name already taken off the
   * queue is skipped, so cyclic `inherited` lists cannot make the search run
   * forever. Skipping changes no answer: a name taken off again would be tested
   * against the same class and would enqueue the same names.
   */
  method ClassOrInheritedTypeOf(cfg: AnalyzerConfiguration, className: string, m: Member) returns (found: bool)
    ensures found == InheritsMatch(cfg, className, m)
  {
    if className !in cfg.classNameToClassMap {
      return false;
    }
    var klass := cfg.classNameToClassMap[className];
    if Declares(klass, m) {
      return true;
    }
    found := SearchInheritedTypes(cfg, klass.inherited, m);
  }

  /**
   * One turn of the search loop on a name not yet visited: the name is looked
   * up, UIKit classes first; a match ends the search, and a project class that
   * does not match queues its own inherited types.
   */
  method VisitFirst(cfg: AnalyzerConfiguration, m: Member, queue: seq<string>) returns (matched: bool, next: seq<string>)
    requires queue != []
    ensures matched == Satisfies(cfg, queue[0], m)
    ensures !matched ==> next == NextQueue(cfg, queue)
  {
    var typeName := queue[0];
    next := queue[1..];
    if typeName in cfg.uiKitClassNameToClassMap {
      if Declares(cfg.uiKitClassNameToClassMap[typeName], m) {
        return true, next;
      }
    } else if typeName in cfg.classNameToClassMap {
      var k := cfg.classNameToClassMap[typeName];
      if Declares(k, m) {
        return true, next;
      }
      next := next + k.inherited;
    }
    return false, next;
  }

  /** The `while !inheritedTypes.isEmpty` loop of `classOrInheritedTypeOf`, starting from a class's inherited types. */
  method SearchInheritedTypes(cfg: AnalyzerConfiguration, roots: seq<string>, m: Member) returns (found: bool)
    ensures found == ReachesMatch(cfg, roots, m)
  {
    var inheritedTypes := roots;
    ghost var chainTo: map<string, seq<string>> := map r | r in roots :: [r];
    var visited: set<string> := {};
    while inheritedTypes != []
      invariant SearchInvariant(cfg, roots, m, chainTo, visited, inheritedTypes)
      decreases |cfg.classNameToClassMap.Keys - visited|, |inheritedTypes|
    {
      var typeName := inheritedTypes[0];
      if typeName in visited {
        SkipKeepsInvariant(cfg, roots, m, chainTo, visited, inheritedTypes);
        inheritedTypes := inheritedTypes[1..];
        continue;
      }
      var matched, next := VisitFirst(cfg, m, inheritedTypes);
      if matched {
        QueuedMatchIsReached(cfg, roots, m, chainTo, visited, inheritedTypes);
        return true;
      }
      DifferenceShrinks(cfg.classNameToClassMap.Keys, visited, typeName);
      VisitKeepsInvariant(cfg, roots, m, chainTo, visited, inheritedTypes);
      chainTo := ExtendedChains(cfg, chainTo, typeName);
      visited := visited + {typeName};
      inheritedTypes := next;
    }
    EmptyQueueMeansNoMatch(cfg, roots, m, chainTo, visited);
    return false;
  }

  // ---------------------------------------------------------------------------
  // What the answer means
  // ---------------------------------------------------------------------------

  /**
   * A name found in the UIKit table is a leaf: for a class whose only
   * inherited type is a UIKit class, the answer looks at that UIKit class and
   * at nothing it inherits, even when a project class of the same name would
   * have declared the member.
   */
  lemma UIKitClassesAreLeaves(cfg: AnalyzerConfiguration, className: string, uiKitName: string, m: Member)
    requires className in cfg.classNameToClassMap
    requires cfg.classNameToClassMap[className].inherited == [uiKitName]
    requires uiKitName in cfg.uiKitClassNameToClassMap
    ensures InheritsMatch(cfg, className, m) <==>
              Declares(cfg.classNameToClassMap[className], m) || Declares(cfg.uiKitClassNameToClassMap[uiKitName], m)
  {
    var roots := [uiKitName];
    if Declares(cfg.uiKitClassNameToClassMap[uiKitName], m) {
      assert IsChain(cfg, roots, [uiKitName]) && Satisfies(cfg, [uiKitName][0], m);
    }
    forall path | IsChain(cfg, roots, path)
      ensures path == [uiKitName]
    {
      assert path[0] == uiKitName && !Expands(cfg, path[0]);
      assert |path| == 1;
    }
  }

  /**
   * Inheritance is transitive: when a class lists a project class among its
   * inherited types, everything that project class matches through its own
   * inheritance, the class matches too.
   */
  lemma InheritedClassMatchCarriesOver(cfg: AnalyzerConfiguration, className: string, superName: string, m: Member)
    requires className in cfg.classNameToClassMap
    requires superName in cfg.classNameToClassMap[className].inherited
    requires superName !in cfg.uiKitClassNameToClassMap
    requires InheritsMatch(cfg, superName, m)
    ensures InheritsMatch(cfg, className, m)
  {
    var roots := cfg.classNameToClassMap[className].inherited;
    var superClass := cfg.classNameToClassMap[superName];
    if Declares(superClass, m) {
      assert IsChain(cfg, roots, [superName]) && Satisfies(cfg, [superName][|[superName]| - 1], m);
    } else {
      var path :| IsChain(cfg, superClass.inherited, path) && Satisfies(cfg, path[|path| - 1], m);
      var longer := [superName] + path;
      assert IsChain(cfg, roots, longer) by {
        forall i | 0 <= i < |longer| - 1
          ensures Expands(cfg, longer[i]) && longer[i + 1] in cfg.classNameToClassMap[longer[i]].inherited
        {
          if i > 0 { assert longer[i] == path[i - 1] && longer[i + 1] == path[i]; }
        }
      }
      assert longer[|longer| - 1] == path[|path| - 1];
    }
  }

  // ---------------------------------------------------------------------------
  // The search as the tool writes it: no visited set
  // ---------------------------------------------------------------------------

  /**
   * The tool's queue loop, run for at most `fuel` steps; `None` means it had
   * not stopped by then.
   */
  function QueueSearchAsWritten(cfg: AnalyzerConfiguration, queue: seq<string>, m: Member, fuel: nat): Option<bool>
    decreases fuel
  {
    if queue == [] then Some(false)
    else if fuel == 0 then None
    else
      var typeName := queue[0];
      if typeName in cfg.uiKitClassNameToClassMap then
        if Declares(cfg.uiKitClassNameToClassMap[typeName], m) then Some(true)
        else QueueSearchAsWritten(cfg, queue[1..], m, fuel - 1)
      else if typeName in cfg.classNameToClassMap then
        if Declares(cfg.classNameToClassMap[typeName], m) then Some(true)
        else QueueSearchAsWritten(cfg, queue[1..] + cfg.classNameToClassMap[typeName].inherited, m, fuel - 1)
      else QueueSearchAsWritten(cfg, queue[1..], m, fuel - 1)
  }

  function ClassOrInheritedTypeOfAsWritten(cfg: AnalyzerConfiguration, className: string, m: Member,
                                           fuel: nat): Option<bool>
  {
    if className !in cfg.classNameToClassMap then Some(false)
    else if Declares(cfg.classNameToClassMap[className], m) then Some(true)
    else QueueSearchAsWritten(cfg, cfg.classNameToClassMap[className].inherited, m, fuel)
  }

  /** Taking a non-matching name off the queue keeps the set of matches reachable from the queue. */
  lemma NextQueueKeepsMatches(cfg: AnalyzerConfiguration, queue: seq<string>, m: Member)
    requires queue != [] && !Satisfies(cfg, queue[0], m)
    ensures ReachesMatch(cfg, queue, m) <==> ReachesMatch(cfg, NextQueue(cfg, queue), m)
  {
    if ReachesMatch(cfg, queue, m) {
      var path :| IsChain(cfg, queue, path) && Satisfies(cfg, path[|path| - 1], m);
      NextQueueKeepsChain(cfg, queue, m, path);
    }
    if ReachesMatch(cfg, NextQueue(cfg, queue), m) {
      var path :| IsChain(cfg, NextQueue(cfg, queue), path) && Satisfies(cfg, path[|path| - 1], m);
      NextQueueChainExtends(cfg, queue, path);
      var longer := [queue[0]] + path;
      assert longer[|longer| - 1] == path[|path| - 1];
    }
  }

  /** A matching chain from the queue, when its first name does not match, continues from the next queue. */
  lemma NextQueueKeepsChain(cfg: AnalyzerConfiguration, queue: seq<string>, m: Member, path: seq<string>)
    requires queue != [] && !Satisfies(cfg, queue[0], m)
    requires IsChain(cfg, queue, path) && Satisfies(cfg, path[|path| - 1], m)
    ensures ReachesMatch(cfg, NextQueue(cfg, queue), m)
  {
    var next := NextQueue(cfg, queue);
    if path[0] in queue[1..] {
      assert IsChain(cfg, next, path);
    } else {
      assert path[0] == queue[0];
      assert |path| > 1;
      var tail := path[1..];
      assert IsChain(cfg, next, tail) by {
        forall i | 0 <= i < |tail| - 1
          ensures Expands(cfg, tail[i]) && tail[i + 1] in cfg.classNameToClassMap[tail[i]].inherited
        {
          assert tail[i] == path[i + 1] && tail[i + 1] == path[i + 2];
        }
      }
      assert tail[|tail| - 1] == path[|path| - 1];
    }
  }

  /** A chain from the next queue is a chain from the queue, or one once its first name is put in front. */
  lemma NextQueueChainExtends(cfg: AnalyzerConfiguration, queue: seq<string>, path: seq<string>)
    requires queue != [] && IsChain(cfg, NextQueue(cfg, queue), path)
    ensures IsChain(cfg, queue, path) || IsChain(cfg, queue, [queue[0]] + path)
  {
    if path[0] !in queue[1..] {
      var longer := [queue[0]] + path;
      forall i | 0 <= i < |longer| - 1
        ensures Expands(cfg, longer[i]) && longer[i + 1] in cfg.classNameToClassMap[longer[i]].inherited
      {
        if i > 0 { assert longer[i] == path[i - 1] && longer[i + 1] == path[i]; }
      }
    }
  }

  /** Whenever the tool's loop stops, its answer is the intended one. */
  lemma {:induction false} QueueSearchAsWrittenAgrees(cfg: AnalyzerConfiguration, queue: seq<string>, m: Member,
                                                      fuel: nat)
    ensures QueueSearchAsWritten(cfg, queue, m, fuel).Some? ==>
              QueueSearchAsWritten(cfg, queue, m, fuel).value == ReachesMatch(cfg, queue, m)
    decreases fuel
  {
    if queue == [] {
      assert forall path :: !IsChain(cfg, queue, path);
    } else if fuel > 0 {
      var typeName := queue[0];
      if Satisfies(cfg, typeName, m) {
        assert IsChain(cfg, queue, [typeName]);
      } else {
        NextQueueKeepsMatches(cfg, queue, m);
        QueueSearchAsWrittenAgrees(cfg, NextQueue(cfg, queue), m, fuel - 1);
        assert typeName !in cfg.uiKitClassNameToClassMap && typeName in cfg.classNameToClassMap ==>
                 NextQueue(cfg, queue) == queue[1..] + cfg.classNameToClassMap[typeName].inherited;
        assert !Expands(cfg, typeName) ==> NextQueue(cfg, queue) == queue[1..];
      }
    }
  }

  lemma ClassOrInheritedTypeOfAsWrittenAgrees(cfg: AnalyzerConfiguration, className: string, m: Member, fuel: nat)
    ensures ClassOrInheritedTypeOfAsWritten(cfg, className, m, fuel).Some? ==>
              ClassOrInheritedTypeOfAsWritten(cfg, className, m, fuel).value == InheritsMatch(cfg, className, m)
  {
    if className in cfg.classNameToClassMap {
      QueueSearchAsWrittenAgrees(cfg, cfg.classNameToClassMap[className].inherited, m, fuel);
    }
  }

  /** Two project classes that inherit from each other, and nothing declared. */
  const MutualInheritance: AnalyzerConfiguration :=
    AnalyzerConfiguration(
      map[],
      map["A" := Class(None, None, [], [], ["B"], []), "B" := Class(None, None, [], [], ["A"], [])],
      map[],
      [])

  lemma {:induction false} QueueSearchAsWrittenCycles(m: Member, fuel: nat)
    ensures QueueSearchAsWritten(MutualInheritance, ["A"], m, fuel) == None
    ensures QueueSearchAsWritten(MutualInheritance, ["B"], m, fuel) == None
  {
    if fuel > 0 {
      QueueSearchAsWrittenCycles(m, fuel - 1);
      assert ["A"][1..] + ["B"] == ["B"];
      assert ["B"][1..] + ["A"] == ["A"];
    }
  }

  /**
   * On the mutual-inheritance input the tool's loop never stops, whatever the
   * member, while the intended answer is `false` and the search with a visited
   * set returns it.
   */
  lemma AsWrittenNeverStopsOnCycle(m: Member, fuel: nat)
    ensures ClassOrInheritedTypeOfAsWritten(MutualInheritance, "A", m, fuel) == None
    ensures !InheritsMatch(MutualInheritance, "A", m)
  {
    QueueSearchAsWrittenCycles(m, fuel);
    var cfg := MutualInheritance;
    var closed := {"A", "B"};
    forall path | IsChain(cfg, ["B"], path)
      ensures !Satisfies(cfg, path[|path| - 1], m)
    {
      ClosedSetCoversChain(cfg, ["B"], closed, path);
    }
  }
}
