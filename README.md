# IBAnalyzer wiring cross-check, modelled in Dafny

IBAnalyzer compares the connections that Interface Builder documents
(storyboards and xibs) declare with the Swift classes that must implement them.
This project models the core of that comparison and proves properties of it.
Three kinds of issue are reported:

- missing elements: an outlet or action the document wires that the class and
  its ancestors do not declare, or an unwind segue whose action no class
  implements;
- unnecessary elements: an outlet or action the class declares that no document
  uses, or a segue identifier the code mentions that no segue carries;
- their message text and severity, which three command-line rules control.

The model covers these parts of the tool:

- the value types `Declaration`, `SegueDeclaration`, `SegueIdentifier`, `Class`
  and `Nib`, with the tool's own equality rules (module `Models`);
- the rules and their configuration object (module `Rules`);
- the issue cases, their descriptions and their seriousness (module
  `ConnectionIssues`);
- the search of a class and its inherited types, including the UIKit table
  (module `InheritanceSearch`);
- the missing-elements and unnecessary-elements passes (module
  `ConnectionAnalyzer`), each loop as a method proved against a function;
- the XML event fold that builds the per-document class-to-nib mapping
  (module `NibParser`). `ParserDelegate` and `NibParser` are classes whose
  fields the event handlers update in place;
- the run over a project (module `Runner`):
  - choosing documents and Swift files by extension;
  - merging the per-file mappings;
  - tying every segue to its owning class;
  - merging the segue identifiers supplied on the side;
  - concatenating the analyzers' issues, with the connection analyzer's
    stray lookup corrected (see "## Findings");
- the tool's unit-test scenarios, stated as lemmas (module
  `AnalyzerScenarios`).

Swift dictionaries have no defined iteration order. Every loop over a
dictionary therefore takes an explicit enumeration of its keys
(`IsEnumerationOf`). `IssuesDoNotDependOnOrder` proves that the multiset of
issues is the same for every enumeration.

`Declaration` is a class in the tool, but it is only ever compared by name, so
it is a value here. `SegueDeclaration` is an `NSObject` compared by identity, so
it carries `ref`, the identity of the object the parser allocated. The parser
hands out identities from `nextRef`.

Where the tool's tests and its code disagree, the model follows the code. The
missing-action messages expected at
IBAnalyzerTests/ConnectionAnalyzerTests.swift:72 and :87 lack the quotes that
IBAnalyzer/Analyzers/ConnectionAnalyzer.swift:204 writes around the action
name. `ConnectionIssues.MissingActionLine` states the text with the quotes.

## Model

| member | source | states |
|---|---|---|
| Models.NewDeclaration | IBAnalyzer/Analyzers/ConnectionAnalyzer.swift:21-28 | every field is taken from its argument, the custom class becomes `parentClass`, and `parentClassPath` starts out absent |
| Models.LineColumnNumber | IBAnalyzer/Analyzers/ConnectionAnalyzer.swift:57-66 | the line is one more than the number of newlines before the offset; the column is the distance from the last newline before the offset |
| Models.DeclarationInFile | IBAnalyzer/Analyzers/ConnectionAnalyzer.swift:30-37 | a declaration found at an offset of a Swift file has that file's path, a line of at least 1 that counts the newlines before the offset, and a column equal to the distance from the last newline before the offset |
| Models.DeclEqualsIsNameEquality | IBAnalyzer/Analyzers/ConnectionAnalyzer.swift:69-73 | two declarations are equal exactly when their names are; the relation is an equivalence and ignores every other field |
| Models.FilePath | IBAnalyzer/Analyzers/ConnectionAnalyzer.swift:43-48 | with a URL the path is the URL's path; without one it is the name with every colon removed and the other characters kept in order |
| Models.FileName | IBAnalyzer/Analyzers/ConnectionAnalyzer.swift:50-55 | without a URL the file name is the class name; with one it is the URL's last path component |
| Models.DeclarationDescription | IBAnalyzer/Analyzers/ConnectionAnalyzer.swift:39-41 | the location splits back at its last two colons into the path (the back-filled class path, else the file path), the decimal line and the decimal column; for a declaration without file or back-filled path the path part holds no colon |
| Models.SegueIdentifierDescription | IBAnalyzer/Analyzers/ConnectionAnalyzer.swift:302-304 | the location splits back at its last two colons into the file, the decimal line and the decimal column |
| Models.NewClass | IBAnalyzer/Models/Class.swift:19-26 | every field of the class record is its argument |
| Models.NewClassWithoutLocation | IBAnalyzer/Models/Class.swift:28-30 | the convenience initialiser leaves path and line absent and keeps the four lists |
| Models.DeclarationsEqual | IBAnalyzer/Models/Class.swift:35-36 | two declaration arrays are equal exactly when they have the same length and the same name at every index |
| Models.ClassEquals | IBAnalyzer/Models/Class.swift:33-39 | two classes are equal exactly when their outlets and actions agree name by name and their inherited lists are identical |
| Models.ClassEqualsIgnoresLocation | IBAnalyzer/Models/Class.swift:33-39 | class equality is an equivalence that ignores path, line and segue identifiers |
| Models.SegueFromAttributes | IBAnalyzer/Analyzers/ConnectionAnalyzer.swift:124-166 | each of the six attribute properties (`@objc`) equals the attribute of the same name, or is absent when that attribute is; the parser-filled fields start absent |
| Models.SegueIgnoresOtherAttributes | IBAnalyzer/Analyzers/ConnectionAnalyzer.swift:157-161 | an attribute outside the six-name table leaves the segue unchanged |
| Models.UnwindSegueIffAttribute | IBAnalyzer/Analyzers/ConnectionAnalyzer.swift:120-122 | a segue is an unwind segue exactly when its element has an `unwindAction` attribute |
| Models.ResolveFile | IBAnalyzer/Analyzers/ConnectionAnalyzer.swift:130-137 | resolution succeeds exactly when the owner is named and known, and then only `classObject` changes, to the owner's class; otherwise it traps |
| Models.SegueDescription | IBAnalyzer/Analyzers/ConnectionAnalyzer.swift:112-118 | an unresolved segue reads `:1:0`; a resolved one splits back at its last two colons into the class's path (else the owner's name, else empty), the class's line (else 1) and column 0 |
| Models.SeguesIdentical | IBAnalyzer/Models/Nib.swift:19 | two segue arrays are equal exactly when they hold the same objects in the same order |
| Models.NibEquals | IBAnalyzer/Models/Nib.swift:17-21 | two nibs are equal exactly when outlets and actions agree by name, index by index, and segues by identity |
| Models.NibEqualityIsOrdered | IBAnalyzer/Models/Nib.swift:17-21 | nib equality depends on order: two differently named outlets in swapped order make unequal nibs |
| Models.NibSeguesCompareByIdentity | IBAnalyzer/Models/Nib.swift:17-21 | equal attributes under a different identity make unequal nibs, while resolving a segue in place keeps its nib equal |
| Rules.RuleNamed | IBAnalyzer/Analyzers/ConnectionAnalyzer.swift:231-238 | an argument names a rule exactly when it is that rule's raw value; otherwise it names none |
| Rules.RawValueRoundTrip | IBAnalyzer/Analyzers/ConnectionAnalyzer.swift:231-238 | the rule named by a rule's raw value is that rule |
| Rules.MissingIssueType | IBAnalyzer/Analyzers/ConnectionAnalyzer.swift:250-258 | the severity of a missing element is "error" exactly when reportMissingAsError is enabled, "warning" otherwise |
| Rules.WithArgumentsEnables | IBAnalyzer/Analyzers/ConnectionAnalyzer.swift:262-272 | after setup a rule is enabled exactly when it was before or its raw value is among the arguments |
| Rules.WithArgumentsOnlyEnables | IBAnalyzer/Analyzers/ConnectionAnalyzer.swift:262-268 | setup adds keys only for named rules and leaves the value of every rule not named unchanged |
| Rules.WithArgumentsIdempotent | IBAnalyzer/Analyzers/ConnectionAnalyzer.swift:262-268 | running setup twice with the same arguments equals running it once |
| Rules.Configuration.constructor | IBAnalyzer/Analyzers/ConnectionAnalyzer.swift:244-248 | all three rules start disabled |
| Rules.Configuration.Setup | IBAnalyzer/Analyzers/ConnectionAnalyzer.swift:262-268 | the configuration becomes the old one with every named rule set to true |
| ConnectionIssues.Severity | IBAnalyzer/Analyzers/ConnectionAnalyzer.swift:178-196 | the severity is "error" exactly when the issue is serious and reportMissingAsError is on; every other issue is a "warning" |
| ConnectionIssues.IsSeriousViolation | IBAnalyzer/Analyzers/ConnectionAnalyzer.swift:221-228 | every issue is serious except the three kinds about unused code: unused outlets, unused actions and unknown segue identifiers |
| ConnectionIssues.FormattedDescription | IBAnalyzer/Analyzers/ConnectionAnalyzer.swift:198-219 | every message starts with its kind's fixed header followed by the name it is about |
| ConnectionIssues.Description | IBAnalyzer/Analyzers/ConnectionAnalyzer.swift:178-196 | the description is empty exactly for an optional unused outlet under ignoreOptionalProperty; otherwise it is location, severity and message joined by ": " |
| ConnectionIssues.KindFromHeader | IBAnalyzer/Analyzers/ConnectionAnalyzer.swift:198-219 | a message that begins with an issue's header is classified as that issue's kind. This is a property of the message format only: the tool itself never reads a message back. |
| ConnectionIssues.MessageRevealsKind | IBAnalyzer/Analyzers/ConnectionAnalyzer.swift:198-219 | the kind of an issue can be recovered from its message. This is a property of the message format only: the tool itself never reads a message back. |
| ConnectionIssues.MessagesDistinguishKinds | IBAnalyzer/Analyzers/ConnectionAnalyzer.swift:198-219 | two issues with the same message are of the same kind, and about the same name when the names are equally long. This is a property of the message format only: the tool itself never reads a message back. |
| ConnectionIssues.SameKindSameHeader | IBAnalyzer/Analyzers/ConnectionAnalyzer.swift:198-219 | issues of one kind share a header. This is a property of the message format only: the tool itself never reads a message back. |
| ConnectionIssues.MissingOutletLine | IBAnalyzer/Analyzers/ConnectionAnalyzer.swift:180-202 | the exact text of a missing-outlet report for a declaration without URL or custom class, at either severity |
| ConnectionIssues.MissingActionLine | IBAnalyzer/Analyzers/ConnectionAnalyzer.swift:182-204 | the exact text of a missing-action report, with the action name quoted |
| ConnectionIssues.UnnecessaryOutletSuggestsOptional | IBAnalyzer/Analyzers/ConnectionAnalyzer.swift:205-209 | an unused non-optional outlet suggests making it Optional |
| ConnectionIssues.UnnecessaryOutletSuggestsRule | IBAnalyzer/Analyzers/ConnectionAnalyzer.swift:205-209 | an unused optional outlet suggests the ignoreOptionalProperty argument by its raw value |
| ConnectionIssues.DeclarationWithoutFileLocation | IBAnalyzer/Analyzers/ConnectionAnalyzer.swift:39-48 | the location of a declaration without URL is its name without colons, then its line and column |
| InheritanceSearch.LookupType | IBAnalyzer/Analyzers/ConnectionAnalyzer.swift:446-457 | an inherited name is looked up in the UIKit table first, then among the project's classes |
| InheritanceSearch.ClassOrInheritedTypeOf | IBAnalyzer/Analyzers/ConnectionAnalyzer.swift:428-461 | the answer is true exactly when the class, or a type reachable through its inherited names, declares the member; it is false when the class is unknown |
| InheritanceSearch.SearchInheritedTypes | IBAnalyzer/Analyzers/ConnectionAnalyzer.swift:440-460 | the breadth-first loop over inherited names finds a match exactly when some chain of inherited names reaches a type that declares the member |
| InheritanceSearch.VisitFirst | IBAnalyzer/Analyzers/ConnectionAnalyzer.swift:444-457 | one step checks the first queued type and, if it does not match, removes it and appends its parents when it is a project class |
| InheritanceSearch.NextQueue | IBAnalyzer/Analyzers/ConnectionAnalyzer.swift:444-456 | the next queue keeps every later entry and holds every parent of an expanded project class |
| InheritanceSearch.NextQueueKeepsMatches | IBAnalyzer/Analyzers/ConnectionAnalyzer.swift:444-456 | when the first queued type does not match, a match is reachable from the next queue exactly when it was from this one |
| InheritanceSearch.SkipKeepsInvariant | IBAnalyzer/Analyzers/ConnectionAnalyzer.swift:442-458 | skipping a type already expanded keeps the loop invariant |
| InheritanceSearch.VisitKeepsInvariant | IBAnalyzer/Analyzers/ConnectionAnalyzer.swift:442-458 | expanding a type that does not match keeps the loop invariant |
| InheritanceSearch.QueuedMatchIsReached | IBAnalyzer/Analyzers/ConnectionAnalyzer.swift:446-453 | a queued type that matches is reachable from the roots |
| InheritanceSearch.EmptyQueueMeansNoMatch | IBAnalyzer/Analyzers/ConnectionAnalyzer.swift:460 | when the queue runs out, no reachable type matches |
| InheritanceSearch.ClosedSetCoversChain | IBAnalyzer/Analyzers/ConnectionAnalyzer.swift:442-458 | a set of names that holds the roots and every parent of its project classes holds the end of every chain |
| InheritanceSearch.ExtendChains | IBAnalyzer/Analyzers/ConnectionAnalyzer.swift:455 | the parents appended to the queue are reached by chains one step longer |
| InheritanceSearch.UIKitClassesAreLeaves | IBAnalyzer/Analyzers/ConnectionAnalyzer.swift:446-450 | a class whose only parent is a UIKit class matches exactly when it or that UIKit class declares the member; UIKit parents are not expanded |
| InheritanceSearch.InheritedClassMatchCarriesOver | IBAnalyzer/Analyzers/ConnectionAnalyzer.swift:451-456 | a match found for a project superclass is found for its subclass |
| InheritanceSearch.QueueSearchAsWrittenAgrees | IBAnalyzer/Analyzers/ConnectionAnalyzer.swift:440-460 | whenever the loop as written stops, its answer agrees with reachability |
| InheritanceSearch.ClassOrInheritedTypeOfAsWrittenAgrees | IBAnalyzer/Analyzers/ConnectionAnalyzer.swift:428-461 | whenever the function as written returns, its answer agrees with the corrected search |
| InheritanceSearch.QueueSearchAsWrittenCycles | IBAnalyzer/Analyzers/ConnectionAnalyzer.swift:442-458 | on two classes that inherit from each other, the loop as written has not stopped after any number of steps |
| InheritanceSearch.AsWrittenNeverStopsOnCycle | IBAnalyzer/Analyzers/ConnectionAnalyzer.swift:428-461 | the search as written never returns on a two-class cycle, although the answer is false |
| ConnectionAnalyzer.BackFill | IBAnalyzer/Analyzers/ConnectionAnalyzer.swift:334-341 | under reportMissingToController a missing outlet of a known class takes that class's path and, when known, its line; otherwise it is unchanged |
| ConnectionAnalyzer.BackFillReportsAtClass | IBAnalyzer/Analyzers/ConnectionAnalyzer.swift:334-341 | a back-filled outlet is described at the class's path and line |
| ConnectionAnalyzer.MissingOutletsMembers | IBAnalyzer/Analyzers/ConnectionAnalyzer.swift:330-345 | an issue is reported for a class's nib outlets exactly when it is a missing outlet, for that class, of a wired outlet that no searched type declares |
| ConnectionAnalyzer.MissingActionsMembers | IBAnalyzer/Analyzers/ConnectionAnalyzer.swift:347-353 | an issue is reported for the nib actions exactly when it is a missing action of a wired action that no searched type declares |
| ConnectionAnalyzer.BrokenUnwindsMembers | IBAnalyzer/Analyzers/ConnectionAnalyzer.swift:355-365 | an issue is reported for the segues exactly when it is a broken unwind segue whose action no project class implements by name |
| ConnectionAnalyzer.UnusedOutletsMembers | IBAnalyzer/Analyzers/ConnectionAnalyzer.swift:402-406 | an issue is reported for a class's outlets exactly when it is an unnecessary outlet that the class's own nib does not wire |
| ConnectionAnalyzer.UnusedActionsMembers | IBAnalyzer/Analyzers/ConnectionAnalyzer.swift:408-416 | an issue is reported for a class's actions exactly when it is an unnecessary action that no nib wires or names as an unwind action |
| ConnectionAnalyzer.UnknownIdentifiersMembers | IBAnalyzer/Analyzers/ConnectionAnalyzer.swift:418-422 | an issue is reported for the segue identifiers exactly when no segue of the class's nib carries that identifier |
| ConnectionAnalyzer.MissingForMembers | IBAnalyzer/Analyzers/ConnectionAnalyzer.swift:327-383 | the missing issues of one nib entry are exactly the missing issues that belong to that class |
| ConnectionAnalyzer.UnnecessaryForMembers | IBAnalyzer/Analyzers/ConnectionAnalyzer.swift:391-423 | the unnecessary issues of one class are exactly the unnecessary issues that belong to it, and there are none without a nib of that name |
| ConnectionAnalyzer.MissingIssuesExactly | IBAnalyzer/Analyzers/ConnectionAnalyzer.swift:324-386 | over any enumeration of the nibs, an issue is reported exactly when it is a missing outlet or action wired by a class's nib that neither the class nor any type it inherits from declares, or an unwind segue of that nib whose action no class implements (how many are reported: `PassIssuesCount`) |
| ConnectionAnalyzer.UnnecessaryIssuesExactly | IBAnalyzer/Analyzers/ConnectionAnalyzer.swift:388-426 | over any enumeration of the classes, an issue is reported exactly when a class that has a nib declares an outlet its nib does not wire, an action no nib wires or unwinds to, or a segue identifier no segue of its nib carries (how many are reported: `PassIssuesCount`) |
| ConnectionAnalyzer.SeriousnessOfEachPass | IBAnalyzer/Analyzers/ConnectionAnalyzer.swift:221-228 | every issue of the missing pass is a serious violation and every issue of the unnecessary pass is not |
| ConnectionAnalyzer.MissingOutletsCount | IBAnalyzer/Analyzers/ConnectionAnalyzer.swift:330-345 | the outlet loop reports one issue per wired outlet that no class in the chain declares, repeats included |
| ConnectionAnalyzer.MissingActionsCount | IBAnalyzer/Analyzers/ConnectionAnalyzer.swift:347-353 | the action loop reports one issue per wired action that no class in the chain declares |
| ConnectionAnalyzer.BrokenUnwindsCount | IBAnalyzer/Analyzers/ConnectionAnalyzer.swift:355-365 | the segue loop reports one issue per unwind segue whose action no project class implements |
| ConnectionAnalyzer.UnusedOutletsCount | IBAnalyzer/Analyzers/ConnectionAnalyzer.swift:402-406 | the outlet loop reports one issue per declared outlet the class's nib does not wire |
| ConnectionAnalyzer.UnusedActionsCount | IBAnalyzer/Analyzers/ConnectionAnalyzer.swift:408-416 | the labelled action loop reports one issue per declared action no nib uses |
| ConnectionAnalyzer.UnknownIdentifiersCount | IBAnalyzer/Analyzers/ConnectionAnalyzer.swift:418-422 | the identifier loop reports one issue per segue identifier no segue of the nib carries |
| ConnectionAnalyzer.MissingForCount | IBAnalyzer/Analyzers/ConnectionAnalyzer.swift:327-365 | one nib entry contributes as many issues as it has failing outlets, actions and unwind segues; the guard that skips an empty nib changes no count |
| ConnectionAnalyzer.UnnecessaryForCount | IBAnalyzer/Analyzers/ConnectionAnalyzer.swift:391-423 | one class contributes as many issues as it has failing outlets, actions and identifiers when it has a nib, and none otherwise |
| ConnectionAnalyzer.PassIssuesCount | IBAnalyzer/Analyzers/ConnectionAnalyzer.swift:324-426 | a whole pass reports as many issues as its keys have failing elements, added up key by key |
| ConnectionAnalyzer.IssuesDoNotDependOnOrder | IBAnalyzer/Analyzers/ConnectionAnalyzer.swift:327 | any two enumerations of the dictionaries yield the same multiset of issues, pass by pass and overall |
| ConnectionAnalyzer.PassIssuesPermutation | IBAnalyzer/Analyzers/ConnectionAnalyzer.swift:391 | permuting the class order permutes a pass's issues |
| ConnectionAnalyzer.PassIssuesMembers | IBAnalyzer/Analyzers/ConnectionAnalyzer.swift:327-383 | an issue is in a pass exactly when it is in the contribution of one class of the order |
| ConnectionAnalyzer.PassIssuesEmpty | IBAnalyzer/Analyzers/ConnectionAnalyzer.swift:391-423 | a pass reports nothing exactly when every class of the order contributes nothing |
| ConnectionAnalyzer.PassIssuesSnoc | IBAnalyzer/Analyzers/ConnectionAnalyzer.swift:327-383 | one more class in the order appends that class's issues |
| ConnectionAnalyzer.FindUnwindTarget | IBAnalyzer/Analyzers/ConnectionAnalyzer.swift:357-361 | the loop over class values finds a target exactly when some class implements an action of that name |
| ConnectionAnalyzer.MissingOutletsOf | IBAnalyzer/Analyzers/ConnectionAnalyzer.swift:330-345 | the outlet loop returns the missing-outlet issues in order |
| ConnectionAnalyzer.MissingActionsOf | IBAnalyzer/Analyzers/ConnectionAnalyzer.swift:347-353 | the action loop returns the missing-action issues in order |
| ConnectionAnalyzer.BrokenUnwindsOf | IBAnalyzer/Analyzers/ConnectionAnalyzer.swift:355-365 | the segue loop returns the broken-unwind issues in order |
| ConnectionAnalyzer.MissingElementsOf | IBAnalyzer/Analyzers/ConnectionAnalyzer.swift:327-383 | one nib entry contributes nothing when it is empty, and otherwise its outlet, action and segue issues in that order |
| ConnectionAnalyzer.MissingElements | IBAnalyzer/Analyzers/ConnectionAnalyzer.swift:324-386 | `missingElements` returns the missing pass over the nib enumeration |
| ConnectionAnalyzer.FindActionUse | IBAnalyzer/Analyzers/ConnectionAnalyzer.swift:409-413 | an action is used exactly when some nib wires it or names it as an unwind action |
| ConnectionAnalyzer.UnusedOutletsOf | IBAnalyzer/Analyzers/ConnectionAnalyzer.swift:402-406 | the outlet loop returns the unused-outlet issues in order |
| ConnectionAnalyzer.UnusedActionsOf | IBAnalyzer/Analyzers/ConnectionAnalyzer.swift:408-416 | the labelled action loop returns the unused-action issues in order |
| ConnectionAnalyzer.UnknownIdentifiersOf | IBAnalyzer/Analyzers/ConnectionAnalyzer.swift:418-422 | the identifier loop returns the unknown-identifier issues in order |
| ConnectionAnalyzer.UnnecessaryElementsOf | IBAnalyzer/Analyzers/ConnectionAnalyzer.swift:391-423 | one class contributes nothing when it declares nothing or has no nib, and otherwise its outlet, action and identifier issues in that order |
| ConnectionAnalyzer.UnnecessaryElements | IBAnalyzer/Analyzers/ConnectionAnalyzer.swift:388-426 | `unnecessaryElements` returns the unnecessary pass over the class enumeration |
| ConnectionAnalyzer.Issues | IBAnalyzer/Analyzers/ConnectionAnalyzer.swift:311-320 | the analyzer returns the missing pass followed by the unnecessary pass |
| ConnectionAnalyzer.IssuesAsWritten | IBAnalyzer/Analyzers/ConnectionAnalyzer.swift:311-320 | the analyzer as written traps exactly when there is no nib entry for "SignupViewController", and otherwise returns the missing pass followed by the unnecessary pass |
| NibParser.NearestOwner | IBAnalyzer/Parsers/NibParser.swift:107 | an owner is found exactly when some open element has a custom class, and it is the innermost such element's class |
| NibParser.StartElement | IBAnalyzer/Parsers/NibParser.swift:79-147 | a start event traps exactly for a segue inside connections whose owner has no nib, naming that owner; otherwise it never forgets a class, an id or a recorded segue and adds at most one segue |
| NibParser.EndElement | IBAnalyzer/Parsers/NibParser.swift:149-164 | an end event traps exactly when it would pop an empty stack of objects; otherwise it changes neither the mappings nor the segues and pops at most one object |
| NibParser.SectionFlags | IBAnalyzer/Parsers/NibParser.swift:84-88 | opening `objects` sets the flag and empties the stack; closing it clears the flag; `connections` toggles its own flag |
| NibParser.ObjectOpensAndCloses | IBAnalyzer/Parsers/NibParser.swift:135-160 | inside objects, an element pushes its tag and custom class; with a custom class and an id it also maps the id to the class and gives the class a fresh empty nib; nothing else changes; its end tag pops it again and changes nothing else |
| NibParser.ConnectionEndNeverPops | IBAnalyzer/Parsers/NibParser.swift:157-158 | end tags of connection elements change nothing |
| NibParser.RegisterResetsNib | IBAnalyzer/Parsers/NibParser.swift:140-143 | an object with custom class and id records the id and gives its class a fresh empty nib |
| NibParser.OutletGoesToInnermostObject | IBAnalyzer/Parsers/NibParser.swift:89-96 | an outlet with a property is appended to the nib of the innermost object's custom class when that class has one, and nothing else changes; otherwise the state is unchanged |
| NibParser.ActionGoesToDestinationClass | IBAnalyzer/Parsers/NibParser.swift:97-104 | an action with selector and known destination is appended to the destination class's nib, whose outlets and segues and every other entry stay as they were; otherwise the state is unchanged |
| NibParser.SegueGoesToNearestOwner | IBAnalyzer/Parsers/NibParser.swift:105-123 | a segue with destination and owner becomes a fresh object with the element's attributes, the owner as parent and the destination's class, appended to the owner's nib and to the segue list, with the next identity taken and nothing else changed; it traps when the owner has no nib and is skipped otherwise |
| NibParser.UnmatchedEventsChangeNothing | IBAnalyzer/Parsers/NibParser.swift:144-146 | events outside every case leave the state unchanged |
| NibParser.InitialIsConsistent | IBAnalyzer/Parsers/NibParser.swift:55-65 | the initial state is consistent |
| NibParser.AddSegueKeepsConsistent | IBAnalyzer/Parsers/NibParser.swift:105-123 | recording a segue keeps every nib's segues in the document's segue list, tagged with their owner |
| NibParser.AddOutletKeepsConsistent | IBAnalyzer/Parsers/NibParser.swift:89-96 | recording an outlet keeps the state consistent |
| NibParser.AddActionKeepsConsistent | IBAnalyzer/Parsers/NibParser.swift:97-104 | recording an action keeps the state consistent |
| NibParser.PushObjectKeepsConsistent | IBAnalyzer/Parsers/NibParser.swift:135-143 | opening an object keeps the state consistent |
| NibParser.StepKeepsConsistent | IBAnalyzer/Parsers/NibParser.swift:79-164 | every event that does not trap keeps the state consistent |
| NibParser.RunKeepsConsistent | IBAnalyzer/Parsers/NibParser.swift:79-164 | a whole event list that does not trap ends in a consistent state |
| NibParser.StepExtendsSegues | IBAnalyzer/Parsers/NibParser.swift:79-164 | an event only appends to the segue list, and every segue it appends has an identity at least the old next identity and below the new one, so none is reused |
| NibParser.AddSegueExtendsSegues | IBAnalyzer/Parsers/NibParser.swift:122-123 | either nothing is recorded and the list and next identity are unchanged, or exactly one segue is appended, carrying the old next identity, and the next identity goes up by one |
| NibParser.AddOutletKeepsSegues | IBAnalyzer/Parsers/NibParser.swift:95-96 | recording an outlet leaves the segue list and the identities alone |
| NibParser.AddActionKeepsSegues | IBAnalyzer/Parsers/NibParser.swift:103-104 | recording an action leaves the segue list and the identities alone |
| NibParser.PushObjectKeepsSegues | IBAnalyzer/Parsers/NibParser.swift:136-143 | opening an object leaves the segue list and the identities alone |
| NibParser.RunExtendsSegues | IBAnalyzer/Parsers/NibParser.swift:79-164 | a document only appends to the segue list, and every segue it appends has an identity at least the old next identity and below the new one, so none is reused |
| NibParser.MappingIsConsistent | IBAnalyzer/Parsers/NibParser.swift:23-43 | the mapping of a parsed document is consistent with its segue list and URL |
| NibParser.DocumentRefsWithin | IBAnalyzer/Parsers/NibParser.swift:23-43 | every segue of a document's mapping and of its segue list is a new object: its identity lies between the first identity handed to the parser and the next unused one |
| NibParser.ParserDelegate.constructor | IBAnalyzer/Parsers/NibParser.swift:55-65 | a new delegate has the document's URL and the empty initial state |
| NibParser.ParserDelegate.DidStartElement | IBAnalyzer/Parsers/NibParser.swift:79-147 | the handler updates the fields to the start-element step of the fold, or reports the trap |
| NibParser.ParserDelegate.AddOutletHere | IBAnalyzer/Parsers/NibParser.swift:89-96 | the fields become the state after recording the outlet |
| NibParser.ParserDelegate.AddActionHere | IBAnalyzer/Parsers/NibParser.swift:97-104 | the fields become the state after recording the action |
| NibParser.ParserDelegate.AddSegueHere | IBAnalyzer/Parsers/NibParser.swift:105-123 | the fields become the state after recording the segue, or the trap is reported |
| NibParser.ParserDelegate.PushObjectHere | IBAnalyzer/Parsers/NibParser.swift:135-143 | the fields become the state after opening the object |
| NibParser.ParserDelegate.DidEndElement | IBAnalyzer/Parsers/NibParser.swift:149-164 | the handler updates the fields to the end-element step of the fold, or reports the trap |
| NibParser.NibParser.constructor | IBAnalyzer/Parsers/NibParser.swift:19-21 | a new parser has no segues |
| NibParser.NibParser.MappingForFile | IBAnalyzer/Parsers/NibParser.swift:23-43 | the mapping is the fold of the document's events from a fresh delegate, and the parser keeps that document's segue list |
| Runner.WithExtensionMembers | IBAnalyzer/Runner.swift:68-74 | a file is kept exactly when it is listed and its extension is one of the wanted ones |
| Runner.WithExtensionAppend | IBAnalyzer/Runner.swift:68-74 | filtering keeps the order of the files |
| Runner.DocumentsAreNotSwift | IBAnalyzer/Runner.swift:68-74 | a storyboard or xib is read as a document and never as Swift |
| Runner.NamedDocumentsAreNotSwift | IBAnalyzer/Runner.swift:68-74 | a file named with a storyboard or xib extension is read as a document and never as Swift |
| Runner.MergeAllKeys | IBAnalyzer/Runner.swift:35-40 | a class is in the merged mapping exactly when some document maps it |
| Runner.MergeAllLastWins | IBAnalyzer/Runner.swift:35-40 | the merged entry of a class is the one of the last document that maps it |
| Runner.MergeInto | IBAnalyzer/Runner.swift:37-39 | the key-by-key copy loop yields the target overridden by the source |
| Runner.ParseDocumentsExtends | IBAnalyzer/Runner.swift:35-40 | reading keeps earlier mappings and adds one mapping per file; the new mappings and the last segue list hold only identities handed out during the read, and every segue of an earlier document has a smaller identity than every segue of a later one, so no segue object is shared between documents |
| Runner.ParseDocumentsReadsAll | IBAnalyzer/Runner.swift:35-40 | a run that gets past reading has read every document it was given |
| Runner.ResolveList | IBAnalyzer/Runner.swift:46-47 | each segue of a list is resolved in place, in order |
| Runner.ResolveNibs | IBAnalyzer/Runner.swift:46-47 | resolution succeeds exactly when every segue's owner is a known class; it keeps the classes, outlets, actions and number of segues, and every segue then has its class |
| Runner.ResolveAliases | IBAnalyzer/Runner.swift:46-47 | the parser's segue list sees the resolution of exactly those segues the merged documents hold |
| Runner.ResolveSegueList | IBAnalyzer/Runner.swift:46-47 | resolving a list succeeds exactly when every segue can be resolved, and otherwise stops the run |
| Runner.ResolveSegues | IBAnalyzer/Runner.swift:46-47 | resolution of every nib's segues succeeds exactly when all can be resolved, with the result of resolving each list |
| Runner.PartlyResolvedAll | IBAnalyzer/Runner.swift:46-47 | resolving every entry one key at a time yields the resolved mapping |
| Runner.ResolutionKeepsSegues | IBAnalyzer/Runner.swift:46-47 | after resolution every segue has a known owner, keeps its place, gains only the owner's class, and outlets and actions are untouched |
| Runner.MergeSegueIdentifiersEffect | IBAnalyzer/Runner.swift:49-58 | side identifiers are appended to a known class's identifiers with nothing else changed, and an unknown class gets a bare class with only those identifiers |
| Runner.MergeOneMore | IBAnalyzer/Runner.swift:50-57 | merging one more class of the side data extends the partial merge by that class |
| Runner.NoSideData | IBAnalyzer/Runner.swift:49 | empty side data leaves the classes unchanged |
| Runner.MergeSegueIdentifiersInto | IBAnalyzer/Runner.swift:49-58 | the loop over the side data yields the merged classes |
| Runner.RunAnalyzersAppend | IBAnalyzer/Runner.swift:65 | the issues of two lists of analyzers are the issues of the first followed by those of the second |
| Runner.RunOneAnalyzer | IBAnalyzer/Runner.swift:65 | one analyzer contributes exactly its own issues |
| Runner.RunAnalyzersSnoc | IBAnalyzer/Runner.swift:65 | one more analyzer appends its issues |
| Runner.BuildConfiguration | IBAnalyzer/Runner.swift:31-63 | a failed read stops the build with its error; after a read it succeeds exactly when every segue of the merged mappings (last document wins) resolves against the Swift classes, failing otherwise with UnresolvedSegue; the nibs have the merged mappings' classes, outlets and actions, and every segue has its class; the classes are the Swift classes without side data and the side data merged in otherwise; the UIKit table is passed through |
| Runner.Runner.constructor | IBAnalyzer/Runner.swift:19-29 | the runner keeps the parser it is given |
| Runner.Runner.MergeNibFiles | IBAnalyzer/Runner.swift:35-40 | the first loop returns the merge of every document's mapping, or the first unreadable or malformed document, and leaves the parser with the last document's segues and the next unused identity |
| Runner.Runner.RunAll | IBAnalyzer/Runner.swift:65 | the issues of all analyzers concatenated in order |
| Runner.Runner.Issues | IBAnalyzer/Runner.swift:31-66 | the run fails exactly when building the configuration fails, with the same error, and otherwise returns the analyzers' issues over some enumeration of the merged dictionaries, using the corrected `ConnectionAnalyzer.Issues` (second Findings row); after a successful read the parser holds the last document's segues and the next unused identity |
| Text.IntToString | IBAnalyzer/Analyzers/ConnectionAnalyzer.swift:40 | the decimal text of a line or column, with a minus sign when negative, reads back as the same number, has no leading zero (only 0 itself starts with '0') and holds no colon |
| Text.SplitLinesRoundTrip | IBAnalyzer/Analyzers/ConnectionAnalyzer.swift:60 | splitting at newlines and joining with newlines gives back the text |
| Text.SplitLinesHaveNoNewline | IBAnalyzer/Analyzers/ConnectionAnalyzer.swift:60 | no piece of a split holds a newline |
| Text.SplitLinesShape | IBAnalyzer/Analyzers/ConnectionAnalyzer.swift:60-65 | a split has one more piece than the text has newlines, and its last piece is the text after the last newline |
| Text.RemoveAll | IBAnalyzer/Analyzers/ConnectionAnalyzer.swift:47 | removing a character leaves none of it and every other character as often as before |
| Text.RemoveAllAppend | IBAnalyzer/Analyzers/ConnectionAnalyzer.swift:47 | removal works piece by piece, so what remains keeps its order |
| Text.RemoveAllOne | IBAnalyzer/Analyzers/ConnectionAnalyzer.swift:47 | a single character survives exactly when it is not the one removed |
| Text.LastPathComponent | IBAnalyzer/Analyzers/ConnectionAnalyzer.swift:51 | the last path component is the longest slash-free suffix of the path: it holds no slash and is either the whole path or preceded by a slash |
| Text.PathExtension | IBAnalyzer/Runner.swift:69 | the extension is the text after the last dot of the last path component: empty when that component has no dot, otherwise a dot-free suffix of it preceded by a dot |
| Text.PathExtensionOf | IBAnalyzer/Runner.swift:69-73 | the extension of a name ending in a dot and an extension is that extension |
| Text.LocationPartsRoundTrip | IBAnalyzer/Analyzers/ConnectionAnalyzer.swift:39-41 | a path, a line and a column joined with colons split back at the last two colons into the same three parts, whatever colons the path holds |
| Collections.EnumerateKeys | IBAnalyzer/Analyzers/ConnectionAnalyzer.swift:327 | a dictionary's keys are visited once each, in some order |
| Collections.EnumerationsArePermutations | IBAnalyzer/Analyzers/ConnectionAnalyzer.swift:391 | any two visiting orders of the same keys are permutations of each other |
| AnalyzerScenarios.NothingInherited | IBAnalyzer/Analyzers/ConnectionAnalyzer.swift:436-442 | a class without inherited names matches exactly when it declares the member itself |
| AnalyzerScenarios.NoOutletsAndActions | IBAnalyzerTests/ConnectionAnalyzerTests.swift:30-36 | an empty nib and an empty class produce no issues |
| AnalyzerScenarios.MissingOutletReported | IBAnalyzerTests/ConnectionAnalyzerTests.swift:38-61 | a wired outlet the class lacks produces exactly one missing-outlet issue, whatever the rules |
| AnalyzerScenarios.UnconnectedOutletIsMissing | IBAnalyzerTests/ConnectionAnalyzerTests.swift:38-47 | the nib entry of that scenario contributes exactly that issue |
| AnalyzerScenarios.MissingActionReported | IBAnalyzerTests/ConnectionAnalyzerTests.swift:63-88 | a wired action the class lacks produces exactly one missing-action issue |
| AnalyzerScenarios.UnimplementedActionIsMissing | IBAnalyzerTests/ConnectionAnalyzerTests.swift:63-73 | the nib entry of that scenario contributes exactly that issue |
| AnalyzerScenarios.UnnecessaryOutletReported | IBAnalyzerTests/ConnectionAnalyzerTests.swift:90-98 | a declared outlet the nib does not wire produces exactly one unnecessary-outlet issue |
| AnalyzerScenarios.UnnecessaryActionReported | IBAnalyzerTests/ConnectionAnalyzerTests.swift:100-108 | a declared action no nib wires produces exactly one unnecessary-action issue |
| AnalyzerScenarios.NoIssueWhenOutletInSuperClass | IBAnalyzerTests/ConnectionAnalyzerTests.swift:110-118 | an outlet declared in the parent class produces no issues |
| AnalyzerScenarios.ParentOutletIsNotMissing | IBAnalyzerTests/ConnectionAnalyzerTests.swift:110-118 | the nib entry of that scenario contributes nothing |
| AnalyzerScenarios.ParentChildHasNothingUnused | IBAnalyzerTests/ConnectionAnalyzerTests.swift:110-118 | in that scenario no class reports an unnecessary element |
| AnalyzerScenarios.GrandparentMatch | IBAnalyzerTests/ConnectionAnalyzerTests.swift:120-129 | a member declared two levels up is found |
| AnalyzerScenarios.HierarchyHasNothingUnused | IBAnalyzerTests/ConnectionAnalyzerTests.swift:120-140 | in the three-class hierarchy of the tests no class reports an unnecessary element |
| AnalyzerScenarios.NoIssueWhenOutletInSuperSuperClass | IBAnalyzerTests/ConnectionAnalyzerTests.swift:120-129 | an outlet declared in the grandparent produces no issues |
| AnalyzerScenarios.InheritedOutletIsNotMissing | IBAnalyzerTests/ConnectionAnalyzerTests.swift:120-129 | the nib entry of that scenario contributes nothing |
| AnalyzerScenarios.NoIssueWhenActionInSuperClass | IBAnalyzerTests/ConnectionAnalyzerTests.swift:131-140 | an action declared in the grandparent produces no issues |
| AnalyzerScenarios.InheritedActionIsNotMissing | IBAnalyzerTests/ConnectionAnalyzerTests.swift:131-140 | the nib entry of that scenario contributes nothing |
| AnalyzerScenarios.UsesUIKitClasses | IBAnalyzerTests/ConnectionAnalyzerTests.swift:142-151 | an outlet declared by a UIKit parent produces no issues |
| AnalyzerScenarios.UIKitOutletIsNotMissing | IBAnalyzerTests/ConnectionAnalyzerTests.swift:142-151 | the nib entry of that scenario contributes nothing |
| AnalyzerScenarios.StrayLookupTrapsOnTestProject | IBAnalyzer/Analyzers/ConnectionAnalyzer.swift:315-316 | on the empty test project the analyzer as written traps, while the corrected analyzer reports no issues |

## Left out

- Reading files, listing the project directory (`files()` and the directory enumerator) and XMLParser itself are outside the model. The file list and each document's start and end events are inputs, and the events carry the parser's line and column.
- Runner.Runner.Issues: a Swift file that cannot be read or parsed makes the tool throw (IBAnalyzer/Runner.swift:42-44). The model's `parseSwift` always succeeds, so that failure has no `RunError`.
- Parsing Swift with SourceKitten is outside the model: `Runner.Runner.Issues` takes the resulting class map as the function `parseSwift`. `Models.DeclarationInFile` models only the offset-to-line-and-column step.
- The UIKit class table (`uiKitClassNameToClass()`) is an input.
- Decoding the JSON side data is an input: `extra` is given already decoded, or `None` when there is no data or it does not decode.
- Models.SegueFromAttributes: the reflection over stored properties lists nine optional properties; the model keeps a fixed table of the six attribute properties. Attributes named `destinationClassName`, `parentClassName` or `classObject` are ignored, where the tool passes them to `setValue(_:forKey:)`. Interface Builder never writes attributes with those names.
- Models.FilePath: a URL is its path string; removing the `file://` prefix and decoding `%20` are not modelled.
- Models.FileName: does not model `lastPathComponent`'s handling of trailing slashes.
- Models.LineColumnNumber: counts characters of a `seq<char>`, not Swift grapheme clusters. Line and column are unbounded integers, not 64-bit. An offset past the end of the file traps in `index(_:offsetBy:)` (IBAnalyzer/Analyzers/ConnectionAnalyzer.swift:58); the model states it as the precondition `0 <= offset <= |contents|` of this and of `Models.DeclarationInFile`.
- ConnectionIssues.Description: the severity is recomputed from the rules on every call. The tool's release build computes `missingIssueType` lazily, once, the first time it is read.
- ConnectionAnalyzer.BackFill: the back-filled outlet is a copy in the issue. The tool mutates the shared `Declaration` object, so the nib entry also sees the new path and line.
- Printing: the diagnostic prints in the parser and in the unwind check are not modelled.
- The debug assertion that the stack is empty when `objects` ends (IBAnalyzer/Parsers/NibParser.swift:154) is not modelled, because release builds skip it.
- The debug assertion in `set(properties:attributes:)` that an implicitly unwrapped segue property has its attribute (IBAnalyzer/Analyzers/ConnectionAnalyzer.swift:145) is not modelled, for the same reason: `Models.SegueFromAttributes` leaves any missing attribute absent.
- Runner.Runner.Issues: runs the corrected `ConnectionAnalyzer.Issues`. The analyzer as written (`ConnectionAnalyzer.IssuesAsWritten`) traps at IBAnalyzer/Analyzers/ConnectionAnalyzer.swift:315-316 on every project without a SignupViewController nib, so the run as written traps there too.
- Runner.ResolveAliases: a segue in the parser's list is resolved through its identity. The model does not track the shared object itself.
- Runner.ResolveSegues: reports `UnresolvedSegue` without naming the segue. The tool's `fatalError` carries no information either.
- Analyzer kinds other than the connection analyzer are not part of this model.
- InheritanceSearch.QueueSearchAsWritten: runs for at most `fuel` steps. `None` stands for "has not stopped yet", which is how the non-terminating loop is stated.

## Findings

| source | as written | input that shows it | evidently intended | confidence | as-written member | corrected member |
|---|---|---|---|---|---|---|
| IBAnalyzer/Analyzers/ConnectionAnalyzer.swift:440-458 | the queue of inherited names has no record of the types already expanded | class A inherits B and class B inherits A (two targets reusing names), with a nib for A wiring an outlet neither declares: the loop appends A and B forever | stop when every reachable project class has been expanded once, and answer false | medium, not executed | InheritanceSearch.AsWrittenNeverStopsOnCycle | InheritanceSearch.ClassOrInheritedTypeOf |
| IBAnalyzer/Analyzers/ConnectionAnalyzer.swift:315-316 | after both passes, `issues(for:)` force-unwraps the nib entry of "SignupViewController" | any configuration without that class, such as the one of IBAnalyzerTests/ConnectionAnalyzerTests.swift:30-36 | return the issues of both passes (debug leftover) | high, not executed | ConnectionAnalyzer.IssuesAsWritten, AnalyzerScenarios.StrayLookupTrapsOnTestProject | ConnectionAnalyzer.Issues |
