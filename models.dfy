/**
 * The value types of the wiring cross-check: a named connection point
 * (`Declaration`), a storyboard transition (`SegueDeclaration`), a segue
 * identifier used in code (`SegueIdentifier`), a source class record
 * (`Class`) and the connections one document declares for a class (`Nib`).
 *
 * `Declaration` and `SegueDeclaration` are reference types in the tool. A
 * declaration is only ever compared by name, so it is a value here. A segue is
 * compared by object identity, so it carries `ref`, the identity of the object
 * the parser allocated for it.
 */
module Models {
  import opened Wrappers
  import opened Text

  // ---------------------------------------------------------------------------
  // Declaration
  // ---------------------------------------------------------------------------

  /** An outlet or action: its name, where it was declared, and two diagnostic fields. */
  datatype Declaration = Declaration(
    name: string,
    line: int,
    column: int,
    url: Option<string>,
    isOptional: bool,
    parentClass: Option<string>,
    parentClassPath: Option<string>)

  /** The designated initialiser; `parentClassPath` starts out nil. */
  function NewDeclaration(name: string, line: int, column: int, url: Option<string>,
                          isOptional: bool, customClass: Option<string>): (d: Declaration)
    ensures d.name == name && d.line == line && d.column == column && d.url == url
    ensures d.isOptional == isOptional && d.parentClass == customClass && d.parentClassPath == None
  {
    Declaration(name, line, column, url, isOptional, customClass, None)
  }

  /**
   * The line and column of a character offset in a file: the number of
   * newline-separated pieces of the text before the offset, and the length of
   * the last piece.
   */
  function LineColumnNumber(contents: string, offset: int): (lc: (int, int))
    requires 0 <= offset <= |contents|
    ensures lc.0 == CountOf(contents[..offset], '\n') + 1
    ensures lc.1 == offset - LineStart(contents[..offset])
  {
    var lines := SplitLines(contents[..offset]);
    SplitLinesShape(contents[..offset]);
    (|lines|, |lines[|lines| - 1]|)
  }

  /** The convenience initialiser used for declarations found in source files. */
  function DeclarationInFile(name: string, contents: string, path: Option<string>,
                             offset: int, isOptional: bool): (d: Declaration)
    requires 0 <= offset <= |contents|
    ensures d.name == name && d.url == path && d.isOptional == isOptional
    ensures d.line >= 1 && d.line == CountOf(contents[..offset], '\n') + 1
    ensures 0 <= d.column <= offset && d.column == offset - LineStart(contents[..offset])
    ensures d.parentClass == None && d.parentClassPath == None
  {
    var lc := LineColumnNumber(contents, offset);
    NewDeclaration(name, lc.0, lc.1, path, isOptional, None)
  }

  /** Declarations are equal when their names are. */
  predicate DeclEquals(lhs: Declaration, rhs: Declaration) {
    lhs.name == rhs.name
  }

  /** `declarations.contains(d)`, which uses `DeclEquals`. */
  predicate ContainsDecl(declarations: seq<Declaration>, d: Declaration) {
    exists i :: 0 <= i < |declarations| && DeclEquals(declarations[i], d)
  }

  /** `DeclEquals` is an equivalence that looks at the name alone. */
  lemma DeclEqualsIsNameEquality(a: Declaration, b: Declaration, c: Declaration)
    ensures DeclEquals(a, b) <==> a.name == b.name
    ensures DeclEquals(a, a)
    ensures DeclEquals(a, b) ==> DeclEquals(b, a)
    ensures DeclEquals(a, b) && DeclEquals(b, c) ==> DeclEquals(a, c)
    ensures DeclEquals(a, a.(line := b.line, column := b.column, url := b.url, isOptional := b.isOptional,
                             parentClass := b.parentClass, parentClassPath := b.parentClassPath))
  {
  }

  /** `filePath`: the declaring file, or when there is none the name with its colons removed. */
  function FilePath(d: Declaration): (r: string)
    ensures d.url.Some? ==> r == d.url.value
    ensures d.url.None? ==> r == RemoveAll(d.name, ':')
    ensures d.url.None? ==> ':' !in r && |r| == |d.name| - CountOf(d.name, ':')
  {
    if d.url.Some? then d.url.value else RemoveAll(d.name, ':')
  }

  /** `fileName(className:)`: the declaring file's last path component, or else the class name. */
  function FileName(d: Declaration, className: string): (r: string)
    ensures d.url.None? ==> r == className
    ensures d.url.Some? ==> r == LastPathComponent(d.url.value) && '/' !in r
  {
    if d.url.Some? then LastPathComponent(d.url.value) else className
  }

  /** `description`: `<path>:<line>:<column>`, the path being the owning class's when it was back-filled. */
  function DeclarationDescription(d: Declaration): (r: string)
    ensures LocationParts(r) == (d.parentClassPath.GetOr(FilePath(d)), IntToString(d.line), IntToString(d.column))
    ensures d.parentClassPath.None? && d.url.None? ==> ':' !in LocationParts(r).0
  {
    LocationPartsRoundTrip(d.parentClassPath.GetOr(FilePath(d)), IntToString(d.line), IntToString(d.column));
    d.parentClassPath.GetOr(FilePath(d)) + ":" + IntToString(d.line) + ":" + IntToString(d.column)
  }

  // ---------------------------------------------------------------------------
  // Segue identifiers (supplied from outside, decoded from JSON)
  // ---------------------------------------------------------------------------

  datatype SourceLocation = SourceLocation(line: int, column: int, offset: int, file: string)

  datatype SegueIdentifier = SegueIdentifier(sourceLocation: SourceLocation, identifier: string)

  function SegueIdentifierDescription(s: SegueIdentifier): (r: string)
    ensures LocationParts(r) == (s.sourceLocation.file, IntToString(s.sourceLocation.line),
                                 IntToString(s.sourceLocation.column))
  {
    LocationPartsRoundTrip(s.sourceLocation.file, IntToString(s.sourceLocation.line),
                           IntToString(s.sourceLocation.column));
    s.sourceLocation.file + ":" + IntToString(s.sourceLocation.line) + ":" + IntToString(s.sourceLocation.column)
  }

  // ---------------------------------------------------------------------------
  // Class
  // ---------------------------------------------------------------------------

  /** A class found in the project's sources (or in the UIKit table). */
  datatype Class = Class(
    path: Option<string>,
    line: Option<int>,
    outlets: seq<Declaration>,
    actions: seq<Declaration>,
    inherited: seq<string>,
    segueIdentifiers: seq<SegueIdentifier>)

  /** The full initialiser stores every argument. */
  function NewClass(path: Option<string>, line: Option<int>, outlets: seq<Declaration>, actions: seq<Declaration>,
                    inherited: seq<string>, segueIdentifiers: seq<SegueIdentifier>): (k: Class)
    ensures k.path == path && k.line == line && k.outlets == outlets && k.actions == actions
    ensures k.inherited == inherited && k.segueIdentifiers == segueIdentifiers
  {
    Class(path, line, outlets, actions, inherited, segueIdentifiers)
  }

  /** The short initialiser leaves the location unknown. */
  function NewClassWithoutLocation(outlets: seq<Declaration>, actions: seq<Declaration>,
                                   inherited: seq<string>, segueIdentifiers: seq<SegueIdentifier>): (k: Class)
    ensures k.path == None && k.line == None
    ensures k.outlets == outlets && k.actions == actions
    ensures k.inherited == inherited && k.segueIdentifiers == segueIdentifiers
  {
    NewClass(None, None, outlets, actions, inherited, segueIdentifiers)
  }

  /** Swift's `==` on two `[Declaration]` arrays: same count, and elementwise `DeclEquals`. */
  function DeclarationsEqual(lhs: seq<Declaration>, rhs: seq<Declaration>): (eq: bool)
    ensures eq <==> |lhs| == |rhs| && forall i :: 0 <= i < |lhs| ==> lhs[i].name == rhs[i].name
  {
    if |lhs| != |rhs| then false
    else if lhs == [] then true
    else DeclEquals(lhs[0], rhs[0]) && DeclarationsEqual(lhs[1..], rhs[1..])
  }

  /** `Class ==` compares outlets, actions and inherited type names, and nothing else. */
  function ClassEquals(lhs: Class, rhs: Class): (eq: bool)
    ensures eq <==> && |lhs.outlets| == |rhs.outlets|
                    && (forall i :: 0 <= i < |lhs.outlets| ==> lhs.outlets[i].name == rhs.outlets[i].name)
                    && |lhs.actions| == |rhs.actions|
                    && (forall i :: 0 <= i < |lhs.actions| ==> lhs.actions[i].name == rhs.actions[i].name)
                    && lhs.inherited == rhs.inherited
  {
    DeclarationsEqual(lhs.outlets, rhs.outlets)
    && DeclarationsEqual(lhs.actions, rhs.actions)
    && lhs.inherited == rhs.inherited
  }

  /** Class equality is an equivalence that ignores the location and the segue identifiers. */
  lemma ClassEqualsIgnoresLocation(a: Class, b: Class, c: Class, path: Option<string>, line: Option<int>,
                                   ids: seq<SegueIdentifier>)
    ensures ClassEquals(a, a)
    ensures ClassEquals(a, b) ==> ClassEquals(b, a)
    ensures ClassEquals(a, b) && ClassEquals(b, c) ==> ClassEquals(a, c)
    ensures ClassEquals(a, b) <==> ClassEquals(a.(path := path, line := line, segueIdentifiers := ids), b)
  {
  }

  // ---------------------------------------------------------------------------
  // Segue declarations
  // ---------------------------------------------------------------------------

  /**
   * A `<segue>` element. `ref` is the identity of the object; the six
   * attribute fields are copied from the element; `parentClassName` and
   * `destinationClassName` are filled in by the parser, `classObject` by
   * `ResolveFile` (a copy of the owning class, since `Class` is a struct).
   */
  datatype SegueDeclaration = SegueDeclaration(
    ref: nat,
    id: Option<string>,
    kind: Option<string>,
    destination: Option<string>,
    identifier: Option<string>,
    relationship: Option<string>,
    unwindAction: Option<string>,
    destinationClassName: Option<string>,
    parentClassName: Option<string>,
    classObject: Option<Class>)

  /**
   * The element attributes a segue takes over. The tool's reflection lists all
   * nine optional stored properties; the model keeps the six attribute
   * properties and ignores attributes named after `destinationClassName`,
   * `parentClassName` or `classObject`, which the tool would pass to
   * `setValue(_:forKey:)`. Interface Builder never writes such attributes.
   */
  const SegueAttributeNames: seq<string> := ["id", "kind", "destination", "identifier", "relationship", "unwindAction"]

  /** The stored property a segue attribute name sets. */
  function SegueAttribute(s: SegueDeclaration, name: string): Option<string>
    requires name in SegueAttributeNames
  {
    match name
    case "id" => s.id
    case "kind" => s.kind
    case "destination" => s.destination
    case "identifier" => s.identifier
    case "relationship" => s.relationship
    case _ => s.unwindAction
  }

  /** `SegueDeclaration(attributes:)`: each of the six properties is set from the attribute of the same name. */
  function SegueFromAttributes(ref: nat, attributes: map<string, string>): (s: SegueDeclaration)
    ensures s.ref == ref
    ensures forall name :: name in SegueAttributeNames ==> SegueAttribute(s, name) == Get(attributes, name)
    ensures s.destinationClassName == None && s.parentClassName == None && s.classObject == None
  {
    SegueDeclaration(ref, Get(attributes, "id"), Get(attributes, "kind"), Get(attributes, "destination"),
                     Get(attributes, "identifier"), Get(attributes, "relationship"), Get(attributes, "unwindAction"),
                     None, None, None)
  }

  /** Attributes outside the table are ignored. */
  lemma SegueIgnoresOtherAttributes(ref: nat, attributes: map<string, string>, other: string, value: string)
    requires other !in SegueAttributeNames
    ensures SegueFromAttributes(ref, attributes[other := value]) == SegueFromAttributes(ref, attributes)
  {
  }

  predicate IsUnwindSegue(s: SegueDeclaration) {
    s.unwindAction.Some?
  }

  /** A parsed segue is an unwind segue exactly when its element has an `unwindAction` attribute. */
  lemma UnwindSegueIffAttribute(ref: nat, attributes: map<string, string>)
    ensures IsUnwindSegue(SegueFromAttributes(ref, attributes)) <==> "unwindAction" in attributes
  {
    assert SegueAttribute(SegueFromAttributes(ref, attributes), "unwindAction")
        == SegueFromAttributes(ref, attributes).unwindAction;
  }

  /**
   * `resolveFile`: attaches the owning class. The tool stops with a fatal error
   * when the owner is unknown; that is the `Failure` here.
   */
  function ResolveFile(s: SegueDeclaration, classes: map<string, Class>): (r: Result<SegueDeclaration, SegueDeclaration>)
    ensures r.Success? <==> s.parentClassName.Some? && s.parentClassName.value in classes
    ensures r.Success? ==> r.value == s.(classObject := Some(classes[s.parentClassName.value]))
    ensures r.Failure? ==> r.error == s
  {
    if s.parentClassName.Some? && s.parentClassName.value in classes
    then Success(s.(classObject := Some(classes[s.parentClassName.value])))
    else Failure(s)
  }

  /** `description` of a segue: the owning class's path and line when resolved, `:1:0` otherwise. */
  function SegueDescription(s: SegueDeclaration): (r: string)
    ensures s.classObject.None? ==> r == ":1:0"
    ensures s.classObject.Some? ==>
      var k := s.classObject.value;
      LocationParts(r) == (k.path.GetOr(s.parentClassName.GetOr("")), IntToString(k.line.GetOr(1)), "0")
  {
    match s.classObject
    case Some(k) =>
      var path, line := k.path.GetOr(s.parentClassName.GetOr("")), IntToString(k.line.GetOr(1));
      LocationPartsRoundTrip(path, line, "0");
      assert path + ":" + line + ":0" == path + ":" + line + ":" + "0";
      path + ":" + line + ":0"
    case None => ":1:0"
  }

  // ---------------------------------------------------------------------------
  // Nib
  // ---------------------------------------------------------------------------

  /** The connections one document declares on instances of one class. */
  datatype Nib = Nib(outlets: seq<Declaration>, actions: seq<Declaration>, segues: seq<SegueDeclaration>)

  const EmptyNib := Nib([], [], [])

  /** Swift's `==` on `[SegueDeclaration]`: same count, and elementwise object identity. */
  function SeguesIdentical(lhs: seq<SegueDeclaration>, rhs: seq<SegueDeclaration>): (eq: bool)
    ensures eq <==> |lhs| == |rhs| && forall i :: 0 <= i < |lhs| ==> lhs[i].ref == rhs[i].ref
  {
    if |lhs| != |rhs| then false
    else if lhs == [] then true
    else lhs[0].ref == rhs[0].ref && SeguesIdentical(lhs[1..], rhs[1..])
  }

  /** `Nib ==`: outlets and actions by name and segues by identity, position by position. */
  function NibEquals(lhs: Nib, rhs: Nib): (eq: bool)
    ensures eq <==> && |lhs.outlets| == |rhs.outlets|
                    && (forall i :: 0 <= i < |lhs.outlets| ==> lhs.outlets[i].name == rhs.outlets[i].name)
                    && |lhs.actions| == |rhs.actions|
                    && (forall i :: 0 <= i < |lhs.actions| ==> lhs.actions[i].name == rhs.actions[i].name)
                    && |lhs.segues| == |rhs.segues|
                    && (forall i :: 0 <= i < |lhs.segues| ==> lhs.segues[i].ref == rhs.segues[i].ref)
  {
    DeclarationsEqual(lhs.outlets, rhs.outlets)
    && DeclarationsEqual(lhs.actions, rhs.actions)
    && SeguesIdentical(lhs.segues, rhs.segues)
  }

  /** Nib equality depends on order: two outlets with different names, swapped, give unequal nibs. */
  lemma NibEqualityIsOrdered(x: Declaration, y: Declaration)
    requires x.name != y.name
    ensures !NibEquals(Nib([x, y], [], []), Nib([y, x], [], []))
  {
    assert Nib([x, y], [], []).outlets[0].name != Nib([y, x], [], []).outlets[0].name;
  }

  /**
   * Segues are compared as objects: two segue objects with the same attributes
   * differ, while one object stays equal to itself after `ResolveFile`.
   */
  lemma NibSeguesCompareByIdentity(s: SegueDeclaration, otherRef: nat, classes: map<string, Class>)
    requires otherRef != s.ref
    ensures !NibEquals(Nib([], [], [s]), Nib([], [], [s.(ref := otherRef)]))
    ensures ResolveFile(s, classes).Success? ==> NibEquals(Nib([], [], [s]), Nib([], [], [ResolveFile(s, classes).value]))
  {
    assert Nib([], [], [s]).segues[0].ref != Nib([], [], [s.(ref := otherRef)]).segues[0].ref;
  }
}
