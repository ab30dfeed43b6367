/**
 * The document parser: a delegate that receives the start and end events of an
 * Interface Builder document (a storyboard or a xib) and records, for each
 * custom class it meets among the document's objects, the outlets, actions and
 * segues connected to instances of that class.
 *
 * The XML tokeniser is not part of this model: a document is the list of
 * events it would deliver, each start event with the element's attributes and
 * the line and column the tokeniser reports for it.
 */
module NibParser {
  import opened Wrappers
  import opened Models

  datatype Event =
    | Start(tag: string, attributes: map<string, string>, line: int, column: int)
    | End(tag: string)

  /** An open element among the document's objects, and its custom class if it names one. */
  datatype Element = Element(tag: string, customClassName: Option<string>)

  /** The ways a document stops the parser: a segue whose owner has no entry, or closing more objects than were opened. */
  datatype Fault = SegueOwnerWithoutNib(className: string) | PopEmptyStack(tag: string)

  /**
   * Everything the delegate updates while it reads. `nextRef` is the identity
   * the next segue object gets.
   */
  datatype ParserState = ParserState(
    inObjects: bool,
    inConnections: bool,
    stack: seq<Element>,
    classNameToNibMap: map<string, Nib>,
    idToCustomClassMap: map<string, string>,
    allSegues: seq<SegueDeclaration>,
    nextRef: nat)

  function Initial(firstRef: nat): ParserState {
    ParserState(false, false, [], map[], map[], [], firstRef)
  }

  // ---------------------------------------------------------------------------
  // The handlers, as functions of the state
  // ---------------------------------------------------------------------------

  /** The custom class of the innermost open object that names one. */
  function NearestOwner(stack: seq<Element>): (r: Option<string>)
    ensures r.Some? <==> exists i :: 0 <= i < |stack| && stack[i].customClassName.Some?
    ensures r.Some? ==> exists i :: && 0 <= i < |stack| && stack[i].customClassName == r
                                    && forall j :: i < j < |stack| ==> stack[j].customClassName.None?
    decreases |stack|
  {
    if stack == [] then None
    else if stack[|stack| - 1].customClassName.Some? then stack[|stack| - 1].customClassName
    else
      var r := NearestOwner(stack[..|stack| - 1]);
      NearestOwnerSkipsLast(stack, r);
      r
  }

  /** An innermost object without a custom class leaves the owner to the objects below it. */
  lemma NearestOwnerSkipsLast(stack: seq<Element>, r: Option<string>)
    requires stack != [] && stack[|stack| - 1].customClassName.None?
    requires var init := stack[..|stack| - 1];
             && (r.Some? <==> exists i :: 0 <= i < |init| && init[i].customClassName.Some?)
             && (r.Some? ==> exists i :: && 0 <= i < |init| && init[i].customClassName == r
                                         && forall j :: i < j < |init| ==> init[j].customClassName.None?)
    ensures r.Some? <==> exists i :: 0 <= i < |stack| && stack[i].customClassName.Some?
    ensures r.Some? ==> exists i :: && 0 <= i < |stack| && stack[i].customClassName == r
                                    && forall j :: i < j < |stack| ==> stack[j].customClassName.None?
  {
    var init := stack[..|stack| - 1];
    if exists i :: 0 <= i < |stack| && stack[i].customClassName.Some? {
      var i :| 0 <= i < |stack| && stack[i].customClassName.Some?;
      assert i < |init| && init[i] == stack[i];
    }
    if r.Some? {
      var i :| && 0 <= i < |init| && init[i].customClassName == r
               && forall j :: i < j < |init| ==> init[j].customClassName.None?;
      assert stack[i] == init[i];
      forall j | i < j < |stack| ensures stack[j].customClassName.None? {
        if j < |init| { assert stack[j] == init[j]; }
      }
    }
  }

  /** An `outlet` or `outletCollection` inside `connections`: it belongs to the innermost open object. */
  function AddOutlet(st: ParserState, url: Option<string>, attributes: map<string, string>, line: int, column: int)
    : ParserState
  {
    if "property" !in attributes || st.stack == [] || st.stack[|st.stack| - 1].customClassName.None? then st
    else
      var className := st.stack[|st.stack| - 1].customClassName.value;
      if className !in st.classNameToNibMap then st
      else
        var nib := st.classNameToNibMap[className];
        var outlet := NewDeclaration(attributes["property"], line, column, url, false, Some(className));
        st.(classNameToNibMap := st.classNameToNibMap[className := nib.(outlets := nib.outlets + [outlet])])
  }

  /** An `action` inside `connections`: it belongs to the class of the object its destination names. */
  function AddAction(st: ParserState, url: Option<string>, attributes: map<string, string>, line: int, column: int)
    : ParserState
  {
    if "selector" !in attributes || "destination" !in attributes then st
    else if attributes["destination"] !in st.idToCustomClassMap then st
    else
      var className := st.idToCustomClassMap[attributes["destination"]];
      if className !in st.classNameToNibMap then st
      else
        var nib := st.classNameToNibMap[className];
        var action := NewDeclaration(attributes["selector"], line, column, url, false, None);
        st.(classNameToNibMap := st.classNameToNibMap[className := nib.(actions := nib.actions + [action])])
  }

  /** The segue object a `segue` element creates for its owner. */
  function NewSegue(st: ParserState, attributes: map<string, string>, owner: string): SegueDeclaration
    requires "destination" in attributes
  {
    var destination := attributes["destination"];
    SegueFromAttributes(st.nextRef, attributes).(
      parentClassName := Some(owner),
      destinationClassName := Get(st.idToCustomClassMap, destination))
  }

  /** A `segue` inside `connections`: it belongs to the nearest open object with a custom class. */
  function AddSegue(st: ParserState, attributes: map<string, string>): Result<ParserState, Fault> {
    if "destination" !in attributes || NearestOwner(st.stack).None? then Success(st)
    else
      var owner := NearestOwner(st.stack).value;
      if owner !in st.classNameToNibMap then Failure(SegueOwnerWithoutNib(owner))
      else
        var segue := NewSegue(st, attributes, owner);
        var nib := st.classNameToNibMap[owner];
        Success(st.(classNameToNibMap := st.classNameToNibMap[owner := nib.(segues := nib.segues + [segue])],
                    allSegues := st.allSegues + [segue],
                    nextRef := st.nextRef + 1))
  }

  /** Any other element among the objects opens an object; one with a custom class and an id registers the class. */
  function PushObject(st: ParserState, tag: string, attributes: map<string, string>): ParserState {
    var customClass, id := Get(attributes, "customClass"), Get(attributes, "id");
    var pushed := st.(stack := st.stack + [Element(tag, customClass)]);
    if customClass.Some? && id.Some? then
      pushed.(idToCustomClassMap := st.idToCustomClassMap[id.value := customClass.value],
              classNameToNibMap := st.classNameToNibMap[customClass.value := EmptyNib])
    else pushed
  }

  /** `parser(_:didStartElement:…)`: the cases are tried in the order the switch lists them. */
  function StartElement(st: ParserState, url: Option<string>, tag: string, attributes: map<string, string>,
                        line: int, column: int): (r: Result<ParserState, Fault>)
    ensures r.Failure? <==> && tag == "segue" && st.inConnections && "destination" in attributes
                            && NearestOwner(st.stack).Some? && NearestOwner(st.stack).value !in st.classNameToNibMap
    ensures r.Failure? ==> r.error == SegueOwnerWithoutNib(NearestOwner(st.stack).value)
    ensures r.Success? ==> && st.classNameToNibMap.Keys <= r.value.classNameToNibMap.Keys
                           && st.idToCustomClassMap.Keys <= r.value.idToCustomClassMap.Keys
                           && st.allSegues <= r.value.allSegues
                           && |r.value.allSegues| <= |st.allSegues| + 1
  {
    if tag == "objects" then Success(st.(inObjects := true, stack := []))
    else if tag == "connections" then Success(st.(inConnections := true))
    else if (tag == "outlet" || tag == "outletCollection") && st.inConnections then
      Success(AddOutlet(st, url, attributes, line, column))
    else if tag == "action" && st.inConnections then Success(AddAction(st, url, attributes, line, column))
    else if tag == "segue" && st.inConnections then AddSegue(st, attributes)
    else if st.inObjects && tag != "viewControllerPlaceholder" then Success(PushObject(st, tag, attributes))
    else Success(st)
  }

  predicate IsConnectionTag(tag: string) {
    tag == "outlet" || tag == "outletCollection" || tag == "action" || tag == "segue"
  }

  /** `parser(_:didEndElement:…)`. */
  function EndElement(st: ParserState, tag: string): (r: Result<ParserState, Fault>)
    ensures r.Failure? <==> && tag != "objects" && tag != "connections" && !IsConnectionTag(tag)
                            && st.inObjects && tag != "viewControllerPlaceholder" && st.stack == []
    ensures r.Failure? ==> r.error == PopEmptyStack(tag)
    ensures r.Success? ==> && r.value.classNameToNibMap == st.classNameToNibMap
                           && r.value.idToCustomClassMap == st.idToCustomClassMap
                           && r.value.allSegues == st.allSegues && r.value.nextRef == st.nextRef
                           && (r.value.stack == st.stack || (st.stack != [] && r.value.stack == st.stack[..|st.stack| - 1]))
  {
    if tag == "objects" then Success(st.(inObjects := false))
    else if tag == "connections" then Success(st.(inConnections := false))
    else if IsConnectionTag(tag) then Success(st)
    else if st.inObjects && tag != "viewControllerPlaceholder" then
      if st.stack == [] then Failure(PopEmptyStack(tag)) else Success(st.(stack := st.stack[..|st.stack| - 1]))
    else Success(st)
  }

  function Step(st: ParserState, url: Option<string>, e: Event): Result<ParserState, Fault> {
    match e
    case Start(tag, attributes, line, column) => StartElement(st, url, tag, attributes, line, column)
    case End(tag) => EndElement(st, tag)
  }

  /** The state after a whole document, or the first fault. */
  function Run(st: ParserState, url: Option<string>, events: seq<Event>): Result<ParserState, Fault>
    decreases |events|
  {
    if events == [] then Success(st)
    else
      match Step(st, url, events[0])
      case Failure(f) => Failure(f)
      case Success(next) => Run(next, url, events[1..])
  }

  // ---------------------------------------------------------------------------
  // What each event does
  // ---------------------------------------------------------------------------

  /** `objects` opens with an empty stack and closes without touching it; `connections` toggles its flag alone. */
  lemma SectionFlags(st: ParserState, url: Option<string>, attributes: map<string, string>, line: int, column: int)
    ensures StartElement(st, url, "objects", attributes, line, column) == Success(st.(inObjects := true, stack := []))
    ensures EndElement(st, "objects") == Success(st.(inObjects := false))
    ensures StartElement(st, url, "connections", attributes, line, column) == Success(st.(inConnections := true))
    ensures EndElement(st, "connections") == Success(st.(inConnections := false))
  {
  }

  /**
   * Among the objects, any other element pushes itself on start, registering
   * its custom class when it also has an id, and pops on end, restoring the
   * stack; nothing else changes.
   */
  lemma ObjectOpensAndCloses(st: ParserState, url: Option<string>, tag: string, attributes: map<string, string>,
                             line: int, column: int)
    requires st.inObjects && tag != "viewControllerPlaceholder" && tag != "objects" && tag != "connections"
    requires !IsConnectionTag(tag)
    ensures var r := StartElement(st, url, tag, attributes, line, column);
            var pushed := st.(stack := st.stack + [Element(tag, Get(attributes, "customClass"))]);
            && r.Success?
            && ("customClass" in attributes && "id" in attributes ==>
                  var cc := attributes["customClass"];
                  r.value == pushed.(idToCustomClassMap := st.idToCustomClassMap[attributes["id"] := cc],
                                     classNameToNibMap := st.classNameToNibMap[cc := EmptyNib]))
            && (!("customClass" in attributes && "id" in attributes) ==> r.value == pushed)
            && EndElement(r.value, tag) == Success(r.value.(stack := st.stack))
  {
    var pushed := StartElement(st, url, tag, attributes, line, column).value;
    assert pushed.stack[..|pushed.stack| - 1] == st.stack;
  }

  /** Closing a connection element never pops, even when its start pushed (outside `connections`). */
  lemma ConnectionEndNeverPops(st: ParserState, tag: string)
    requires IsConnectionTag(tag)
    ensures EndElement(st, tag) == Success(st)
  {
  }

  /** An object with a custom class and an id maps the id to the class and resets the class's entry. */
  lemma RegisterResetsNib(st: ParserState, url: Option<string>, tag: string, attributes: map<string, string>,
                          line: int, column: int)
    requires st.inObjects && !IsConnectionTag(tag) && tag != "viewControllerPlaceholder"
    requires tag != "objects" && tag != "connections"
    requires "customClass" in attributes && "id" in attributes
    ensures var r := StartElement(st, url, tag, attributes, line, column);
            && r.Success?
            && r.value.idToCustomClassMap == st.idToCustomClassMap[attributes["id"] := attributes["customClass"]]
            && r.value.classNameToNibMap == st.classNameToNibMap[attributes["customClass"] := EmptyNib]
            && r.value.allSegues == st.allSegues
  {
  }

  /**
   * An outlet inside `connections` with a `property` is appended to the entry of
   * the innermost open object's class, with the event's position and that class
   * as its parent; with no such owner or entry nothing changes.
   */
  lemma OutletGoesToInnermostObject(st: ParserState, url: Option<string>, tag: string,
                                    attributes: map<string, string>, line: int, column: int)
    requires tag == "outlet" || tag == "outletCollection"
    requires st.inConnections
    ensures var r := StartElement(st, url, tag, attributes, line, column);
            && r.Success?
            && (if "property" in attributes && st.stack != [] && st.stack[|st.stack| - 1].customClassName.Some?
                   && st.stack[|st.stack| - 1].customClassName.value in st.classNameToNibMap
                then
                  var c := st.stack[|st.stack| - 1].customClassName.value;
                  && r.value.classNameToNibMap.Keys == st.classNameToNibMap.Keys
                  && (forall k :: k in st.classNameToNibMap && k != c ==>
                        r.value.classNameToNibMap[k] == st.classNameToNibMap[k])
                  && r.value.classNameToNibMap[c].outlets
                     == st.classNameToNibMap[c].outlets
                        + [Declaration(attributes["property"], line, column, url, false, Some(c), None)]
                  && r.value.classNameToNibMap[c].actions == st.classNameToNibMap[c].actions
                  && r.value.classNameToNibMap[c].segues == st.classNameToNibMap[c].segues
                  && r.value == st.(classNameToNibMap := r.value.classNameToNibMap)
                else r.value == st)
  {
  }

  /** An action is appended to the entry of its destination's class, and only when that id is known. */
  lemma ActionGoesToDestinationClass(st: ParserState, url: Option<string>, attributes: map<string, string>,
                                     line: int, column: int)
    requires st.inConnections
    ensures var r := StartElement(st, url, "action", attributes, line, column);
            && r.Success?
            && (if "selector" in attributes && "destination" in attributes
                   && attributes["destination"] in st.idToCustomClassMap
                   && st.idToCustomClassMap[attributes["destination"]] in st.classNameToNibMap
                then
                  var c := st.idToCustomClassMap[attributes["destination"]];
                  && r.value.classNameToNibMap.Keys == st.classNameToNibMap.Keys
                  && (forall k :: k in st.classNameToNibMap && k != c ==>
                        r.value.classNameToNibMap[k] == st.classNameToNibMap[k])
                  && r.value.classNameToNibMap[c].actions
                     == st.classNameToNibMap[c].actions
                        + [Declaration(attributes["selector"], line, column, url, false, None, None)]
                  && r.value.classNameToNibMap[c].outlets == st.classNameToNibMap[c].outlets
                  && r.value.classNameToNibMap[c].segues == st.classNameToNibMap[c].segues
                  && r.value == st.(classNameToNibMap := r.value.classNameToNibMap)
                else r.value == st)
  {
  }

  /**
   * A segue with a destination is attached to the nearest open object with a
   * custom class: it names that class as its parent, names the destination's
   * class when the destination id is known, and is appended both to that
   * class's entry and to the document's list of segues. The owner must have an
   * entry.
   */
  lemma SegueGoesToNearestOwner(st: ParserState, url: Option<string>, attributes: map<string, string>,
                                line: int, column: int)
    requires st.inConnections
    ensures var r := StartElement(st, url, "segue", attributes, line, column);
            && ("destination" !in attributes || NearestOwner(st.stack).None? ==> r == Success(st))
            && ("destination" in attributes && NearestOwner(st.stack).Some? ==>
                  var owner := NearestOwner(st.stack).value;
                  && (r.Failure? <==> owner !in st.classNameToNibMap)
                  && (r.Success? ==>
                        var s := r.value.allSegues[|r.value.allSegues| - 1];
                        && r.value.allSegues == st.allSegues + [s]
                        && r.value.classNameToNibMap[owner].segues == st.classNameToNibMap[owner].segues + [s]
                        && s.ref == st.nextRef
                        && s.parentClassName == Some(owner)
                        && s.destination == Some(attributes["destination"])
                        && (s.destinationClassName.Some? <==> attributes["destination"] in st.idToCustomClassMap)
                        && s.unwindAction == Get(attributes, "unwindAction")
                        && s.identifier == Get(attributes, "identifier")
                        && s == SegueFromAttributes(st.nextRef, attributes).(
                                  parentClassName := Some(owner),
                                  destinationClassName := Get(st.idToCustomClassMap, attributes["destination"]))
                        && r.value == st.(
                             classNameToNibMap := st.classNameToNibMap[owner :=
                               st.classNameToNibMap[owner].(segues := st.classNameToNibMap[owner].segues + [s])],
                             allSegues := st.allSegues + [s],
                             nextRef := st.nextRef + 1)))
  {
  }

  /** A start or end event that no case matches leaves the state as it was. */
  lemma UnmatchedEventsChangeNothing(st: ParserState, url: Option<string>, tag: string,
                                     attributes: map<string, string>, line: int, column: int)
    requires tag != "objects" && tag != "connections"
    requires !(IsConnectionTag(tag) && st.inConnections)
    requires !st.inObjects || tag == "viewControllerPlaceholder"
    ensures StartElement(st, url, tag, attributes, line, column) == Success(st)
    ensures EndElement(st, tag) == Success(st)
  {
  }

  // ---------------------------------------------------------------------------
  // What holds after every event
  // ---------------------------------------------------------------------------

  /**
   * Every id maps to a class with an entry; every outlet and segue recorded for
   * a class names that class; every recorded segue is in the document's list of
   * segues; the listed segues are distinct objects, all older than `nextRef`,
   * and each has an owner.
   */
  ghost predicate Consistent(st: ParserState, url: Option<string>) {
    && (forall id :: id in st.idToCustomClassMap ==> st.idToCustomClassMap[id] in st.classNameToNibMap)
    && (forall c :: c in st.classNameToNibMap ==> NibBelongsTo(st.classNameToNibMap[c], c, url, st.allSegues))
    && (forall i, j :: 0 <= i < j < |st.allSegues| ==> st.allSegues[i].ref != st.allSegues[j].ref)
    && (forall i :: 0 <= i < |st.allSegues| ==> st.allSegues[i].ref < st.nextRef)
    && (forall i :: 0 <= i < |st.allSegues| ==> st.allSegues[i].parentClassName.Some?)
  }

  ghost predicate NibBelongsTo(nib: Nib, c: string, url: Option<string>, allSegues: seq<SegueDeclaration>) {
    && (forall o :: o in nib.outlets ==> o.parentClass == Some(c) && o.url == url)
    && (forall a :: a in nib.actions ==> a.url == url)
    && (forall s :: s in nib.segues ==> s.parentClassName == Some(c) && s in allSegues)
  }

  lemma InitialIsConsistent(firstRef: nat, url: Option<string>)
    ensures Consistent(Initial(firstRef), url)
  {
  }

  lemma NibBelongsToGrows(nib: Nib, c: string, url: Option<string>, allSegues: seq<SegueDeclaration>,
                          s: SegueDeclaration)
    requires NibBelongsTo(nib, c, url, allSegues)
    ensures NibBelongsTo(nib, c, url, allSegues + [s])
  {
  }

  lemma AddSegueKeepsConsistent(st: ParserState, url: Option<string>, attributes: map<string, string>)
    requires Consistent(st, url)
    requires AddSegue(st, attributes).Success?
    ensures Consistent(AddSegue(st, attributes).value, url)
  {
    if "destination" in attributes && NearestOwner(st.stack).Some? {
      var owner := NearestOwner(st.stack).value;
      var segue := NewSegue(st, attributes, owner);
      var next := AddSegue(st, attributes).value;
      assert next.allSegues == st.allSegues + [segue];
      forall c | c in next.classNameToNibMap
        ensures NibBelongsTo(next.classNameToNibMap[c], c, url, next.allSegues)
      {
        NibBelongsToGrows(st.classNameToNibMap[c], c, url, st.allSegues, segue);
      }
    }
  }

  lemma AddOutletKeepsConsistent(st: ParserState, url: Option<string>, attributes: map<string, string>,
                                 line: int, column: int)
    requires Consistent(st, url)
    ensures Consistent(AddOutlet(st, url, attributes, line, column), url)
  {
  }

  lemma AddActionKeepsConsistent(st: ParserState, url: Option<string>, attributes: map<string, string>,
                                 line: int, column: int)
    requires Consistent(st, url)
    ensures Consistent(AddAction(st, url, attributes, line, column), url)
  {
  }

  lemma PushObjectKeepsConsistent(st: ParserState, url: Option<string>, tag: string, attributes: map<string, string>)
    requires Consistent(st, url)
    ensures Consistent(PushObject(st, tag, attributes), url)
  {
  }

  /** Only the flags and the stack change. */
  lemma StackOnlyKeepsConsistent(st: ParserState, url: Option<string>, next: ParserState)
    requires Consistent(st, url)
    requires next == st.(inObjects := next.inObjects, inConnections := next.inConnections, stack := next.stack)
    ensures Consistent(next, url)
  {
  }

  lemma StepKeepsConsistent(st: ParserState, url: Option<string>, e: Event)
    requires Consistent(st, url)
    requires Step(st, url, e).Success?
    ensures Consistent(Step(st, url, e).value, url)
  {
    var next := Step(st, url, e).value;
    match e
    case End(tag) =>
      StackOnlyKeepsConsistent(st, url, next);
    case Start(tag, attributes, line, column) =>
      if tag == "objects" || tag == "connections" {
        StackOnlyKeepsConsistent(st, url, next);
      } else if (tag == "outlet" || tag == "outletCollection") && st.inConnections {
        AddOutletKeepsConsistent(st, url, attributes, line, column);
      } else if tag == "action" && st.inConnections {
        AddActionKeepsConsistent(st, url, attributes, line, column);
      } else if tag == "segue" && st.inConnections {
        AddSegueKeepsConsistent(st, url, attributes);
      } else if st.inObjects && tag != "viewControllerPlaceholder" {
        PushObjectKeepsConsistent(st, url, tag, attributes);
      }
  }

  /** A whole document keeps the parser's state consistent. */
  lemma {:induction false} RunKeepsConsistent(st: ParserState, url: Option<string>, events: seq<Event>)
    requires Consistent(st, url)
    requires Run(st, url, events).Success?
    ensures Consistent(Run(st, url, events).value, url)
    decreases |events|
  {
    if events != [] {
      StepKeepsConsistent(st, url, events[0]);
      RunKeepsConsistent(Step(st, url, events[0]).value, url, events[1..]);
    }
  }

  /** One event keeps the listed segues, and any segue it adds carries an identity never handed out before. */
  lemma StepExtendsSegues(st: ParserState, url: Option<string>, e: Event)
    requires Step(st, url, e).Success?
    ensures st.nextRef <= Step(st, url, e).value.nextRef
    ensures st.allSegues <= Step(st, url, e).value.allSegues
    ensures var r := Step(st, url, e).value;
            forall i :: |st.allSegues| <= i < |r.allSegues| ==> st.nextRef <= r.allSegues[i].ref < r.nextRef
  {
    match e
    case End(tag) =>
    case Start(tag, attributes, line, column) =>
      if tag == "objects" || tag == "connections" {
      } else if (tag == "outlet" || tag == "outletCollection") && st.inConnections {
        AddOutletKeepsSegues(st, url, attributes, line, column);
      } else if tag == "action" && st.inConnections {
        AddActionKeepsSegues(st, url, attributes, line, column);
      } else if tag == "segue" && st.inConnections {
        AddSegueExtendsSegues(st, attributes);
      } else if st.inObjects && tag != "viewControllerPlaceholder" {
        PushObjectKeepsSegues(st, tag, attributes);
      }
  }

  /** Outlets, actions and objects leave the segue list and the identity counter alone. */
  lemma AddOutletKeepsSegues(st: ParserState, url: Option<string>, attributes: map<string, string>,
                             line: int, column: int)
    ensures AddOutlet(st, url, attributes, line, column).allSegues == st.allSegues
    ensures AddOutlet(st, url, attributes, line, column).nextRef == st.nextRef
  {
  }

  lemma AddActionKeepsSegues(st: ParserState, url: Option<string>, attributes: map<string, string>,
                             line: int, column: int)
    ensures AddAction(st, url, attributes, line, column).allSegues == st.allSegues
    ensures AddAction(st, url, attributes, line, column).nextRef == st.nextRef
  {
  }

  lemma PushObjectKeepsSegues(st: ParserState, tag: string, attributes: map<string, string>)
    ensures PushObject(st, tag, attributes).allSegues == st.allSegues
    ensures PushObject(st, tag, attributes).nextRef == st.nextRef
  {
  }

  /**
   * A recorded segue takes the next identity and advances it by one; an
   * ignored segue leaves the list and the identity alone.
   */
  lemma AddSegueExtendsSegues(st: ParserState, attributes: map<string, string>)
    requires AddSegue(st, attributes).Success?
    ensures st.nextRef <= AddSegue(st, attributes).value.nextRef
    ensures st.allSegues <= AddSegue(st, attributes).value.allSegues
    ensures var r := AddSegue(st, attributes).value;
            || (r.allSegues == st.allSegues && r.nextRef == st.nextRef)
            || (&& r.allSegues == st.allSegues + [r.allSegues[|st.allSegues|]]
                && r.allSegues[|st.allSegues|].ref == st.nextRef
                && r.nextRef == st.nextRef + 1)
  {
    var next := AddSegue(st, attributes).value;
    if "destination" in attributes && NearestOwner(st.stack).Some? {
      var owner := NearestOwner(st.stack).value;
      assert next.allSegues == st.allSegues + [NewSegue(st, attributes, owner)];
    }
  }

  /** Segue identities only grow, and the segues already listed stay listed. */
  lemma {:induction false} RunExtendsSegues(st: ParserState, url: Option<string>, events: seq<Event>)
    requires Run(st, url, events).Success?
    ensures st.nextRef <= Run(st, url, events).value.nextRef
    ensures st.allSegues <= Run(st, url, events).value.allSegues
    ensures var r := Run(st, url, events).value;
            forall i :: |st.allSegues| <= i < |r.allSegues| ==> st.nextRef <= r.allSegues[i].ref < r.nextRef
    decreases |events|
  {
    if events != [] {
      var next := Step(st, url, events[0]).value;
      StepExtendsSegues(st, url, events[0]);
      RunExtendsSegues(next, url, events[1..]);
      var r := Run(st, url, events).value;
      forall i | |st.allSegues| <= i < |r.allSegues|
        ensures st.nextRef <= r.allSegues[i].ref < r.nextRef
      {
        if i < |next.allSegues| {
          assert r.allSegues[i] == next.allSegues[i];
        }
      }
    }
  }

  // ---------------------------------------------------------------------------
  // The delegate and the parser object
  // ---------------------------------------------------------------------------

  /** `ParserDelegate`: the fields each event updates in place. */
  class ParserDelegate {
    var url: Option<string>
    var inObjects: bool
    var inConnections: bool
    var stack: seq<Element>
    var classNameToNibMap: map<string, Nib>
    var idToCustomClassMap: map<string, string>
    var allSegues: seq<SegueDeclaration>
    var nextRef: nat

    function State(): ParserState
      reads this
    {
      ParserState(inObjects, inConnections, stack, classNameToNibMap, idToCustomClassMap, allSegues, nextRef)
    }

    constructor(url: Option<string>, firstRef: nat)
      ensures this.url == url && State() == Initial(firstRef)
    {
      this.url := url;
      inObjects, inConnections, stack := false, false, [];
      classNameToNibMap, idToCustomClassMap, allSegues := map[], map[], [];
      nextRef := firstRef;
    }

    /** The start handler. A fault stops the run; the fields are then of no further use. */
    method DidStartElement(tag: string, attributes: map<string, string>, line: int, column: int)
      returns (fault: Option<Fault>)
      modifies this
      ensures url == old(url)
      ensures StartElement(old(State()), url, tag, attributes, line, column).Failure? ==>
                fault == Some(StartElement(old(State()), url, tag, attributes, line, column).error)
      ensures StartElement(old(State()), url, tag, attributes, line, column).Success? ==>
                fault == None && State() == StartElement(old(State()), url, tag, attributes, line, column).value
    {
      fault := None;
      if tag == "objects" {
        inObjects := true;
        stack := [];
      } else if tag == "connections" {
        inConnections := true;
      } else if (tag == "outlet" || tag == "outletCollection") && inConnections {
        AddOutletHere(attributes, line, column);
      } else if tag == "action" && inConnections {
        AddActionHere(attributes, line, column);
      } else if tag == "segue" && inConnections {
        fault := AddSegueHere(attributes);
      } else if inObjects && tag != "viewControllerPlaceholder" {
        PushObjectHere(tag, attributes);
      }
    }

    /** An outlet goes to the innermost enclosing object's class, when that class has a nib entry. */
    method AddOutletHere(attributes: map<string, string>, line: int, column: int)
      modifies this
      ensures url == old(url) && State() == AddOutlet(old(State()), url, attributes, line, column)
    {
      if "property" in attributes && |stack| > 0 && stack[|stack| - 1].customClassName.Some? {
        var customClassName := stack[|stack| - 1].customClassName.value;
        if customClassName in classNameToNibMap {
          var outlet := NewDeclaration(attributes["property"], line, column, url, false, Some(customClassName));
          var nib := classNameToNibMap[customClassName];
          classNameToNibMap := classNameToNibMap[customClassName := nib.(outlets := nib.outlets + [outlet])];
        }
      }
    }

    /** An action goes to the class of the object its destination id names. */
    method AddActionHere(attributes: map<string, string>, line: int, column: int)
      modifies this
      ensures url == old(url) && State() == AddAction(old(State()), url, attributes, line, column)
    {
      if "selector" in attributes && "destination" in attributes && attributes["destination"] in idToCustomClassMap {
        var customClassName := idToCustomClassMap[attributes["destination"]];
        if customClassName in classNameToNibMap {
          var action := NewDeclaration(attributes["selector"], line, column, url, false, None);
          var nib := classNameToNibMap[customClassName];
          classNameToNibMap := classNameToNibMap[customClassName := nib.(actions := nib.actions + [action])];
        }
      }
    }

    /** A segue goes to the nearest enclosing object with a custom class, and is listed with every segue. */
    method AddSegueHere(attributes: map<string, string>) returns (fault: Option<Fault>)
      modifies this
      ensures url == old(url)
      ensures AddSegue(old(State()), attributes).Failure? ==> fault == Some(AddSegue(old(State()), attributes).error)
      ensures AddSegue(old(State()), attributes).Success? ==>
                fault == None && State() == AddSegue(old(State()), attributes).value
    {
      fault := None;
      ghost var st := State();
      var owner := NearestOwner(stack);
      if "destination" in attributes && owner.Some? {
        var segue := SegueFromAttributes(nextRef, attributes).(parentClassName := owner);
        if attributes["destination"] in idToCustomClassMap {
          segue := segue.(destinationClassName := Some(idToCustomClassMap[attributes["destination"]]));
        }
        assert segue == NewSegue(State(), attributes, owner.value);
        if owner.value !in classNameToNibMap {
          return Some(SegueOwnerWithoutNib(owner.value));
        }
        var nib := classNameToNibMap[owner.value];
        classNameToNibMap := classNameToNibMap[owner.value := nib.(segues := nib.segues + [segue])];
        allSegues := allSegues + [segue];
        nextRef := nextRef + 1;
        assert State() == st.(classNameToNibMap := classNameToNibMap, allSegues := allSegues, nextRef := nextRef);
      }
    }

    /** Any other element inside `objects` is pushed; one with a custom class and an id is registered. */
    method PushObjectHere(tag: string, attributes: map<string, string>)
      modifies this
      ensures url == old(url) && State() == PushObject(old(State()), tag, attributes)
    {
      var customClass, id := Get(attributes, "customClass"), Get(attributes, "id");
      stack := stack + [Element(tag, customClass)];
      if customClass.Some? && id.Some? {
        idToCustomClassMap := idToCustomClassMap[id.value := customClass.value];
        classNameToNibMap := classNameToNibMap[customClass.value := EmptyNib];
      }
    }

    /** The end handler. */
    method DidEndElement(tag: string) returns (fault: Option<Fault>)
      modifies this
      ensures url == old(url)
      ensures EndElement(old(State()), tag).Failure? ==> fault == Some(EndElement(old(State()), tag).error)
      ensures EndElement(old(State()), tag).Success? ==> fault == None && State() == EndElement(old(State()), tag).value
    {
      fault := None;
      if tag == "objects" {
        inObjects := false;
      } else if tag == "connections" {
        inConnections := false;
      } else if tag == "outlet" || tag == "outletCollection" || tag == "action" || tag == "segue" {
      } else if inObjects && tag != "viewControllerPlaceholder" {
        if stack == [] {
          return Some(PopEmptyStack(tag));
        }
        stack := stack[..|stack| - 1];
      }
    }
  }

  /** `NibParser`: reads one document at a time and keeps the segues of the last one read. */
  class NibParser {
    var allSegues: seq<SegueDeclaration>
    /** The identity the next segue object gets, shared across documents. */
    var nextRef: nat

    constructor()
      ensures allSegues == [] && nextRef == 0
    {
      allSegues := [];
      nextRef := 0;
    }

    /**
     * `mappingForFile(at:)`: feeds the document's events to a fresh delegate
     * and hands back its class-to-document mapping; the delegate's segues
     * replace the ones kept from the previous document.
     */
    method MappingForFile(url: string, events: seq<Event>) returns (r: Result<map<string, Nib>, Fault>)
      modifies this
      ensures Run(Initial(old(nextRef)), Some(url), events).Failure? ==>
                r == Failure(Run(Initial(old(nextRef)), Some(url), events).error)
      ensures Run(Initial(old(nextRef)), Some(url), events).Success? ==>
                var st := Run(Initial(old(nextRef)), Some(url), events).value;
                r == Success(st.classNameToNibMap) && allSegues == st.allSegues && nextRef == st.nextRef
    {
      var delegate := new ParserDelegate(Some(url), nextRef);
      for k := 0 to |events|
        invariant delegate.url == Some(url)
        invariant Run(Initial(old(nextRef)), Some(url), events) == Run(delegate.State(), Some(url), events[k..])
      {
        assert events[k..][1..] == events[k + 1..];
        var fault;
        match events[k] {
          case Start(tag, attributes, line, column) =>
            fault := delegate.DidStartElement(tag, attributes, line, column);
          case End(tag) =>
            fault := delegate.DidEndElement(tag);
        }
        if fault.Some? {
          return Failure(fault.value);
        }
      }
      allSegues := delegate.allSegues;
      nextRef := delegate.nextRef;
      return Success(delegate.classNameToNibMap);
    }
  }

  /** A document read from the start keeps every segue's owner named and every segue object distinct. */
  lemma MappingIsConsistent(firstRef: nat, url: string, events: seq<Event>)
    requires Run(Initial(firstRef), Some(url), events).Success?
    ensures Consistent(Run(Initial(firstRef), Some(url), events).value, Some(url))
  {
    InitialIsConsistent(firstRef, Some(url));
    RunKeepsConsistent(Initial(firstRef), Some(url), events);
  }

  /** Every segue a mapping holds has an identity in `lo` up to (not including) `hi`. */
  ghost predicate RefsWithin(m: map<string, Nib>, lo: nat, hi: nat) {
    forall c, i :: c in m && 0 <= i < |m[c].segues| ==> lo <= m[c].segues[i].ref < hi
  }

  /** Every segue of `m1` has a smaller identity than every segue of `m2`, so no object is shared. */
  ghost predicate RefsBefore(m1: map<string, Nib>, m2: map<string, Nib>) {
    forall c1, i1, c2, i2 :: c1 in m1 && 0 <= i1 < |m1[c1].segues| && c2 in m2 && 0 <= i2 < |m2[c2].segues|
                             ==> m1[c1].segues[i1].ref < m2[c2].segues[i2].ref
  }

  /**
   * A document read from the start hands out the identities from `firstRef`
   * on: its mapping and its segue list hold only identities from there up to
   * the parser's next one.
   */
  lemma DocumentRefsWithin(firstRef: nat, url: string, events: seq<Event>)
    requires Run(Initial(firstRef), Some(url), events).Success?
    ensures var st := Run(Initial(firstRef), Some(url), events).value;
            && firstRef <= st.nextRef
            && RefsWithin(st.classNameToNibMap, firstRef, st.nextRef)
            && forall i :: 0 <= i < |st.allSegues| ==> firstRef <= st.allSegues[i].ref < st.nextRef
  {
    var st := Run(Initial(firstRef), Some(url), events).value;
    MappingIsConsistent(firstRef, url, events);
    RunExtendsSegues(Initial(firstRef), Some(url), events);
    forall c, i | c in st.classNameToNibMap && 0 <= i < |st.classNameToNibMap[c].segues|
      ensures firstRef <= st.classNameToNibMap[c].segues[i].ref < st.nextRef
    {
      var s := st.classNameToNibMap[c].segues[i];
      assert s in st.classNameToNibMap[c].segues;
      assert s in st.allSegues;
    }
  }

  lemma RefsWithinThenBefore(m1: map<string, Nib>, m2: map<string, Nib>, lo: nat, mid: nat, hi: nat)
    requires RefsWithin(m1, lo, mid) && RefsWithin(m2, mid, hi)
    ensures RefsBefore(m1, m2)
  {
  }
}
