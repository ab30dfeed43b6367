/**
 * The issues the connection analyzer reports, their seriousness, and the
 * one-line text the tool prints for each (`<location>: <severity>: <message>`).
 */
module ConnectionIssues {
  import opened Wrappers
  import opened Text
  import opened Models
  import opened Rules

  datatype ConnectionIssue =
    | MissingOutlet(className: string, outlet: Declaration)
    | MissingAction(className: string, action: Declaration)
    | UnnecessaryOutlet(className: string, outlet: Declaration)
    | UnnecessaryAction(className: string, action: Declaration)
    | UnknownSegueIdentifier(className: string, segueIdentifier: SegueIdentifier)
    | BrokenUnwindSegue(className: string, segueDeclaration: SegueDeclaration)

  /** Missing connections and broken unwind segues are serious; unused code is advisory. */
  predicate IsSeriousViolation(issue: ConnectionIssue): (r: bool)
    ensures r <==> !(issue.UnnecessaryOutlet? || issue.UnnecessaryAction? || issue.UnknownSegueIdentifier?)
  {
    issue.MissingOutlet? || issue.MissingAction? || issue.BrokenUnwindSegue?
  }

  /** A broken unwind segue names the unwind action it looked for; the message unwraps it. */
  predicate WellFormed(issue: ConnectionIssue) {
    issue.BrokenUnwindSegue? ==> issue.segueDeclaration.unwindAction.Some?
  }

  /** The severity word of an issue's line. */
  function Severity(issue: ConnectionIssue, flags: Flags): (r: string)
    ensures r == "error" <==> IsSeriousViolation(issue) && IsEnabled(flags, ReportMissingAsError)
    ensures r == "warning" <==> !(IsSeriousViolation(issue) && IsEnabled(flags, ReportMissingAsError))
  {
    if IsSeriousViolation(issue) then MissingIssueType(flags) else "warning"
  }

  /** The location an issue is reported at. */
  function Location(issue: ConnectionIssue): string {
    match issue
    case MissingOutlet(_, outlet) => DeclarationDescription(outlet)
    case MissingAction(_, action) => DeclarationDescription(action)
    case UnnecessaryOutlet(_, outlet) => DeclarationDescription(outlet)
    case UnnecessaryAction(_, action) => DeclarationDescription(action)
    case UnknownSegueIdentifier(_, segueIdentifier) => SegueIdentifierDescription(segueIdentifier)
    case BrokenUnwindSegue(_, segueDeclaration) => SegueDescription(segueDeclaration)
  }

  /** The fixed opening of each kind of message. */
  function Header(issue: ConnectionIssue): string {
    match issue
    case MissingOutlet(_, _) => "IBOutlet missing: "
    case MissingAction(_, _) => "IBAction missing: '"
    case UnnecessaryOutlet(_, _) => "IBOutlet unused: "
    case UnnecessaryAction(_, _) => "IBAction unused: '"
    case UnknownSegueIdentifier(_, _) => "Unknown Identifier: '"
    case BrokenUnwindSegue(_, _) => "Broken Connection: '"
  }

  /** The name a message is about: the outlet, the action, the identifier, or the unwind action. */
  function Subject(issue: ConnectionIssue): string
    requires WellFormed(issue)
  {
    match issue
    case MissingOutlet(_, outlet) => outlet.name
    case MissingAction(_, action) => action.name
    case UnnecessaryOutlet(_, outlet) => outlet.name
    case UnnecessaryAction(_, action) => action.name
    case UnknownSegueIdentifier(_, segueIdentifier) => segueIdentifier.identifier
    case BrokenUnwindSegue(_, segueDeclaration) => segueDeclaration.unwindAction.value
  }

  /** What follows the subject in each kind of message. */
  function Tail(issue: ConnectionIssue): string {
    match issue
    case MissingOutlet(className, outlet) =>
      var interfaceObjectDescription := if outlet.parentClass.Some? then "in " + outlet.parentClass.value + " " else "";
      " is not connected " + interfaceObjectDescription + "in " + FileName(outlet, className)
    case MissingAction(className, action) =>
      "' is not implemented in " + FileName(action, className)
    case UnnecessaryOutlet(className, outlet) =>
      var suggestion :=
        if outlet.isOptional then ", remove warning by adding '" + RawValue(IgnoreOptionalProperty) + "' argument"
        else ", consider set '" + outlet.name + "' Optional";
      " not linked in " + FileName(outlet, className) + suggestion
    case UnnecessaryAction(className, action) =>
      "' not linked in " + FileName(action, className)
    case UnknownSegueIdentifier(className, _) =>
      "' does not identify any segues from " + className + " in Main.storyboard"
    case BrokenUnwindSegue(className, _) =>
      "' does not identify any @IBAction functions (" + className + ")"
  }

  /** `formattedDescription`: the message proper, which opens with its kind's header and then names its subject. */
  function FormattedDescription(issue: ConnectionIssue): (r: string)
    requires WellFormed(issue)
    ensures |r| >= |Header(issue)| + |Subject(issue)|
    ensures r[..|Header(issue)|] == Header(issue)
    ensures r[|Header(issue)|..|Header(issue)| + |Subject(issue)|] == Subject(issue)
  {
    var header, subject := Header(issue), Subject(issue);
    assert (header + subject + Tail(issue))[..|header|] == header;
    assert (header + subject + Tail(issue))[|header|..|header| + |subject|] == subject;
    header + subject + Tail(issue)
  }

  /**
   * `description`: the printed line. An unused optional outlet prints nothing
   * when optional properties are ignored.
   */
  function Description(issue: ConnectionIssue, flags: Flags): (r: string)
    requires WellFormed(issue)
    ensures r == "" <==> issue.UnnecessaryOutlet? && IsEnabled(flags, IgnoreOptionalProperty) && issue.outlet.isOptional
    ensures r != "" ==> r == Location(issue) + ": " + Severity(issue, flags) + ": " + FormattedDescription(issue)
  {
    if issue.UnnecessaryOutlet? && IsEnabled(flags, IgnoreOptionalProperty) && issue.outlet.isOptional then ""
    else Location(issue) + ": " + Severity(issue, flags) + ": " + FormattedDescription(issue)
  }

  // ---------------------------------------------------------------------------
  // Reading a message back
  // ---------------------------------------------------------------------------

  // The tool never reads its messages back. The classifier below only serves
  // to show that the message format keeps the kinds of issue apart.

  datatype IssueKind = MissingOutletKind | MissingActionKind | UnnecessaryOutletKind | UnnecessaryActionKind
                     | UnknownSegueIdentifierKind | BrokenUnwindSegueKind

  function KindOf(issue: ConnectionIssue): IssueKind {
    match issue
    case MissingOutlet(_, _) => MissingOutletKind
    case MissingAction(_, _) => MissingActionKind
    case UnnecessaryOutlet(_, _) => UnnecessaryOutletKind
    case UnnecessaryAction(_, _) => UnnecessaryActionKind
    case UnknownSegueIdentifier(_, _) => UnknownSegueIdentifierKind
    case BrokenUnwindSegue(_, _) => BrokenUnwindSegueKind
  }

  /** Recognises the kind of a message from three of its first ten characters. */
  function KindOfMessage(message: string): Option<IssueKind> {
    if |message| < 10 then None
    else if message[0] == 'U' then Some(UnknownSegueIdentifierKind)
    else if message[0] == 'B' then Some(BrokenUnwindSegueKind)
    else if message[0] != 'I' then None
    else if message[2] == 'O' then
      if message[9] == 'm' then Some(MissingOutletKind) else Some(UnnecessaryOutletKind)
    else
      if message[9] == 'm' then Some(MissingActionKind) else Some(UnnecessaryActionKind)
  }

  /** Any text that opens with an issue's header is recognised as that issue's kind. */
  lemma KindFromHeader(message: string, issue: ConnectionIssue)
    requires |Header(issue)| <= |message| && message[..|Header(issue)|] == Header(issue)
    ensures KindOfMessage(message) == Some(KindOf(issue))
  {
    var header := Header(issue);
    assert message[0] == header[0] && message[2] == header[2] && message[9] == header[9] by {
      assert message[0] == message[..|header|][0];
      assert message[2] == message[..|header|][2];
      assert message[9] == message[..|header|][9];
    }
  }

  /** Every message tells which kind of issue it reports. */
  lemma MessageRevealsKind(issue: ConnectionIssue)
    requires WellFormed(issue)
    ensures KindOfMessage(FormattedDescription(issue)) == Some(KindOf(issue))
  {
    KindFromHeader(FormattedDescription(issue), issue);
  }

  /** Two issues with the same message are of the same kind and about the same name. */
  lemma MessagesDistinguishKinds(a: ConnectionIssue, b: ConnectionIssue)
    requires WellFormed(a) && WellFormed(b)
    requires FormattedDescription(a) == FormattedDescription(b)
    ensures KindOf(a) == KindOf(b)
    ensures |Subject(a)| == |Subject(b)| ==> Subject(a) == Subject(b)
  {
    MessageRevealsKind(a);
    MessageRevealsKind(b);
    SameKindSameHeader(a, b);
    var m, h := FormattedDescription(a), |Header(a)|;
    if |Subject(a)| == |Subject(b)| {
      assert Subject(a) == m[h..h + |Subject(a)|] == Subject(b);
    }
  }

  lemma SameKindSameHeader(a: ConnectionIssue, b: ConnectionIssue)
    requires KindOf(a) == KindOf(b)
    ensures Header(a) == Header(b)
  {
  }

  // ---------------------------------------------------------------------------
  // The lines the tool's tests expect
  // ---------------------------------------------------------------------------

  /**
   * A missing outlet declared in a document without an interface object name
   * reads `<location>: <severity>: IBOutlet missing: <name> is not connected in <class>`.
   */
  lemma MissingOutletLine(className: string, d: Declaration, flags: Flags)
    requires d.url.None? && d.parentClass.None?
    ensures FormattedDescription(MissingOutlet(className, d))
            == "IBOutlet missing: " + d.name + " is not connected in " + className
    ensures Description(MissingOutlet(className, d), flags)
            == DeclarationDescription(d) + ": " + MissingIssueType(flags) + ": " + FormattedDescription(MissingOutlet(className, d))
  {
    var issue := MissingOutlet(className, d);
    assert Header(issue) == "IBOutlet missing: ";
    assert Subject(issue) == d.name;
    assert Tail(issue) == " is not connected in " + className;
  }

  /** A missing action reads `<location>: <severity>: IBAction missing: '<name>' is not implemented in <class>`. */
  lemma MissingActionLine(className: string, d: Declaration, flags: Flags)
    requires d.url.None?
    ensures FormattedDescription(MissingAction(className, d))
            == "IBAction missing: '" + d.name + "' is not implemented in " + className
    ensures Description(MissingAction(className, d), flags)
            == DeclarationDescription(d) + ": " + MissingIssueType(flags) + ": " + FormattedDescription(MissingAction(className, d))
  {
    var issue := MissingAction(className, d);
    assert Header(issue) == "IBAction missing: '";
    assert Subject(issue) == d.name;
    assert Tail(issue) == "' is not implemented in " + className;
  }

  /** An unused outlet that is not optional suggests making it optional. */
  lemma UnnecessaryOutletSuggestsOptional(className: string, d: Declaration)
    requires d.url.None? && !d.isOptional
    ensures FormattedDescription(UnnecessaryOutlet(className, d))
            == "IBOutlet unused: " + d.name + " not linked in " + className + ", consider set '" + d.name + "' Optional"
  {
    var issue := UnnecessaryOutlet(className, d);
    assert Header(issue) == "IBOutlet unused: ";
    assert Subject(issue) == d.name;
    assert Tail(issue) == " not linked in " + className + ", consider set '" + d.name + "' Optional";
  }

  /** An unused optional outlet suggests passing the argument that ignores optional properties. */
  lemma UnnecessaryOutletSuggestsRule(className: string, d: Declaration)
    requires d.url.None? && d.isOptional
    ensures FormattedDescription(UnnecessaryOutlet(className, d))
            == "IBOutlet unused: " + d.name + " not linked in " + className
               + ", remove warning by adding '" + RawValue(IgnoreOptionalProperty) + "' argument"
  {
    var issue := UnnecessaryOutlet(className, d);
    assert Header(issue) == "IBOutlet unused: ";
    assert Subject(issue) == d.name;
    assert Tail(issue) == " not linked in " + className + ", remove warning by adding '" + RawValue(IgnoreOptionalProperty) + "' argument";
  }

  /** The location of a declaration without a file is its name without colons, then its line and column. */
  lemma DeclarationWithoutFileLocation(d: Declaration)
    requires d.url.None? && d.parentClassPath.None?
    ensures DeclarationDescription(d) == RemoveAll(d.name, ':') + ":" + IntToString(d.line) + ":" + IntToString(d.column)
  {
  }
}
