/**
 * The tool's rule flags and the command-line setup that turns them on.
 * The tool keeps them in a process-wide singleton; here the configuration is
 * an object the caller owns, and the formatting code is given its flags.
 */
module Rules {
  import opened Wrappers

  datatype Rule = IgnoreOptionalProperty | ReportMissingAsError | ReportMissingToController

  /** The rule's raw value, which is also the command-line argument that enables it. */
  function RawValue(rule: Rule): string {
    match rule
    case IgnoreOptionalProperty => "ignoreOptionalProperty"
    case ReportMissingAsError => "reportMissingAsError"
    case ReportMissingToController => "reportMissingToController"
  }

  /** `Rule(rawValue:)`: the rule an argument names, if any. */
  function RuleNamed(argument: string): (r: Option<Rule>)
    ensures r.Some? ==> RawValue(r.value) == argument
    ensures r.None? ==> forall rule :: RawValue(rule) != argument
  {
    if argument == "ignoreOptionalProperty" then Some(IgnoreOptionalProperty)
    else if argument == "reportMissingAsError" then Some(ReportMissingAsError)
    else if argument == "reportMissingToController" then Some(ReportMissingToController)
    else None
  }

  lemma RawValueRoundTrip(rule: Rule)
    ensures RuleNamed(RawValue(rule)) == Some(rule)
  {
  }

  type Flags = map<Rule, bool>

  /** Every rule starts out disabled. */
  const DefaultFlags: Flags := map[IgnoreOptionalProperty := false, ReportMissingAsError := false,
                                   ReportMissingToController := false]

  /** `isEnabled`: an absent entry counts as disabled. */
  predicate IsEnabled(flags: Flags, rule: Rule) {
    rule in flags && flags[rule]
  }

  /** `missingIssueType`: the severity of missing outlets, missing actions and broken unwind segues. */
  function MissingIssueType(flags: Flags): (r: string)
    ensures r == "error" <==> IsEnabled(flags, ReportMissingAsError)
    ensures r == "warning" <==> !IsEnabled(flags, ReportMissingAsError)
  {
    if IsEnabled(flags, ReportMissingAsError) then "error" else "warning"
  }

  /** The flags after `setup(with:)` has read `arguments`, one after the other. */
  function WithArguments(flags: Flags, arguments: seq<string>): Flags
    decreases |arguments|
  {
    if arguments == [] then flags
    else
      var next := match RuleNamed(arguments[0])
        case Some(rule) => flags[rule := true]
        case None => flags;
      WithArguments(next, arguments[1..])
  }

  /**
   * Setup enables exactly the rules some argument names, on top of those
   * already enabled; it never disables a rule.
   */
  lemma {:induction false} WithArgumentsEnables(flags: Flags, arguments: seq<string>, rule: Rule)
    ensures IsEnabled(WithArguments(flags, arguments), rule) <==> IsEnabled(flags, rule) || RawValue(rule) in arguments
    decreases |arguments|
  {
    if arguments != [] {
      var next := match RuleNamed(arguments[0])
        case Some(r) => flags[r := true]
        case None => flags;
      WithArgumentsEnables(next, arguments[1..], rule);
      assert RawValue(rule) in arguments <==> RawValue(rule) == arguments[0] || RawValue(rule) in arguments[1..];
    }
  }

  /** Setup only writes `true`: an entry it has is the old entry or `true`, and it adds no entry for an unnamed rule. */
  lemma {:induction false} WithArgumentsOnlyEnables(flags: Flags, arguments: seq<string>, rule: Rule)
    ensures rule in WithArguments(flags, arguments) <==> rule in flags || RawValue(rule) in arguments
    ensures (rule in WithArguments(flags, arguments) && RawValue(rule) !in arguments) ==>
              WithArguments(flags, arguments)[rule] == flags[rule]
    decreases |arguments|
  {
    if arguments != [] {
      var next := match RuleNamed(arguments[0])
        case Some(r) => flags[r := true]
        case None => flags;
      WithArgumentsOnlyEnables(next, arguments[1..], rule);
      assert RawValue(rule) in arguments <==> RawValue(rule) == arguments[0] || RawValue(rule) in arguments[1..];
    }
  }

  /** Running setup twice with the same arguments changes nothing the second time. */
  lemma WithArgumentsIdempotent(flags: Flags, arguments: seq<string>)
    ensures WithArguments(WithArguments(flags, arguments), arguments) == WithArguments(flags, arguments)
  {
    var once := WithArguments(flags, arguments);
    var twice := WithArguments(once, arguments);
    forall rule
      ensures rule in twice <==> rule in once
      ensures rule in twice ==> twice[rule] == once[rule]
    {
      WithArgumentsOnlyEnables(flags, arguments, rule);
      WithArgumentsOnlyEnables(once, arguments, rule);
      WithArgumentsEnables(flags, arguments, rule);
      WithArgumentsEnables(once, arguments, rule);
    }
  }

  /** The rule flags of one run. */
  class Configuration {
    var configuration: Flags

    constructor ()
      ensures configuration == DefaultFlags
    {
      configuration := DefaultFlags;
    }

    /** `setup(with:)`: every argument that is a rule's raw value enables that rule. */
    method Setup(arguments: seq<string>)
      modifies this
      ensures configuration == WithArguments(old(configuration), arguments)
    {
      var i := 0;
      while i < |arguments|
        invariant 0 <= i <= |arguments|
        invariant WithArguments(configuration, arguments[i..]) == WithArguments(old(configuration), arguments)
      {
        assert arguments[i..][1..] == arguments[i + 1..];
        var rule := RuleNamed(arguments[i]);
        if rule.Some? {
          configuration := configuration[rule.value := true];
        }
        i := i + 1;
      }
    }
  }
}
