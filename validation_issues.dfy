/**
 * Validation issues of an app instance: the severity a message prefix selects,
 * the issues made from the errors of a model-state dictionary, and the rule
 * that decides whether the current process task can be completed.
 */
module ValidationIssues {
  import opened Wrappers

  /** ValidationIssueSeverity, in declaration order. */
  datatype Severity = Unspecified | Error | Warning | Informational | Fixed | Success

  /** The four message prefixes of GeneralSettings; only the fixed prefix may be null. */
  datatype GeneralSettings = GeneralSettings(
    softPrefix: string,
    fixedPrefix: Option<string>,
    infoPrefix: string,
    successPrefix: string)

  /** The (Severity, Message) pair GetSeverityFromMessage returns. */
  datatype Classified = Classified(severity: Severity, message: string)

  /** The prefix a message of the given severity had before it was removed. */
  function RemovedPrefix(settings: GeneralSettings, severity: Severity): string
  {
    match severity
    case Warning => settings.softPrefix
    case Fixed => if settings.fixedPrefix.Some? then settings.fixedPrefix.value else ""
    case Informational => settings.infoPrefix
    case Success => settings.successPrefix
    case _ => ""
  }

  /** One "message starts with this prefix" test and the severity it selects. */
  datatype PrefixRule = PrefixRule(prefix: string, severity: Severity)

  /** The prefix tests in the order they are tried; a null fixed prefix is skipped. */
  function PrefixRules(settings: GeneralSettings): (rules: seq<PrefixRule>)
    ensures forall rule :: rule in rules ==> rule.severity !in {Unspecified, Error}
    ensures forall rule :: rule in rules ==> rule.prefix == RemovedPrefix(settings, rule.severity)
  {
    [PrefixRule(settings.softPrefix, Warning)]
    + (if settings.fixedPrefix.Some? then [PrefixRule(settings.fixedPrefix.value, Fixed)] else [])
    + [PrefixRule(settings.infoPrefix, Informational), PrefixRule(settings.successPrefix, Severity.Success)]
  }

  predicate NoPrefixMatches(settings: GeneralSettings, message: string)
  {
    forall rule :: rule in PrefixRules(settings) ==> !(rule.prefix <= message)
  }

  /**
   * GetSeverityFromMessage: the first configured prefix the message starts
   * with selects the severity and is cut off; no match means an Error with
   * the message unchanged.
   */
  function GetSeverityFromMessage(settings: GeneralSettings, original: string): (r: Classified)
    ensures r.severity != Unspecified
    ensures RemovedPrefix(settings, r.severity) + r.message == original
  {
    if settings.softPrefix <= original then
      Classified(Warning, original[|settings.softPrefix|..])
    else if settings.fixedPrefix.Some? && settings.fixedPrefix.value <= original then
      Classified(Fixed, original[|settings.fixedPrefix.value|..])
    else if settings.infoPrefix <= original then
      Classified(Informational, original[|settings.infoPrefix|..])
    else if settings.successPrefix <= original then
      Classified(Severity.Success, original[|settings.successPrefix|..])
    else
      Classified(Error, original)
  }

  /** Reference reading of an ordered rule list: the first rule whose prefix matches wins. */
  function FirstMatch(rules: seq<PrefixRule>, message: string): Classified
  {
    if |rules| == 0 then Classified(Error, message)
    else if rules[0].prefix <= message then Classified(rules[0].severity, message[|rules[0].prefix|..])
    else FirstMatch(rules[1..], message)
  }

  /** With no matching rule the message is an Error, unchanged. */
  lemma {:induction false} FirstMatchNone(rules: seq<PrefixRule>, message: string)
    requires forall i :: 0 <= i < |rules| ==> !(rules[i].prefix <= message)
    ensures FirstMatch(rules, message) == Classified(Error, message)
  {
    if |rules| > 0 {
      assert forall i :: 0 <= i < |rules| - 1 ==> rules[1..][i] == rules[i + 1];
      FirstMatchNone(rules[1..], message);
    }
  }

  /** The first matching rule decides, whatever the rules after it say. */
  lemma {:induction false} FirstMatchAt(rules: seq<PrefixRule>, message: string, i: nat)
    requires i < |rules| && rules[i].prefix <= message
    requires forall j :: 0 <= j < i ==> !(rules[j].prefix <= message)
    ensures FirstMatch(rules, message) == Classified(rules[i].severity, message[|rules[i].prefix|..])
  {
    if i > 0 {
      assert forall j :: 0 <= j < i - 1 ==> rules[1..][j] == rules[j + 1];
      FirstMatchAt(rules[1..], message, i - 1);
    }
  }

  /** The chain of prefix tests is the first-match reading of PrefixRules. */
  lemma ClassifierIsFirstMatch(settings: GeneralSettings, original: string)
    ensures GetSeverityFromMessage(settings, original) == FirstMatch(PrefixRules(settings), original)
  {
    var rules := PrefixRules(settings);
    var n := |rules|;
    assert rules[0] == PrefixRule(settings.softPrefix, Warning);
    assert rules[n - 2] == PrefixRule(settings.infoPrefix, Informational);
    assert rules[n - 1] == PrefixRule(settings.successPrefix, Severity.Success);
    assert settings.fixedPrefix.Some? ==> n == 4 && rules[1] == PrefixRule(settings.fixedPrefix.value, Fixed);
    assert settings.fixedPrefix.None? ==> n == 3;
    if settings.softPrefix <= original {
      FirstMatchAt(rules, original, 0);
    } else if settings.fixedPrefix.Some? && settings.fixedPrefix.value <= original {
      FirstMatchAt(rules, original, 1);
    } else if settings.infoPrefix <= original {
      FirstMatchAt(rules, original, n - 2);
    } else if settings.successPrefix <= original {
      FirstMatchAt(rules, original, n - 1);
    } else {
      FirstMatchNone(rules, original);
    }
  }

  /** Some rule matched exactly when the first-match reading finds one. */
  lemma {:induction false} FirstMatchFound(rules: seq<PrefixRule>, message: string)
    requires exists i :: 0 <= i < |rules| && rules[i].prefix <= message
    ensures exists i :: 0 <= i < |rules| && FirstMatch(rules, message).severity == rules[i].severity
  {
    if !(rules[0].prefix <= message) {
      var i :| 0 <= i < |rules| && rules[i].prefix <= message;
      assert rules[1..][i - 1] == rules[i];
      FirstMatchFound(rules[1..], message);
      var k :| 0 <= k < |rules| - 1 && FirstMatch(rules[1..], message).severity == rules[1..][k].severity;
      assert rules[1..][k] == rules[k + 1];
    }
  }

  /** A message is classified as an Error exactly when none of the configured prefixes starts it. */
  lemma ErrorIffNoPrefixMatches(settings: GeneralSettings, original: string)
    ensures GetSeverityFromMessage(settings, original).severity == Error <==> NoPrefixMatches(settings, original)
    ensures GetSeverityFromMessage(settings, original).severity == Error
            ==> GetSeverityFromMessage(settings, original).message == original
  {
    var rules := PrefixRules(settings);
    ClassifierIsFirstMatch(settings, original);
    assert forall i :: 0 <= i < |rules| ==> rules[i] in rules;
    if NoPrefixMatches(settings, original) {
      FirstMatchNone(rules, original);
    } else {
      var rule :| rule in rules && rule.prefix <= original;
      FirstMatchFound(rules, original);
    }
  }

  /** A ValidationIssue; fields the rules here never set are left out. */
  datatype Issue = Issue(
    instanceId: string,
    dataElementId: Option<string>,
    code: string,
    field: Option<string>,
    severity: Severity,
    description: string)

  /** ModelValidationState of an ASP.NET Core model-state entry. */
  datatype ModelValidationState = Unvalidated | Invalid | Valid | Skipped

  /** One model-state entry: its key, its state and the messages of its errors. */
  datatype ModelStateEntry = ModelStateEntry(key: string, state: ModelValidationState, errors: seq<string>)

  /** ModelStateDictionary.IsValid: no entry is invalid or left unvalidated. */
  predicate IsValid(modelState: seq<ModelStateEntry>)
  {
    forall i :: 0 <= i < |modelState| ==> modelState[i].state in {Valid, Skipped}
  }

  /**
   * The issue for one error message. The data-element overload of
   * MapModelStateToIssueList passes a data element id and also sets Field to
   * the model key; the instance overload sets neither.
   */
  function ErrorIssue(settings: GeneralSettings, instanceId: string, dataElementId: Option<string>,
                      key: string, message: string): (r: Issue)
    ensures r.instanceId == instanceId && r.dataElementId == dataElementId
    ensures r.code == r.description && r.severity != Unspecified
    ensures RemovedPrefix(settings, r.severity) + r.code == message
    ensures r.field.Some? <==> dataElementId.Some?
    ensures r.field.Some? ==> r.field.value == key
  {
    var c := GetSeverityFromMessage(settings, message);
    Issue(instanceId, dataElementId, c.message, if dataElementId.Some? then Some(key) else None,
          c.severity, c.message)
  }

  /** The issues for a list of error messages, in order. */
  function ErrorIssues(settings: GeneralSettings, instanceId: string, dataElementId: Option<string>,
                       key: string, errors: seq<string>): seq<Issue>
  {
    if |errors| == 0 then []
    else ErrorIssues(settings, instanceId, dataElementId, key, errors[..|errors| - 1])
         + [ErrorIssue(settings, instanceId, dataElementId, key, errors[|errors| - 1])]
  }

  function EntryIssues(settings: GeneralSettings, instanceId: string, dataElementId: Option<string>,
                       entry: ModelStateEntry): seq<Issue>
  {
    if entry.state == Invalid then ErrorIssues(settings, instanceId, dataElementId, entry.key, entry.errors)
    else []
  }

  /** What MapModelStateToIssueList returns for the entries in dictionary order. */
  function ModelStateIssues(settings: GeneralSettings, modelState: seq<ModelStateEntry>,
                            instanceId: string, dataElementId: Option<string>): seq<Issue>
  {
    if |modelState| == 0 then []
    else ModelStateIssues(settings, modelState[..|modelState| - 1], instanceId, dataElementId)
         + EntryIssues(settings, instanceId, dataElementId, modelState[|modelState| - 1])
  }

  /** How many errors the invalid entries hold together. */
  function InvalidErrorCount(modelState: seq<ModelStateEntry>): nat
  {
    if |modelState| == 0 then 0
    else InvalidErrorCount(modelState[..|modelState| - 1])
         + (if modelState[|modelState| - 1].state == Invalid then |modelState[|modelState| - 1].errors| else 0)
  }

  lemma {:induction false} ErrorIssuesExactly(settings: GeneralSettings, instanceId: string,
                                              dataElementId: Option<string>, key: string, errors: seq<string>)
    ensures |ErrorIssues(settings, instanceId, dataElementId, key, errors)| == |errors|
    ensures forall j :: 0 <= j < |errors| ==>
      ErrorIssues(settings, instanceId, dataElementId, key, errors)[j]
        == ErrorIssue(settings, instanceId, dataElementId, key, errors[j])
  {
    if |errors| > 0 {
      var n := |errors| - 1;
      var front := ErrorIssues(settings, instanceId, dataElementId, key, errors[..n]);
      var last := ErrorIssue(settings, instanceId, dataElementId, key, errors[n]);
      ErrorIssuesExactly(settings, instanceId, dataElementId, key, errors[..n]);
      assert forall j :: 0 <= j < n ==> errors[..n][j] == errors[j];
    }
  }

  /** The issues of one entry: one per error when it is invalid, none otherwise. */
  lemma EntryIssueMembership(settings: GeneralSettings, instanceId: string, dataElementId: Option<string>,
                             entry: ModelStateEntry, issue: Issue)
    ensures issue in EntryIssues(settings, instanceId, dataElementId, entry)
            <==> entry.state == Invalid
                 && exists j :: 0 <= j < |entry.errors|
                      && issue == ErrorIssue(settings, instanceId, dataElementId, entry.key, entry.errors[j])
  {
    ErrorIssuesExactly(settings, instanceId, dataElementId, entry.key, entry.errors);
  }

  /** One issue per error of every invalid entry, nothing for the other entries. */
  lemma {:induction false} ModelStateIssueCount(settings: GeneralSettings, modelState: seq<ModelStateEntry>,
                                                instanceId: string, dataElementId: Option<string>)
    ensures |ModelStateIssues(settings, modelState, instanceId, dataElementId)| == InvalidErrorCount(modelState)
  {
    if |modelState| > 0 {
      var last := modelState[|modelState| - 1];
      ModelStateIssueCount(settings, modelState[..|modelState| - 1], instanceId, dataElementId);
      ErrorIssuesExactly(settings, instanceId, dataElementId, last.key, last.errors);
    }
  }

  /** An issue is produced exactly when it is the issue of some error of some invalid entry. */
  lemma {:induction false} ModelStateIssueMembership(settings: GeneralSettings, modelState: seq<ModelStateEntry>,
                                                     instanceId: string, dataElementId: Option<string>, issue: Issue)
    ensures issue in ModelStateIssues(settings, modelState, instanceId, dataElementId)
            <==> exists i, j :: 0 <= i < |modelState| && modelState[i].state == Invalid
                   && 0 <= j < |modelState[i].errors|
                   && issue == ErrorIssue(settings, instanceId, dataElementId, modelState[i].key, modelState[i].errors[j])
  {
    if |modelState| > 0 {
      var n := |modelState| - 1;
      var front, last := modelState[..n], modelState[n];
      ModelStateIssueMembership(settings, front, instanceId, dataElementId, issue);
      EntryIssueMembership(settings, instanceId, dataElementId, last, issue);
      assert forall i :: 0 <= i < n ==> front[i] == modelState[i];
    }
  }

  /** Entries that are not invalid add nothing, so a valid dictionary maps to no issues. */
  lemma NoInvalidEntryNoIssues(settings: GeneralSettings, modelState: seq<ModelStateEntry>,
                               instanceId: string, dataElementId: Option<string>)
    requires forall i :: 0 <= i < |modelState| ==> modelState[i].state != Invalid
    ensures ModelStateIssues(settings, modelState, instanceId, dataElementId) == []
  {
    var issues := ModelStateIssues(settings, modelState, instanceId, dataElementId);
    if |issues| > 0 {
      ModelStateIssueMembership(settings, modelState, instanceId, dataElementId, issues[0]);
    }
  }

  /** Every issue of a model-state dictionary belongs to the instance and has Code == Description. */
  lemma ModelStateIssueShape(settings: GeneralSettings, modelState: seq<ModelStateEntry>,
                             instanceId: string, dataElementId: Option<string>)
    ensures forall issue :: issue in ModelStateIssues(settings, modelState, instanceId, dataElementId) ==>
      issue.instanceId == instanceId && issue.dataElementId == dataElementId
      && issue.code == issue.description && issue.severity != Unspecified
      && (issue.field.Some? <==> dataElementId.Some?)
  {
    forall issue | issue in ModelStateIssues(settings, modelState, instanceId, dataElementId)
      ensures issue.instanceId == instanceId && issue.dataElementId == dataElementId
              && issue.code == issue.description && issue.severity != Unspecified
              && (issue.field.Some? <==> dataElementId.Some?)
    {
      ModelStateIssueMembership(settings, modelState, instanceId, dataElementId, issue);
    }
  }

  /** A severity that keeps the task from being completed. */
  predicate Blocks(severity: Severity)
  {
    severity == Error || severity == Unspecified
  }

  /** Enumerable.All over the messages: none blocks. */
  function AllNonBlocking(messages: seq<Issue>): (r: bool)
    ensures r <==> forall i :: 0 <= i < |messages| ==> !Blocks(messages[i].severity)
  {
    if |messages| == 0 then true
    else !Blocks(messages[0].severity) && AllNonBlocking(messages[1..])
  }

  /** ValidationStatus.CanCompleteTask: no messages at all, or none is an Error or Unspecified. */
  function CanCompleteTask(messages: seq<Issue>): (r: bool)
    ensures r <==> forall m :: m in messages ==> m.severity !in {Error, Unspecified}
  {
    |messages| == 0 || AllNonBlocking(messages)
  }

  /** Completion is decided message by message, so it distributes over concatenation. */
  lemma CanCompleteTaskAppend(a: seq<Issue>, b: seq<Issue>)
    ensures CanCompleteTask(a + b) <==> CanCompleteTask(a) && CanCompleteTask(b)
  {
    assert forall m :: m in a + b <==> m in a || m in b;
  }
}
