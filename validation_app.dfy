/**
 * ValidationAppSI's list-building operations. The services it calls (the
 * instance validator, the form-data service, the object-model validator, the
 * process update) are replaced by their results, passed in as parameters.
 */
module ValidationApp {
  import opened Wrappers
  import opened ValidationIssues
  import opened ValidationRules

  /** Instance.Process.CurrentTask.Validated; the timestamp is the caller's clock reading. */
  datatype ValidationStatus = ValidationStatus(canCompleteTask: bool, timestamp: int)

  /** The parts of an Instance validation reads and writes. */
  class Instance {
    const id: string
    var data: seq<DataElement>
    var validated: Option<ValidationStatus>

    constructor (id: string, data: seq<DataElement>)
      ensures this.id == id && this.data == data && validated.None?
    {
      this.id := id;
      this.data := data;
      validated := None;
    }
  }

  /** Appends the issues of one entry's errors, in order. */
  method AppendErrorIssues(settings: GeneralSettings, issues: seq<Issue>, instanceId: string,
                           dataElementId: Option<string>, entry: ModelStateEntry)
    returns (r: seq<Issue>)
    requires entry.state == Invalid
    ensures r == issues + EntryIssues(settings, instanceId, dataElementId, entry)
  {
    r := issues;
    var e := 0;
    while e < |entry.errors|
      invariant 0 <= e <= |entry.errors|
      invariant r == issues + ErrorIssues(settings, instanceId, dataElementId, entry.key, entry.errors[..e])
    {
      var c := GetSeverityFromMessage(settings, entry.errors[e]);
      var field := if dataElementId.Some? then Some(entry.key) else None;
      r := r + [Issue(instanceId, dataElementId, c.message, field, c.severity, c.message)];
      assert entry.errors[..e + 1][..e] == entry.errors[..e];
      e := e + 1;
    }
    assert entry.errors[..e] == entry.errors;
  }

  /** The loop shared by both overloads; `dataElementId` is None for the instance overload. */
  method MapEntries(settings: GeneralSettings, modelState: seq<ModelStateEntry>, instanceId: string,
                    dataElementId: Option<string>)
    returns (issues: seq<Issue>)
    ensures issues == ModelStateIssues(settings, modelState, instanceId, dataElementId)
  {
    issues := [];
    var k := 0;
    while k < |modelState|
      invariant 0 <= k <= |modelState|
      invariant issues == ModelStateIssues(settings, modelState[..k], instanceId, dataElementId)
    {
      var entry := modelState[k];
      if entry.state == Invalid {
        issues := AppendErrorIssues(settings, issues, instanceId, dataElementId, entry);
      }
      assert modelState[..k + 1][..k] == modelState[..k];
      k := k + 1;
    }
    assert modelState[..k] == modelState;
  }

  /** MapModelStateToIssueList for a data element: DataElementId and Field are set. */
  method MapModelStateToIssueList(settings: GeneralSettings, modelState: seq<ModelStateEntry>,
                                  instanceId: string, dataElementId: string)
    returns (issues: seq<Issue>)
    ensures issues == ModelStateIssues(settings, modelState, instanceId, Some(dataElementId))
    ensures |issues| == InvalidErrorCount(modelState)
  {
    issues := MapEntries(settings, modelState, instanceId, Some(dataElementId));
    ModelStateIssueCount(settings, modelState, instanceId, Some(dataElementId));
  }

  /** MapModelStateToIssueList for the instance: neither DataElementId nor Field is set. */
  method MapModelStateToInstanceIssueList(settings: GeneralSettings, modelState: seq<ModelStateEntry>,
                                          instanceId: string)
    returns (issues: seq<Issue>)
    ensures issues == ModelStateIssues(settings, modelState, instanceId, None)
    ensures |issues| == InvalidErrorCount(modelState)
  {
    issues := MapEntries(settings, modelState, instanceId, None);
    ModelStateIssueCount(settings, modelState, instanceId, None);
  }

  /** ValidateDataElement; `formState` is what the form-data validators leave in the model state. */
  method ValidateDataElement(settings: GeneralSettings, instanceId: string, dataType: DataType,
                             element: DataElement, formState: seq<ModelStateEntry>)
    returns (messages: seq<Issue>)
    ensures messages == DataElementIssues(settings, instanceId, dataType, element, formState)
  {
    var ruleIssues := [];
    if element.contentType.None? {
      ruleIssues := ruleIssues + [RuleIssue(instanceId, Some(element.id), MissingContentType, None)];
    } else if ContentTypeRejected(dataType.allowedContentTypes, element.contentType.value) {
      ruleIssues := ruleIssues + [RuleIssue(instanceId, Some(element.id), ContentTypeNotAllowed, Some(dataType.id))];
    }
    if TooLarge(dataType, element.size) {
      ruleIssues := ruleIssues + [RuleIssue(instanceId, Some(element.id), DataElementTooLarge, Some(dataType.id))];
    }
    assert ruleIssues == ElementRuleIssues(instanceId, dataType, element);
    messages := ruleIssues;
    if dataType.classRef.Some? {
      if !IsValid(formState) {
        var mapped := MapModelStateToIssueList(settings, formState, instanceId, element.id);
        messages := messages + mapped;
      }
    }
  }

  /** instance.Data.Where(d => d.DataType == id).ToList(). */
  method SelectElements(data: seq<DataElement>, dataTypeId: string) returns (elements: seq<DataElement>)
    ensures elements == ElementsOfType(data, dataTypeId)
  {
    elements := [];
    var i := |data|;
    while i > 0
      invariant 0 <= i <= |data|
      invariant elements == ElementsOfType(data[i..], dataTypeId)
    {
      i := i - 1;
      assert data[i..][1..] == data[i + 1..];
      if data[i].dataType == dataTypeId {
        elements := [data[i]] + elements;
      }
    }
  }

  lemma AppendAssociates(a: seq<Issue>, b: seq<Issue>, c: seq<Issue>)
    ensures a + b + c == a + (b + c)
  {
  }

  /** The body of the loop over the task's data types: the count checks, then each element. */
  method ValidateDataType(settings: GeneralSettings, instanceId: string, dataType: DataType,
                          data: seq<DataElement>, formState: DataElement -> seq<ModelStateEntry>)
    returns (messages: seq<Issue>)
    ensures messages == DataTypeIssues(settings, instanceId, dataType, data, formState)
  {
    messages := [];
    var elements := SelectElements(data, dataType.id);
    if dataType.maxCount > 0 && dataType.maxCount < |elements| {
      messages := messages + [RuleIssue(instanceId, None, TooManyDataElementsOfType, Some(dataType.id))];
    }
    if dataType.minCount > 0 && dataType.minCount > |elements| {
      messages := messages + [RuleIssue(instanceId, None, TooFewDataElementsOfType, Some(dataType.id))];
    }
    var counted := messages;
    assert counted == CountIssues(instanceId, dataType, |elements|);
    var e := 0;
    while e < |elements|
      invariant 0 <= e <= |elements|
      invariant messages == counted + ElementsIssues(settings, instanceId, dataType, elements[..e], formState)
    {
      var issues := ValidateDataElement(settings, instanceId, dataType, elements[e], formState(elements[e]));
      ElementsIssuesStep(settings, instanceId, dataType, elements, formState, e);
      AppendAssociates(counted, ElementsIssues(settings, instanceId, dataType, elements[..e], formState), issues);
      messages := messages + issues;
      e := e + 1;
    }
    assert elements[..e] == elements;
  }

  /**
   * ValidateAndUpdateProcess. `taskState` is what the task validator leaves in
   * the model state, `formState` what the form validators leave for each data
   * element, and `now` the clock reading stored with the result.
   */
  method ValidateAndUpdateProcess(instance: Instance, taskId: string, settings: GeneralSettings,
                                  dataTypes: seq<DataType>, taskState: seq<ModelStateEntry>,
                                  formState: DataElement -> seq<ModelStateEntry>, now: int)
    returns (messages: seq<Issue>)
    modifies instance
    ensures instance.data == old(instance.data)
    ensures messages == ProcessIssues(settings, instance.id, taskId, dataTypes, instance.data, taskState, formState)
    ensures instance.validated == Some(ValidationStatus(CanCompleteTask(messages), now))
  {
    var id, data := instance.id, instance.data;
    var taskIssues := MapModelStateToInstanceIssueList(settings, taskState, id);
    messages := taskIssues;
    var k := 0;
    while k < |dataTypes|
      invariant 0 <= k <= |dataTypes|
      invariant instance.data == data
      invariant messages == taskIssues + TaskDataIssues(settings, id, taskId, dataTypes[..k], data, formState)
    {
      var dataType := dataTypes[k];
      var issues := [];
      if dataType.taskId == taskId {
        issues := ValidateDataType(settings, id, dataType, data, formState);
      }
      TaskDataIssuesStep(settings, id, taskId, dataTypes, data, formState, k);
      ghost var done := TaskDataIssues(settings, id, taskId, dataTypes[..k], data, formState);
      assert TaskDataIssues(settings, id, taskId, dataTypes[..k + 1], data, formState) == done + issues;
      AppendAssociates(taskIssues, done, issues);
      messages := messages + issues;
      k := k + 1;
    }
    assert dataTypes[..k] == dataTypes;
    instance.validated := Some(ValidationStatus(CanCompleteTask(messages), now));
  }
}
