/**
 * The checks ValidationAppSI applies to the data of an instance: element
 * counts per data type, the content-type allow-list, the size limit, and the
 * form-data validation result of data types bound to a model class.
 */
module ValidationRules {
  import opened Wrappers
  import opened ValidationIssues

  /** The parts of a DataType the checks read. */
  datatype DataType = DataType(
    id: string,
    taskId: string,
    maxCount: int,
    minCount: int,
    allowedContentTypes: Option<seq<string>>,
    maxSize: Option<int>,
    classRef: Option<string>)

  /** The parts of a DataElement the checks read; size is in bytes. */
  datatype DataElement = DataElement(id: string, dataType: string, contentType: Option<string>, size: int)

  // ValidationIssueCodes; each code is the name of its constant.
  const TooManyDataElementsOfType := "TooManyDataElementsOfType"
  const TooFewDataElementsOfType := "TooFewDataElementsOfType"
  const MissingContentType := "MissingContentType"
  const ContentTypeNotAllowed := "ContentTypeNotAllowed"
  const DataElementTooLarge := "DataElementTooLarge"

  /** An Error issue whose Description repeats its Code. */
  function RuleIssue(instanceId: string, dataElementId: Option<string>, code: string, field: Option<string>): Issue
  {
    Issue(instanceId, dataElementId, code, field, Error, code)
  }

  predicate TooMany(dataType: DataType, count: int)
  {
    dataType.maxCount > 0 && dataType.maxCount < count
  }

  predicate TooFew(dataType: DataType, count: int)
  {
    dataType.minCount > 0 && dataType.minCount > count
  }

  /** The issues of the count checks for one data type holding `count` elements. */
  function CountIssues(instanceId: string, dataType: DataType, count: int): seq<Issue>
  {
    (if TooMany(dataType, count) then [RuleIssue(instanceId, None, TooManyDataElementsOfType, Some(dataType.id))] else [])
    + (if TooFew(dataType, count) then [RuleIssue(instanceId, None, TooFewDataElementsOfType, Some(dataType.id))] else [])
  }

  /** Each count issue is raised exactly when its rule fires; both are Errors of the instance. */
  lemma CountIssuesIff(instanceId: string, dataType: DataType, count: int)
    ensures var r := CountIssues(instanceId, dataType, count);
      && (RuleIssue(instanceId, None, TooManyDataElementsOfType, Some(dataType.id)) in r <==> TooMany(dataType, count))
      && (RuleIssue(instanceId, None, TooFewDataElementsOfType, Some(dataType.id)) in r <==> TooFew(dataType, count))
      && (forall issue :: issue in r ==> issue.severity == Error && issue.instanceId == instanceId)
      && |r| <= 2
  {
  }

  /** String.Split(";")[0]: the text up to the first semicolon, or all of it. */
  function MediaType(contentType: string): (r: string)
    ensures r <= contentType && ';' !in r
    ensures |r| < |contentType| ==> contentType[|r|] == ';'
  {
    if |contentType| == 0 || contentType[0] == ';' then ""
    else [contentType[0]] + MediaType(contentType[1..])
  }

  /** Parameters after the first semicolon never reach the comparison. */
  lemma MediaTypeDropsParameters(mediaType: string, parameters: string)
    requires ';' !in mediaType
    ensures MediaType(mediaType) == mediaType
    ensures MediaType(mediaType + ";" + parameters) == mediaType
  {
    var s := mediaType + ";" + parameters;
    assert s[..|mediaType|] == mediaType;
    assert s[|mediaType|] == ';';
  }

  function UpperAscii(c: char): char
  {
    if 'a' <= c <= 'z' then (c as int - 32) as char else c
  }

  /** Ordinal case-insensitive equality, restricted to ASCII case. */
  predicate EqualsIgnoreCase(a: string, b: string)
  {
    |a| == |b| && forall i :: 0 <= i < |a| ==> UpperAscii(a[i]) == UpperAscii(b[i])
  }

  function UpperAsciiString(s: string): (r: string)
    ensures |r| == |s| && forall i :: 0 <= i < |s| ==> r[i] == UpperAscii(s[i])
  {
    seq(|s|, i requires 0 <= i < |s| => UpperAscii(s[i]))
  }

  /** Two strings are equal ignoring case exactly when their upper-case forms are equal. */
  lemma EqualsIgnoreCaseIsUpperEquality(a: string, b: string)
    ensures EqualsIgnoreCase(a, b) <==> UpperAsciiString(a) == UpperAsciiString(b)
  {
    if UpperAsciiString(a) == UpperAsciiString(b) {
      assert forall i :: 0 <= i < |a| ==> UpperAsciiString(a)[i] == UpperAsciiString(b)[i];
    }
  }

  /** The allow-list check: a non-null, non-empty list none of whose entries names the media type. */
  predicate ContentTypeRejected(allowed: Option<seq<string>>, contentType: string)
  {
    allowed.Some? && |allowed.value| > 0
    && forall i :: 0 <= i < |allowed.value| ==> !EqualsIgnoreCase(allowed.value[i], MediaType(contentType))
  }

  /** MaxSize is in megabytes; the product fits in a long, so no overflow is modelled. */
  predicate TooLarge(dataType: DataType, size: int)
  {
    dataType.maxSize.Some? && dataType.maxSize.value > 0 && dataType.maxSize.value * 1024 * 1024 < size
  }

  /** The issues of the content-type and size checks of one data element. */
  function ElementRuleIssues(instanceId: string, dataType: DataType, element: DataElement): seq<Issue>
  {
    (if element.contentType.None? then [RuleIssue(instanceId, Some(element.id), MissingContentType, None)]
     else if ContentTypeRejected(dataType.allowedContentTypes, element.contentType.value)
     then [RuleIssue(instanceId, Some(element.id), ContentTypeNotAllowed, Some(dataType.id))]
     else [])
    + (if TooLarge(dataType, element.size) then [RuleIssue(instanceId, Some(element.id), DataElementTooLarge, Some(dataType.id))] else [])
  }

  /**
   * Each element issue is raised exactly when its rule fires, a missing content
   * type is never also reported as not allowed, and all of them are Errors.
   */
  lemma ElementRuleIssuesIff(instanceId: string, dataType: DataType, element: DataElement)
    ensures var r := ElementRuleIssues(instanceId, dataType, element);
      && (RuleIssue(instanceId, Some(element.id), MissingContentType, None) in r
          <==> element.contentType.None?)
      && (RuleIssue(instanceId, Some(element.id), ContentTypeNotAllowed, Some(dataType.id)) in r
          <==> element.contentType.Some? && ContentTypeRejected(dataType.allowedContentTypes, element.contentType.value))
      && (RuleIssue(instanceId, Some(element.id), DataElementTooLarge, Some(dataType.id)) in r
          <==> TooLarge(dataType, element.size))
      && (forall issue :: issue in r ==> issue.severity == Error)
      && |r| <= 2
  {
  }

  /**
   * What ValidateDataElement returns. `formState` is the model state left by
   * the object-model and instance validators; it is consulted only for a data
   * type bound to a model class.
   */
  function DataElementIssues(settings: GeneralSettings, instanceId: string, dataType: DataType,
                             element: DataElement, formState: seq<ModelStateEntry>): seq<Issue>
  {
    ElementRuleIssues(instanceId, dataType, element)
    + (if dataType.classRef.Some? && !IsValid(formState)
       then ModelStateIssues(settings, formState, instanceId, Some(element.id))
       else [])
  }

  /** Every issue of a data element names that element and the instance. */
  lemma DataElementIssuesNameElement(settings: GeneralSettings, instanceId: string, dataType: DataType,
                                     element: DataElement, formState: seq<ModelStateEntry>)
    ensures forall issue :: issue in DataElementIssues(settings, instanceId, dataType, element, formState)
              ==> issue.instanceId == instanceId && issue.dataElementId == Some(element.id)
  {
    ModelStateIssueShape(settings, formState, instanceId, Some(element.id));
  }

  /** The IsValid guard changes nothing: a valid model state maps to no issues anyway. */
  lemma IsValidGuardRedundant(settings: GeneralSettings, instanceId: string, dataType: DataType,
                              element: DataElement, formState: seq<ModelStateEntry>)
    requires dataType.classRef.Some?
    ensures DataElementIssues(settings, instanceId, dataType, element, formState)
            == ElementRuleIssues(instanceId, dataType, element)
               + ModelStateIssues(settings, formState, instanceId, Some(element.id))
  {
    if IsValid(formState) {
      NoInvalidEntryNoIssues(settings, formState, instanceId, Some(element.id));
    }
  }

  /** instance.Data filtered on the data type id, in order. */
  function ElementsOfType(data: seq<DataElement>, dataTypeId: string): seq<DataElement>
  {
    if |data| == 0 then []
    else (if data[0].dataType == dataTypeId then [data[0]] else []) + ElementsOfType(data[1..], dataTypeId)
  }

  /** The filter keeps exactly the elements of the data type. */
  lemma {:induction false} ElementsOfTypeMembers(data: seq<DataElement>, dataTypeId: string)
    ensures forall e :: e in ElementsOfType(data, dataTypeId) <==> e in data && e.dataType == dataTypeId
    ensures |ElementsOfType(data, dataTypeId)| <= |data|
  {
    if |data| > 0 {
      ElementsOfTypeMembers(data[1..], dataTypeId);
      assert forall e :: e in data <==> e == data[0] || e in data[1..];
    }
  }

  /** The issues of the data elements of one type, in order. */
  function ElementsIssues(settings: GeneralSettings, instanceId: string, dataType: DataType,
                          elements: seq<DataElement>, formState: DataElement -> seq<ModelStateEntry>): seq<Issue>
  {
    if |elements| == 0 then []
    else ElementsIssues(settings, instanceId, dataType, elements[..|elements| - 1], formState)
         + DataElementIssues(settings, instanceId, dataType, elements[|elements| - 1], formState(elements[|elements| - 1]))
  }

  /** The issues for one data type of the task: counts first, then each of its elements. */
  function DataTypeIssues(settings: GeneralSettings, instanceId: string, dataType: DataType,
                          data: seq<DataElement>, formState: DataElement -> seq<ModelStateEntry>): seq<Issue>
  {
    var elements := ElementsOfType(data, dataType.id);
    CountIssues(instanceId, dataType, |elements|) + ElementsIssues(settings, instanceId, dataType, elements, formState)
  }

  /** The issues for the data types bound to the task, in application order. */
  function TaskDataIssues(settings: GeneralSettings, instanceId: string, taskId: string, dataTypes: seq<DataType>,
                          data: seq<DataElement>, formState: DataElement -> seq<ModelStateEntry>): seq<Issue>
  {
    if |dataTypes| == 0 then []
    else
      var dataType := dataTypes[|dataTypes| - 1];
      TaskDataIssues(settings, instanceId, taskId, dataTypes[..|dataTypes| - 1], data, formState)
      + (if dataType.taskId == taskId then DataTypeIssues(settings, instanceId, dataType, data, formState) else [])
  }

  /**
   * What ValidateAndUpdateProcess returns: the issues of the task validator's
   * model state, then those of every data type of the task.
   */
  function ProcessIssues(settings: GeneralSettings, instanceId: string, taskId: string, dataTypes: seq<DataType>,
                         data: seq<DataElement>, taskState: seq<ModelStateEntry>,
                         formState: DataElement -> seq<ModelStateEntry>): seq<Issue>
  {
    ModelStateIssues(settings, taskState, instanceId, None)
    + TaskDataIssues(settings, instanceId, taskId, dataTypes, data, formState)
  }

  /** One more element of a data type adds exactly its own issues. */
  lemma ElementsIssuesStep(settings: GeneralSettings, instanceId: string, dataType: DataType,
                           elements: seq<DataElement>, formState: DataElement -> seq<ModelStateEntry>, e: nat)
    requires e < |elements|
    ensures ElementsIssues(settings, instanceId, dataType, elements[..e + 1], formState)
            == ElementsIssues(settings, instanceId, dataType, elements[..e], formState)
               + DataElementIssues(settings, instanceId, dataType, elements[e], formState(elements[e]))
  {
    assert elements[..e + 1][..e] == elements[..e];
  }

  /** One more data type adds its issues when it belongs to the task, and nothing otherwise. */
  lemma TaskDataIssuesStep(settings: GeneralSettings, instanceId: string, taskId: string,
                           dataTypes: seq<DataType>, data: seq<DataElement>,
                           formState: DataElement -> seq<ModelStateEntry>, k: nat)
    requires k < |dataTypes|
    ensures TaskDataIssues(settings, instanceId, taskId, dataTypes[..k + 1], data, formState)
            == TaskDataIssues(settings, instanceId, taskId, dataTypes[..k], data, formState)
               + (if dataTypes[k].taskId == taskId
                  then DataTypeIssues(settings, instanceId, dataTypes[k], data, formState) else [])
  {
    assert dataTypes[..k + 1][..k] == dataTypes[..k];
  }

  /** Every issue of one element of a data type is among the issues of that type's elements. */
  lemma {:induction false} ElementsIssuesContain(settings: GeneralSettings, instanceId: string, dataType: DataType,
                                                 elements: seq<DataElement>, formState: DataElement -> seq<ModelStateEntry>,
                                                 k: nat)
    requires k < |elements|
    ensures forall issue :: issue in DataElementIssues(settings, instanceId, dataType, elements[k], formState(elements[k]))
              ==> issue in ElementsIssues(settings, instanceId, dataType, elements, formState)
  {
    var n := |elements| - 1;
    if k < n {
      ElementsIssuesContain(settings, instanceId, dataType, elements[..n], formState, k);
      assert elements[..n][k] == elements[k];
    }
  }

  /** Every issue of a data type bound to the task is among the task's issues. */
  lemma {:induction false} TaskDataIssuesContain(settings: GeneralSettings, instanceId: string, taskId: string,
                                                 dataTypes: seq<DataType>, data: seq<DataElement>,
                                                 formState: DataElement -> seq<ModelStateEntry>, k: nat)
    requires k < |dataTypes| && dataTypes[k].taskId == taskId
    ensures forall issue :: issue in DataTypeIssues(settings, instanceId, dataTypes[k], data, formState)
              ==> issue in TaskDataIssues(settings, instanceId, taskId, dataTypes, data, formState)
  {
    var n := |dataTypes| - 1;
    if k < n {
      TaskDataIssuesContain(settings, instanceId, taskId, dataTypes[..n], data, formState, k);
      assert dataTypes[..n][k] == dataTypes[k];
    }
  }

  /** Too many or too few elements of a data type of the task keeps the task from completing. */
  lemma CountRuleBlocksCompletion(settings: GeneralSettings, instanceId: string, taskId: string,
                                  dataTypes: seq<DataType>, data: seq<DataElement>, taskState: seq<ModelStateEntry>,
                                  formState: DataElement -> seq<ModelStateEntry>, k: nat)
    requires k < |dataTypes| && dataTypes[k].taskId == taskId
    requires var count := |ElementsOfType(data, dataTypes[k].id)|;
             TooMany(dataTypes[k], count) || TooFew(dataTypes[k], count)
    ensures !CanCompleteTask(ProcessIssues(settings, instanceId, taskId, dataTypes, data, taskState, formState))
  {
    var dataType := dataTypes[k];
    var count := |ElementsOfType(data, dataType.id)|;
    var issues := CountIssues(instanceId, dataType, count);
    CountIssuesIff(instanceId, dataType, count);
    var issue := if TooMany(dataType, count)
                 then RuleIssue(instanceId, None, TooManyDataElementsOfType, Some(dataType.id))
                 else RuleIssue(instanceId, None, TooFewDataElementsOfType, Some(dataType.id));
    assert issue in issues;
    assert issue in DataTypeIssues(settings, instanceId, dataType, data, formState);
    TaskDataIssuesContain(settings, instanceId, taskId, dataTypes, data, formState, k);
    assert issue in ProcessIssues(settings, instanceId, taskId, dataTypes, data, taskState, formState);
  }

  /** A data element of the task with no content type, a rejected one, or too large a size blocks completion. */
  lemma ElementRuleBlocksCompletion(settings: GeneralSettings, instanceId: string, taskId: string,
                                    dataTypes: seq<DataType>, data: seq<DataElement>, taskState: seq<ModelStateEntry>,
                                    formState: DataElement -> seq<ModelStateEntry>, k: nat, element: DataElement)
    requires k < |dataTypes| && dataTypes[k].taskId == taskId
    requires element in data && element.dataType == dataTypes[k].id
    requires element.contentType.None?
             || ContentTypeRejected(dataTypes[k].allowedContentTypes, element.contentType.value)
             || TooLarge(dataTypes[k], element.size)
    ensures !CanCompleteTask(ProcessIssues(settings, instanceId, taskId, dataTypes, data, taskState, formState))
  {
    var dataType := dataTypes[k];
    var elements := ElementsOfType(data, dataType.id);
    ElementsOfTypeMembers(data, dataType.id);
    var j :| 0 <= j < |elements| && elements[j] == element;
    var rules := ElementRuleIssues(instanceId, dataType, element);
    var issue := rules[0];
    assert issue in DataElementIssues(settings, instanceId, dataType, element, formState(element));
    ElementsIssuesContain(settings, instanceId, dataType, elements, formState, j);
    TaskDataIssuesContain(settings, instanceId, taskId, dataTypes, data, formState, k);
    assert issue in ProcessIssues(settings, instanceId, taskId, dataTypes, data, taskState, formState);
  }

  /** An element that passes every check of its data type. */
  predicate ElementPasses(dataType: DataType, element: DataElement, formState: seq<ModelStateEntry>)
  {
    element.contentType.Some?
    && !ContentTypeRejected(dataType.allowedContentTypes, element.contentType.value)
    && !TooLarge(dataType, element.size)
    && (dataType.classRef.Some? ==> forall i :: 0 <= i < |formState| ==> formState[i].state != Invalid)
  }

  lemma {:induction false} PassingElementsNoIssues(settings: GeneralSettings, instanceId: string, dataType: DataType,
                                                   elements: seq<DataElement>, formState: DataElement -> seq<ModelStateEntry>)
    requires forall e :: e in elements ==> ElementPasses(dataType, e, formState(e))
    ensures ElementsIssues(settings, instanceId, dataType, elements, formState) == []
  {
    if |elements| > 0 {
      var n := |elements| - 1;
      var last := elements[n];
      assert forall e :: e in elements[..n] ==> e in elements;
      PassingElementsNoIssues(settings, instanceId, dataType, elements[..n], formState);
      assert last in elements;
      if dataType.classRef.Some? {
        NoInvalidEntryNoIssues(settings, formState(last), instanceId, Some(last.id));
      }
    }
  }

  /** Task data types whose counts are right and whose elements all pass produce no issues. */
  lemma {:induction false} PassingTaskNoIssues(settings: GeneralSettings, instanceId: string, taskId: string,
                                               dataTypes: seq<DataType>, data: seq<DataElement>,
                                               formState: DataElement -> seq<ModelStateEntry>)
    requires forall dt :: dt in dataTypes && dt.taskId == taskId ==>
               var count := |ElementsOfType(data, dt.id)|;
               !TooMany(dt, count) && !TooFew(dt, count)
               && forall e :: e in data && e.dataType == dt.id ==> ElementPasses(dt, e, formState(e))
    ensures TaskDataIssues(settings, instanceId, taskId, dataTypes, data, formState) == []
  {
    if |dataTypes| > 0 {
      var n := |dataTypes| - 1;
      var dt := dataTypes[n];
      assert forall d :: d in dataTypes[..n] ==> d in dataTypes;
      PassingTaskNoIssues(settings, instanceId, taskId, dataTypes[..n], data, formState);
      assert dt in dataTypes;
      if dt.taskId == taskId {
        ElementsOfTypeMembers(data, dt.id);
        PassingElementsNoIssues(settings, instanceId, dt, ElementsOfType(data, dt.id), formState);
      }
    }
  }

  /**
   * Conversely, with no invalid entry left by the task validator and every
   * check of the task's data types passing, there are no issues, so the task
   * can be completed.
   */
  lemma CleanInstanceCanComplete(settings: GeneralSettings, instanceId: string, taskId: string,
                                 dataTypes: seq<DataType>, data: seq<DataElement>, taskState: seq<ModelStateEntry>,
                                 formState: DataElement -> seq<ModelStateEntry>)
    requires forall i :: 0 <= i < |taskState| ==> taskState[i].state != Invalid
    requires forall dt :: dt in dataTypes && dt.taskId == taskId ==>
               var count := |ElementsOfType(data, dt.id)|;
               !TooMany(dt, count) && !TooFew(dt, count)
               && forall e :: e in data && e.dataType == dt.id ==> ElementPasses(dt, e, formState(e))
    ensures ProcessIssues(settings, instanceId, taskId, dataTypes, data, taskState, formState) == []
    ensures CanCompleteTask(ProcessIssues(settings, instanceId, taskId, dataTypes, data, taskState, formState))
  {
    NoInvalidEntryNoIssues(settings, taskState, instanceId, None);
    PassingTaskNoIssues(settings, instanceId, taskId, dataTypes, data, formState);
  }
}
