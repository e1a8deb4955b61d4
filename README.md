# Altinn app core: JSON change detection and validation rules

This project models two pieces of the Altinn app backend and proves properties of them.

**JsonHelper.** `FindChangedFields` compares the old and the current JSON document of a form and returns a flat dictionary of changes. Each key is a path such as `a.b[2].c`. Each value is the new scalar at that path, or null, meaning "clear this field". The recursive `FindDiff` walks both trees together and fills one shared dictionary with `Dictionary.Add`.

The model has three layers:
- `JsonDiff.Diff` is a pure specification: the ordered list of `Add` calls.
- `Patch.AddAll` folds `Dictionary.Add` over that list. A repeated path makes it fail with that path, as the C# call throws.
- `JsonHelper.FindDiff` is imperative. It fills a `Patch.PathDictionary` object with one loop per loop of the source, and it is proved to perform exactly the `Add` calls `Diff` lists.

**ValidationAppSI.** This covers:
- the classifier that turns a message prefix into a severity;
- the element-count, content-type and size checks;
- the mapping of model-state errors to validation issues;
- the `CanCompleteTask` rule that `ValidateAndUpdateProcess` stores on the instance's current task.

The services the class calls are replaced by their results, passed in as parameters.

Modules:
- `Wrappers`: `Option` and `Result`.
- `JsonTree`: JSON values and `DeepEquals`. Objects are property lists in insertion order, like `JObject`.
- `Paths`: `Join` and the `[i]` slot paths.
- `Patch`: the dictionary and its `Add`.
- `JsonDiff`: the specification of the walk.
- `JsonHelper`: the imperative walk.
- `JsonDiffProperties`: general lemmas about the walk.
- `JsonDiffExamples`: worked documents.
- `ValidationIssues`, `ValidationRules` and `ValidationApp`: the validation service.

When an object is replaced by an array, the code first clears the old object at the same prefix (JsonHelper.cs lines 113-116) and then writes the array elements. So `{"a":1}` → `[9,8]` gives `{a: null, [0]: 9, [1]: 8}`, which `JsonDiffExamples.ObjectToArray` proves.

## Model

| member | source | states |
|---|---|---|
| JsonHelper.FindChangedFields | src/Altinn.App.Core/Helpers/JsonHelper.cs:18-25 | Starting from an empty dictionary, the result is the dictionary `ChangedFields` gives, or the first duplicate path that makes `Dictionary.Add` throw. |
| JsonHelper.FindDiff | src/Altinn.App.Core/Helpers/JsonHelper.cs:27-153 | The walk performs exactly the `Add` calls of `Diff(prev, cur, prefix)`, in order, on the shared dictionary. It either completes them all, or stops at the first repeated path and reports it. After a stop the dictionary is `Filled`: it holds exactly the `Add` calls made before the one that threw, and the reported path is already a key of it. |
| JsonHelper.ClearSlots | src/Altinn.App.Core/Helpers/JsonHelper.cs:45-48 | Adds `prefix[i] -> null` for every index of the old array, or stops at the first index already present. The same loop clears an old array under a null current (lines 137-140). |
| JsonHelper.DiffAddedKeys | src/Altinn.App.Core/Helpers/JsonHelper.cs:72-75 | Diffs every current key missing from the old object against null, in property order. The same loop covers every key of an object that replaced a non-object (lines 57-62). |
| JsonHelper.DiffRemovedKeys | src/Altinn.App.Core/Helpers/JsonHelper.cs:77-80 | Diffs every old key missing from the current object against a null current, in property order. The same loop clears every key of an old object replaced by null. |
| JsonHelper.DiffChangedKeys | src/Altinn.App.Core/Helpers/JsonHelper.cs:82-86 | Diffs every shared key whose values are not deep-equal, pairwise, in current property order. |
| JsonHelper.DiffArrays | src/Altinn.App.Core/Helpers/JsonHelper.cs:92-110 | Element `i` is diffed against `old[i]`, or against an empty-object sentinel past the old end. Old indices past the current end are diffed against null. |
| JsonHelper.DiffAddedKey | src/Altinn.App.Core/Helpers/JsonHelper.cs:72-75 | One pass over an added key performs the `Add` calls `AddedKeyStep` lists for it. |
| JsonHelper.DiffRemovedKey | src/Altinn.App.Core/Helpers/JsonHelper.cs:77-80 | One pass over a removed key performs the `Add` calls `RemovedKeyStep` lists for it. |
| JsonHelper.DiffChangedKey | src/Altinn.App.Core/Helpers/JsonHelper.cs:83-86 | One pass over a shared key performs its pairwise diff, or nothing when the values are deep-equal. |
| JsonHelper.DiffElements | src/Altinn.App.Core/Helpers/JsonHelper.cs:94-103 | The foreach over the current array diffs slot `i` against `old[i]`, or against the empty-object sentinel past the old end. |
| JsonHelper.DiffElement | src/Altinn.App.Core/Helpers/JsonHelper.cs:96-100 | One slot: the old value, or `new JObject()` when the old array is shorter, diffed at `prefix[i]`. |
| JsonHelper.DiffDroppedSlots | src/Altinn.App.Core/Helpers/JsonHelper.cs:105-109 | Old slots from the current length on are diffed against null, in index order. |
| JsonHelper.DiffNewElements | src/Altinn.App.Core/Helpers/JsonHelper.cs:118-122 | Every element of an array that replaced a non-array is diffed against null at `prefix[i]`. |
| JsonDiff.Diff | src/Altinn.App.Core/Helpers/JsonHelper.cs:27-153 | The ordered `Add` calls of the walk. Deep-equal tokens give none. An object against an object is its added, removed and changed keys, in that order. A non-object becoming an object clears the old value first: the old array's slots, or the prefix itself. An array against an array is its elements, then the dropped old slots. An object becoming an array is cleared first. A null current clears. A scalar current is written at the prefix. `JsonHelper.FindDiff` is proved to perform exactly these calls. |
| JsonDiff.SlotClears | src/Altinn.App.Core/Helpers/JsonHelper.cs:45-48 | `prefix[i] -> null` for each old slot, without descending into the elements. `SlotClearsIndexed` gives its i-th entry. |
| JsonDiff.SlotClearsIndexed | src/Altinn.App.Core/Helpers/JsonHelper.cs:45-48 | The clearing loop makes exactly one `prefix[i] -> null` call per old index, in index order. |
| JsonDiff.AddedKeyEntries | src/Altinn.App.Core/Helpers/JsonHelper.cs:72-75 | The first k iterations of the added-keys loop: each current key missing from the old object is diffed from null at `Join(prefix, key)`. `JsonDiffProperties.AddedKeyEntriesWithin` bounds its paths. |
| JsonDiff.RemovedKeyEntries | src/Altinn.App.Core/Helpers/JsonHelper.cs:77-80 | The first k iterations of the removed-keys loop: each old key missing from the current object is diffed against null. |
| JsonDiff.ChangedKeyEntries | src/Altinn.App.Core/Helpers/JsonHelper.cs:82-86 | The first k iterations of the changed-keys loop: each shared key whose values are not deep-equal is diffed pairwise. |
| JsonDiff.ElementEntries | src/Altinn.App.Core/Helpers/JsonHelper.cs:94-103 | The first k iterations of the element loop: slot i against `old[i]`, or against `new JObject()` past the old end. |
| JsonDiff.DroppedElementEntries | src/Altinn.App.Core/Helpers/JsonHelper.cs:105-109 | Old slots from the current length up to k, each diffed against null. |
| JsonDiff.NewElementEntries | src/Altinn.App.Core/Helpers/JsonHelper.cs:118-122 | The first k elements of an array that replaced a non-array, each diffed from null at `prefix[i]`. |
| JsonDiff.ChangedFields | src/Altinn.App.Core/Helpers/JsonHelper.cs:18-25 | `FindChangedFields` on parsed documents: the `Diff` calls folded into an empty dictionary, or the path of the first throwing `Add`. |
| Patch.PathDictionary.Add | src/Altinn.App.Core/Helpers/JsonHelper.cs:47 | `Dictionary.Add`: it succeeds exactly when the path is new and then maps the path to the value. Otherwise it reports the path and leaves the dictionary unchanged. |
| Patch.PathDictionary.constructor | src/Altinn.App.Core/Helpers/JsonHelper.cs:22 | The dictionary starts empty. |
| Patch.AddAll | src/Altinn.App.Core/Helpers/JsonHelper.cs:47 | The `Dictionary.Add` calls applied in order. The first path already present stops the run and is reported. `AddAllSucceedsIffFresh` and `AddAllValues` state its outcome. |
| Patch.Filled | src/Altinn.App.Core/Helpers/JsonHelper.cs:47 | The dictionary left by a run of `Add` calls: every call up to the first that throws, and none after it. |
| Patch.FilledSuccess | src/Altinn.App.Core/Helpers/JsonHelper.cs:47 | When no call throws, the dictionary left behind is the one the run produces. |
| Patch.FilledAppend | src/Altinn.App.Core/Helpers/JsonHelper.cs:27-153 | The dictionary left by two runs in a row: the first run's, if it threw, and otherwise the second run's, started from the first run's result. |
| Patch.FailureLeavesPrefix | src/Altinn.App.Core/Helpers/JsonHelper.cs:47 | After a throw the dictionary holds exactly the calls made before the failing one, and the failing path is already one of its keys. |
| Patch.AddAllAppend | src/Altinn.App.Core/Helpers/JsonHelper.cs:27-153 | Filling the dictionary with two lists of calls in a row is the same as filling it with their concatenation. A failure in the first list stops everything. |
| Patch.AddAllSucceedsIffFresh | src/Altinn.App.Core/Helpers/JsonHelper.cs:47 | A list of `Add` calls succeeds if and only if no path repeats and none was already present. On success the keys are the old keys plus all the paths. |
| Patch.AddAllValues | src/Altinn.App.Core/Helpers/JsonHelper.cs:47 | On success old entries are kept and every path maps to the value it was added with. |
| Patch.FailureSticks | src/Altinn.App.Core/Helpers/JsonHelper.cs:47 | Once an `Add` has thrown, the `Add` calls after it are not made. The exception is the outcome, and the dictionary stays as the throw left it. |
| Patch.RecordedConcat | src/Altinn.App.Core/Helpers/JsonHelper.cs:27-153 | Two successive parts of the walk compose; an exception in the first skips the second. |
| Patch.RecordedFailedPrefix | src/Altinn.App.Core/Helpers/JsonHelper.cs:27-153 | Once an `Add` has thrown, the calls the walk would have made afterwards change nothing. |
| Paths.Join | src/Altinn.App.Core/Helpers/JsonHelper.cs:155-158 | An empty prefix gives the bare key. Otherwise the path extends the prefix and ends with the key, and a single `.` separates them. |
| Paths.Index | src/Altinn.App.Core/Helpers/JsonHelper.cs:47 | `prefix[i]` extends the prefix with `[`, the decimal index and `]`, with no dot. |
| Paths.NatToString | src/Altinn.App.Core/Helpers/JsonHelper.cs:47 | The index is written in decimal digits with no leading zero. |
| Paths.NatToStringInjective | src/Altinn.App.Core/Helpers/JsonHelper.cs:47 | Different indices are written differently. |
| Paths.IndexInjective | src/Altinn.App.Core/Helpers/JsonHelper.cs:45-48 | Different slots of one array get different paths. |
| JsonTree.Lookup | src/Altinn.App.Core/Helpers/JsonHelper.cs:71 | `oldObj[key]` finds a value exactly when some property has that name. |
| JsonTree.LookupUnique | src/Altinn.App.Core/Helpers/JsonHelper.cs:85 | In an object with unique names, looking up a property's name yields that property's value. |
| JsonTree.DeepEquals | src/Altinn.App.Core/Helpers/JsonHelper.cs:29 | `JToken.DeepEquals`: scalars equal by type and value, arrays element by element in order, objects with the same number of properties whose every name is found in the other object with a deep-equal value. `DeepEqualsReflexive` is proved about it. |
| JsonTree.DeepEqualsReflexive | src/Altinn.App.Core/Helpers/JsonHelper.cs:29 | Every well-formed document is deep-equal to itself. |
| JsonDiffProperties.SameDocumentNoEntries | src/Altinn.App.Core/Helpers/JsonHelper.cs:29-32 | Diffing a document against itself emits no entry at any prefix. This includes a null key compared with null. |
| JsonDiffProperties.SameDocumentNoChangedFields | src/Altinn.App.Core/Helpers/JsonHelper.cs:18-32 | Two equal documents give an empty dictionary. |
| JsonDiffProperties.DiffWithin | src/Altinn.App.Core/Helpers/JsonHelper.cs:27-153 | Every path emitted extends the prefix, and every value set occurs as a scalar in the current document. |
| JsonDiffProperties.ClearingOnlyWritesNull | src/Altinn.App.Core/Helpers/JsonHelper.cs:127-147 | Diffing against a null current only clears fields and never sets a value. |
| JsonDiffExamples.AddedAndRemovedKeys | src/Altinn.App.Core/Helpers/JsonHelper.cs:67-86 | `{a:1,b:2}` → `{b:2,c:3}` gives exactly `{a: null, c: 3}`. |
| JsonDiffExamples.NullKeyAdded | src/Altinn.App.Core/Helpers/JsonHelper.cs:72-75 | `{}` → `{"a":null}` gives an empty dictionary: a key added with a null value is diffed null against null, which is deep-equal. |
| JsonDiffExamples.NullKeyRemoved | src/Altinn.App.Core/Helpers/JsonHelper.cs:77-80 | `{"a":null}` → `{}` gives an empty dictionary: a removed key whose value was null clears nothing. |
| JsonDiffExamples.ArrayTruncation | src/Altinn.App.Core/Helpers/JsonHelper.cs:105-109 | `[1,2,3]` → `[1,2]` gives `{"[2]": null}`. |
| JsonDiffExamples.ArrayExtension | src/Altinn.App.Core/Helpers/JsonHelper.cs:94-103 | `[1]` → `[1,2,3]` gives `{"[1]": 2, "[2]": 3}`. |
| JsonDiffExamples.ObjectToArray | src/Altinn.App.Core/Helpers/JsonHelper.cs:111-123 | `{"a":1}` → `[9,8]` gives `{a: null, [0]: 9, [1]: 8}`. |
| JsonDiffExamples.ScalarToArray | src/Altinn.App.Core/Helpers/JsonHelper.cs:111-123 | `1` → `[5]` gives `{"[0]": 5}`, with no clearing entry. |
| JsonDiffExamples.ScalarToObject | src/Altinn.App.Core/Helpers/JsonHelper.cs:50-65 | `{"a":1}` → `{"a":{"b":2}}` gives `{a: null, a.b: 2}`. |
| JsonDiffExamples.NestedPath | src/Altinn.App.Core/Helpers/JsonHelper.cs:82-86 | `{"a":{"b":1}}` → `{"a":{"b":2}}` gives `{a.b: 2}`. |
| JsonDiffExamples.NullToObject | src/Altinn.App.Core/Helpers/JsonHelper.cs:50-62 | `null` → `{"a":1}` gives `{"": null, a: 1}`: the object still clears its own, empty, path. |
| JsonDiffExamples.NullAppendedToArray | src/Altinn.App.Core/Helpers/JsonHelper.cs:96-100 | `[1]` → `[1,null]` gives an empty dictionary. The new null slot is compared with the empty-object sentinel, which clears nothing. |
| JsonDiffExamples.ObjectAppendedToArray | src/Altinn.App.Core/Helpers/JsonHelper.cs:96-100 | `[1]` → `[1,{"x":1}]` gives `{"[1].x": 1}`, with no `[1] -> null` entry. |
| JsonDiffExamples.SlotAndKeyCollide | src/Altinn.App.Core/Helpers/JsonHelper.cs:43-55 | `[1]` → `{"[0]":2}` throws on the path `[0]`. |
| JsonDiffExamples.DottedKeyCollides | src/Altinn.App.Core/Helpers/JsonHelper.cs:155-158 | `{"a":{"b":1}}` → `{"a.b":2}` throws on the path `a.b`. |
| ValidationIssues.GetSeverityFromMessage | src/Altinn.App.Core/Features/Validation/ValidationAppSI.cs:268-296 | The severity is never Unspecified. Putting back the prefix of the chosen severity restores the original message. |
| ValidationIssues.ClassifierIsFirstMatch | src/Altinn.App.Core/Features/Validation/ValidationAppSI.cs:268-296 | The chain of tests equals a first-match reading of the ordered rules Soft → Warning, Fixed → Fixed (only when that prefix is non-null), Info → Informational, Success → Success. |
| ValidationIssues.FirstMatchAt | src/Altinn.App.Core/Features/Validation/ValidationAppSI.cs:268-296 | The first rule whose prefix starts the message decides, with that prefix removed. |
| ValidationIssues.FirstMatchNone | src/Altinn.App.Core/Features/Validation/ValidationAppSI.cs:295 | With no matching rule the result is Error with the message unchanged. |
| ValidationIssues.ErrorIffNoPrefixMatches | src/Altinn.App.Core/Features/Validation/ValidationAppSI.cs:268-296 | A message is an Error if and only if none of the configured prefixes starts it, and an Error keeps its message unchanged. |
| ValidationIssues.PrefixRules | src/Altinn.App.Core/Features/Validation/ValidationAppSI.cs:270-293 | No prefix rule yields Error or Unspecified, and each rule's prefix is the one its severity removes. |
| ValidationIssues.IsValid | src/Altinn.App.Core/Features/Validation/ValidationAppSI.cs:200 | `ModelStateDictionary.IsValid`: no entry is Invalid or Unvalidated. `ValidationRules.IsValidGuardRedundant` relates it to the issues. |
| ValidationIssues.ModelStateIssues | src/Altinn.App.Core/Features/Validation/ValidationAppSI.cs:209-266 | Both `MapModelStateToIssueList` overloads: the entries in dictionary order, one issue per error of each Invalid entry, with the data element id and field only in the data-element overload. `ModelStateIssueCount`, `ModelStateIssueMembership` and `ModelStateIssueShape` state its content. |
| ValidationIssues.ErrorIssue | src/Altinn.App.Core/Features/Validation/ValidationAppSI.cs:224-233 | One issue per error: Code and Description are the prefix-stripped message, the severity is the classified one, and Field is the model key exactly when a data element id is given. |
| ValidationIssues.ModelStateIssueCount | src/Altinn.App.Core/Features/Validation/ValidationAppSI.cs:216-236 | There are as many issues as errors in invalid entries. |
| ValidationIssues.ModelStateIssueMembership | src/Altinn.App.Core/Features/Validation/ValidationAppSI.cs:209-266 | An issue is produced if and only if it is the issue of some error of some Invalid entry. |
| ValidationIssues.NoInvalidEntryNoIssues | src/Altinn.App.Core/Features/Validation/ValidationAppSI.cs:220 | Entries that are not Invalid produce nothing. |
| ValidationIssues.ModelStateIssueShape | src/Altinn.App.Core/Features/Validation/ValidationAppSI.cs:209-266 | Every issue carries the instance id and the given data element id, with Code = Description, a severity other than Unspecified, and a Field only in the data-element overload. |
| ValidationIssues.AllNonBlocking | src/Altinn.App.Core/Features/Validation/ValidationAppSI.cs:114 | `All(m => m.Severity != Error && m.Severity != Unspecified)` holds exactly when no message has either severity. |
| ValidationIssues.CanCompleteTask | src/Altinn.App.Core/Features/Validation/ValidationAppSI.cs:113-114 | The task can be completed if and only if no message is an Error or Unspecified. The empty-list test is subsumed. |
| ValidationIssues.CanCompleteTaskAppend | src/Altinn.App.Core/Features/Validation/ValidationAppSI.cs:113-114 | Completion of a concatenated message list is the conjunction for its parts. |
| ValidationRules.CountIssues | src/Altinn.App.Core/Features/Validation/ValidationAppSI.cs:78-102 | The count checks of one data type: TooManyDataElementsOfType when a positive MaxCount is below the count, then TooFewDataElementsOfType when a positive MinCount is above it. `CountIssuesIff` states both directions. |
| ValidationRules.ElementRuleIssues | src/Altinn.App.Core/Features/Validation/ValidationAppSI.cs:135-178 | The rule checks of one data element: a missing content type, or else a content type not allowed, then a size over MaxSize MiB. `ElementRuleIssuesIff` states each direction. |
| ValidationRules.DataElementIssues | src/Altinn.App.Core/Features/Validation/ValidationAppSI.cs:129-207 | What `ValidateDataElement` returns: the rule issues, then, for a type bound to a model class with an invalid form state, the mapped form issues. |
| ValidationRules.ProcessIssues | src/Altinn.App.Core/Features/Validation/ValidationAppSI.cs:62-119 | What `ValidateAndUpdateProcess` returns: the task validator's issues, then those of each data type of the task, in order. |
| ValidationRules.CountIssuesIff | src/Altinn.App.Core/Features/Validation/ValidationAppSI.cs:78-102 | TooManyDataElementsOfType is raised iff `MaxCount > 0 && MaxCount < count`, and TooFewDataElementsOfType iff `MinCount > 0 && MinCount > count`. Both are Errors on the data type's field. |
| ValidationRules.MediaType | src/Altinn.App.Core/Features/Validation/ValidationAppSI.cs:149 | The text before the first `;` is a prefix of the content type containing no `;`, and it is followed by `;` when shorter. |
| ValidationRules.MediaTypeDropsParameters | src/Altinn.App.Core/Features/Validation/ValidationAppSI.cs:149 | Parameters after the first `;` are dropped, and a type without `;` is kept whole. |
| ValidationRules.UpperAsciiString | src/Altinn.App.Core/Features/Validation/ValidationAppSI.cs:151 | Upper-casing keeps the length and maps each character. |
| ValidationRules.EqualsIgnoreCaseIsUpperEquality | src/Altinn.App.Core/Features/Validation/ValidationAppSI.cs:151 | Case-insensitive equality holds if and only if the upper-cased strings are equal. |
| ValidationRules.ElementRuleIssuesIff | src/Altinn.App.Core/Features/Validation/ValidationAppSI.cs:135-178 | MissingContentType is raised iff the content type is null. ContentTypeNotAllowed is raised iff it is present and the allowed list is non-null, non-empty and matches none. DataElementTooLarge is raised iff MaxSize is set, positive and `MaxSize*1024*1024 < Size`. All are Errors. |
| ValidationRules.DataElementIssuesNameElement | src/Altinn.App.Core/Features/Validation/ValidationAppSI.cs:129-207 | Every issue of a data element names the instance and that element. |
| ValidationRules.IsValidGuardRedundant | src/Altinn.App.Core/Features/Validation/ValidationAppSI.cs:200-203 | For a data type bound to a model class, the result is the same with or without the `IsValid` test. |
| ValidationRules.ElementsOfTypeMembers | src/Altinn.App.Core/Features/Validation/ValidationAppSI.cs:76 | The filter keeps exactly the instance's elements of the data type. |
| ValidationRules.ElementsIssuesContain | src/Altinn.App.Core/Features/Validation/ValidationAppSI.cs:104-107 | Every element's issues are among its data type's issues. |
| ValidationRules.TaskDataIssuesContain | src/Altinn.App.Core/Features/Validation/ValidationAppSI.cs:74-108 | Every issue of a data type bound to the task is among the task's issues. |
| ValidationRules.CountRuleBlocksCompletion | src/Altinn.App.Core/Features/Validation/ValidationAppSI.cs:74-114 | Too many or too few elements of a task data type make `CanCompleteTask` false. |
| ValidationRules.ElementRuleBlocksCompletion | src/Altinn.App.Core/Features/Validation/ValidationAppSI.cs:104-114 | A task element with a missing or disallowed content type, or too large, makes `CanCompleteTask` false. |
| ValidationRules.PassingElementsNoIssues | src/Altinn.App.Core/Features/Validation/ValidationAppSI.cs:104-107 | Elements passing every check produce no issue. |
| ValidationRules.PassingTaskNoIssues | src/Altinn.App.Core/Features/Validation/ValidationAppSI.cs:74-108 | Task data types with right counts and passing elements produce no issue. |
| ValidationRules.CleanInstanceCanComplete | src/Altinn.App.Core/Features/Validation/ValidationAppSI.cs:62-119 | With no Invalid task-validator entry and every check passing, the message list is empty and the task can be completed. |
| ValidationApp.MapModelStateToIssueList | src/Altinn.App.Core/Features/Validation/ValidationAppSI.cs:209-239 | The data-element overload's loops return the issues `ModelStateIssues` specifies, one per error of an invalid entry. |
| ValidationApp.MapModelStateToInstanceIssueList | src/Altinn.App.Core/Features/Validation/ValidationAppSI.cs:241-266 | The instance overload's loops return the issues `ModelStateIssues` specifies, with no element id or field. |
| ValidationApp.MapEntries | src/Altinn.App.Core/Features/Validation/ValidationAppSI.cs:216-236 | The outer loop over model keys returns exactly the specified issues. |
| ValidationApp.AppendErrorIssues | src/Altinn.App.Core/Features/Validation/ValidationAppSI.cs:222-234 | The inner loop appends one classified issue per error, in order. |
| ValidationApp.ValidateDataElement | src/Altinn.App.Core/Features/Validation/ValidationAppSI.cs:129-207 | The rule issues come first, then, for a class-bound data type with invalid form data, the mapped model-state issues. |
| ValidationApp.SelectElements | src/Altinn.App.Core/Features/Validation/ValidationAppSI.cs:76 | Returns the instance's elements of the data type, in order. |
| ValidationApp.ValidateDataType | src/Altinn.App.Core/Features/Validation/ValidationAppSI.cs:76-107 | Count issues come first, then each element's issues in order. |
| ValidationApp.ValidateAndUpdateProcess | src/Altinn.App.Core/Features/Validation/ValidationAppSI.cs:62-119 | Returns the task-validator issues followed by those of every task data type. It stores `CanCompleteTask` of exactly those messages, with the given time, and leaves the data list unchanged. |
| ValidationApp.Instance.constructor | src/Altinn.App.Core/Features/Validation/ValidationAppSI.cs:110-116 | A new instance holds its id and data and has no validation status yet. |

## Left out

- `JToken.Parse` (JsonHelper.cs lines 20-21): the model starts from parsed trees. Malformed text is the parser's error.
- Floating-point numbers, dates and the numeric coercions of `JToken.DeepEquals`: numbers are integers and scalars compare structurally.
- `JsonTree.DeepEquals` ignores property order, as `JToken.DeepEquals` does. Duplicate property names, which `JObject` cannot hold, are excluded by `WellFormed` where a lemma needs it.
- C# null tokens: `FindChangedFields` always passes parsed tokens and `JValue.CreateNull()`, so the walk never sees a null reference.
- JsonHelper.FindChangedFields: returns `Failure(path)` where the C# method throws `ArgumentException` from `Dictionary.Add`.
- ValidationIssues.GetSeverityFromMessage: `StartsWith(string)` in .NET is culture-sensitive. The model uses an ordinal prefix test, and a null soft, info or success prefix, which would throw, is not modelled.
- ValidationRules.EqualsIgnoreCase: `OrdinalIgnoreCase` folds case across all of Unicode; the model folds ASCII letters only.
- ValidationRules.TooLarge: the source widens MaxSize to `long` before multiplying. An `int` times 1024*1024 fits in a `long`, so no overflow case exists and integers are unbounded here.
- The code constants come from `ValidationIssueCodes`, which is not part of this model. Each constant is taken to be its own name.
- The services: the instance validator, `GetFormData`, the object-model validator, `IAppModel.GetModelType` and `UpdateProcess` are not modelled. Their results are parameters: `taskState` is the model state after `ValidateTask`, and `formState` is the model state after form validation of each element.
- Also not modelled: the `Guid.Parse` and `int.Parse` of ids (lines 183-185), logging, `async` and `DateTime.Now`. The timestamp is a parameter.
- ModelStateDictionary is not part of this model. `IsValid` is taken as "no entry is Invalid or Unvalidated", and entries are visited in dictionary order. A null `Process.CurrentTask` (a `NullReferenceException` in the source) is not modelled.
- The content-type test: `AllowedContentTypes.All(...)` is the predicate `ContentTypeRejected`. A null entry in the allowed list, which would throw, is not modelled.
- Not modelled, as they hold no logic of the core: PrefillSI (reflection-based prefill), EventsClient (HTTP client), ServiceCollectionExtensions (dependency injection), and the interface and model declarations.
