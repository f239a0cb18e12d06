# Business rules: the `Validator` base class and rule-set composition

A Dafny model of the rule abstraction of the BusinessObjects library.

- `Validator` is the abstract business rule. It stores a description, shown when the rule is broken, and the name of the property the rule is about.
- The `PropertyName` getter trims the stored name and reads null as the empty string.
- `ToString` returns the description. `GetHashCode` hashes that string.
- `GetPropertyValue` reads the current value of the rule's property from a domain object.
- `ComplexObject.CreateRules` shows how an entity builds its rule list: it takes the list of its base type and appends its own rules to it.

Modules:

- `Wrappers` (wrappers.dfy): `Option`, where `None` is a C# `null`, and `Result`, where `Failure` is a thrown exception.
- `Strings` (strings.dfy): .NET's `Char.IsWhiteSpace` and `String.Trim()`.
  - `Trim` is characterised completely. `TrimSurrounds` shows that the input is the trimmed result with white-space-only margins. `TrimUnique` shows that such a split is unique.
- `Validators` (validator.dfy): class `Validator`.
  - The backing fields `_description` and `_propertyName` are the mutable fields `description` and `propertyName`.
  - The getters are functions. The `internal set` accessors are methods.
  - A domain object is seen as a map from property name to value. The reflective lookup is `Lookup` on that map.
  - A missing property is `Failure(NullReference)`: in the source, `GetProperty` returns null and the next line dereferences it.
- `ComplexObjects` (complex_object.dfy): class `ComplexObject`, the `List<Validator>` it fills (`RuleList`) and the nested `SimpleObject`.

The source does not override `Equals`. Two validators with the same description are therefore still distinct objects, and only their hashes and texts agree. The model follows the code: a `Validator` is a Dafny class, compared by reference. `HashDependsOnlyOnDescription` states what does agree.

## Model

| member | source | states |
|---|---|---|
| Strings.TrimStartSpec | Validators/Validator.cs:43 | dropping leading white space keeps a suffix of the input, drops only white space, and leaves a string that does not start with white space |
| Strings.TrimEndSpec | Validators/Validator.cs:43 | dropping trailing white space keeps a prefix of the input, drops only white space, and leaves a string that does not end with white space |
| Strings.Trim | Validators/Validator.cs:43 | the result neither starts nor ends with white space and is no longer than the input |
| Strings.TrimSurrounds | Validators/Validator.cs:43 | the input is the trimmed result with white-space-only text before and after it |
| Strings.TrimUnique | Validators/Validator.cs:43 | any split of a string into white space, a trimmed middle and white space has that middle as its trim |
| Strings.TrimTrimmed | Validators/Validator.cs:43 | trimming a string that has no edge white space leaves it unchanged |
| Strings.TrimIdempotent | Validators/Validator.cs:43 | trimming twice equals trimming once |
| Validators.NormalizeName | Validators/Validator.cs:43 | the name read back is never null, is trimmed, is empty for a null field and is no longer than the stored text |
| Validators.NormalizeNameIdempotent | Validators/Validator.cs:43-44 | setting the name just read and reading again yields the same name |
| Validators.NormalizeNamePadded | Validators/Validator.cs:43-44 | a name stored with surrounding white space (such as " X ") reads back without it ("X") |
| Validators.Lookup | Validators/Validator.cs:71-72 | a lookup succeeds exactly when the object has a property of that name, and then returns its value |
| Validators.Validator.Default | Validators/Validator.cs:19 | the parameterless constructor leaves Description null and PropertyName empty |
| Validators.Validator.constructor | Validators/Validator.cs:26-29 | the two-argument constructor leaves Description equal to the description given and PropertyName equal to the trim of the name given, null read as empty |
| Validators.Validator.Description | Validators/Validator.cs:34-35 | the `Description` getter returns the stored `_description` verbatim, null included, with no trimming |
| Validators.Validator.SetDescription | Validators/Validator.cs:34-37 | Description reads back exactly the value set, with no trimming, and the property name is unchanged |
| Validators.Validator.PropertyName | Validators/Validator.cs:42-45 | the getter never returns null, returns a trimmed string, returns "" for a null field |
| Validators.Validator.SetPropertyName | Validators/Validator.cs:42-45 | the setter stores the raw value, the getter then returns its trim, and the description is unchanged |
| Validators.Validator.ToString | Validators/Validator.cs:56-58 | the text of a rule is its Description, null included |
| Validators.Validator.GetHashCode | Validators/Validator.cs:66-68 | hashing fails exactly when the description is null, and otherwise is the string hash of the description |
| Validators.Validator.GetPropertyValue | Validators/Validator.cs:70-73 | the lookup uses the trimmed property name; it returns the property's current value when the object has it and fails otherwise |
| Validators.HashDependsOnlyOnDescription | Validators/Validator.cs:56-68 | two rules with equal descriptions have equal texts and equal hashes, whatever their property names and kinds |
| Validators.GetPropertyValueTrimsName | Validators/Validator.cs:70-73 | a rule whose stored name carries surrounding white space finds the property of the bare name, and fails when there is none |
| ComplexObjects.RuleList.Add | BusinessObjects.Tests/ComplexObject.cs:19-20 | `List.Add` appends the rule at the end of the list |
| ComplexObjects.ComposeRules | BusinessObjects.Tests/ComplexObject.cs:18-21 | the rule set has two more rules than the base set, the base rules are an unchanged prefix, then comes the length rule on "LengthProperty" with bounds 1 and 5, then the required rule on "RequiredProperty" |
| ComplexObjects.ComplexObject.CreateRules | BusinessObjects.Tests/ComplexObject.cs:16-22 | the base list is extended in place and returned; its old rules stay in place as a prefix, two new rules follow, and the kinds of the result are ComposeRules of the base kinds, so they depend on nothing but the base list; the new rules read PropertyName "LengthProperty" and "RequiredProperty" |
| ComplexObjects.ComplexObject.constructor | BusinessObjects.Tests/ComplexObject.cs:10-13 | the constructor creates a new nested object, and the SimpleObject property returns it (a `const` field, so always that one instance) |
| ComplexObjects.ComplexObject.SimpleObjectProperty | BusinessObjects.Tests/ComplexObject.cs:8-13 | the getter-only `SimpleObject` property returns the `_simple` field; since that field is a `const` set once by the constructor (whose contract gives `SimpleObjectProperty() == simple` for a fresh object), it is always that one instance |
| ComplexObjects.ComplexObject.SetLengthProperty | BusinessObjects.Tests/ComplexObject.cs:24 | the setter stores the value |
| ComplexObjects.ComplexObject.SetRequiredProperty | BusinessObjects.Tests/ComplexObject.cs:27 | the setter stores the value |
| ComplexObjects.ComplexObject.Properties | BusinessObjects.Tests/ComplexObject.cs:23-30 | the object has exactly the properties LengthProperty, RequiredProperty and SimpleObject, each with its current value |
| ComplexObjects.ComplexObjectLookup | BusinessObjects.Tests/ComplexObject.cs:23-30 | a rule's lookup on a ComplexObject returns the current value of each declared property and fails for any other name |

## Left out

- Validators.Validator.Validate: `Validate` is abstract in the source. It is modelled as dispatch to a check the caller passes, given the rule's kind and property name. The check returns a `Result`, so a rule whose check throws (such as a failed property lookup) is expressible. `Validate` carries no contract.
- The concrete rule classes `LengthValidator`, `RequiredValidator` and `SimpleRule` are not part of this model. A `Validator` records which class it is, and that class's constructor arguments, in `kind`.
- ComplexObjects.ComplexObject.CreateRules: the two new rules are built with the two-argument base constructor and the property name their concrete constructors are given. Their description is null in the model: the text the concrete rule classes pass as description is not part of this model, so their `ToString` is null and `GetHashCode` fails here.
- The base class's `CreateRules` (`BusinessObject`) is not part of this model. The base rule list is an input of `CreateRules`.
- Running all rules of an entity and collecting the broken ones is not part of this model. It lives in `BusinessObject`.
- Reflection (`GetType().GetProperty`, `PropertyInfo.GetValue`) is replaced by a map from property name to value. Case-insensitive and ambiguous matches are not modelled.
- Validators.Validator.GetPropertyValue: a null domain object, which throws on `GetType()`, cannot occur, because a map is never null. Failures inside `PropertyInfo.GetValue` (a property without a getter, a getter that throws) are not modelled: a property present in the map always yields its value.
- Validators.Validator.ToString: `Description` and `PropertyName` are `virtual` in the source, and `ToString`, `GetHashCode`, `GetPropertyValue` and the constructor go through them. Dafny class members cannot be overridden, so the model covers rule classes that do not override these two properties.
- ComplexObjects.ComplexObject.Properties: properties that `ComplexObject` inherits from `BusinessObject` are not listed, because that class is not part of this model.
- ComplexObjects.ComplexObjectLookup: "fails for any other name" holds only for the three properties `ComplexObject` declares itself. An inherited property of `BusinessObject` would be found by the source's lookup.
- The .NET string hash is a function the caller passes. Only its determinism is used.
- `ComplexObject(XmlReader)` and `ReadXml` (serialisation, I/O) are left out.
- The `[DataProperty]` attribute is left out. Validation does not use it.
- `char` is a Unicode scalar value, whereas C# uses a UTF-16 code unit. All white-space characters lie in the Basic Multilingual Plane, so `Trim` is unaffected.
