/**
 * The abstract business rule `Validator`: a description shown when the rule is
 * broken, the name of the property the rule is about, the textual
 * representation and hash derived from the description, and the lookup of the
 * rule's property on a domain object.
 */
module Validators {
  import opened Wrappers
  import opened Strings

  /** The range of a .NET `int`, the type `GetHashCode` returns. */
  newtype Int32 = x: int | -0x8000_0000 <= x < 0x8000_0000

  /** The exception raised when a null reference is dereferenced. */
  datatype Error = NullReference

  /**
   * Which concrete rule a `Validator` is, with the arguments its constructor
   * was given. `Other` stands for any rule class the application declares.
   */
  datatype RuleKind =
    | LengthRule(propertyName: string, minLength: int, maxLength: int)
    | RequiredRule(propertyName: string)
    | Other(name: string)

  /**
   * What the `PropertyName` getter makes of the stored name: null reads as the
   * empty string, anything else is trimmed.
   */
  function NormalizeName(raw: Option<string>): (r: string)
    ensures IsTrimmed(r)
    ensures raw == None ==> r == ""
    ensures raw != None ==> |r| <= |raw.value|
  {
    Trim(raw.GetOr(""))
  }

  /** Writing back the name just read and reading again gives the same name. */
  lemma NormalizeNameIdempotent(raw: Option<string>)
    ensures NormalizeName(Some(NormalizeName(raw))) == NormalizeName(raw)
  {
    TrimTrimmed(NormalizeName(raw));
  }

  /** A name stored with surrounding white space reads without it. */
  lemma NormalizeNamePadded(a: string, name: string, b: string)
    requires AllWhiteSpace(a) && AllWhiteSpace(b) && IsTrimmed(name)
    ensures NormalizeName(Some(a + name + b)) == name
  {
    TrimUnique(a, name, b);
  }

  /** Looking a property up by name in a domain object seen as a name-to-value map. */
  function Lookup<V>(domainObject: map<string, V>, name: string): (r: Result<V, Error>)
    ensures r.Success? <==> name in domainObject
    ensures r.Success? ==> r.value == domainObject[name]
  {
    if name in domainObject then Success(domainObject[name]) else Failure(NullReference)
  }

  class Validator {
    /** The concrete rule class and its constructor arguments. */
    const kind: RuleKind
    /** The backing field `_description`. */
    var description: Option<string>
    /** The backing field `_propertyName`, as it was set, untrimmed. */
    var propertyName: Option<string>

    /** The parameterless constructor: no description and no property name. */
    constructor Default(kind: RuleKind)
      ensures this.kind == kind
      ensures description == None && propertyName == None
      ensures Description() == None && PropertyName() == ""
    {
      this.kind := kind;
      description := None;
      propertyName := None;
    }

    /** The two-argument constructor: sets the description, then the property name. */
    constructor (kind: RuleKind, propertyName: Option<string>, description: Option<string>)
      ensures this.kind == kind
      ensures this.description == description && this.propertyName == propertyName
      ensures Description() == description && PropertyName() == NormalizeName(propertyName)
    {
      this.kind := kind;
      this.description := None;
      this.propertyName := None;
      new;
      SetDescription(description);
      SetPropertyName(propertyName);
    }

    /** The `Description` getter: the stored description, verbatim. */
    function Description(): (r: Option<string>)
      reads this
      ensures r == description
    {
      description
    }

    /** The `Description` setter: stores the value as given and leaves the property name alone. */
    method SetDescription(value: Option<string>)
      modifies this`description
      ensures Description() == value
      ensures propertyName == old(propertyName) && PropertyName() == old(PropertyName())
    {
      description := value;
    }

    /** The `PropertyName` getter: the stored name, never null and always trimmed. */
    function PropertyName(): (r: string)
      reads this
      ensures IsTrimmed(r)
      ensures propertyName == None ==> r == ""
      ensures propertyName != None ==> |r| <= |propertyName.value|
    {
      NormalizeName(propertyName)
    }

    /** The `PropertyName` setter: stores the raw value; only the getter trims. */
    method SetPropertyName(value: Option<string>)
      modifies this`propertyName
      ensures propertyName == value
      ensures PropertyName() == NormalizeName(value)
      ensures description == old(description)
    {
      propertyName := value;
    }

    /**
     * `Validate` is abstract: each rule class supplies its own check. Here the
     * check is the `verdict` the caller passes, given the rule's kind and
     * property name; a check that throws, such as a failed property lookup,
     * is a `Failure`.
     */
    function Validate<D>(domainObject: D, verdict: (RuleKind, string, D) -> Result<bool, Error>): Result<bool, Error>
      reads this
    {
      verdict(kind, PropertyName(), domainObject)
    }

    /** `ToString`: the description, null included. */
    function ToString(): (r: Option<string>)
      reads this
      ensures r == Description()
    {
      Description()
    }

    /**
     * `GetHashCode`: the hash of `ToString()` under the string hash `stringHash`;
     * fails when the description is null.
     */
    function GetHashCode(stringHash: string -> Int32): (r: Result<Int32, Error>)
      reads this
      ensures r.Failure? <==> ToString() == None
      ensures r.Success? ==> r.value == stringHash(ToString().value)
    {
      match ToString()
      case None => Failure(NullReference)
      case Some(text) => Success(stringHash(text))
    }

    /**
     * `GetPropertyValue`: the current value of the property named by the
     * trimmed `PropertyName`; fails when the object has no such property.
     */
    function GetPropertyValue<V>(domainObject: map<string, V>): (r: Result<V, Error>)
      reads this
      ensures r.Success? <==> PropertyName() in domainObject
      ensures r.Success? ==> r.value == domainObject[PropertyName()]
    {
      Lookup(domainObject, PropertyName())
    }
  }

  /**
   * Hash and text depend on the description alone: two rules with the same
   * description agree on both, whatever their property names or kinds.
   */
  lemma HashDependsOnlyOnDescription(v: Validator, w: Validator, stringHash: string -> Int32)
    requires v.Description() == w.Description()
    ensures v.ToString() == w.ToString()
    ensures v.GetHashCode(stringHash) == w.GetHashCode(stringHash)
  {
  }

  /**
   * The lookup uses the trimmed name: a rule whose name was stored with
   * surrounding white space finds the property of the bare name, and fails
   * when there is none.
   */
  lemma GetPropertyValueTrimsName<V>(v: Validator, domainObject: map<string, V>, a: string, name: string, b: string)
    requires v.propertyName == Some(a + name + b)
    requires AllWhiteSpace(a) && AllWhiteSpace(b) && IsTrimmed(name)
    ensures name in domainObject ==> v.GetPropertyValue(domainObject) == Success(domainObject[name])
    ensures name !in domainObject ==> v.GetPropertyValue(domainObject) == Failure(NullReference)
  {
    NormalizeNamePadded(a, name, b);
  }
}
