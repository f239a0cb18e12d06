/**
 * The test entity `ComplexObject`: two text properties, a read-only nested
 * `SimpleObject`, and the rule set it builds by appending its own two rules to
 * the rules of its base type.
 */
module ComplexObjects {
  import opened Wrappers
  import Strings
  import opened Validators

  /** The nested entity type; its own members are not part of this model. */
  class SimpleObject {
    constructor () {}
  }

  /** The `List<Validator>` that `CreateRules` fills in place. */
  class RuleList {
    var items: seq<Validator>

    constructor (items: seq<Validator>)
      ensures this.items == items
    {
      this.items := items;
    }

    /** `List.Add`: appends at the end. */
    method Add(v: Validator)
      modifies this`items
      ensures items == old(items) + [v]
    {
      items := items + [v];
    }
  }

  /** The kinds of a list of rules, in order. */
  function Kinds(rules: seq<Validator>): seq<RuleKind> {
    seq(|rules|, i requires 0 <= i < |rules| => rules[i].kind)
  }

  /** Appending a length rule and a required rule of the right kinds gives the composed kinds. */
  lemma KindsComposed(before: seq<Validator>, lengthRule: Validator, requiredRule: Validator)
    requires lengthRule.kind == LengthRule("LengthProperty", 1, 5)
    requires requiredRule.kind == RequiredRule("RequiredProperty")
    ensures Kinds(before + [lengthRule, requiredRule]) == ComposeRules(Kinds(before))
  {
    var after := before + [lengthRule, requiredRule];
    var ks := Kinds(after);
    var composed := ComposeRules(Kinds(before));
    forall i | 0 <= i < |ks|
      ensures ks[i] == composed[i]
    {
      if i < |before| {
        assert after[i] == before[i];
      }
    }
  }

  /** The property names of the own rules read back as written. */
  lemma OwnRuleNamesTrimmed()
    ensures NormalizeName(Some("LengthProperty")) == "LengthProperty"
    ensures NormalizeName(Some("RequiredProperty")) == "RequiredProperty"
  {
    Strings.TrimTrimmed("LengthProperty");
    Strings.TrimTrimmed("RequiredProperty");
  }

  /** The rules `ComplexObject` adds to those of its base type, in order. */
  const OwnRules: seq<RuleKind> := [LengthRule("LengthProperty", 1, 5), RequiredRule("RequiredProperty")]

  /**
   * The rule set of `ComplexObject` given the rule set of its base type: the
   * base rules untouched, then the length rule, then the required rule.
   */
  function ComposeRules(baseRules: seq<RuleKind>): (r: seq<RuleKind>)
    ensures |r| == |baseRules| + 2
    ensures r[..|baseRules|] == baseRules
    ensures r[|baseRules|] == LengthRule("LengthProperty", 1, 5)
    ensures r[|baseRules| + 1] == RequiredRule("RequiredProperty")
  {
    baseRules + OwnRules
  }

  /** A property value as the lookup returns it. */
  datatype PropertyValue = Null | Text(text: string) | Nested(obj: SimpleObject)

  function TextValue(s: Option<string>): PropertyValue {
    match s
    case None => Null
    case Some(t) => Text(t)
  }

  class ComplexObject {
    /** The read-only field `_simple`. */
    const simple: SimpleObject
    var lengthProperty: Option<string>
    var requiredProperty: Option<string>

    /** The parameterless constructor: creates the nested object once. */
    constructor ()
      ensures fresh(simple)
      ensures SimpleObjectProperty() == simple
      ensures lengthProperty == None && requiredProperty == None
    {
      simple := new SimpleObject();
      lengthProperty := None;
      requiredProperty := None;
    }

    /** The `SimpleObject` property, which has a getter only. */
    function SimpleObjectProperty(): (r: SimpleObject)
      ensures r == simple
    {
      simple
    }

    method SetLengthProperty(value: Option<string>)
      modifies this`lengthProperty
      ensures lengthProperty == value
    {
      lengthProperty := value;
    }

    method SetRequiredProperty(value: Option<string>)
      modifies this`requiredProperty
      ensures requiredProperty == value
    {
      requiredProperty := value;
    }

    /** The object's properties by name, as a rule's lookup sees them. */
    function Properties(): (m: map<string, PropertyValue>)
      reads this
      ensures m.Keys == {"LengthProperty", "RequiredProperty", "SimpleObject"}
      ensures m["LengthProperty"] == TextValue(lengthProperty)
      ensures m["RequiredProperty"] == TextValue(requiredProperty)
      ensures m["SimpleObject"] == Nested(SimpleObjectProperty())
    {
      map["LengthProperty" := TextValue(lengthProperty),
          "RequiredProperty" := TextValue(requiredProperty),
          "SimpleObject" := Nested(simple)]
    }

    /**
     * `CreateRules`: takes the list the base type built and appends, in place,
     * a length rule on "LengthProperty" with bounds 1 and 5 and then a required
     * rule on "RequiredProperty"; the same list is returned.
     */
    method CreateRules(baseRules: RuleList) returns (rules: RuleList)
      modifies baseRules
      ensures rules == baseRules
      ensures |rules.items| == |old(baseRules.items)| + 2
      ensures rules.items[..|old(baseRules.items)|] == old(baseRules.items)
      ensures fresh(rules.items[|old(baseRules.items)|]) && fresh(rules.items[|old(baseRules.items)| + 1])
      ensures Kinds(rules.items) == ComposeRules(Kinds(old(baseRules.items)))
      ensures rules.items[|old(baseRules.items)|].PropertyName() == "LengthProperty"
      ensures rules.items[|old(baseRules.items)| + 1].PropertyName() == "RequiredProperty"
      ensures rules.items[|old(baseRules.items)|].Description() == None
      ensures rules.items[|old(baseRules.items)| + 1].Description() == None
    {
      OwnRuleNamesTrimmed();
      var lengthRule := new Validator(LengthRule("LengthProperty", 1, 5), Some("LengthProperty"), None);
      var requiredRule := new Validator(RequiredRule("RequiredProperty"), Some("RequiredProperty"), None);
      rules := baseRules;
      ghost var before := rules.items;
      rules.Add(lengthRule);
      rules.Add(requiredRule);
      assert rules.items == before + [lengthRule, requiredRule];
      KindsComposed(before, lengthRule, requiredRule);
    }
  }

  /**
   * On a `ComplexObject`, a rule's lookup finds the three declared properties
   * with their current values and fails on any other name.
   */
  lemma ComplexObjectLookup(v: Validator, o: ComplexObject)
    ensures v.PropertyName() == "LengthProperty" ==> v.GetPropertyValue(o.Properties()) == Success(TextValue(o.lengthProperty))
    ensures v.PropertyName() == "RequiredProperty" ==> v.GetPropertyValue(o.Properties()) == Success(TextValue(o.requiredProperty))
    ensures v.PropertyName() == "SimpleObject" ==> v.GetPropertyValue(o.Properties()) == Success(Nested(o.simple))
    ensures v.PropertyName() !in {"LengthProperty", "RequiredProperty", "SimpleObject"} ==>
      v.GetPropertyValue(o.Properties()) == Failure(NullReference)
  {
  }
}
