/**
 * The part of JSON Schema draft-07 that the tool registry's input schemas use,
 * and a validator that collects every violation in one pass (the server builds
 * its validator with `allErrors: true`). Keywords, by section of the draft-07
 * Validation vocabulary: 6.1.1 `type` (with `integer`), 6.1.2 `enum`,
 * 6.2.2/6.2.4 `maximum`/`minimum`, 6.3.1/6.3.2 `maxLength`/`minLength`,
 * 6.5.3 `required`, 6.5.6 `additionalProperties` (only `false` or absent).
 * `default` and `description` are annotations: they never cause a violation,
 * and the validator does not fill in defaults.
 */
module Schema {
  import opened Wrappers
  import opened Json

  datatype JsonType = TString | TInteger | TNumber | TBoolean | TObject

  /** The schema of one member of an object. */
  datatype PropertySchema = PropertySchema(
    ty: JsonType,
    description: string,
    enumValues: Option<seq<Json>>,
    minLength: Option<nat>,
    maxLength: Option<nat>,
    minimum: Option<real>,
    maximum: Option<real>,
    default: Option<Json>)

  datatype Property = Property(name: string, schema: PropertySchema)

  /** A schema `{type: "object", properties, required, additionalProperties}`. */
  datatype ObjectSchema = ObjectSchema(
    properties: seq<Property>,
    required: seq<string>,
    additionalProperties: bool)

  datatype Keyword = Type | Enum | MinLength | MaxLength | Minimum | Maximum | Required | AdditionalProperties

  /** One violated keyword and the member it concerns ("" for the object itself). */
  datatype Violation = Violation(keyword: Keyword, property: string)

  /** The answer of a validator: valid, or invalid with its errors. */
  datatype Validation<E> = Valid | Invalid(errors: E)

  /** Section 6.1.1: the instance has the named type; `integer` is a number with no fractional part. */
  predicate HasType(t: JsonType, v: Json) {
    match t
    case TString => v.JStr?
    case TInteger => v.JNum? && IsInteger(v.n)
    case TNumber => v.JNum?
    case TBoolean => v.JBool?
    case TObject => v.JObj?
  }

  function PropertyNames(s: ObjectSchema): (names: seq<string>)
    ensures |names| == |s.properties|
    ensures forall i :: 0 <= i < |s.properties| ==> names[i] == s.properties[i].name
  {
    seq(|s.properties|, i requires 0 <= i < |s.properties| => s.properties[i].name)
  }

  /** The declarative meaning of a member's schema: every keyword it carries holds of the value. */
  predicate ValueConforms(p: PropertySchema, v: Json) {
    && HasType(p.ty, v)
    && (p.enumValues.Some? ==> v in p.enumValues.value)
    && (v.JStr? && p.minLength.Some? ==> |v.s| >= p.minLength.value)
    && (v.JStr? && p.maxLength.Some? ==> |v.s| <= p.maxLength.value)
    && (v.JNum? && p.minimum.Some? ==> v.n >= p.minimum.value)
    && (v.JNum? && p.maximum.Some? ==> v.n <= p.maximum.value)
  }

  /** The declarative meaning of an object schema. */
  predicate Conforms(s: ObjectSchema, v: Json) {
    && v.JObj?
    && (forall r :: r in s.required ==> r in v.members)
    && (!s.additionalProperties ==> forall k :: k in v.members ==> k in PropertyNames(s))
    && (forall i :: 0 <= i < |s.properties| && s.properties[i].name in v.members ==>
          ValueConforms(s.properties[i].schema, v.members[s.properties[i].name]))
  }

  /**
   * The violations of one member's keywords. As in Ajv, the length keywords
   * apply only to strings and the bounds only to numbers, while `enum` applies
   * to every value.
   */
  function ValueViolations(p: Property, v: Json): (r: set<Violation>)
    ensures r == {} <==> ValueConforms(p.schema, v)
    ensures forall x :: x in r ==> x.property == p.name
  {
    var ps := p.schema;
    (if HasType(ps.ty, v) then {} else {Violation(Type, p.name)})
    + (if ps.enumValues.Some? && v !in ps.enumValues.value then {Violation(Enum, p.name)} else {})
    + (if v.JStr? && ps.minLength.Some? && |v.s| < ps.minLength.value then {Violation(MinLength, p.name)} else {})
    + (if v.JStr? && ps.maxLength.Some? && |v.s| > ps.maxLength.value then {Violation(MaxLength, p.name)} else {})
    + (if v.JNum? && ps.minimum.Some? && v.n < ps.minimum.value then {Violation(Minimum, p.name)} else {})
    + (if v.JNum? && ps.maximum.Some? && v.n > ps.maximum.value then {Violation(Maximum, p.name)} else {})
  }

  /** The violations of every declared member that the object has. */
  function PropertiesViolations(props: seq<Property>, m: map<string, Json>): set<Violation> {
    if props == [] then {}
    else
      (if props[0].name in m then ValueViolations(props[0], m[props[0].name]) else {})
      + PropertiesViolations(props[1..], m)
  }

  lemma {:induction false} PropertiesViolationsEmpty(props: seq<Property>, m: map<string, Json>)
    ensures PropertiesViolations(props, m) == {} <==>
      forall i :: 0 <= i < |props| && props[i].name in m ==> ValueConforms(props[i].schema, m[props[i].name])
  {
    if props != [] {
      PropertiesViolationsEmpty(props[1..], m);
      assert forall i :: 1 <= i < |props| ==> props[i] == props[1..][i - 1];
    }
  }

  /**
   * Every violation of the object `v` against `s`, all of them collected. A
   * value that is not an object has the one type violation; otherwise each
   * violation names a required member or one the object has.
   */
  function Violations(s: ObjectSchema, v: Json): (r: set<Violation>)
    ensures !v.JObj? ==> r == {Violation(Type, "")}
    ensures v.JObj? ==> forall x :: x in r ==> x.property in s.required || x.property in v.members
  {
    match v
    case JObj(m) =>
      PropertiesViolationsPresent(s.properties, m);
      (set r | r in s.required && r !in m :: Violation(Required, r))
      + (if s.additionalProperties then {}
         else set k | k in m && k !in PropertyNames(s) :: Violation(AdditionalProperties, k))
      + PropertiesViolations(s.properties, m)
    case _ => {Violation(Type, "")}
  }

  /** A member's violations are reported only for members the object has. */
  lemma {:induction false} PropertiesViolationsPresent(props: seq<Property>, m: map<string, Json>)
    ensures forall x :: x in PropertiesViolations(props, m) ==> x.property in m
  {
    if props != [] {
      PropertiesViolationsPresent(props[1..], m);
    }
  }

  /** The validator finds no violation exactly when the value conforms: nothing missed, nothing invented. */
  lemma ViolationsEmptyIffConforms(s: ObjectSchema, v: Json)
    ensures Violations(s, v) == {} <==> Conforms(s, v)
  {
    if v.JObj? {
      var m := v.members;
      PropertiesViolationsEmpty(s.properties, m);
      if Violations(s, v) == {} {
        forall r | r in s.required ensures r in m {
          assert r !in m ==> Violation(Required, r) in Violations(s, v);
        }
        forall k | k in m && !s.additionalProperties ensures k in PropertyNames(s) {
          assert k !in PropertyNames(s) ==> Violation(AdditionalProperties, k) in Violations(s, v);
        }
      }
    }
  }

  /** Every violation of a declared member's keywords is reported for the object. */
  lemma ReportsValueViolations(s: ObjectSchema, m: map<string, Json>, i: nat)
    requires i < |s.properties| && s.properties[i].name in m
    ensures ValueViolations(s.properties[i], m[s.properties[i].name]) <= Violations(s, JObj(m))
  {
    PropertiesViolationsInclude(s.properties, m, i);
  }

  lemma {:induction false} PropertiesViolationsInclude(props: seq<Property>, m: map<string, Json>, i: nat)
    requires i < |props| && props[i].name in m
    ensures ValueViolations(props[i], m[props[i].name]) <= PropertiesViolations(props, m)
  {
    if i > 0 {
      PropertiesViolationsInclude(props[1..], m, i - 1);
    }
  }

  /** A missing required member and an undeclared member are each reported, by name. */
  lemma ReportsMissingAndExtra(s: ObjectSchema, m: map<string, Json>, k: string)
    ensures Violation(Required, k) in Violations(s, JObj(m)) <==> k in s.required && k !in m
    ensures Violation(AdditionalProperties, k) in Violations(s, JObj(m)) <==>
              !s.additionalProperties && k in m && k !in PropertyNames(s)
  {
    assert forall x :: x in PropertiesViolations(s.properties, m) ==> x.keyword !in {Required, AdditionalProperties} by {
      PropertyViolationsKeywords(s.properties, m);
    }
  }

  lemma {:induction false} PropertyViolationsKeywords(props: seq<Property>, m: map<string, Json>)
    ensures forall x :: x in PropertiesViolations(props, m) ==> x.keyword !in {Required, AdditionalProperties}
  {
    if props != [] {
      PropertyViolationsKeywords(props[1..], m);
    }
  }

  /**
   * `validateSchema(schema, data)`: valid, or invalid with the full, non-empty
   * set of violations.
   */
  function Validate(s: ObjectSchema, v: Json): (r: Validation<set<Violation>>)
    ensures r.Valid? <==> Conforms(s, v)
    ensures r.Invalid? ==> r.errors != {} && r.errors == Violations(s, v)
  {
    ViolationsEmptyIffConforms(s, v);
    var errors := Violations(s, v);
    if errors == {} then Valid else Invalid(errors)
  }
}
