/** The validate_extraction tool: which extracted values a field schema accepts,
    and the loop that reports the fields it does not accept. */
module Validation {
  import opened Prelude
  import opened Domain

  datatype Rule = FieldRequired | FieldNumeric | FieldNumericRange | FieldDateFormat

  datatype Violation = Violation(rule: Rule, field: string)

  predicate IsDigit(c: char) {
    '0' <= c <= '9'
  }

  /** YYYY-MM-DD, nothing before or after. */
  predicate IsDate(s: string) {
    && |s| == 10
    && forall i | 0 <= i < 10 :: if i == 4 || i == 7 then s[i] == '-' else IsDigit(s[i])
  }

  /** What a field of the given schema type may hold. */
  predicate Accepts(fieldType: string, v: Value) {
    && v != Null
    && (fieldType == "number" ==> v.Num? && v.n >= 0.0)
    && (fieldType == "date" ==> v.Text? && IsDate(v.s))
  }

  /** Every field of the schema is present with a value its type accepts. */
  predicate Valid(schema: map<string, string>, values: map<string, Value>) {
    forall name | name in schema :: name in values && Accepts(schema[name], values[name])
  }

  /** The rule a field breaks, read off the kind of defect rather than the
      order in which the loop tests for it. */
  ghost predicate Breaks(rule: Rule, fieldType: string, present: bool, v: Value) {
    match rule
    case FieldRequired => !present || v == Null
    case FieldNumeric => present && v != Null && fieldType == "number" && !v.Num?
    case FieldNumericRange => present && fieldType == "number" && v.Num? && v.n < 0.0
    case FieldDateFormat => present && v != Null && fieldType == "date" && !(v.Text? && IsDate(v.s))
  }

  ghost predicate Reported(vs: seq<Violation>, name: string) {
    exists i :: 0 <= i < |vs| && vs[i].field == name
  }

  /** `vs` is exactly the report owed for the fields in `names`. */
  ghost predicate ReportFor(vs: seq<Violation>, names: set<string>, schema: map<string, string>, values: map<string, Value>)
    requires names <= schema.Keys
  {
    && (forall i :: 0 <= i < |vs| ==>
          && vs[i].field in names
          && Breaks(vs[i].rule, schema[vs[i].field], vs[i].field in values,
                    if vs[i].field in values then values[vs[i].field] else Null))
    && (forall i, j :: 0 <= i < j < |vs| ==> vs[i].field != vs[j].field)
    && (forall name :: name in names && !Reported(vs, name) ==> name in values && Accepts(schema[name], values[name]))
  }

  /** A field breaks some rule exactly when its type does not accept it, and
      never two rules at once: the report of a field is determined. */
  lemma {:induction false} RulesPartitionDefects(fieldType: string, present: bool, v: Value)
    ensures (exists r: Rule :: Breaks(r, fieldType, present, v)) <==> !(present && Accepts(fieldType, v))
    ensures forall r1: Rule, r2: Rule :: Breaks(r1, fieldType, present, v) && Breaks(r2, fieldType, present, v) ==> r1 == r2
  {
    if !(present && Accepts(fieldType, v)) {
      assert Breaks(FieldRequired, fieldType, present, v) || Breaks(FieldNumeric, fieldType, present, v)
        || Breaks(FieldNumericRange, fieldType, present, v) || Breaks(FieldDateFormat, fieldType, present, v);
    }
  }

  lemma ReportExtends(vs: seq<Violation>, vs': seq<Violation>, names: set<string>, name: string,
                      broken: Option<Rule>, schema: map<string, string>, values: map<string, Value>)
    requires names <= schema.Keys && name in schema && name !in names
    requires ReportFor(vs, names, schema, values)
    requires broken.None? ==> vs' == vs && name in values && Accepts(schema[name], values[name])
    requires broken.Some? ==>
      && vs' == vs + [Violation(broken.value, name)]
      && Breaks(broken.value, schema[name], name in values, if name in values then values[name] else Null)
    ensures ReportFor(vs', names + {name}, schema, values)
  {
    forall n | n in names + {name}
      ensures Reported(vs', n) || (n in values && Accepts(schema[n], values[n]))
    {
      if n == name {
        assert vs' == vs || vs'[|vs|].field == name;
      } else if Reported(vs, n) {
        var i :| 0 <= i < |vs| && vs[i].field == n;
        assert vs'[i].field == n;
      }
    }
  }

  /** What the report owes each field, in full. */
  ghost predicate Spelled(vs: seq<Violation>, name: string, fieldType: string, present: bool, v: Value) {
    && (Violation(FieldRequired, name) in vs <==> !present || v == Null)
    && (Violation(FieldNumeric, name) in vs <==> present && v != Null && fieldType == "number" && !v.Num?)
    && (Violation(FieldNumericRange, name) in vs <==> present && fieldType == "number" && v.Num? && v.n < 0.0)
    && (Violation(FieldDateFormat, name) in vs <==>
          present && v != Null && fieldType == "date"
          && !(v.Text? && |v.s| == 10 && forall k :: 0 <= k < 10 ==> if k == 4 || k == 7 then v.s[k] == '-' else '0' <= v.s[k] <= '9'))
  }

  lemma ReportSpelled(vs: seq<Violation>, schema: map<string, string>, values: map<string, Value>, name: string)
    requires ReportFor(vs, schema.Keys, schema, values) && name in schema
    ensures Spelled(vs, name, schema[name], name in values, if name in values then values[name] else Null)
  {
    var present, v := name in values, if name in values then values[name] else Null;
    RulesPartitionDefects(schema[name], present, v);
    forall rule ensures Violation(rule, name) in vs <==> Breaks(rule, schema[name], present, v) {
      if Breaks(rule, schema[name], present, v) {
        var i :| 0 <= i < |vs| && vs[i].field == name;
        assert vs[i] == Violation(rule, name);
      }
    }
  }

  /** Checks `values` against `schema`. The choice of `name` is Go's unspecified
      map iteration order. */
  method Validate(schema: map<string, string>, values: map<string, Value>) returns (violations: seq<Violation>)
    ensures violations == [] <==> Valid(schema, values)
    ensures ReportFor(violations, schema.Keys, schema, values)
    ensures forall name :: name in schema ==>
      Spelled(violations, name, schema[name], name in values, if name in values then values[name] else Null)
    ensures forall name :: name in schema ==> (Reported(violations, name) <==> !(name in values && Accepts(schema[name], values[name])))
  {
    violations := [];
    var rest := schema.Keys;
    while rest != {}
      invariant rest <= schema.Keys
      invariant ReportFor(violations, schema.Keys - rest, schema, values)
      decreases |rest|
    {
      var name :| name in rest;
      ghost var before := violations;
      if name !in values || values[name] == Null {
        violations := violations + [Violation(FieldRequired, name)];
      } else {
        var value := values[name];
        if schema[name] == "number" {
          if !value.Num? {
            violations := violations + [Violation(FieldNumeric, name)];
          } else if value.n < 0.0 {
            violations := violations + [Violation(FieldNumericRange, name)];
          }
        } else if schema[name] == "date" {
          if !value.Text? || !IsDate(value.s) {
            violations := violations + [Violation(FieldDateFormat, name)];
          }
        }
      }
      ghost var broken := if violations == before then None else Some(violations[|before|].rule);
      ReportExtends(before, violations, schema.Keys - rest, name, broken, schema, values);
      assert schema.Keys - (rest - {name}) == schema.Keys - rest + {name};
      rest := rest - {name};
    }
    assert schema.Keys - rest == schema.Keys;
    forall name | name in schema
      ensures Spelled(violations, name, schema[name], name in values, if name in values then values[name] else Null)
    {
      ReportSpelled(violations, schema, values, name);
    }
    if violations == [] {
      forall name | name in schema ensures name in values && Accepts(schema[name], values[name]) {
        assert !Reported(violations, name);
      }
    } else {
      assert violations[0].field in schema;
    }
  }
}
