/**
 * The `StackDetail` / `JobPostingOutput` schema of agent_1.py as a validator
 * over parsed JSON, with the behaviour of the pydantic models: required
 * string fields, list fields that default to empty when missing, extra keys
 * ignored, no coercion of other JSON values into strings.
 */
module Schema {
  import opened Wrappers
  import opened JsonValues

  datatype StackDetail = StackDetail(stackField: string, stackName: string, deepRequirements: seq<string>)

  datatype JobPostingOutput = JobPostingOutput(
    companyName: string,
    companyIndustry: string,
    jobPosition: string,
    requirements: seq<StackDetail>)

  /** One step of a violation's location: an object key or a list index. */
  datatype Loc = Key(name: string) | Index(i: nat)

  datatype ErrorType = Missing | StringType | ListType | ModelType

  datatype Violation = Violation(loc: seq<Loc>, kind: ErrorType)

  /**
   * Why a value was refused: `JobPostingOutput(**value)` raises a TypeError
   * for a non-object, and a ValidationError listing every field-level fault.
   */
  datatype Rejection = NotAMapping | ValidationError(violations: seq<Violation>)

  // ---- The schema, stated declaratively ----

  predicate HasString(m: map<string, Json>, key: string) {
    key in m && m[key].JString?
  }

  predicate IsStringList(j: Json) {
    j.JArray? && forall i :: 0 <= i < |j.items| ==> j.items[i].JString?
  }

  predicate IsStackDetail(j: Json) {
    && j.JObject?
    && HasString(j.fields, "stack_field")
    && HasString(j.fields, "stack_name")
    && ("deep_requirements" in j.fields ==> IsStringList(j.fields["deep_requirements"]))
  }

  predicate AllStackDetails(items: seq<Json>) {
    forall i :: 0 <= i < |items| ==> IsStackDetail(items[i])
  }

  predicate IsJobPosting(j: Json) {
    && j.JObject?
    && HasString(j.fields, "company_name")
    && HasString(j.fields, "company_industry")
    && HasString(j.fields, "job_position")
    && ("requirements" in j.fields ==>
          j.fields["requirements"].JArray? && AllStackDetails(j.fields["requirements"].items))
  }

  // ---- Field-level violations, in field order ----

  function StringViolations(m: map<string, Json>, key: string, at: seq<Loc>): (vs: seq<Violation>)
    ensures vs == [] <==> HasString(m, key)
  {
    if key !in m then [Violation(at + [Key(key)], Missing)]
    else if m[key].JString? then []
    else [Violation(at + [Key(key)], StringType)]
  }

  function StringItemViolations(items: seq<Json>, at: seq<Loc>, from: nat): (vs: seq<Violation>)
    ensures vs == [] <==> forall i :: 0 <= i < |items| ==> items[i].JString?
    decreases |items|
  {
    if items == [] then []
    else
      (if items[0].JString? then [] else [Violation(at + [Index(from)], StringType)])
      + StringItemViolations(items[1..], at, from + 1)
  }

  /** A `List[str]` field with `default_factory=list`. */
  function StringListViolations(m: map<string, Json>, key: string, at: seq<Loc>): (vs: seq<Violation>)
    ensures vs == [] <==> (key in m ==> IsStringList(m[key]))
  {
    if key !in m then []
    else match m[key]
      case JArray(items) => StringItemViolations(items, at + [Key(key)], 0)
      case _ => [Violation(at + [Key(key)], ListType)]
  }

  function StackDetailViolations(j: Json, at: seq<Loc>): (vs: seq<Violation>)
    ensures vs == [] <==> IsStackDetail(j)
  {
    match j
    case JObject(m) =>
      StringViolations(m, "stack_field", at)
      + StringViolations(m, "stack_name", at)
      + StringListViolations(m, "deep_requirements", at)
    case _ => [Violation(at, ModelType)]
  }

  function RequirementItemViolations(items: seq<Json>, at: seq<Loc>, from: nat): (vs: seq<Violation>)
    ensures vs == [] <==> AllStackDetails(items)
    decreases |items|
  {
    if items == [] then []
    else
      var rest := RequirementItemViolations(items[1..], at, from + 1);
      assert AllStackDetails(items) <==> IsStackDetail(items[0]) && AllStackDetails(items[1..]) by {
        if IsStackDetail(items[0]) && AllStackDetails(items[1..]) {
          forall i | 0 <= i < |items| ensures IsStackDetail(items[i]) {
            if i > 0 { assert items[i] == items[1..][i - 1]; }
          }
        }
      }
      StackDetailViolations(items[0], at + [Index(from)]) + rest
  }

  function JobPostingViolations(m: map<string, Json>): (vs: seq<Violation>)
    ensures vs == [] <==> IsJobPosting(JObject(m))
  {
    StringViolations(m, "company_name", [])
    + StringViolations(m, "company_industry", [])
    + StringViolations(m, "job_position", [])
    + (if "requirements" !in m then []
       else match m["requirements"]
         case JArray(items) => RequirementItemViolations(items, [Key("requirements")], 0)
         case _ => [Violation([Key("requirements")], ListType)])
  }

  // ---- Building the validated model ----

  function StringsOf(items: seq<Json>): (r: seq<string>)
    requires forall i :: 0 <= i < |items| ==> items[i].JString?
    ensures |r| == |items| && forall i :: 0 <= i < |items| ==> r[i] == items[i].s
  {
    if items == [] then [] else [items[0].s] + StringsOf(items[1..])
  }

  function BuildStackDetail(j: Json): StackDetail
    requires IsStackDetail(j)
  {
    var m := j.fields;
    StackDetail(
      m["stack_field"].s,
      m["stack_name"].s,
      if "deep_requirements" in m then StringsOf(m["deep_requirements"].items) else [])
  }

  function BuildRequirements(items: seq<Json>): (r: seq<StackDetail>)
    requires AllStackDetails(items)
    ensures |r| == |items| && forall i :: 0 <= i < |items| ==> r[i] == BuildStackDetail(items[i])
  {
    if items == [] then [] else [BuildStackDetail(items[0])] + BuildRequirements(items[1..])
  }

  /** `JobPostingOutput(**value)`: the validated model, or why it was refused. */
  function Validate(j: Json): (r: Result<JobPostingOutput, Rejection>)
    ensures r.Success? <==> IsJobPosting(j)
    ensures r.Success? ==>
      && r.value.companyName == j.fields["company_name"].s
      && r.value.companyIndustry == j.fields["company_industry"].s
      && r.value.jobPosition == j.fields["job_position"].s
      && r.value.requirements ==
           (if "requirements" in j.fields then BuildRequirements(j.fields["requirements"].items) else [])
    ensures r.Failure? ==> (r.error.NotAMapping? <==> !j.JObject?)
    ensures r.Failure? && r.error.ValidationError? ==> r.error.violations != []
  {
    match j
    case JObject(m) =>
      var vs := JobPostingViolations(m);
      if vs == [] then
        Success(JobPostingOutput(
          m["company_name"].s,
          m["company_industry"].s,
          m["job_position"].s,
          if "requirements" in m then BuildRequirements(m["requirements"].items) else []))
      else Failure(ValidationError(vs))
    case _ => Failure(NotAMapping)
  }

  // ---- The canonical form `model_dump` produces ----

  function StringsToJson(xs: seq<string>): (r: seq<Json>)
    ensures |r| == |xs| && forall i :: 0 <= i < |xs| ==> r[i] == JString(xs[i])
  {
    if xs == [] then [] else [JString(xs[0])] + StringsToJson(xs[1..])
  }

  function StackDetailToJson(d: StackDetail): Json {
    JObject(map[
      "stack_field" := JString(d.stackField),
      "stack_name" := JString(d.stackName),
      "deep_requirements" := JArray(StringsToJson(d.deepRequirements))])
  }

  function RequirementsToJson(rs: seq<StackDetail>): (r: seq<Json>)
    ensures |r| == |rs| && forall i :: 0 <= i < |rs| ==> r[i] == StackDetailToJson(rs[i])
  {
    if rs == [] then [] else [StackDetailToJson(rs[0])] + RequirementsToJson(rs[1..])
  }

  /** Every field of the model, defaults included. */
  function ToJson(p: JobPostingOutput): (r: Json)
    ensures r.JObject? && r.fields.Keys == {"company_name", "company_industry", "job_position", "requirements"}
    ensures r.fields["company_name"] == JString(p.companyName)
    ensures r.fields["company_industry"] == JString(p.companyIndustry)
    ensures r.fields["job_position"] == JString(p.jobPosition)
    ensures r.fields["requirements"] == JArray(RequirementsToJson(p.requirements))
    ensures |r.fields["requirements"].items| == |p.requirements|
  {
    JObject(map[
      "company_name" := JString(p.companyName),
      "company_industry" := JString(p.companyIndustry),
      "job_position" := JString(p.jobPosition),
      "requirements" := JArray(RequirementsToJson(p.requirements))])
  }

  // ---- Properties ----

  lemma {:induction false} StringsRoundTrip(xs: seq<string>)
    ensures IsStringList(JArray(StringsToJson(xs)))
    ensures StringsOf(StringsToJson(xs)) == xs
  {
    if xs != [] {
      StringsRoundTrip(xs[1..]);
      var js := StringsToJson(xs);
      assert js[1..] == StringsToJson(xs[1..]);
      forall i | 0 <= i < |js| ensures js[i].JString? {
        if i > 0 { assert js[i] == js[1..][i - 1]; }
      }
    }
  }

  lemma {:induction false} RequirementsRoundTrip(rs: seq<StackDetail>)
    ensures AllStackDetails(RequirementsToJson(rs))
    ensures BuildRequirements(RequirementsToJson(rs)) == rs
  {
    if rs != [] {
      RequirementsRoundTrip(rs[1..]);
      StringsRoundTrip(rs[0].deepRequirements);
      var js := RequirementsToJson(rs);
      assert js[1..] == RequirementsToJson(rs[1..]);
      assert IsStackDetail(js[0]);
      forall i | 0 <= i < |js| ensures IsStackDetail(js[i]) {
        if i > 0 { assert js[i] == js[1..][i - 1]; }
      }
    }
  }

  /** Dumping a validated model and validating the dump gives the model back. */
  lemma ValidateRoundTrip(p: JobPostingOutput)
    ensures Validate(ToJson(p)) == Success(p)
  {
    var m := ToJson(p).fields;
    RequirementsRoundTrip(p.requirements);
    assert m["requirements"].items == RequirementsToJson(p.requirements);
    assert IsJobPosting(JObject(m));
    assert Validate(JObject(m)).value.requirements == BuildRequirements(m["requirements"].items);
  }

  /** A missing required field is reported under its own name. */
  lemma MissingFieldReported(m: map<string, Json>, key: string)
    requires key == "company_name" || key == "company_industry" || key == "job_position"
    requires key !in m
    ensures Validate(JObject(m)).Failure?
    ensures Violation([Key(key)], Missing) in Validate(JObject(m)).error.violations
  {
    var v := Violation([Key(key)], Missing);
    assert [] + [Key(key)] == [Key(key)];
    assert StringViolations(m, key, []) == [v];
    var vs := JobPostingViolations(m);
    var a := StringViolations(m, "company_name", []);
    var b := StringViolations(m, "company_industry", []);
    var c := StringViolations(m, "job_position", []);
    assert vs == a + b + c + vs[|a + b + c|..];
    assert v in a || v in b || v in c;
  }

  /** A required field holding anything but a string is reported as `StringType`. */
  lemma NonStringFieldReported(m: map<string, Json>, key: string)
    requires key == "company_name" || key == "company_industry" || key == "job_position"
    requires key in m && !m[key].JString?
    ensures Validate(JObject(m)).Failure?
    ensures Violation([Key(key)], StringType) in Validate(JObject(m)).error.violations
  {
    var v := Violation([Key(key)], StringType);
    assert [] + [Key(key)] == [Key(key)];
    assert StringViolations(m, key, []) == [v];
    var vs := JobPostingViolations(m);
    var a := StringViolations(m, "company_name", []);
    var b := StringViolations(m, "company_industry", []);
    var c := StringViolations(m, "job_position", []);
    assert vs == a + b + c + vs[|a + b + c|..];
    assert v in a || v in b || v in c;
  }

  /**
   * The three strings alone are enough: `requirements` defaults to empty and
   * keys outside the schema are ignored.
   */
  lemma OptionalRequirements(m: map<string, Json>)
    requires HasString(m, "company_name") && HasString(m, "company_industry") && HasString(m, "job_position")
    requires "requirements" !in m
    ensures Validate(JObject(m)) ==
      Success(JobPostingOutput(m["company_name"].s, m["company_industry"].s, m["job_position"].s, []))
  {
  }

  /** An entry without `deep_requirements` gets the empty list. */
  lemma OptionalDeepRequirements(j: Json)
    requires j.JObject? && HasString(j.fields, "stack_field") && HasString(j.fields, "stack_name")
    requires "deep_requirements" !in j.fields
    ensures IsStackDetail(j)
    ensures BuildStackDetail(j) == StackDetail(j.fields["stack_field"].s, j.fields["stack_name"].s, [])
  {
  }

  /** The complete object with an empty `requirements` list validates, keeping the empty list. */
  lemma AcmeExample()
    ensures Validate(JObject(map[
      "company_name" := JString("Acme"),
      "company_industry" := JString("Tech"),
      "job_position" := JString("Engineer"),
      "requirements" := JArray([])]))
      == Success(JobPostingOutput("Acme", "Tech", "Engineer", []))
  {
  }
}
