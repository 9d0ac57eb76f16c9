/** The plan descriptor: one correlation plan's id, input topics, output
    topics (internal stream name to destination topic) and rule text, how it
    is read from and written back to a configuration map, and the full rule
    text handed to the event-processing engine. */
module ExecutionPlan {
  import opened Wrappers
  import opened Config

  /** An immutable plan. Java stores the caller's list and map by reference;
      here they are values, so the read-only views the accessors hand out are
      the fields themselves. */
  datatype Plan = Plan(
    id: string,
    inputTopics: seq<string>,
    outputTopics: map<string, string>,
    plan: string)

  /** The two ways parsing a configuration map fails: a field of the wrong
      Java type fails its cast (a ClassCastException thrown at that key's
      cast), and a field that is absent or null fails the required-field
      check (a TransformException, "required field not found"). */
  datatype ConfigError =
    | ClassCast(key: string)
    | RequiredFieldNotFound

  /** The Java type a recognised key's value is cast to. */
  datatype Kind = ListKind | MapKind | StringKind

  const InputKey: string := "input"
  const OutputKey: string := "output"
  const IdKey: string := "id"
  const PlanKey: string := "executionPlan"

  /** The recognised keys with the type each is cast to, in the order the
      casts happen. */
  const Fields: seq<(string, Kind)> :=
    [(InputKey, ListKind), (OutputKey, MapKind), (IdKey, StringKind), (PlanKey, StringKind)]

  const RecognisedKeys: set<string> := {InputKey, OutputKey, IdKey, PlanKey}

  /** `v` is a non-null object of the Java type `k` names. */
  predicate HasKind(v: Value, k: Kind) {
    match k
    case ListKind => v.StrList?
    case MapKind => v.StrMap?
    case StringKind => v.Str?
  }

  /** A cast of `v` to the type `k` names succeeds: null casts to anything. */
  predicate Casts(v: Value, k: Kind) {
    v.Null? || HasKind(v, k)
  }

  /** The first field of `fields`, in order, whose value in `m` fails its cast. */
  function FirstBadCast(m: ConfigMap, fields: seq<(string, Kind)>): (r: Option<string>)
    ensures r.None? <==>
      forall i :: 0 <= i < |fields| ==> Casts(Lookup(m, fields[i].0), fields[i].1)
    ensures r.Some? ==>
      exists i :: 0 <= i < |fields| && fields[i].0 == r.value
        && !Casts(Lookup(m, fields[i].0), fields[i].1)
        && forall j :: 0 <= j < i ==> Casts(Lookup(m, fields[j].0), fields[j].1)
  {
    if |fields| == 0 then None
    else if !Casts(Lookup(m, fields[0].0), fields[0].1) then Some(fields[0].0)
    else
      var rest := FirstBadCast(m, fields[1..]);
      assert forall i :: 1 <= i < |fields| ==> fields[i] == fields[1..][i - 1];
      rest
  }

  /** Some recognised field is absent from `m` or bound to null. */
  predicate SomeFieldMissing(m: ConfigMap) {
    exists i :: 0 <= i < |Fields| && Lookup(m, Fields[i].0).Null?
  }

  /** Every recognised field is present with a value of the type it is cast to. */
  predicate WellFormed(m: ConfigMap) {
    forall i :: 0 <= i < |Fields| ==> HasKind(Lookup(m, Fields[i].0), Fields[i].1)
  }

  /** Parses a configuration map: all four casts first, in field order, then
      the null check on all four, then construction. Extra keys are ignored;
      empty strings, lists and maps are accepted. */
  function FromMap(m: ConfigMap): (r: Result<Plan, ConfigError>)
    ensures r.Success? <==> WellFormed(m)
    ensures SomeFieldMissing(m) ==> r.Failure?
    ensures r == Failure(RequiredFieldNotFound) <==>
      && SomeFieldMissing(m)
      && forall i :: 0 <= i < |Fields| ==> Casts(Lookup(m, Fields[i].0), Fields[i].1)
    ensures r.Failure? && r.error.ClassCast? ==>
      exists i :: 0 <= i < |Fields| && Fields[i].0 == r.error.key
        && !Casts(Lookup(m, Fields[i].0), Fields[i].1)
        && forall j :: 0 <= j < i ==> Casts(Lookup(m, Fields[j].0), Fields[j].1)
    ensures r.Success? ==>
      && Lookup(m, IdKey) == Str(r.value.id)
      && Lookup(m, InputKey) == StrList(r.value.inputTopics)
      && Lookup(m, OutputKey) == StrMap(r.value.outputTopics)
      && Lookup(m, PlanKey) == Str(r.value.plan)
  {
    var input := Lookup(m, InputKey);
    var output := Lookup(m, OutputKey);
    var id := Lookup(m, IdKey);
    var plan := Lookup(m, PlanKey);
    match FirstBadCast(m, Fields)
    case Some(key) => Failure(ClassCast(key))
    case None =>
      if input.Null? || output.Null? || id.Null? || plan.Null? then
        assert SomeFieldMissing(m) by {
          if input.Null? { assert Lookup(m, Fields[0].0).Null?; }
          else if output.Null? { assert Lookup(m, Fields[1].0).Null?; }
          else if id.Null? { assert Lookup(m, Fields[2].0).Null?; }
          else { assert Lookup(m, Fields[3].0).Null?; }
        }
        Failure(RequiredFieldNotFound)
      else
        assert Casts(input, Fields[0].1) && Casts(output, Fields[1].1);
        assert Casts(id, Fields[2].1) && Casts(plan, Fields[3].1);
        Success(Plan(id.text, input.items, output.entries, plan.text))
  }

  /** Serialises a plan: exactly the four recognised keys, each bound to the
      stored field as the type `FromMap` casts it to. */
  function ToMap(p: Plan): (r: ConfigMap)
    ensures r.Keys == RecognisedKeys
    ensures WellFormed(r)
    ensures r[IdKey] == Str(p.id) && r[PlanKey] == Str(p.plan)
    ensures r[InputKey] == StrList(p.inputTopics) && r[OutputKey] == StrMap(p.outputTopics)
  {
    map[IdKey := Str(p.id), InputKey := StrList(p.inputTopics),
        OutputKey := StrMap(p.outputTopics), PlanKey := Str(p.plan)]
  }

  /** Round trip from a configuration map: whatever `FromMap` accepts, `ToMap`
      gives back, minus the keys `FromMap` does not read. */
  lemma ConfigRoundTrip(m: ConfigMap)
    requires FromMap(m).Success?
    ensures ToMap(FromMap(m).value) == Restrict(m, RecognisedKeys)
  {
  }

  /** Round trip from a plan: parsing a serialised plan gives the same plan. */
  lemma PlanRoundTrip(p: Plan)
    ensures FromMap(ToMap(p)) == Success(p)
  {
  }

  /** Parsing depends only on the recognised keys. */
  lemma FromMapIgnoresExtraKeys(m: ConfigMap)
    ensures FromMap(m) == FromMap(Restrict(m, RecognisedKeys))
  {
  }

  /** The raw event stream every event enters through. */
  const RawStream: string := "raw_rb_flow"

  /** The stream the pre-filter feeds and plan rules read from. */
  const FilteredStream: string := "rb_flow"

  /** The attribute that tells tenants' events apart, and the one value of it
      the pre-filter admits. */
  const NamespaceAttribute: string := "namespace_uuid"
  const NamespaceSentinel: string := "11111111"

  const AdmissionCondition: string := NamespaceAttribute + " == '" + NamespaceSentinel + "'"

  /** The text the raw stream's declaration opens with. */
  const DeclarationHead: string := "@config(async = 'true') define stream "

  /** Declares the raw stream (src, dst, namespace_uuid, bytes), ingested
      asynchronously. */
  const RawStreamDeclaration: string :=
    DeclarationHead + RawStream
    + " (src string, dst string, " + NamespaceAttribute + " string, bytes int);"

  /** The selection the pre-filter applies: raw events whose namespace is
      the sentinel. */
  const Selection: string := "from " + RawStream + "[" + AdmissionCondition + "]"

  /** The universal pre-filter: only raw events whose namespace is the
      sentinel reach the filtered stream, with src, dst and bytes. */
  const NamespaceFilter: string :=
    Selection + " select src, dst, bytes " + Insertion

  /** Where the pre-filter's output goes: the filtered stream. */
  const Insertion: string := "insert into " + FilteredStream + ";"

  const Preamble: string := RawStreamDeclaration + NamespaceFilter

  /** The rule text handed to the engine: the fixed preamble, then the plan's
      own rule text verbatim, with nothing in between. */
  function FullPlan(p: Plan): (r: string)
    ensures |r| == |Preamble| + |p.plan|
    ensures r[..|Preamble|] == Preamble
    ensures r[|Preamble|..] == p.plan
  {
    Preamble + p.plan
  }

  /** `t` occurs in `s` starting at index `k`. */
  predicate OccursAt(t: string, s: string, k: nat) {
    k + |t| <= |s| && s[k..k + |t|] == t
  }

  /** `t` occurs in `a + t + b` right after `a`. */
  lemma OccursBetween(a: string, t: string, b: string)
    ensures OccursAt(t, a + t + b, |a|)
  {
    assert (a + t + b)[|a|..|a| + |t|] == t;
  }

  /** The preamble does not depend on the plan: two full plans agree on it. */
  lemma FullPlanPrefixIndependent(p: Plan, q: Plan)
    ensures FullPlan(p)[..|Preamble|] == FullPlan(q)[..|Preamble|]
  {
  }

  /** Different rule texts give different full plans, and the rule text is
      recovered from the full plan by dropping the preamble. */
  lemma FullPlanDeterminesRule(p: Plan, q: Plan)
    ensures FullPlan(p) == FullPlan(q) <==> p.plan == q.plan
  {
  }

  /** The full plan opens with the declaration of the raw stream. */
  lemma FullPlanDeclaresRawStream(p: Plan)
    ensures OccursAt(RawStreamDeclaration, FullPlan(p), 0)
    ensures OccursAt(RawStream, FullPlan(p), |DeclarationHead|)
  {
  }

  /** Right after the raw stream's declaration, before any of the plan's own
      text, the full plan selects from the raw stream only the events that
      satisfy the namespace condition. */
  lemma FullPlanFiltersNamespace(p: Plan)
    ensures OccursAt(Selection, FullPlan(p), |RawStreamDeclaration|)
    ensures |RawStreamDeclaration| + |Selection| <= |Preamble|
  {
    var rest := " select src, dst, bytes " + Insertion + p.plan;
    assert FullPlan(p) == RawStreamDeclaration + Selection + rest;
    OccursBetween(RawStreamDeclaration, Selection, rest);
  }

  /** The pre-filter's output goes into the filtered stream: the preamble
      ends by inserting into it, and the plan's text follows. */
  lemma FullPlanFeedsFilteredStream(p: Plan)
    ensures OccursAt(Insertion, FullPlan(p), |Preamble| - |Insertion|)
    ensures FullPlan(p)[|Preamble|..] == p.plan
  {
  }
}
