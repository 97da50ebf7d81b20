/**
 * Selective disclosure: a holder shares a claim, proves a predicate over it, or
 * withholds it; what a verifier then sees depends on nothing else.
 */
module Disclosure {
  import opened Wrappers

  datatype Value = Number(n: real) | Other(text: string)

  type Claims = map<string, Value>

  /** As decoded from a request body: operator and kind may be anything, and a threshold may not be a finite number. */
  datatype Choice = Share | Prove(op: string, threshold: Option<real>) | Withhold | Odd(kind: string)

  datatype Resolved = Shared(value: Value) | Proven(op: string, threshold: real, result: bool)

  datatype Error =
    | UnknownCredential(id: string)
    | UnknownField(id: string)
    | InvalidOperator(op: string)
    | InvalidThreshold(id: string)
    | NotNumeric(id: string)
    | InvalidChoice(kind: string)

  datatype Asked = Asked(field: string, choice: Choice)

  datatype Disclosed = Disclosed(credential: string, fields: seq<Asked>)

  predicate IsOperator(op: string) {
    op in {"gte", "lte", "gt", "lt", "eq"}
  }

  predicate Holds(value: real, op: string, threshold: real)
    requires IsOperator(op)
  {
    if op == "gte" then value >= threshold
    else if op == "lte" then value <= threshold
    else if op == "gt" then value > threshold
    else if op == "lt" then value < threshold
    else value == threshold
  }

  /** By how far the value is above the threshold: at least, at most, more, less, or neither. */
  lemma {:induction false} OperatorsByDifference(value: real, threshold: real)
    ensures value - threshold > 0.0 ==>
      Holds(value, "gte", threshold) && Holds(value, "gt", threshold) && !Holds(value, "lte", threshold)
      && !Holds(value, "lt", threshold) && !Holds(value, "eq", threshold)
    ensures value - threshold == 0.0 ==>
      Holds(value, "gte", threshold) && Holds(value, "lte", threshold) && Holds(value, "eq", threshold)
      && !Holds(value, "gt", threshold) && !Holds(value, "lt", threshold)
    ensures value - threshold < 0.0 ==>
      Holds(value, "lte", threshold) && Holds(value, "lt", threshold) && !Holds(value, "gte", threshold)
      && !Holds(value, "gt", threshold) && !Holds(value, "eq", threshold)
    ensures forall op :: IsOperator(op) <==> op == "gte" || op == "lte" || op == "gt" || op == "lt" || op == "eq"
  {
  }

  /** One field: its entry, no entry if it is withheld, or the reason it cannot be resolved. */
  function ResolveField(claims: Claims, a: Asked): Result<Option<Resolved>, Error> {
    if a.field !in claims then Failure(UnknownField(a.field))
    else match a.choice
      case Withhold => Success(None)
      case Share => Success(Some(Shared(claims[a.field])))
      case Prove(op, threshold) =>
        if !IsOperator(op) then Failure(InvalidOperator(op))
        else if threshold.None? then Failure(InvalidThreshold(a.field))
        else if !claims[a.field].Number? then Failure(NotNumeric(a.field))
        else Success(Some(Proven(op, threshold.value, Holds(claims[a.field].n, op, threshold.value))))
      case Odd(kind) => Failure(InvalidChoice(kind))
  }

  function Put(out: map<string, Resolved>, field: string, r: Option<Resolved>): map<string, Resolved> {
    if r.Some? then out[field := r.value] else out
  }

  /** The fields of one credential, in order, up to the first that fails. */
  function ResolveFields(claims: Claims, fields: seq<Asked>): Result<map<string, Resolved>, Error> {
    if fields == [] then Success(map[]) else
      var a := fields[|fields| - 1];
      match ResolveFields(claims, fields[..|fields| - 1])
      case Failure(e) => Failure(e)
      case Success(out) =>
        match ResolveField(claims, a)
        case Failure(e) => Failure(e)
        case Success(r) => Success(Put(out, a.field, r))
  }

  function ResolveAll(all: map<string, Claims>,
      disclosures: seq<Disclosed>): Result<map<string, map<string, Resolved>>, Error> {
    if disclosures == [] then Success(map[]) else
      var d := disclosures[|disclosures| - 1];
      match ResolveAll(all, disclosures[..|disclosures| - 1])
      case Failure(e) => Failure(e)
      case Success(out) =>
        if d.credential !in all then Failure(UnknownCredential(d.credential))
        else match ResolveFields(all[d.credential], d.fields)
          case Failure(e) => Failure(e)
          case Success(r) => Success(out[d.credential := r])
  }

  method EvaluatePredicate(value: real, op: string, threshold: real) returns (r: bool)
    requires IsOperator(op)
    ensures r == Holds(value, op, threshold)
  {
    match op {
      case "gte" => r := value >= threshold;
      case "lte" => r := value <= threshold;
      case "gt" => r := value > threshold;
      case "lt" => r := value < threshold;
      case _ => r := value == threshold;
    }
  }

  /** `None` in and out: nothing was said, and everything is disclosed. */
  method ResolveDisclosures(disclosures: Option<seq<Disclosed>>, all: map<string, Claims>)
      returns (r: Result<Option<map<string, map<string, Resolved>>>, Error>)
    ensures disclosures.None? ==> r == Success(None)
    ensures disclosures.Some? ==>
      match ResolveAll(all, disclosures.value)
      case Success(out) => r == Success(Some(out))
      case Failure(e) => r == Failure(e)
  {
    if disclosures.None? { return Success(None); }
    var ds := disclosures.value;
    var resolved: map<string, map<string, Resolved>> := map[];
    for i := 0 to |ds|
      invariant ResolveAll(all, ds[..i]) == Success(resolved)
    {
      assert ds[..i + 1][..i] == ds[..i];
      if ds[i].credential !in all {
        FailsForGood(all, ds, i + 1);
        return Failure(UnknownCredential(ds[i].credential));
      }
      var out := ResolveOne(all[ds[i].credential], ds[i].fields);
      if out.Failure? {
        FailsForGood(all, ds, i + 1);
        return Failure(out.error);
      }
      resolved := resolved[ds[i].credential := out.value];
    }
    assert ds[..|ds|] == ds;
    r := Success(Some(resolved));
  }

  method ResolveOne(claims: Claims, fields: seq<Asked>) returns (r: Result<map<string, Resolved>, Error>)
    ensures r == ResolveFields(claims, fields)
  {
    var out: map<string, Resolved> := map[];
    for i := 0 to |fields|
      invariant ResolveFields(claims, fields[..i]) == Success(out)
    {
      assert fields[..i + 1][..i] == fields[..i];
      var Asked(field, choice) := fields[i];
      if ResolveField(claims, fields[i]).Failure? { FieldFailsForGood(claims, fields, i + 1); }
      if field !in claims { return Failure(UnknownField(field)); }
      match choice {
        case Withhold =>
        case Share => out := out[field := Shared(claims[field])];
        case Prove(op, threshold) =>
          if !IsOperator(op) { return Failure(InvalidOperator(op)); }
          if threshold.None? { return Failure(InvalidThreshold(field)); }
          if !claims[field].Number? { return Failure(NotNumeric(field)); }
          var holds := EvaluatePredicate(claims[field].n, op, threshold.value);
          out := out[field := Proven(op, threshold.value, holds)];
        case Odd(kind) => return Failure(InvalidChoice(kind));
      }
    }
    assert fields[..|fields|] == fields;
    r := Success(out);
  }

  lemma {:induction false} FieldFailsForGood(claims: Claims, fields: seq<Asked>, n: nat)
    requires n <= |fields| && ResolveFields(claims, fields[..n]).Failure?
    ensures ResolveFields(claims, fields) == ResolveFields(claims, fields[..n])
    decreases |fields|
  {
    if n == |fields| {
      assert fields[..n] == fields;
    } else {
      assert fields[..|fields| - 1][..n] == fields[..n];
      FieldFailsForGood(claims, fields[..|fields| - 1], n);
    }
  }

  lemma {:induction false} FailsForGood(all: map<string, Claims>, ds: seq<Disclosed>, n: nat)
    requires n <= |ds| && ResolveAll(all, ds[..n]).Failure?
    ensures ResolveAll(all, ds) == ResolveAll(all, ds[..n])
    decreases |ds|
  {
    if n == |ds| {
      assert ds[..n] == ds;
    } else {
      assert ds[..|ds| - 1][..n] == ds[..n];
      FailsForGood(all, ds[..|ds| - 1], n);
    }
  }

  // --- the view ---------------------------------------------------------------------------

  datatype Shown = Plain(value: Value) | Outcome(op: string, threshold: real, result: bool)

  function Show(r: Resolved): Shown {
    match r
    case Shared(value) => Plain(value)
    case Proven(op, threshold, result) => Outcome(op, threshold, result)
  }

  function ShowAll(resolved: map<string, Resolved>): map<string, Shown> {
    map field | field in resolved :: Show(resolved[field])
  }

  function InFull(claims: Claims): map<string, Shown> {
    map field | field in claims :: Plain(claims[field])
  }

  method RedactClaims(full: Option<Claims>,
      resolved: Option<map<string, Resolved>>) returns (view: Option<map<string, Shown>>)
    ensures view ==
      if resolved.Some? then Some(ShowAll(resolved.value))
      else if full.Some? then Some(InFull(full.value))
      else None
  {
    if resolved.None? {
      return if full.Some? then Some(InFull(full.value)) else None;
    }
    var out: map<string, Shown> := map[];
    var todo := resolved.value.Keys;
    while todo != {}
      invariant todo <= resolved.value.Keys
      invariant out == map field | field in resolved.value && field !in todo :: Show(resolved.value[field])
      decreases |todo|
    {
      var field :| field in todo;
      todo := todo - {field};
      var rd := resolved.value[field];
      var shown :=
        match rd
        case Shared(value) => Plain(value)
        case Proven(op, threshold, result) => Outcome(op, threshold, result);
      out := out[field := shown];
    }
    assert out == ShowAll(resolved.value);
    view := Some(out);
  }

  /** What a verifier sees of one credential once all disclosures are resolved. */
  function View(all: map<string, Claims>, resolved: map<string, map<string, Resolved>>,
      credential: string): Option<map<string, Shown>> {
    if credential in resolved then Some(ShowAll(resolved[credential]))
    else if credential in all then Some(InFull(all[credential]))
    else None
  }

  // --- non-interference ---------------------------------------------------------------------

  /** The two agree on all that a choice lets out about its field. */
  predicate AgreeOn(a: Claims, b: Claims, asked: Asked) {
    && (asked.field in a <==> asked.field in b)
    && (asked.field in a ==>
          match asked.choice
          case Share => a[asked.field] == b[asked.field]
          case Prove(op, threshold) =>
            IsOperator(op) && threshold.Some? ==>
              && a[asked.field].Number? == b[asked.field].Number?
              && (a[asked.field].Number? ==>
                Holds(a[asked.field].n, op, threshold.value) == Holds(b[asked.field].n, op, threshold.value))
          case _ => true)
  }

  predicate Agree(a: Claims, b: Claims, fields: seq<Asked>) {
    forall i :: 0 <= i < |fields| ==> AgreeOn(a, b, fields[i])
  }

  predicate DistinctFields(fields: seq<Asked>) {
    forall i, j :: 0 <= i < j < |fields| ==> fields[i].field != fields[j].field
  }

  /** Whatever else differs, and whether or not resolving succeeds, the outcome is the same. */
  lemma {:induction false} AgreementDecides(a: Claims, b: Claims, fields: seq<Asked>)
    requires Agree(a, b, fields)
    ensures ResolveFields(a, fields) == ResolveFields(b, fields)
  {
    if fields != [] {
      var init := fields[..|fields| - 1];
      assert forall i :: 0 <= i < |init| ==> init[i] == fields[i];
      AgreementDecides(a, b, init);
      assert AgreeOn(a, b, fields[|fields| - 1]);
    }
  }

  lemma {:induction false} OnlyAsked(claims: Claims, fields: seq<Asked>, field: string)
    requires ResolveFields(claims, fields).Success? && forall i :: 0 <= i < |fields| ==> fields[i].field != field
    ensures field !in ResolveFields(claims, fields).value
  {
    if fields != [] {
      var init := fields[..|fields| - 1];
      assert forall i :: 0 <= i < |init| ==> init[i] == fields[i];
      OnlyAsked(claims, init, field);
    }
  }

  /** The entry a field got is its own. */
  lemma {:induction false} OwnEntry(claims: Claims, fields: seq<Asked>, i: nat)
    requires i < |fields| && DistinctFields(fields) && ResolveFields(claims, fields).Success?
    ensures
      var out, one := ResolveFields(claims, fields).value, ResolveField(claims, fields[i]);
      && one.Success?
      && (if one.value.Some? then fields[i].field in out && out[fields[i].field] == one.value.value
        else fields[i].field !in out)
  {
    var init, n := fields[..|fields| - 1], |fields| - 1;
    assert forall j :: 0 <= j < |init| ==> init[j] == fields[j];
    if i < n {
      OwnEntry(claims, init, i);
    } else {
      OnlyAsked(claims, init, fields[n].field);
    }
  }

  /**
   * Of a credential named in the disclosures, two sets of claims look the same to the
   * verifier exactly when they agree on the shared values and on the outcomes of the
   * predicates: withheld values, and all else about a value that a predicate is proved
   * of, have no influence.
   */
  lemma {:induction false} ViewsEqualIffAgree(a: Claims, b: Claims, fields: seq<Asked>)
    requires DistinctFields(fields) && ResolveFields(a, fields).Success? && ResolveFields(b, fields).Success?
    ensures ShowAll(ResolveFields(a, fields).value) == ShowAll(ResolveFields(b, fields).value) <==> Agree(a, b, fields)
  {
    var va, vb := ShowAll(ResolveFields(a, fields).value), ShowAll(ResolveFields(b, fields).value);
    if Agree(a, b, fields) {
      AgreementDecides(a, b, fields);
    }
    if va == vb {
      forall i | 0 <= i < |fields| ensures AgreeOn(a, b, fields[i]) {
        OwnEntry(a, fields, i);
        OwnEntry(b, fields, i);
        SameEntry(a, b, fields[i], va, vb);
      }
    }
  }

  lemma {:induction false} SameEntry(a: Claims, b: Claims, asked: Asked, va: map<string, Shown>, vb: map<string, Shown>)
    requires va == vb && ResolveField(a, asked).Success? && ResolveField(b, asked).Success?
    requires
      var one := ResolveField(a, asked).value;
      if one.Some? then asked.field in va && va[asked.field] == Show(one.value) else asked.field !in va
    requires
      var one := ResolveField(b, asked).value;
      if one.Some? then asked.field in vb && vb[asked.field] == Show(one.value) else asked.field !in vb
    ensures AgreeOn(a, b, asked)
  {
  }

  predicate DistinctCredentials(ds: seq<Disclosed>) {
    forall i, j :: 0 <= i < j < |ds| ==> ds[i].credential != ds[j].credential
  }

  /** Each credential named is resolved by its own claims alone; one that is not named is not redacted at all. */
  lemma {:induction false} EachByItself(all: map<string, Claims>, ds: seq<Disclosed>, credential: string)
    requires DistinctCredentials(ds) && ResolveAll(all, ds).Success?
    ensures forall i :: 0 <= i < |ds| && ds[i].credential == credential ==>
      credential in all && ResolveFields(all[credential], ds[i].fields).Success?
      && View(all, ResolveAll(all, ds).value, credential)
        == Some(ShowAll(ResolveFields(all[credential], ds[i].fields).value))
    ensures (forall i :: 0 <= i < |ds| ==> ds[i].credential != credential) ==>
      View(all, ResolveAll(all, ds).value, credential)
        == if credential in all then Some(InFull(all[credential])) else None
  {
    if ds != [] {
      var init := ds[..|ds| - 1];
      assert forall i :: 0 <= i < |init| ==> init[i] == ds[i];
      EachByItself(all, init, credential);
    }
  }

  /**
   * The verifier's view of a named credential, over whole requests: equal exactly under agreement,
   * whatever the other credentials hold.
   */
  lemma {:induction false} NonInterference(all: map<string, Claims>, other: map<string, Claims>, ds: seq<Disclosed>,
      i: nat)
    requires i < |ds| && DistinctCredentials(ds) && DistinctFields(ds[i].fields)
    requires ResolveAll(all, ds).Success? && ResolveAll(other, ds).Success?
    ensures
      var c := ds[i].credential;
      && c in all && c in other
      && (View(all, ResolveAll(all, ds).value, c) == View(other, ResolveAll(other, ds).value, c)
          <==> Agree(all[c], other[c], ds[i].fields))
  {
    var c := ds[i].credential;
    EachByItself(all, ds, c);
    EachByItself(other, ds, c);
    ViewsEqualIffAgree(all[c], other[c], ds[i].fields);
    hide ShowAll, Agree, ResolveFields;
  }
}
