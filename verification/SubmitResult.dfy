/** The structured-result validator of the submit_result tool (internal/exec/submit_result.go). Go walks
    a schema's properties in random order, so only the verdict is modelled, not which error is reported. */
module SubmitResult {
  import opened Options

  /** A float64 where only its value matters. */
  datatype Float = Finite(r: real) | Infinite | NotANumber

  datatype Json =
    | Null
    | Bool(b: bool)
    | Num(n: Float)
    | Str(s: string)
    | Arr(elements: seq<Json>)
    | Obj(fields: map<string, Json>)

  /** The largest magnitude below which every integer is a float64: two to the power 53. */
  const SAFE_INT: real := 9007199254740992.0

  predicate CheckType(v: Json, expected: string) {
    if expected == "boolean" then v.Bool?
    else if expected == "string" then v.Str?
    else if expected == "number" then v.Num?
    else if expected == "integer" then
      v.Num? && v.n.Finite? && v.n.r == v.n.r.Floor as real && -SAFE_INT <= v.n.r <= SAFE_INT
    else if expected == "object" then v.Obj?
    else if expected == "array" then v.Arr?
    else if expected == "null" then v.Null?
    else true
  }

  /** What each type admits; an integer is a float without a fraction, exact below two to the power 53. A type
      by another name admits everything. */
  lemma TypesMean(v: Json)
    ensures CheckType(v, "boolean") <==> exists b :: v == Bool(b)
    ensures CheckType(v, "string") <==> exists s :: v == Str(s)
    ensures CheckType(v, "number") <==> exists n :: v == Num(n)
    ensures CheckType(v, "integer") <==> exists k: int :: Whole(v, k)
    ensures CheckType(v, "object") <==> exists fields :: v == Obj(fields)
    ensures CheckType(v, "array") <==> exists elements :: v == Arr(elements)
    ensures CheckType(v, "null") <==> v == Null
    ensures forall t :: t !in {"boolean", "string", "number", "integer", "object", "array", "null"} ==> CheckType(v, t)
  {
    if CheckType(v, "integer") { assert Whole(v, v.n.r.Floor); }
  }

  predicate Whole(v: Json, k: int) {
    v == Num(Finite(k as real)) && -9007199254740992 <= k <= 9007199254740992
  }

  /** The schema's "type", empty when absent or not a string. */
  function TypeOf(s: Json): string
    requires s.Obj?
  {
    if "type" in s.fields && s.fields["type"].Str? then s.fields["type"].s else ""
  }

  predicate HasProperties(s: Json)
    requires s.Obj?
  {
    "properties" in s.fields && s.fields["properties"].Obj?
  }

  predicate HasObjectShape(s: Json)
    requires s.Obj?
  {
    HasProperties(s) || "required" in s.fields
  }

  predicate HasItems(s: Json)
    requires s.Obj?
  {
    "items" in s.fields && s.fields["items"].Obj?
  }

  /** f is declared with a schema of its own, and v has it. */
  predicate Describes(s: Json, v: Json, f: string)
    requires s.Obj?
  {
    v.Obj? && f in v.fields && HasProperties(s)
    && f in s.fields["properties"].fields && s.fields["properties"].fields[f].Obj?
  }

  predicate StringArray(v: Json) {
    v.Arr? && forall i :: 0 <= i < |v.elements| ==> v.elements[i].Str?
  }

  /** "required", if present, is a list of names that v all has. */
  predicate RequiredOk(s: Json, v: Json)
    requires s.Obj? && v.Obj?
  {
    "required" in s.fields ==>
      var names := s.fields["required"];
      StringArray(names) && forall i :: 0 <= i < |names.elements| ==> names.elements[i].s in v.fields
  }

  predicate ValidateResultSchema(v: Json, s: Json)
    requires v.Obj? && s.Obj?
    decreases s, 0
  {
    && RequiredOk(s, v)
    && (HasProperties(s) ==>
          forall f | f in s.fields["properties"].fields ::
            Describes(s, v, f) ==> CheckNode(v.fields[f], s.fields["properties"].fields[f]))
  }

  /** The checks of one property value, and equally of one array element. The schema decides first: one
      with an object shape never reaches the items check, whatever its type says. */
  predicate CheckNode(v: Json, s: Json)
    requires s.Obj?
    decreases s, 1
  {
    && (TypeOf(s) != "" ==> CheckType(v, TypeOf(s)))
    && if TypeOf(s) == "object" || HasObjectShape(s) then v.Obj? ==> ValidateResultSchema(v, s)
       else if TypeOf(s) == "array" && HasItems(s) then ValidateArrayItems(v, s.fields["items"])
       else true
  }

  /** The unchecked assertion that v is an array is the precondition here. */
  predicate ValidateArrayItems(v: Json, items: Json)
    requires v.Arr? && items.Obj?
    decreases items, 2
  {
    forall i | 0 <= i < |v.elements| :: CheckNode(v.elements[i], items)
  }

  // ------------------------------------------------------------------- the meaning, path by path

  datatype Hop = Field(name: string) | Item(index: nat)

  datatype Spot = Spot(schema: Json, value: Json)

  /** One hop from a schema and a value to a part of the value and the schema in charge of it. shaped says
      whether items are followed for array schemas with an object shape too. */
  function Follow(at: Spot, h: Hop, shaped: bool): Option<Spot>
    requires at.schema.Obj?
  {
    match h
    case Field(f) =>
      if Describes(at.schema, at.value, f)
      then Some(Spot(at.schema.fields["properties"].fields[f], at.value.fields[f])) else None
    case Item(i) =>
      if TypeOf(at.schema) == "array" && (shaped || !HasObjectShape(at.schema)) && HasItems(at.schema)
         && at.value.Arr? && i < |at.value.elements|
      then Some(Spot(at.schema.fields["items"], at.value.elements[i])) else None
  }

  /** path leads from at to spot. */
  predicate Leads(at: Spot, path: seq<Hop>, shaped: bool, spot: Spot)
    requires at.schema.Obj?
    decreases |path|
  {
    if path == [] then at == spot
    else
      var next := Follow(at, path[0], shaped);
      next.Some? && Leads(next.value, path[1..], shaped, spot)
  }

  /** The type check and the required check of one spot. */
  predicate LocalOk(at: Spot)
    requires at.schema.Obj?
  {
    && (TypeOf(at.schema) != "" ==> CheckType(at.value, TypeOf(at.schema)))
    && (at.value.Obj? ==> RequiredOk(at.schema, at.value))
  }

  /** In terms of the JSON itself. */
  lemma LocalOkMeans(s: map<string, Json>, v: Json)
    ensures LocalOk(Spot(Obj(s), v)) <==>
              && ("type" in s && s["type"].Str? && s["type"].s != "" ==> CheckType(v, s["type"].s))
              && (v.Obj? && "required" in s ==>
                    && s["required"].Arr?
                    && forall i :: 0 <= i < |s["required"].elements| ==>
                         s["required"].elements[i].Str? && s["required"].elements[i].s in v.fields)
  {
  }

  /** A part of a value is checked against its property's schema iff both are there and the schema is an object,
      and an element against the items of an array schema without "properties" and "required". */
  lemma FollowMeans(s: map<string, Json>, v: Json, f: string, i: nat)
    ensures Follow(Spot(Obj(s), v), Field(f), false).Some? <==>
              && "properties" in s && s["properties"].Obj? && f in s["properties"].fields
              && s["properties"].fields[f].Obj? && v.Obj? && f in v.fields
    ensures Follow(Spot(Obj(s), v), Field(f), false).Some? ==>
              Follow(Spot(Obj(s), v), Field(f), false).value == Spot(s["properties"].fields[f], v.fields[f])
    ensures Follow(Spot(Obj(s), v), Item(i), false).Some? <==>
              && "type" in s && s["type"] == Str("array") && "items" in s && s["items"].Obj? && "required" !in s
              && !("properties" in s && s["properties"].Obj?) && v.Arr? && i < |v.elements|
    ensures Follow(Spot(Obj(s), v), Item(i), false).Some? ==>
              Follow(Spot(Obj(s), v), Item(i), false).value == Spot(s["items"], v.elements[i])
  {
  }

  ghost predicate AllPathsOk(at: Spot, shaped: bool)
    requires at.schema.Obj?
  {
    forall path, spot :: Leads(at, path, shaped, spot) && spot.schema.Obj? ==> LocalOk(spot)
  }

  lemma {:induction false} LeadsToSchemas(at: Spot, path: seq<Hop>, shaped: bool, spot: Spot)
    requires at.schema.Obj? && Leads(at, path, shaped, spot)
    ensures spot.schema.Obj?
    decreases |path|
  {
    if path != [] { LeadsToSchemas(Follow(at, path[0], shaped).value, path[1..], shaped, spot); }
  }

  /** Accepted values pass every local check the validator can reach. */
  lemma {:induction false} AcceptedPathsOk(at: Spot, path: seq<Hop>, spot: Spot)
    requires at.schema.Obj? && CheckNode(at.value, at.schema) && Leads(at, path, false, spot)
    ensures spot.schema.Obj? && LocalOk(spot)
    decreases |path|
  {
    if path != [] {
      var next := Follow(at, path[0], false).value;
      assert CheckNode(next.value, next.schema);
      AcceptedPathsOk(next, path[1..], spot);
    }
  }

  /** A rejected value has a spot that fails its own checks. */
  lemma {:induction false} RejectedSpot(at: Spot) returns (path: seq<Hop>, spot: Spot)
    requires at.schema.Obj? && !CheckNode(at.value, at.schema)
    ensures Leads(at, path, false, spot) && spot.schema.Obj? && !LocalOk(spot)
    decreases at.schema
  {
    var s, v := at.schema, at.value;
    if !LocalOk(at) {
      path, spot := [], at;
    } else {
      var hop: Hop;
      if TypeOf(s) == "object" || HasObjectShape(s) {
        var f :| f in s.fields["properties"].fields && Describes(s, v, f)
                 && !CheckNode(v.fields[f], s.fields["properties"].fields[f]);
        hop := Field(f);
      } else {
        var i :| 0 <= i < |v.elements| && !CheckNode(v.elements[i], s.fields["items"]);
        hop := Item(i);
      }
      var next := Follow(at, hop, false).value;
      assert next.schema < s;
      var rest, end := RejectedSpot(next);
      path, spot := [hop] + rest, end;
      assert path[1..] == rest;
    }
  }

  /** A value is accepted iff every part the validator reaches meets its local checks. */
  lemma NodeAcceptedIff(at: Spot)
    requires at.schema.Obj?
    ensures CheckNode(at.value, at.schema) <==> AllPathsOk(at, false)
  {
    if CheckNode(at.value, at.schema) {
      forall path, spot | Leads(at, path, false, spot) && spot.schema.Obj? ensures LocalOk(spot) {
        AcceptedPathsOk(at, path, spot);
      }
    } else {
      var path, spot := RejectedSpot(at);
    }
  }

  // ------------------------------------------------------------------- the tool call

  datatype Handled = Rejected | Terminated(result: Json)

  /** args is None when the arguments do not parse; JSON null parses as an empty map. */
  function Handle(args: Option<Json>, schema: Option<Json>): Handled
    requires schema.Some? ==> schema.value.Obj?
  {
    if args.None? || !(args.value.Obj? || args.value.Null?) then Rejected
    else
      var result := if args.value.Null? then Obj(map[]) else args.value;
      if schema.Some? && !ValidateResultSchema(result, schema.value) then Rejected else Terminated(result)
  }

  /** Arguments that are no object are rejected, null counts as the empty object, and without a schema any object is
      the result. */
  lemma HandleParses(args: Option<Json>, schema: Option<Json>)
    requires schema.Some? ==> schema.value.Obj?
    ensures args.None? || !(args.value.Obj? || args.value == Null) ==> Handle(args, schema) == Rejected
    ensures args == Some(Null) ==> Handle(args, schema) == Handle(Some(Obj(map[])), schema)
    ensures schema.None? && args.Some? && args.value.Obj? ==> Handle(args, schema) == Terminated(args.value)
  {
  }

  /** The root's own "type" is not looked at: only its required names and what lies below. */
  lemma HandleAcceptsIff(v: Json, schema: Json)
    requires v.Obj? && schema.Obj?
    ensures Handle(Some(v), Some(schema)) == Terminated(v) <==>
            RequiredOk(schema, v) && forall f | Describes(schema, v, f) ::
              AllPathsOk(Spot(schema.fields["properties"].fields[f], v.fields[f]), false)
    ensures Handle(Some(v), Some(schema)) in {Rejected, Terminated(v)}
  {
    forall f | Describes(schema, v, f)
      ensures CheckNode(v.fields[f], schema.fields["properties"].fields[f]) <==>
              AllPathsOk(Spot(schema.fields["properties"].fields[f], v.fields[f]), false)
    {
      NodeAcceptedIff(Spot(schema.fields["properties"].fields[f], v.fields[f]));
    }
  }

  // ------------------------------------------------------------------- where the validator checks too little

  /** All spots below at, and at itself, are in order. */
  lemma PathsUnfold(at: Spot)
    requires at.schema.Obj?
    ensures AllPathsOk(at, true) <==> LocalOk(at) && forall h :: Follow(at, h, true).Some? ==> NextOk(at, h)
  {
    if AllPathsOk(at, true) {
      assert Leads(at, [], true, at);
      forall h | Follow(at, h, true).Some? ensures NextOk(at, h) {
        var next := Follow(at, h, true).value;
        forall path, spot | Leads(next, path, true, spot) && spot.schema.Obj? ensures LocalOk(spot) {
          assert ([h] + path)[1..] == path;
          assert Leads(at, [h] + path, true, spot);
        }
      }
    }
    if LocalOk(at) && forall h :: Follow(at, h, true).Some? ==> NextOk(at, h) {
      forall path, spot | Leads(at, path, true, spot) && spot.schema.Obj? ensures LocalOk(spot) {
        if path != [] {
          assert NextOk(at, path[0]) && Leads(Follow(at, path[0], true).value, path[1..], true, spot);
        }
      }
    }
  }

  ghost predicate NextOk(at: Spot, h: Hop)
    requires at.schema.Obj? && Follow(at, h, true).Some?
  {
    AllPathsOk(Follow(at, h, true).value, true)
  }

  /** The schema of property f. */
  function Property(s: Json, f: string): Json
    requires s.Obj? && HasProperties(s) && f in s.fields["properties"].fields
  {
    s.fields["properties"].fields[f]
  }

  predicate Declares(s: Json, f: string)
    requires s.Obj?
  {
    HasProperties(s) && f in s.fields["properties"].fields && Property(s, f).Obj?
  }

  predicate KnownType(t: string) {
    t in {"boolean", "string", "number", "integer", "object", "array", "null"}
  }

  predicate AllowsObjects(s: Json)
    requires s.Obj?
  {
    TypeOf(s) == "object" || !KnownType(TypeOf(s))
  }

  /** No value at all is out of order under s. */
  predicate AcceptsAll(s: Json)
    requires s.Obj?
    decreases s
  {
    && !KnownType(TypeOf(s))
    && ("required" in s.fields ==> s.fields["required"] == Arr([]))
    && (HasProperties(s) ==>
          forall f | f in s.fields["properties"].fields :: Property(s, f).Obj? ==> AcceptsAll(Property(s, f)))
  }

  lemma {:induction false} NothingFails(at: Spot, path: seq<Hop>, spot: Spot)
    requires at.schema.Obj? && AcceptsAll(at.schema) && Leads(at, path, true, spot)
    ensures spot.schema.Obj? && LocalOk(spot)
    decreases |path|
  {
    if path != [] {
      var next := Follow(at, path[0], true).value;
      assert path[0].Field? ==> next.schema == Property(at.schema, path[0].name);
      NothingFails(next, path[1..], spot);
    }
  }

  lemma {:induction false} SomethingFails(s: Json) returns (v: Json)
    requires s.Obj? && !AcceptsAll(s)
    ensures !AllPathsOk(Spot(s, v), true)
    decreases s
  {
    if KnownType(TypeOf(s)) {
      v := if TypeOf(s) == "boolean" then Null else Bool(true);
      PathsUnfold(Spot(s, v));
      assert !LocalOk(Spot(s, v));
    } else if "required" in s.fields && s.fields["required"] != Arr([]) {
      v := Obj(map[]);
      var names := s.fields["required"];
      if StringArray(names) { assert names.elements[0].s !in v.fields; }
      PathsUnfold(Spot(s, v));
      assert !LocalOk(Spot(s, v));
    } else {
      var f :| f in s.fields["properties"].fields && Property(s, f).Obj? && !AcceptsAll(Property(s, f));
      assert Property(s, f) < s;
      var e := SomethingFails(Property(s, f));
      v := Obj(map[f := e]);
      FailsBelow(Spot(s, v), Field(f));
    }
  }

  lemma FailsBelow(at: Spot, h: Hop)
    requires at.schema.Obj? && Follow(at, h, true).Some? && !AllPathsOk(Follow(at, h, true).value, true)
    ensures !AllPathsOk(at, true)
  {
    PathsUnfold(at);
    assert !NextOk(at, h);
  }

  lemma AcceptsAllIff(s: Json)
    requires s.Obj?
    ensures AcceptsAll(s) <==> forall v :: AllPathsOk(Spot(s, v), true)
  {
    if AcceptsAll(s) {
      forall v, path, spot | Leads(Spot(s, v), path, true, spot) && spot.schema.Obj? ensures LocalOk(spot) {
        NothingFails(Spot(s, v), path, spot);
      }
    } else {
      var v := SomethingFails(s);
    }
  }

  /** Some object meets s: its required names are listed properly, and each that has a schema can be met. */
  predicate ObjectsExist(s: Json)
    requires s.Obj?
    decreases s, 0
  {
    "required" in s.fields ==>
      var names := s.fields["required"];
      StringArray(names) && forall i | 0 <= i < |names.elements| ::
        var g := names.elements[i].s; Declares(s, g) ==> ValuesExist(Property(s, g))
  }

  predicate ValuesExist(s: Json)
    requires s.Obj?
    decreases s, 1
  {
    TypeOf(s) == "object" ==> ObjectsExist(s)
  }

  function RequiredNames(s: Json): set<string>
    requires s.Obj? && ("required" in s.fields ==> StringArray(s.fields["required"]))
  {
    if "required" in s.fields
    then set i | 0 <= i < |s.fields["required"].elements| :: s.fields["required"].elements[i].s else {}
  }

  /** An object that meets s, with just its required names. */
  ghost function SampleObject(s: Json): (v: Json)
    requires s.Obj? && ObjectsExist(s)
    ensures v.Obj? && v.fields.Keys == RequiredNames(s) && ValidateResultSchema(v, s)
    decreases s, 0
  {
    Obj(map g | g in RequiredNames(s) :: if Declares(s, g) then Sample(Property(s, g)) else Null)
  }

  ghost function Sample(s: Json): (v: Json)
    requires s.Obj? && ValuesExist(s)
    ensures CheckNode(v, s)
    decreases s, 1
  {
    if TypeOf(s) == "object" then SampleObject(s)
    else if TypeOf(s) == "boolean" then Bool(true)
    else if TypeOf(s) == "string" then Str("")
    else if TypeOf(s) == "number" || TypeOf(s) == "integer" then Num(Finite(0.0))
    else if TypeOf(s) == "array" then Arr([])
    else Null
  }

  lemma {:induction false} MetMeansExist(v: Json, s: Json)
    requires s.Obj? && v.Obj? && ValidateResultSchema(v, s)
    ensures ObjectsExist(s)
    decreases s
  {
    if "required" in s.fields {
      var names := s.fields["required"].elements;
      forall i | 0 <= i < |names| && Declares(s, names[i].s) ensures ValuesExist(Property(s, names[i].s)) {
        var g := names[i].s;
        assert Describes(s, v, g) && CheckNode(v.fields[g], Property(s, g));
        assert Property(s, g) < s;
        if TypeOf(Property(s, g)) == "object" { MetMeansExist(v.fields[g], Property(s, g)); }
      }
    }
  }

  /** The validator checks what s says: an array with an object shape has items that exclude nothing, and below
      an object that can exist at all, and in plain array items, the same holds. */
  predicate Faithful(s: Json)
    requires s.Obj?
    decreases s, 1
  {
    if TypeOf(s) == "array" then
      HasItems(s) ==> if HasObjectShape(s) then AcceptsAll(s.fields["items"]) else Faithful(s.fields["items"])
    else
      AllowsObjects(s) ==> FaithfulBelow(s)
  }

  predicate FaithfulBelow(s: Json)
    requires s.Obj?
    decreases s, 0
  {
    HasProperties(s) && ObjectsExist(s) ==>
      forall f | f in s.fields["properties"].fields :: Property(s, f).Obj? ==> Faithful(Property(s, f))
  }

  lemma {:induction false} FaithfulMeansOk(at: Spot)
    requires at.schema.Obj? && Faithful(at.schema) && CheckNode(at.value, at.schema)
    ensures AllPathsOk(at, true)
    decreases at.schema
  {
    var s := at.schema;
    if at.value.Obj? && HasProperties(s) { MetMeansExist(at.value, s); }
    forall h | Follow(at, h, true).Some? ensures NextOk(at, h) {
      var next := Follow(at, h, true).value;
      assert next.schema < s;
      if h.Field? {
        assert next.schema == Property(s, h.name);
        FaithfulMeansOk(next);
      } else if HasObjectShape(s) {
        AcceptsAllIff(next.schema);
      } else {
        FaithfulMeansOk(next);
      }
    }
    PathsUnfold(at);
  }

  lemma {:induction false} UnfaithfulAccepts(s: Json) returns (v: Json)
    requires s.Obj? && !Faithful(s)
    ensures CheckNode(v, s) && !AllPathsOk(Spot(s, v), true)
    decreases s
  {
    if TypeOf(s) == "array" {
      var items := s.fields["items"];
      assert items < s;
      var e;
      if HasObjectShape(s) { e := SomethingFails(items); } else { e := UnfaithfulAccepts(items); }
      v := Arr([e]);
      assert Follow(Spot(s, v), Item(0), true) == Some(Spot(items, e));
      FailsBelow(Spot(s, v), Item(0));
    } else {
      v := UnfaithfulObject(s);
      assert CheckType(v, TypeOf(s));
    }
  }

  lemma {:induction false} UnfaithfulObject(s: Json) returns (v: Json)
    requires s.Obj? && !FaithfulBelow(s)
    ensures v.Obj? && ValidateResultSchema(v, s) && !AllPathsOk(Spot(s, v), true)
    ensures exists f :: Describes(s, v, f) && !AllPathsOk(Spot(Property(s, f), v.fields[f]), true)
    decreases s, 0
  {
    var f :| f in s.fields["properties"].fields && Property(s, f).Obj? && !Faithful(Property(s, f));
    assert Property(s, f) < s;
    var u := UnfaithfulAccepts(Property(s, f));
    var base := SampleObject(s);
    v := Obj(base.fields[f := u]);
    forall g | g in s.fields["properties"].fields && Describes(s, v, g)
      ensures CheckNode(v.fields[g], s.fields["properties"].fields[g])
    {
      if g != f { assert Describes(s, base, g); }
    }
    assert Describes(s, v, f);
    FailsBelow(Spot(s, v), Field(f));
  }

  /** The exact condition on a schema: the validator accepts precisely the values that are in order. */
  lemma FaithfulIff(s: Json)
    requires s.Obj?
    ensures Faithful(s) <==> forall v :: CheckNode(v, s) <==> AllPathsOk(Spot(s, v), true)
  {
    forall v ensures AllPathsOk(Spot(s, v), true) ==> CheckNode(v, s) { OrderIsAccepted(Spot(s, v)); }
    if Faithful(s) {
      forall v | CheckNode(v, s) ensures AllPathsOk(Spot(s, v), true) { FaithfulMeansOk(Spot(s, v)); }
    } else {
      var v := UnfaithfulAccepts(s);
    }
  }

  /** What the root schema says of an object: its own type is not looked at. */
  ghost predicate RootOk(v: Json, s: Json)
    requires v.Obj? && s.Obj?
  {
    RequiredOk(s, v) && forall f | Describes(s, v, f) :: AllPathsOk(Spot(Property(s, f), v.fields[f]), true)
  }

  /** And for the whole tool call. */
  lemma RootFaithfulIff(s: Json)
    requires s.Obj?
    ensures FaithfulBelow(s) <==> forall v: Json :: v.Obj? ==> (ValidateResultSchema(v, s) <==> RootOk(v, s))
  {
    forall v: Json | v.Obj? && RootOk(v, s) ensures ValidateResultSchema(v, s) {
      forall f | Describes(s, v, f) ensures CheckNode(v.fields[f], Property(s, f)) {
        OrderIsAccepted(Spot(Property(s, f), v.fields[f]));
      }
    }
    if FaithfulBelow(s) {
      forall v: Json | v.Obj? && ValidateResultSchema(v, s) ensures RootOk(v, s) {
        MetMeansExist(v, s);
        forall f | Describes(s, v, f) ensures AllPathsOk(Spot(Property(s, f), v.fields[f]), true) {
          FaithfulMeansOk(Spot(Property(s, f), v.fields[f]));
        }
      }
    } else {
      var v := UnfaithfulObject(s);
    }
  }

  lemma {:induction false} FewerPaths(at: Spot, path: seq<Hop>, spot: Spot)
    requires at.schema.Obj? && Leads(at, path, false, spot)
    ensures Leads(at, path, true, spot)
    decreases |path|
  {
    if path != [] {
      var next := Follow(at, path[0], false);
      assert next == Follow(at, path[0], true);
      FewerPaths(next.value, path[1..], spot);
    }
  }

  /** A value whose every part is in order is never rejected. */
  lemma OrderIsAccepted(at: Spot)
    requires at.schema.Obj?
    ensures AllPathsOk(at, true) ==> CheckNode(at.value, at.schema)
  {
    NodeAcceptedIff(at);
    if AllPathsOk(at, true) {
      forall path, spot | Leads(at, path, false, spot) && spot.schema.Obj? ensures LocalOk(spot) {
        FewerPaths(at, path, spot);
      }
    }
  }

  /** No array schema with items, here or below, has "properties" or "required". */
  predicate PlainArrays(s: Json)
    requires s.Obj?
    decreases s
  {
    && !(TypeOf(s) == "array" && HasObjectShape(s) && HasItems(s))
    && (HasProperties(s) ==>
          forall f | f in s.fields["properties"].fields :: Property(s, f).Obj? ==> PlainArrays(Property(s, f)))
    && (HasItems(s) ==> PlainArrays(s.fields["items"]))
  }

  lemma {:induction false} PlainIsFaithful(s: Json)
    requires s.Obj? && PlainArrays(s)
    ensures Faithful(s)
    decreases s
  {
    if HasItems(s) {
      assert s.fields["items"] < s;
      PlainIsFaithful(s.fields["items"]);
    }
    if HasProperties(s) {
      forall f | f in s.fields["properties"].fields && Property(s, f).Obj? ensures Faithful(Property(s, f)) {
        assert Property(s, f) < s;
        PlainIsFaithful(Property(s, f));
      }
    }
  }

  /** Over plain array schemas, in particular, the validator accepts exactly the values in order. */
  lemma MeansTheSchema(at: Spot)
    requires at.schema.Obj?
    ensures AllPathsOk(at, true) ==> CheckNode(at.value, at.schema)
    ensures PlainArrays(at.schema) ==> (CheckNode(at.value, at.schema) <==> AllPathsOk(at, true))
  {
    OrderIsAccepted(at);
    if PlainArrays(at.schema) {
      PlainIsFaithful(at.schema);
      FaithfulIff(at.schema);
    }
  }

  /** An array schema with an object shape never checks its items: right only if the items exclude nothing. */
  lemma ShapedArraySkipsItems(s: Json)
    requires s.Obj? && TypeOf(s) == "array" && HasObjectShape(s) && HasItems(s)
    ensures (forall v :: CheckNode(v, s) <==> AllPathsOk(Spot(s, v), true)) <==>
            (forall e :: AllPathsOk(Spot(s.fields["items"], e), true))
  {
    FaithfulIff(s);
    AcceptsAllIff(s.fields["items"]);
  }
}
