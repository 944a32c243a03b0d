/** Normalisation of the JSON schemas of tool parameters. */
module CleanSchema {
  import opened Common

  /** A dictionary keeps its fields in insertion order. */
  datatype Json =
    | Null
    | Bool(b: bool)
    | Number(n: real)
    | Str(s: string)
    | List(items: seq<Json>)
    | Dict(fields: seq<Field>)

  datatype Field = Field(key: string, value: Json)

  predicate Allowed(key: string) {
    key in {"type", "description", "enum", "properties", "required", "items", "anyOf", "oneOf", "allOf", "$ref", "const",
            "additionalProperties"}
  }

  predicate IsChoice(key: string) {
    key == "anyOf" || key == "oneOf"
  }

  predicate Has(fields: seq<Field>, key: string) {
    exists i :: 0 <= i < |fields| && fields[i].key == key
  }

  function Get(fields: seq<Field>, key: string): Option<Json> {
    if fields == [] then None
    else if fields[|fields| - 1].key == key then Some(fields[|fields| - 1].value)
    else Get(fields[..|fields| - 1], key)
  }

  function WithoutChoices(fields: seq<Field>): seq<Field> {
    if fields == [] then []
    else WithoutChoices(fields[..|fields| - 1]) + (if IsChoice(fields[|fields| - 1].key) then [] else [fields[|fields| - 1]])
  }

  /** A schema where the server wants a boolean is taken as false. */
  function Coerced(key: string, v: Json): Json {
    if key == "additionalProperties" && !v.Bool? then Bool(false) else v
  }

  /** Brings a value into the form the server accepts. The value of a `properties` key is a map from
      property names to schemas; its keys are no schema keywords. */
  function Clean(j: Json, isPropertiesMap: bool): Json
    decreases j, 1
  {
    match j
    case Dict(fields) => if isPropertiesMap then Dict(CleanProperties(fields)) else Dict(Completed(CleanFields(fields)))
    case List(items) => List(CleanItems(items))
    case _ => j
  }

  function CleanProperties(fields: seq<Field>): seq<Field>
    decreases fields, 0
  {
    if fields == [] then []
    else
      var last := fields[|fields| - 1];
      CleanProperties(fields[..|fields| - 1]) + [Field(last.key, Clean(last.value, false))]
  }

  /** What becomes of one field of a schema: nothing, when its key is unknown to the server. */
  function CleanField(f: Field): seq<Field>
    decreases f, 0
  {
    if !Allowed(f.key) then []
    else if f.key == "additionalProperties" && !f.value.Bool? then [Field(f.key, Bool(false))]
    else [Field(f.key, Clean(f.value, f.key == "properties"))]
  }

  function CleanFields(fields: seq<Field>): seq<Field>
    decreases fields, 0
  {
    if fields == [] then [] else CleanFields(fields[..|fields| - 1]) + CleanField(fields[|fields| - 1])
  }

  function CleanItems(items: seq<Json>): seq<Json>
    decreases items, 0
  {
    if items == [] then [] else CleanItems(items[..|items| - 1]) + [Clean(items[|items| - 1], false)]
  }

  /** Drops the choices, and fills in a missing type and the missing properties of an object. */
  function Completed(fields: seq<Field>): seq<Field> {
    var plain := WithoutChoices(fields);
    var typed := if Has(fields, "type") then plain else plain + [Field("type", Str("string"))];
    if Get(typed, "type") == Some(Str("object")) && !Has(typed, "properties") then typed + [Field("properties", Dict([]))] else typed
  }

  // ---- The normal form ----

  /** What the server accepts of the fields of one schema. */
  predicate WellTyped(fields: seq<Field>) {
    && (forall i :: 0 <= i < |fields| ==> Allowed(fields[i].key) && !IsChoice(fields[i].key))
    && Has(fields, "type")
    && (forall i :: 0 <= i < |fields| && fields[i].key == "additionalProperties" ==> fields[i].value.Bool?)
    && (Get(fields, "type") == Some(Str("object")) ==> Has(fields, "properties"))
  }

  /** Every dictionary in schema position, however deep, has the accepted form. */
  predicate Normal(j: Json, isPropertiesMap: bool)
    decreases j, 1
  {
    match j
    case Dict(fields) => if isPropertiesMap then NormalProperties(fields) else WellTyped(fields) && NormalFields(fields)
    case List(items) => NormalItems(items)
    case _ => true
  }

  predicate NormalProperties(fields: seq<Field>)
    decreases fields, 0
  {
    fields == [] || (NormalProperties(fields[..|fields| - 1]) && Normal(fields[|fields| - 1].value, false))
  }

  predicate NormalFields(fields: seq<Field>)
    decreases fields, 0
  {
    fields == []
    || (NormalFields(fields[..|fields| - 1]) && Normal(fields[|fields| - 1].value, fields[|fields| - 1].key == "properties"))
  }

  predicate NormalItems(items: seq<Json>)
    decreases items, 0
  {
    items == [] || (NormalItems(items[..|items| - 1]) && Normal(items[|items| - 1], false))
  }

  // ---- Dictionary facts ----

  lemma GetHas(fields: seq<Field>, key: string)
    ensures Get(fields, key).Some? <==> Has(fields, key)
  {
    if fields != [] {
      var n := |fields| - 1;
      GetHas(fields[..n], key);
      if Has(fields[..n], key) {
        var i :| 0 <= i < n && fields[..n][i].key == key;
        assert fields[i].key == key;
      }
    }
  }

  lemma Push(fields: seq<Field>, f: Field, key: string)
    ensures Get(fields + [f], key) == if f.key == key then Some(f.value) else Get(fields, key)
    ensures Has(fields + [f], key) <==> Has(fields, key) || f.key == key
  {
    assert (fields + [f])[..|fields|] == fields;
    GetHas(fields, key);
    GetHas(fields + [f], key);
  }

  lemma {:induction false} WithoutChoicesKeeps(fields: seq<Field>, key: string)
    ensures Get(WithoutChoices(fields), key) == if IsChoice(key) then None else Get(fields, key)
    ensures Has(WithoutChoices(fields), key) <==> Has(fields, key) && !IsChoice(key)
  {
    if fields != [] {
      var n := |fields| - 1;
      WithoutChoicesKeeps(fields[..n], key);
      assert fields == fields[..n] + [fields[n]];
      Push(fields[..n], fields[n], key);
      if !IsChoice(fields[n].key) {
        Push(WithoutChoices(fields[..n]), fields[n], key);
      } else {
        assert WithoutChoices(fields) == WithoutChoices(fields[..n]);
      }
    }
  }

  // ---- Cleaning reaches the normal form ----

  /** The fields of one schema, before they are completed. */
  predicate Filtered(fields: seq<Field>) {
    && (forall i :: 0 <= i < |fields| ==> Allowed(fields[i].key))
    && (forall i :: 0 <= i < |fields| && fields[i].key == "additionalProperties" ==> fields[i].value.Bool?)
  }

  lemma FilteredPush(fields: seq<Field>, f: Field)
    requires Filtered(fields) && Allowed(f.key) && (f.key == "additionalProperties" ==> f.value.Bool?)
    ensures Filtered(fields + [f])
  {
  }

  lemma {:induction false} ChoicesFiltered(fields: seq<Field>)
    requires Filtered(fields) && NormalFields(fields)
    ensures Filtered(WithoutChoices(fields)) && NormalFields(WithoutChoices(fields))
    ensures forall i :: 0 <= i < |WithoutChoices(fields)| ==> !IsChoice(WithoutChoices(fields)[i].key)
  {
    if fields != [] {
      var n := |fields| - 1;
      var front := WithoutChoices(fields[..n]);
      ChoicesFiltered(fields[..n]);
      if !IsChoice(fields[n].key) {
        assert (front + [fields[n]])[..|front|] == front;
      } else {
        assert front + [] == front;
      }
    }
  }

  lemma NormalPush(fields: seq<Field>, f: Field)
    requires NormalFields(fields) && Normal(f.value, f.key == "properties")
    ensures NormalFields(fields + [f])
  {
    assert (fields + [f])[..|fields|] == fields;
  }

  predicate NoChoice(fields: seq<Field>) {
    forall i :: 0 <= i < |fields| ==> !IsChoice(fields[i].key)
  }

  /** Everything the normal form asks of a schema but the properties of an object. */
  predicate Typed(fields: seq<Field>) {
    Filtered(fields) && NormalFields(fields) && Has(fields, "type") && NoChoice(fields)
  }

  lemma PushTyped(fields: seq<Field>, f: Field)
    requires Filtered(fields) && NormalFields(fields) && NoChoice(fields)
    requires Allowed(f.key) && f.key != "additionalProperties" && !IsChoice(f.key) && Normal(f.value, f.key == "properties")
    requires Has(fields, "type") || f.key == "type"
    ensures Typed(fields + [f])
  {
    FilteredPush(fields, f);
    NormalPush(fields, f);
    TypePush(fields, f);
    NoChoicePush(fields, f);
  }

  lemma NoChoicePush(fields: seq<Field>, f: Field)
    requires NoChoice(fields) && !IsChoice(f.key)
    ensures NoChoice(fields + [f])
  {
  }

  lemma TypePush(fields: seq<Field>, f: Field)
    requires Has(fields, "type") || f.key == "type"
    ensures Has(fields + [f], "type")
  {
    if f.key == "type" {
      assert (fields + [f])[|fields|].key == "type";
    } else {
      var i :| 0 <= i < |fields| && fields[i].key == "type";
      assert (fields + [f])[i].key == "type";
    }
  }

  lemma TypedIsNormal(typed: seq<Field>, done: seq<Field>)
    requires Typed(typed)
    requires done == if Get(typed, "type") == Some(Str("object")) && !Has(typed, "properties") then typed + [Field("properties", Dict([]))] else typed
    ensures WellTyped(done) && NormalFields(done)
  {
    if done != typed {
      assert Normal(Dict([]), true);
      PushTyped(typed, Field("properties", Dict([])));
      Push(typed, Field("properties", Dict([])), "properties");
    }
  }

  lemma CompletedIsNormal(fields: seq<Field>)
    requires Filtered(fields) && NormalFields(fields)
    ensures WellTyped(Completed(fields)) && NormalFields(Completed(fields))
  {
    ChoicesFiltered(fields);
    WithoutChoicesKeeps(fields, "type");
    var plain := WithoutChoices(fields);
    if Has(fields, "type") {
      TypedIsNormal(plain, Completed(fields));
    } else {
      PushTyped(plain, Field("type", Str("string")));
      TypedIsNormal(plain + [Field("type", Str("string"))], Completed(fields));
    }
  }

  lemma {:induction false} CleanIsNormal(j: Json, isPropertiesMap: bool)
    ensures Normal(Clean(j, isPropertiesMap), isPropertiesMap)
    decreases j, 1
  {
    match j
    case Dict(fields) =>
      if isPropertiesMap {
        CleanPropertiesNormal(fields);
      } else {
        CleanFieldsNormal(fields);
        CompletedIsNormal(CleanFields(fields));
      }
    case List(items) => CleanItemsNormal(items);
    case _ =>
  }

  lemma {:induction false} CleanPropertiesNormal(fields: seq<Field>)
    ensures NormalProperties(CleanProperties(fields))
    decreases fields, 0
  {
    if fields != [] {
      var n := |fields| - 1;
      CleanPropertiesNormal(fields[..n]);
      CleanIsNormal(fields[n].value, false);
      var front := CleanProperties(fields[..n]);
      assert (front + [Field(fields[n].key, Clean(fields[n].value, false))])[..|front|] == front;
    }
  }

  lemma {:induction false} CleanFieldsNormal(fields: seq<Field>)
    ensures Filtered(CleanFields(fields)) && NormalFields(CleanFields(fields))
    decreases fields, 0
  {
    if fields != [] {
      var n := |fields| - 1;
      CleanFieldsNormal(fields[..n]);
      var front, last := CleanFields(fields[..n]), fields[n];
      CleanIsNormal(last.value, last.key == "properties");
      if CleanField(last) == [] {
        assert front + [] == front;
      } else {
        FilteredPush(front, CleanField(last)[0]);
        NormalPush(front, CleanField(last)[0]);
      }
    }
  }

  lemma {:induction false} CleanItemsNormal(items: seq<Json>)
    ensures NormalItems(CleanItems(items))
    decreases items, 0
  {
    if items != [] {
      var n := |items| - 1;
      CleanItemsNormal(items[..n]);
      CleanIsNormal(items[n], false);
      var front := CleanItems(items[..n]);
      assert (front + [Clean(items[n], false)])[..|front|] == front;
    }
  }

  // ---- The normal form is left alone ----

  lemma {:induction false} NoChoicesStay(fields: seq<Field>)
    requires forall i :: 0 <= i < |fields| ==> !IsChoice(fields[i].key)
    ensures WithoutChoices(fields) == fields
  {
    if fields != [] {
      NoChoicesStay(fields[..|fields| - 1]);
    }
  }

  lemma {:induction false} NormalStays(j: Json, isPropertiesMap: bool)
    requires Normal(j, isPropertiesMap)
    ensures Clean(j, isPropertiesMap) == j
    decreases j, 1
  {
    match j
    case Dict(fields) =>
      if isPropertiesMap {
        NormalPropertiesStay(fields);
      } else {
        NormalFieldsStay(fields);
        NoChoicesStay(fields);
      }
    case List(items) => NormalItemsStay(items);
    case _ =>
  }

  lemma {:induction false} NormalPropertiesStay(fields: seq<Field>)
    requires NormalProperties(fields)
    ensures CleanProperties(fields) == fields
    decreases fields, 0
  {
    if fields != [] {
      NormalPropertiesStay(fields[..|fields| - 1]);
      NormalStays(fields[|fields| - 1].value, false);
    }
  }

  lemma {:induction false} NormalFieldsStay(fields: seq<Field>)
    requires NormalFields(fields) && Filtered(fields)
    ensures CleanFields(fields) == fields
    decreases fields, 0
  {
    if fields != [] {
      var n := |fields| - 1;
      NormalFieldsStay(fields[..n]);
      NormalFieldStays(fields[n]);
      assert fields == fields[..n] + [fields[n]];
    }
  }

  lemma {:induction false} NormalFieldStays(f: Field)
    requires Allowed(f.key) && (f.key == "additionalProperties" ==> f.value.Bool?) && Normal(f.value, f.key == "properties")
    ensures CleanField(f) == [f]
    decreases f, 0
  {
    NormalStays(f.value, f.key == "properties");
  }

  lemma {:induction false} NormalItemsStay(items: seq<Json>)
    requires NormalItems(items)
    ensures CleanItems(items) == items
    decreases items, 0
  {
    if items != [] {
      NormalItemsStay(items[..|items| - 1]);
      NormalStays(items[|items| - 1], false);
    }
  }

  // ---- Main results ----

  /** Cleaning twice is cleaning once, and the schemas it leaves alone are exactly the normal ones. */
  lemma CleanIsIdempotent(j: Json)
    ensures Clean(Clean(j, false), false) == Clean(j, false)
    ensures Clean(j, false) == j <==> Normal(j, false)
  {
    CleanIsNormal(j, false);
    NormalStays(Clean(j, false), false);
    if Normal(j, false) {
      NormalStays(j, false);
    }
  }

  /** Property names are no keywords: all of them stay, in order, each with its schema cleaned. */
  lemma {:induction false} PropertyNamesStay(fields: seq<Field>, i: nat)
    requires i < |fields|
    ensures |CleanProperties(fields)| == |fields|
    ensures CleanProperties(fields)[i] == Field(fields[i].key, Clean(fields[i].value, false))
  {
    var n := |fields| - 1;
    if n > 0 {
      PropertyNamesStay(fields[..n], if i < n then i else 0);
    }
  }

  /** The items of a list stay, each cleaned as a schema. */
  lemma {:induction false} ItemsStay(items: seq<Json>, i: nat)
    requires i < |items|
    ensures |CleanItems(items)| == |items| && CleanItems(items)[i] == Clean(items[i], false)
  {
    var n := |items| - 1;
    if n > 0 {
      ItemsStay(items[..n], if i < n then i else 0);
    }
  }

  /** What a schema keeps of one of its fields. */
  function KeptOf(f: Field): seq<Field> {
    if !Allowed(f.key) || f.key == "anyOf" || f.key == "oneOf" then []
    else if f.key == "additionalProperties" && !f.value.Bool? then [Field(f.key, Bool(false))]
    else [Field(f.key, Clean(f.value, f.key == "properties"))]
  }

  lemma ChoicesOfOne(front: seq<Field>, f: Field, longer: seq<Field>)
    requires longer == front + CleanField(f)
    ensures WithoutChoices(longer) == WithoutChoices(front) + KeptOf(f)
  {
    if CleanField(f) == [] {
      assert longer == front && WithoutChoices(front) + [] == WithoutChoices(front);
    } else {
      var g := CleanField(f)[0];
      assert longer == front + [g];
      assert longer[..|front|] == front;
      assert g.key == f.key && g.value == Clean(Coerced(f.key, f.value), f.key == "properties");
      assert IsChoice(f.key) ==> WithoutChoices(front) + [] == WithoutChoices(front);
    }
  }

  lemma KeptNext(front: seq<Field>, f: Field, fields: seq<Field>)
    requires fields == front + [f] && WithoutChoices(CleanFields(front)) == Collect(front, KeptOf)
    ensures WithoutChoices(CleanFields(fields)) == Collect(fields, KeptOf)
  {
    assert fields[..|fields| - 1] == front;
    ChoicesOfOne(CleanFields(front), f, CleanFields(fields));
    CollectAppend(front, f, KeptOf);
  }

  lemma {:induction false} KeptFieldByField(fields: seq<Field>)
    ensures WithoutChoices(CleanFields(fields)) == Collect(fields, KeptOf)
  {
    if fields != [] {
      var n := |fields| - 1;
      KeptFieldByField(fields[..n]);
      KeptNext(fields[..n], fields[n], fields);
    }
  }

  /** Field by field: a cleaned schema has the fields that are kept, in order, then the type of a string if it had none,
      and an empty `properties` if it is an object without any. */
  lemma CleanedFieldByField(fields: seq<Field>)
    ensures var kept := Collect(fields, KeptOf);
            var typed := kept + (if Has(fields, "type") then [] else [Field("type", Str("string"))]);
            var bare := Get(fields, "type") == Some(Str("object")) && !Has(fields, "properties");
            Clean(Dict(fields), false) == Dict(typed + (if bare then [Field("properties", Dict([]))] else []))
  {
    var plain := WithoutChoices(CleanFields(fields));
    KeptFieldByField(fields);
    HasAfter(fields, "type");
    HasAfter(fields, "properties");
    if Has(fields, "type") {
      KeywordsStayPlain(fields);
      CompletedWithType(CleanFields(fields), plain);
    } else {
      GetHas(fields, "type");
      CompletedWithoutType(CleanFields(fields), plain);
    }
  }

  lemma CompletedWithType(cleaned: seq<Field>, plain: seq<Field>)
    requires plain == WithoutChoices(cleaned) && Has(cleaned, "type")
    ensures var bare := Get(plain, "type") == Some(Str("object")) && !Has(plain, "properties");
            Completed(cleaned) == plain + [] + (if bare then [Field("properties", Dict([]))] else [])
  {
    assert plain + [] == plain && plain + [] + [] == plain;
  }

  lemma CompletedWithoutType(cleaned: seq<Field>, plain: seq<Field>)
    requires plain == WithoutChoices(cleaned) && !Has(cleaned, "type")
    ensures Completed(cleaned) == plain + [Field("type", Str("string"))] + []
  {
    Push(plain, Field("type", Str("string")), "type");
    assert plain + [Field("type", Str("string"))] + [] == plain + [Field("type", Str("string"))];
  }

  /** A keyword is there after cleaning when it was before. */
  lemma HasAfter(fields: seq<Field>, key: string)
    requires Allowed(key) && !IsChoice(key)
    ensures Has(CleanFields(fields), key) <==> Has(fields, key)
    ensures Has(WithoutChoices(CleanFields(fields)), key) <==> Has(fields, key)
  {
    GetHas(fields, key);
    GetHas(CleanFields(fields), key);
    CleanFieldsGet(fields, key);
    WithoutChoicesKeeps(CleanFields(fields), key);
    GetHas(WithoutChoices(CleanFields(fields)), key);
  }

  /** Cleaning neither makes a type the type of an object nor stops it being one. */
  lemma KeywordsStayPlain(fields: seq<Field>)
    requires Has(fields, "type")
    ensures Get(WithoutChoices(CleanFields(fields)), "type") == Some(Str("object")) <==> Get(fields, "type") == Some(Str("object"))
  {
    GetHas(fields, "type");
    CleanFieldsGet(fields, "type");
    WithoutChoicesKeeps(CleanFields(fields), "type");
  }

  /** The value under a key after cleaning. */
  function CleanedValue(key: string, v: Option<Json>): Option<Json> {
    if v.None? then None else Some(Clean(Coerced(key, v.value), key == "properties"))
  }

  lemma CleanFieldGet(front: seq<Field>, f: Field, key: string)
    requires Allowed(key)
    ensures Get(front + CleanField(f), key) == if f.key == key then CleanedValue(key, Some(f.value)) else Get(front, key)
  {
    if Allowed(f.key) {
      Push(front, CleanField(f)[0], key);
    } else {
      assert front + CleanField(f) == front;
    }
  }

  lemma {:induction false} CleanFieldsGet(fields: seq<Field>, key: string)
    requires Allowed(key)
    ensures Get(CleanFields(fields), key) == CleanedValue(key, Get(fields, key))
  {
    if fields != [] {
      var n := |fields| - 1;
      CleanFieldsGet(fields[..n], key);
      CleanFieldGet(CleanFields(fields[..n]), fields[n], key);
    }
  }

  /** What a schema says under a keyword the server knows, other than a choice, it still says, cleaned;
      a missing type becomes a string. */
  lemma KeywordsStay(fields: seq<Field>, key: string)
    requires Allowed(key) && !IsChoice(key) && Get(fields, key).Some?
    ensures Get(Completed(CleanFields(fields)), key) == Some(Clean(Coerced(key, Get(fields, key).value), key == "properties"))
    ensures !Has(fields, "type") ==> Get(Completed(CleanFields(fields)), "type") == Some(Str("string"))
  {
    GetHas(fields, key);
    GetHas(fields, "type");
    var cleaned := CleanFields(fields);
    CleanFieldsGet(fields, key);
    CleanFieldsGet(fields, "type");
    GetHas(cleaned, key);
    GetHas(cleaned, "type");
    WithoutChoicesKeeps(cleaned, key);
    WithoutChoicesKeeps(cleaned, "type");
    var plain := WithoutChoices(cleaned);
    Push(plain, Field("type", Str("string")), key);
    Push(plain, Field("type", Str("string")), "type");
    var typed := if Has(cleaned, "type") then plain else plain + [Field("type", Str("string"))];
    Push(typed, Field("properties", Dict([])), key);
    Push(typed, Field("properties", Dict([])), "type");
    GetHas(typed, key);
  }

  // ---- Values that are data ----

  /** The value of `const` or `enum` is data, but is cleaned like a schema: it survives exactly when every
      dictionary in it happens to have the form of a schema the server accepts. */
  lemma DataStaysExactlyWhenNormal(fields: seq<Field>, key: string, v: Json)
    requires (key == "const" || key == "enum") && Get(fields, key) == Some(v)
    ensures Get(Completed(CleanFields(fields)), key) == Some(v) <==> Normal(v, false)
  {
    KeywordsStay(fields, key);
    CleanIsIdempotent(v);
  }

  predicate Scalar(j: Json) {
    !j.List? && !j.Dict?
  }

  /** Scalars, and lists of them, always do. */
  lemma {:induction false} ScalarsAreNormal(items: seq<Json>)
    requires forall i :: 0 <= i < |items| ==> Scalar(items[i])
    ensures Normal(List(items), false) && forall i :: 0 <= i < |items| ==> Normal(items[i], false)
  {
    if items != [] {
      var n := |items| - 1;
      ScalarsAreNormal(items[..n]);
      assert Normal(items[n], false);
      assert NormalItems(items[..n]);
    }
  }

  predicate OfScalars(v: Json) {
    Scalar(v) || (v.List? && forall i :: 0 <= i < |v.items| ==> Scalar(v.items[i]))
  }

  /** So a constant that is a scalar, and an enumeration of scalars, survive as they are. */
  lemma ScalarDataStays(fields: seq<Field>, key: string, v: Json)
    requires (key == "const" || key == "enum") && Get(fields, key) == Some(v) && OfScalars(v)
    ensures Get(Completed(CleanFields(fields)), key) == Some(v)
  {
    DataStaysExactlyWhenNormal(fields, key, v);
    if v.List? {
      ScalarsAreNormal(v.items);
    }
  }

  /** A dictionary whose keys are no schema keywords does not: it becomes the schema of a string. */
  lemma {:induction false} UnknownKeysVanish(fields: seq<Field>)
    requires forall i :: 0 <= i < |fields| ==> !Allowed(fields[i].key)
    ensures CleanFields(fields) == []
  {
    if fields != [] {
      UnknownKeysVanish(fields[..|fields| - 1]);
    }
  }

  lemma UnknownDictionaryIsLost(fields: seq<Field>)
    requires forall i :: 0 <= i < |fields| ==> !Allowed(fields[i].key)
    ensures Clean(Dict(fields), false) == Dict([Field("type", Str("string"))])
  {
    UnknownKeysVanish(fields);
    Push([], Field("type", Str("string")), "type");
    assert Completed([]) == [Field("type", Str("string"))];
  }

  /** `{"const": {"a": 1}}` asks for another constant afterwards. */
  lemma ConstDictionaryIsLost()
    ensures var fields := [Field("const", Dict([Field("a", Number(1.0))]))];
            Get(Completed(CleanFields(fields)), "const") == Some(Dict([Field("type", Str("string"))]))
  {
    var fields := [Field("const", Dict([Field("a", Number(1.0))]))];
    Push([], fields[0], "const");
    KeywordsStay(fields, "const");
    UnknownDictionaryIsLost([Field("a", Number(1.0))]);
  }
}
