/** The schema dictionary built from an entity's field metadata. */
module EntitySchema {
  import opened Values

  /** One entry of the remote field metadata. `required` and `precision`
      are the strings the metadata service sends. */
  datatype FieldMetadata = FieldMetadata(
    fullName: string,
    fieldLabel: Option<string>,
    fieldType: string,
    required: Option<string>,
    precision: Option<string>)

  /** `String`, `Boolean`, `Number`, `SimpleSchema.Integer`, and the
      `{Name, Id}` sub-schema of a relationship. */
  datatype SchemaType = StringType | BooleanType | NumberType | IntegerType | LookupType

  /** One schema entry; `datePattern` is the `\d{4}-\d{2}-\d{2}` pattern. */
  datatype FieldDef = FieldDef(schemaType: SchemaType, optional: bool, fieldLabel: Option<string>, datePattern: bool)

  type Schema = map<string, FieldDef>

  predicate IsNumeric(fieldType: string)
  {
    fieldType == "Currency" || fieldType == "Number"
  }

  /** Summary and formula fields get no entry. */
  predicate Included(field: FieldMetadata)
  {
    field.fieldType != "Summary" && field.fieldType != "Formula"
  }

  /** `getTypeForField(type)`. */
  function TypeForField(fieldType: string): (t: SchemaType)
    ensures t == BooleanType <==> fieldType == "Checkbox"
    ensures t == NumberType <==> IsNumeric(fieldType)
    ensures t == StringType <==> fieldType != "Checkbox" && !IsNumeric(fieldType)
  {
    if fieldType == "Checkbox" then BooleanType
    else if IsNumeric(fieldType) then NumberType
    else StringType
  }

  /** The entry of the field itself, or `None` for summary and formula fields. */
  function FieldDefFor(field: FieldMetadata, allowMissingRequiredFields: bool): (d: Option<FieldDef>)
    ensures d.Some? <==> Included(field)
    ensures d.Some? ==>
      && (d.value.schemaType == BooleanType <==> field.fieldType == "Checkbox")
      && (d.value.schemaType == IntegerType <==> IsNumeric(field.fieldType) && field.precision == Some("0"))
      && (d.value.schemaType == NumberType <==> IsNumeric(field.fieldType) && field.precision != Some("0"))
      && (d.value.schemaType == StringType <==> field.fieldType != "Checkbox" && !IsNumeric(field.fieldType))
      && (d.value.optional <==> allowMissingRequiredFields || field.required != Some("true"))
      && (d.value.fieldLabel == if Named(field.fieldLabel) then field.fieldLabel else None)
      && (d.value.datePattern <==> field.fieldType == "Date")
  {
    if !Included(field) then None
    else
      var t := if IsNumeric(field.fieldType) && field.precision == Some("0") then IntegerType
               else TypeForField(field.fieldType);
      Some(FieldDef(t, allowMissingRequiredFields || field.required != Some("true"),
                    if Named(field.fieldLabel) then field.fieldLabel else None,
                    field.fieldType == "Date"))
  }

  function DropSuffix(s: string, suffix: string): (r: string)
    ensures |r| <= |s| && r == s[..|r|]
  {
    if |s| >= |suffix| && s[|s| - |suffix|..] == suffix then s[..|s| - |suffix|] else s
  }

  /** The relationship property of a lookup field: a trailing `Id` is
      dropped, then a trailing `__c` becomes `__r`. */
  function RelationshipName(fullName: string): (r: string)
    ensures |r| <= |fullName|
    ensures !(|r| >= 3 && r[|r| - 3..] == "__c")
  {
    var base := DropSuffix(fullName, "Id");
    if |base| >= 3 && base[|base| - 3..] == "__c" then base[..|base| - 3] + "__r" else base
  }

  lemma RelationshipNameExamples()
    ensures RelationshipName("OwnerId") == "Owner"
    ensures RelationshipName("AccountId") == "Account"
    ensures RelationshipName("Record_Owner__c") == "Record_Owner__r"
  {
    assert "OwnerId"[7 - 2..] == "Id" && "OwnerId"[..5] == "Owner" && "Owner"[2..] != "__c";
    assert "AccountId"[9 - 2..] == "Id" && "AccountId"[..7] == "Account" && "Account"[4..] != "__c";
    assert "Record_Owner__c"[15 - 2..] != "Id";
    assert "Record_Owner__c"[15 - 3..] == "__c" && "Record_Owner__c"[..12] + "__r" == "Record_Owner__r";
  }

  /** A custom lookup field `stem__c` relates through `stem__r`. */
  lemma CustomRelationshipName(stem: string)
    ensures RelationshipName(stem + "__c") == stem + "__r"
  {
    var c := stem + "__c";
    assert c[|c| - 2..][1] == 'c';
    assert DropSuffix(c, "Id") == c;
    assert c[|c| - 3..] == "__c" && c[..|c| - 3] == stem;
  }

  /** A standard lookup field `stemId` relates through `stem`, unless the
      stem itself ends in `__c`. */
  lemma StandardRelationshipName(stem: string)
    requires !(|stem| >= 3 && stem[|stem| - 3..] == "__c")
    ensures RelationshipName(stem + "Id") == stem
  {
    var i := stem + "Id";
    assert i[|i| - 2..] == "Id" && i[..|i| - 2] == stem;
    assert DropSuffix(i, "Id") == stem;
  }

  /** The relationship entry added for a lookup field. */
  function RelationshipDef(field: FieldMetadata, allowMissingRequiredFields: bool): (d: FieldDef)
    ensures d.schemaType == LookupType && !d.datePattern
    ensures d.optional <==> allowMissingRequiredFields || field.required != Some("true")
    ensures d.fieldLabel == Some(if Named(field.fieldLabel) then field.fieldLabel.value else field.fullName)
  {
    FieldDef(LookupType, allowMissingRequiredFields || field.required != Some("true"),
             Some(if Named(field.fieldLabel) then field.fieldLabel.value else field.fullName), false)
  }

  /** One step of the `reduce`: the relationship entry first, then the field's own. */
  function Step(current: Schema, field: FieldMetadata, allowMissingRequiredFields: bool): Schema
  {
    var withRelationship :=
      if field.fieldType == "Lookup" then current[RelationshipName(field.fullName) := RelationshipDef(field, allowMissingRequiredFields)]
      else current;
    match FieldDefFor(field, allowMissingRequiredFields)
    case None => withRelationship
    case Some(d) => withRelationship[field.fullName := d]
  }

  function Reduce(fields: seq<FieldMetadata>, allowMissingRequiredFields: bool): Schema
    decreases |fields|
  {
    if fields == [] then map[]
    else Step(Reduce(fields[..|fields| - 1], allowMissingRequiredFields), fields[|fields| - 1], allowMissingRequiredFields)
  }

  /** `buildEntitySchema(fieldMetadata, allowMissingRequiredFields)`: the
      reduced dictionary extended with an optional string `Id`. */
  function BuildEntitySchema(fields: seq<FieldMetadata>, allowMissingRequiredFields: bool): (s: Schema)
    ensures "Id" in s && s["Id"].schemaType == StringType && s["Id"].optional
  {
    var r := Reduce(fields, allowMissingRequiredFields);
    r["Id" := if "Id" in r then r["Id"].(schemaType := StringType, optional := true) else FieldDef(StringType, true, None, false)]
  }

  /** The keys the fields contribute: their own names and their relationship names. */
  function FieldKeys(fields: seq<FieldMetadata>): set<string>
  {
    OwnNames(fields) + RelationshipNames(fields)
  }

  function OwnNames(fields: seq<FieldMetadata>): set<string>
  {
    set f | f in fields && Included(f) :: f.fullName
  }

  function RelationshipNames(fields: seq<FieldMetadata>): set<string>
  {
    set f | f in fields && f.fieldType == "Lookup" :: RelationshipName(f.fullName)
  }

  /** The names the last field adds to those of the ones before it. */
  lemma NamesSnoc(fields: seq<FieldMetadata>)
    requires fields != []
    ensures var init := fields[..|fields| - 1];
      var f := fields[|fields| - 1];
      && OwnNames(fields) == OwnNames(init) + (if Included(f) then {f.fullName} else {})
      && RelationshipNames(fields) == RelationshipNames(init) + (if f.fieldType == "Lookup" then {RelationshipName(f.fullName)} else {})
  {
    assert fields == fields[..|fields| - 1] + [fields[|fields| - 1]];
  }

  lemma {:induction false} ReduceKeys(fields: seq<FieldMetadata>, allow: bool)
    ensures Reduce(fields, allow).Keys == FieldKeys(fields)
    decreases |fields|
  {
    if fields != [] {
      ReduceKeys(fields[..|fields| - 1], allow);
      NamesSnoc(fields);
    }
  }

  /** The schema has exactly `Id`, every included field, and the
      relationship entry of every lookup field. */
  lemma SchemaKeys(fields: seq<FieldMetadata>, allow: bool)
    ensures BuildEntitySchema(fields, allow).Keys == FieldKeys(fields) + {"Id"}
  {
    ReduceKeys(fields, allow);
  }

  /** With `allowMissingRequiredFields`, every entry is optional. */
  lemma {:induction false} AllOptionalWhenAllowed(fields: seq<FieldMetadata>)
    ensures forall k :: k in BuildEntitySchema(fields, true) ==> BuildEntitySchema(fields, true)[k].optional
  {
    ReduceOptional(fields);
  }

  lemma {:induction false} ReduceOptional(fields: seq<FieldMetadata>)
    ensures forall k :: k in Reduce(fields, true) ==> Reduce(fields, true)[k].optional
    decreases |fields|
  {
    if fields != [] {
      ReduceOptional(fields[..|fields| - 1]);
    }
  }

  /** A field whose name no later field writes, other than `Id`, has
      exactly the entry built from it. */
  lemma {:induction false} LastFieldDecides(fields: seq<FieldMetadata>, allow: bool, i: int)
    requires 0 <= i < |fields| && Included(fields[i]) && fields[i].fullName != "Id"
    requires forall j :: i < j < |fields| ==>
      fields[j].fullName != fields[i].fullName
      && (fields[j].fieldType == "Lookup" ==> RelationshipName(fields[j].fullName) != fields[i].fullName)
    ensures var s := BuildEntitySchema(fields, allow);
      fields[i].fullName in s && s[fields[i].fullName] == FieldDefFor(fields[i], allow).value
    decreases |fields|
  {
    ReduceLast(fields, allow, i);
  }

  lemma {:induction false} ReduceLast(fields: seq<FieldMetadata>, allow: bool, i: int)
    requires 0 <= i < |fields| && Included(fields[i])
    requires forall j :: i < j < |fields| ==>
      fields[j].fullName != fields[i].fullName
      && (fields[j].fieldType == "Lookup" ==> RelationshipName(fields[j].fullName) != fields[i].fullName)
    ensures var s := Reduce(fields, allow);
      fields[i].fullName in s && s[fields[i].fullName] == FieldDefFor(fields[i], allow).value
    decreases |fields|
  {
    var init := fields[..|fields| - 1];
    if i < |fields| - 1 {
      ReduceLast(init, allow, i);
    }
  }

  /** A lookup field whose relationship name no later entry overwrites has
      the relationship entry. */
  lemma {:induction false} RelationshipEntryPresent(fields: seq<FieldMetadata>, allow: bool, i: int)
    requires 0 <= i < |fields| && fields[i].fieldType == "Lookup"
    requires RelationshipName(fields[i].fullName) != "Id"
    requires RelationshipName(fields[i].fullName) != fields[i].fullName
    requires forall j :: i < j < |fields| ==>
      (Included(fields[j]) ==> fields[j].fullName != RelationshipName(fields[i].fullName))
      && (fields[j].fieldType == "Lookup" ==> RelationshipName(fields[j].fullName) != RelationshipName(fields[i].fullName))
    ensures var s := BuildEntitySchema(fields, allow);
      var n := RelationshipName(fields[i].fullName);
      n in s && s[n] == RelationshipDef(fields[i], allow)
    decreases |fields|
  {
    ReduceRelationship(fields, allow, i);
  }

  lemma {:induction false} ReduceRelationship(fields: seq<FieldMetadata>, allow: bool, i: int)
    requires 0 <= i < |fields| && fields[i].fieldType == "Lookup"
    requires RelationshipName(fields[i].fullName) != fields[i].fullName
    requires forall j :: i < j < |fields| ==>
      (Included(fields[j]) ==> fields[j].fullName != RelationshipName(fields[i].fullName))
      && (fields[j].fieldType == "Lookup" ==> RelationshipName(fields[j].fullName) != RelationshipName(fields[i].fullName))
    ensures var s := Reduce(fields, allow);
      var n := RelationshipName(fields[i].fullName);
      n in s && s[n] == RelationshipDef(fields[i], allow)
    decreases |fields|
  {
    var init := fields[..|fields| - 1];
    var last := fields[|fields| - 1];
    var n := RelationshipName(fields[i].fullName);
    if i < |fields| - 1 {
      assert init[i] == fields[i];
      assert forall j :: i < j < |init| ==> init[j] == fields[j];
      ReduceRelationship(init, allow, i);
      assert n in Reduce(init, allow) && Reduce(init, allow)[n] == RelationshipDef(fields[i], allow);
      assert last.fieldType == "Lookup" ==> RelationshipName(last.fullName) != n;
      assert Included(last) ==> last.fullName != n;
    }
  }

  /** The test's required text field: with the default flag it is still optional. */
  lemma RequiredFieldOptionalByDefault()
    ensures var f := FieldMetadata("AccountName", Some("Account"), "Text", Some("true"), None);
      BuildEntitySchema([f], true)["AccountName"] == FieldDef(StringType, true, Some("Account"), false)
      && BuildEntitySchema([f], false)["AccountName"] == FieldDef(StringType, false, Some("Account"), false)
  {
    var f := FieldMetadata("AccountName", Some("Account"), "Text", Some("true"), None);
    LastFieldDecides([f], true, 0);
    LastFieldDecides([f], false, 0);
  }
}
