/** Reading an entity's field list back from the metadata collection. */
module FieldMetadata {
  import opened Values
  import opened Store

  function MissingMetadata(entityName: string): Error
  {
    Error("Error", "", "Unable to load metadata for " + entityName, false)
  }

  /** `getFieldMetadata(metaCollection, entityName)`: one read by
      `fullName`; being a function, it cannot change the collection. */
  function GetFieldMetadata(metaCollection: Collection, entityName: string): (r: Result<Value>)
    reads metaCollection
    ensures r.Threw? <==> Str(entityName) !in metaCollection.docs
    ensures r.Threw? ==> r.error == MissingMetadata(entityName)
    ensures r.Ok? && Truthy(Get(metaCollection.docs[Str(entityName)], "fields")) ==>
      r.value == Get(metaCollection.docs[Str(entityName)], "fields")
    ensures r.Ok? && !Truthy(Get(metaCollection.docs[Str(entityName)], "fields")) ==> r.value == Arr([])
  {
    match metaCollection.FindOne(Str(entityName))
    case None => Threw(MissingMetadata(entityName))
    case Some(meta) =>
      var fields := Get(meta, "fields");
      Ok(if Truthy(fields) then fields else Arr([]))
  }
}
