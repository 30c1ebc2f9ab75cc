/** A partial profile update and the keyword arguments it contributes to the
    outbound request (`data.dict(exclude_unset=True)`). */
module UserUpdate {
  import opened Values

  /** One declared field of the update schema: `Some(v)` when the caller set
      it to `v`, `None` when the caller left it out. */
  datatype UpdateField = UpdateField(name: string, value: Option<Scalar>)

  /** The caller set the field called `k`. */
  predicate IsSet(fields: seq<UpdateField>, k: string) {
    exists i :: 0 <= i < |fields| && fields[i].name == k && fields[i].value.Some?
  }

  /** Field names of a schema are distinct. */
  predicate DistinctNames(fields: seq<UpdateField>) {
    forall i, j :: 0 <= i < j < |fields| ==> fields[i].name != fields[j].name
  }

  /** The set fields, as a dictionary from field name to value; unset fields
      are absent. */
  function SetFields(fields: seq<UpdateField>): (m: Kwargs)
    ensures forall k :: k in m <==> IsSet(fields, k)
    ensures forall k :: k in m ==>
      exists i :: 0 <= i < |fields| && fields[i].name == k && fields[i].value == Some(m[k])
  {
    if |fields| == 0 then map[]
    else
      var rest := SetFields(fields[1..]);
      assert forall k :: IsSet(fields[1..], k) ==> IsSet(fields, k) by {
        forall k | IsSet(fields[1..], k) ensures IsSet(fields, k) {
          var i :| 0 <= i < |fields[1..]| && fields[1..][i].name == k && fields[1..][i].value.Some?;
          assert fields[i + 1] == fields[1..][i];
        }
      }
      match fields[0].value
      case Some(v) => rest[fields[0].name := v]
      case None => rest
  }

  /** With distinct field names every set field reaches the dictionary with
      exactly the value the caller gave it. */
  lemma SetFieldValues(fields: seq<UpdateField>, i: nat)
    requires DistinctNames(fields)
    requires i < |fields| && fields[i].value.Some?
    ensures fields[i].name in SetFields(fields)
    ensures SetFields(fields)[fields[i].name] == fields[i].value.value
  {
  }
}
