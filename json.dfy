/** JSON values, as serde_json's `Value`, and the JSON Merge Patch algorithm of
    section 2 of RFC 7386, which the auto-deployer applies (through the
    json_patch crate's `merge`) to expand a simplified manifest over the
    full-option template. */
module Json {

  /** Objects are maps from member names to values; numbers are kept as
      integers, since no step of the model looks inside them. */
  datatype Json =
    | Null
    | Bool(b: bool)
    | Num(n: int)
    | Str(s: string)
    | Arr(items: seq<Json>)
    | Obj(fields: map<string, Json>)

  /** The members of `v` when it is an object; a non-object target is treated
      as the empty object by the merge. */
  function Members(v: Json): map<string, Json>
  {
    if v.Obj? then v.fields else map[]
  }

  /** Section 2 of RFC 7386: a patch that is not an object replaces the
      target; otherwise each member of the patch is applied to the target's
      members (the target made an empty object first when it is not one):
      a `null` member deletes the key, any other member is merged into the
      target's value for that key (`null` when the key is absent). */
  function MergePatch(target: Json, patch: Json): Json
    decreases patch
  {
    if !patch.Obj? then patch
    else
      var base := Members(target);
      Obj(map k | k in base.Keys + patch.fields.Keys && !(k in patch.fields && patch.fields[k].Null?) ::
            if k in patch.fields
            then MergePatch(if k in base then base[k] else Null, patch.fields[k])
            else base[k])
  }

  /** What the merge promises member by member: a non-object patch replaces
      the whole target; with an object patch, `null` members delete keys,
      other members merge recursively, and target keys the patch does not
      mention are kept. */
  lemma MergePatchMembers(target: Json, patch: Json)
    ensures !patch.Obj? ==> MergePatch(target, patch) == patch
    ensures patch.Obj? ==> MergePatch(target, patch).Obj?
    ensures patch.Obj? ==> forall k ::
      var r := MergePatch(target, patch).fields;
      && (k in patch.fields && patch.fields[k].Null? ==> k !in r)
      && (k in patch.fields && !patch.fields[k].Null? ==>
            k in r && r[k] == MergePatch(if k in Members(target) then Members(target)[k] else Null, patch.fields[k]))
      && (k !in patch.fields ==> (k in r <==> k in Members(target)))
      && (k !in patch.fields && k in Members(target) ==> r[k] == Members(target)[k])
  {
  }

  /** Merging the same patch twice is merging it once. */
  lemma {:induction false} MergePatchIdempotent(target: Json, patch: Json)
    ensures MergePatch(MergePatch(target, patch), patch) == MergePatch(target, patch)
    decreases patch
  {
    if patch.Obj? {
      var once := MergePatch(target, patch);
      var twice := MergePatch(once, patch);
      assert twice.fields.Keys == once.fields.Keys;
      forall k | k in once.fields
        ensures twice.fields[k] == once.fields[k]
      {
        if k in patch.fields {
          var t := if k in Members(target) then Members(target)[k] else Null;
          MergePatchIdempotent(t, patch.fields[k]);
        }
      }
    }
  }

  /** An object patch over an object target yields exactly the keys of both,
      less those the patch sets to `null`. */
  lemma {:induction false} MergePatchKeys(target: Json, patch: Json)
    requires target.Obj? && patch.Obj?
    ensures MergePatch(target, patch).fields.Keys
         == (target.fields.Keys + patch.fields.Keys) - (set k | k in patch.fields && patch.fields[k].Null?)
  {
    var r := MergePatch(target, patch).fields;
    var nulls := set k | k in patch.fields && patch.fields[k].Null?;
    forall k ensures k in r <==> k in (target.fields.Keys + patch.fields.Keys) - nulls {
    }
  }
}
