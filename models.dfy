/** The write model TaskCreate (hipcall_sdk/models.py) and the body
    `task.model_dump(exclude_unset=True)` makes of it: only the fields that
    were set, in declaration order. */
module Models {
  import opened Wrappers
  import opened Json

  /** Whether an optional field of a pydantic model was set. A field set
      explicitly to None is set, and is dumped as null. */
  datatype Field<T> = Unset | Set(value: T)

  datatype TaskCreate = TaskCreate(
    name: string,
    description: Field<Option<string>>,
    assignToUserId: Field<Option<int>>,
    autoAssignToUser: Field<Option<bool>>,
    companyIds: Field<Option<seq<int>>>,
    contactIds: Field<Option<seq<int>>>,
    dealIds: Field<Option<seq<int>>>,
    dueDate: Field<Option<string>>,
    priority: Field<Option<string>>,
    taskListId: Field<Option<int>>)

  /** The optional fields' names, in declaration order. */
  const OptionalKeys: seq<string> :=
    ["description", "assign_to_user_id", "auto_assign_to_user", "company_ids",
     "contact_ids", "deal_ids", "due_date", "priority", "task_list_id"]

  predicate DistinctKeys(ks: seq<string>) {
    forall i, j :: 0 <= i < j < |ks| ==> ks[i] != ks[j]
  }

  function TextJson(v: Option<string>): Json { if v.None? then JNull else JStr(v.value) }
  function IntJson(v: Option<int>): Json { if v.None? then JNull else JInt(v.value) }
  function BoolJson(v: Option<bool>): Json { if v.None? then JNull else JBool(v.value) }

  function IntList(xs: seq<int>): (j: Json)
    ensures j.JArr? && |j.items| == |xs|
  {
    JArr(seq(|xs|, i requires 0 <= i < |xs| => JInt(xs[i])))
  }

  function IntsJson(v: Option<seq<int>>): Json { if v.None? then JNull else IntList(v.value) }

  function FieldJson<T>(f: Field<T>, enc: T -> Json): Field<Json> {
    if f.Set? then Set(enc(f.value)) else Unset
  }

  /** The optional fields of `t`, in declaration order, as the JSON each dumps to. */
  function OptionalSlots(t: TaskCreate): (slots: seq<Field<Json>>)
    ensures |slots| == |OptionalKeys|
  {
    [FieldJson(t.description, TextJson), FieldJson(t.assignToUserId, IntJson),
     FieldJson(t.autoAssignToUser, BoolJson), FieldJson(t.companyIds, IntsJson),
     FieldJson(t.contactIds, IntsJson), FieldJson(t.dealIds, IntsJson),
     FieldJson(t.dueDate, TextJson), FieldJson(t.priority, TextJson),
     FieldJson(t.taskListId, IntJson)]
  }

  /** The entries of the slots that are set, under their keys, in order. */
  function SetEntries(keys: seq<string>, slots: seq<Field<Json>>): seq<(string, Json)>
    requires |keys| == |slots|
  {
    if keys == [] then []
    else (if slots[0].Set? then [(keys[0], slots[0].value)] else []) + SetEntries(keys[1..], slots[1..])
  }

  /** `model_dump(exclude_unset=True)`: the name, then every set optional
      field. `due_date` is its ISO text, as `model_dump(mode="json")` writes
      it; see `EncodeDumpAsWritten` for the datetime the code puts there. */
  function Dump(t: TaskCreate): (j: Json)
    ensures j.JObj? && |j.entries| > 0 && j.entries[0] == ("name", JStr(t.name))
  {
    JObj([("name", JStr(t.name))] + SetEntries(OptionalKeys, OptionalSlots(t)))
  }

  // ----- Reading a dumped body back -----

  function ReadText(j: Json): Option<string> { if j.JStr? then Some(j.s) else None }
  function ReadInt(j: Json): Option<int> { if j.JInt? then Some(j.i) else None }
  function ReadBool(j: Json): Option<bool> { if j.JBool? then Some(j.b) else None }

  function ReadInts(j: Json): Option<seq<int>>
  {
    if j.JArr? && forall i :: 0 <= i < |j.items| ==> j.items[i].JInt?
    then Some(seq(|j.items|, i requires 0 <= i < |j.items| => j.items[i].i))
    else None
  }

  /** An optional field read from an entry: absent is unset, null is set to None. */
  function ReadField<T>(v: Option<Json>, read: Json -> Option<T>): Option<Field<Option<T>>>
  {
    match v
    case None => Some(Unset)
    case Some(JNull) => Some(Set(None))
    case Some(x) =>
      match read(x)
      case None => None
      case Some(y) => Some(Set(Some(y)))
  }

  /** Validating a body as a TaskCreate again, keeping track of which fields
      it sets; None for a body that is not one. */
  function Reload(j: Json): (r: Option<TaskCreate>)
    ensures r.Some? ==> j.JObj? && Get(j.entries, "name") == Some(JStr(r.value.name))
  {
    if !j.JObj? then None
    else
      var es := j.entries;
      var name :- (match Get(es, "name") case Some(JStr(n)) => Some(n) case _ => None);
      var description :- ReadField(Get(es, "description"), ReadText);
      var assignToUserId :- ReadField(Get(es, "assign_to_user_id"), ReadInt);
      var autoAssignToUser :- ReadField(Get(es, "auto_assign_to_user"), ReadBool);
      var companyIds :- ReadField(Get(es, "company_ids"), ReadInts);
      var contactIds :- ReadField(Get(es, "contact_ids"), ReadInts);
      var dealIds :- ReadField(Get(es, "deal_ids"), ReadInts);
      var dueDate :- ReadField(Get(es, "due_date"), ReadText);
      var priority :- ReadField(Get(es, "priority"), ReadText);
      var taskListId :- ReadField(Get(es, "task_list_id"), ReadInt);
      Some(TaskCreate(name, description, assignToUserId, autoAssignToUser, companyIds,
                      contactIds, dealIds, dueDate, priority, taskListId))
  }

  lemma OptionalKeysDistinct()
    ensures DistinctKeys(OptionalKeys)
    ensures "name" !in OptionalKeys
  {
  }

  /** Looking a key up in the set entries finds the slot's value exactly when
      that slot is set. */
  lemma {:induction false} GetSetEntries(keys: seq<string>, slots: seq<Field<Json>>, k: nat)
    requires |keys| == |slots| && DistinctKeys(keys) && k < |keys|
    ensures Get(SetEntries(keys, slots), keys[k]) == if slots[k].Set? then Some(slots[k].value) else None
  {
    var head: seq<(string, Json)> := if slots[0].Set? then [(keys[0], slots[0].value)] else [];
    var tail := SetEntries(keys[1..], slots[1..]);
    assert SetEntries(keys, slots) == head + tail;
    if k == 0 {
      if slots[0].Set? {
        assert (head + tail)[0] == (keys[0], slots[0].value);
      } else {
        AbsentFromSetEntries(keys[1..], slots[1..], keys[0]);
      }
    } else {
      assert DistinctKeys(keys[1..]);
      assert keys[1..][k - 1] == keys[k];
      GetSetEntries(keys[1..], slots[1..], k - 1);
      if slots[0].Set? {
        assert keys[0] != keys[k];
        assert (head + tail)[0].0 == keys[0];
        assert (head + tail)[1..] == tail;
        assert Get(head + tail, keys[k]) == Get(tail, keys[k]);
      } else {
        assert head + tail == tail;
      }
    }
  }

  lemma {:induction false} AbsentFromSetEntries(keys: seq<string>, slots: seq<Field<Json>>, key: string)
    requires |keys| == |slots| && key !in keys
    ensures Get(SetEntries(keys, slots), key) == None
  {
    if keys != [] {
      var head: seq<(string, Json)> := if slots[0].Set? then [(keys[0], slots[0].value)] else [];
      var tail := SetEntries(keys[1..], slots[1..]);
      assert SetEntries(keys, slots) == head + tail;
      AbsentFromSetEntries(keys[1..], slots[1..], key);
      if slots[0].Set? {
        assert (head + tail)[1..] == tail;
      }
    }
  }

  /** The set entries take their keys from `keys`, and stay free of
      repeats when `keys` are. */
  lemma {:induction false} SetEntriesKeys(keys: seq<string>, slots: seq<Field<Json>>)
    requires |keys| == |slots|
    ensures forall i :: 0 <= i < |SetEntries(keys, slots)| ==> SetEntries(keys, slots)[i].0 in keys
    ensures DistinctKeys(keys) ==> DistinctKeys(Keys(SetEntries(keys, slots)))
  {
    if keys != [] {
      var head: seq<(string, Json)> := if slots[0].Set? then [(keys[0], slots[0].value)] else [];
      var tail := SetEntries(keys[1..], slots[1..]);
      assert SetEntries(keys, slots) == head + tail;
      SetEntriesKeys(keys[1..], slots[1..]);
      forall i | 0 <= i < |tail| ensures tail[i].0 in keys {
        assert tail[i].0 in keys[1..];
      }
      if DistinctKeys(keys) {
        assert DistinctKeys(keys[1..]);
        forall i | 0 <= i < |tail| ensures tail[i].0 != keys[0] {
          var j :| 0 <= j < |keys[1..]| && keys[1..][j] == tail[i].0;
          assert keys[j + 1] == tail[i].0;
        }
        var ks := Keys(head + tail);
        forall i, j | 0 <= i < j < |ks| ensures ks[i] != ks[j] {
          if slots[0].Set? && i == 0 {
            assert ks[j] == tail[j - 1].0;
          } else if slots[0].Set? {
            assert ks[i] == Keys(tail)[i - 1] && ks[j] == Keys(tail)[j - 1];
          } else {
            assert ks[i] == Keys(tail)[i] && ks[j] == Keys(tail)[j];
          }
        }
      }
    }
  }

  /** The dumped body has no key besides "name" and the optional fields,
      and no key twice: together with `DumpHoldsSetFields`, it holds
      exactly the name and the set fields. */
  lemma DumpKeysExact(t: TaskCreate)
    ensures forall i :: 0 <= i < |Dump(t).entries| ==>
              Dump(t).entries[i].0 == "name" || Dump(t).entries[i].0 in OptionalKeys
    ensures DistinctKeys(Keys(Dump(t).entries))
  {
    var rest := SetEntries(OptionalKeys, OptionalSlots(t));
    var es := Dump(t).entries;
    assert es == [("name", JStr(t.name))] + rest;
    OptionalKeysDistinct();
    SetEntriesKeys(OptionalKeys, OptionalSlots(t));
    forall i | 1 <= i < |es| ensures es[i].0 in OptionalKeys {
      assert es[i] == rest[i - 1];
    }
    var ks := Keys(es);
    forall i, j | 0 <= i < j < |ks| ensures ks[i] != ks[j] {
      assert ks[j] == Keys(rest)[j - 1];
      if i > 0 {
        assert ks[i] == Keys(rest)[i - 1];
      }
    }
  }

  /** A slot as the lookup of its key finds it. */
  function Encoded(slot: Field<Json>): Option<Json> {
    if slot.Set? then Some(slot.value) else None
  }

  /** The dumped body holds the name, and holds an optional field exactly
      when that field was set, with the value it was set to. */
  lemma DumpHoldsSetFields(t: TaskCreate, k: nat)
    requires k < |OptionalKeys|
    ensures Get(Dump(t).entries, "name") == Some(JStr(t.name))
    ensures Get(Dump(t).entries, OptionalKeys[k]) == Encoded(OptionalSlots(t)[k])
  {
    OptionalKeysDistinct();
    GetSetEntries(OptionalKeys, OptionalSlots(t), k);
    var es := Dump(t).entries;
    assert es[1..] == SetEntries(OptionalKeys, OptionalSlots(t));
    assert es[0].0 == "name" != OptionalKeys[k];
  }

  lemma ReadIntsOfIntList(xs: seq<int>)
    ensures ReadInts(IntList(xs)) == Some(xs)
  {
    assert ReadInts(IntList(xs)).value == xs;
  }

  lemma TextFieldRoundTrip(f: Field<Option<string>>)
    ensures ReadField(Encoded(FieldJson(f, TextJson)), ReadText) == Some(f)
  {
  }

  lemma IntFieldRoundTrip(f: Field<Option<int>>)
    ensures ReadField(Encoded(FieldJson(f, IntJson)), ReadInt) == Some(f)
  {
  }

  lemma BoolFieldRoundTrip(f: Field<Option<bool>>)
    ensures ReadField(Encoded(FieldJson(f, BoolJson)), ReadBool) == Some(f)
  {
  }

  lemma IntsFieldRoundTrip(f: Field<Option<seq<int>>>)
    ensures ReadField(Encoded(FieldJson(f, IntsJson)), ReadInts) == Some(f)
  {
    if f.Set? && f.value.Some? {
      ReadIntsOfIntList(f.value.value);
    }
  }

  /** Every field read back from the dumped body is the field of the model. */
  lemma ReloadFieldsOfDump(t: TaskCreate)
    ensures Get(Dump(t).entries, "name") == Some(JStr(t.name))
    ensures ReadField(Get(Dump(t).entries, "description"), ReadText) == Some(t.description)
    ensures ReadField(Get(Dump(t).entries, "assign_to_user_id"), ReadInt) == Some(t.assignToUserId)
    ensures ReadField(Get(Dump(t).entries, "auto_assign_to_user"), ReadBool) == Some(t.autoAssignToUser)
    ensures ReadField(Get(Dump(t).entries, "company_ids"), ReadInts) == Some(t.companyIds)
    ensures ReadField(Get(Dump(t).entries, "contact_ids"), ReadInts) == Some(t.contactIds)
    ensures ReadField(Get(Dump(t).entries, "deal_ids"), ReadInts) == Some(t.dealIds)
    ensures ReadField(Get(Dump(t).entries, "due_date"), ReadText) == Some(t.dueDate)
    ensures ReadField(Get(Dump(t).entries, "priority"), ReadText) == Some(t.priority)
    ensures ReadField(Get(Dump(t).entries, "task_list_id"), ReadInt) == Some(t.taskListId)
  {
    DumpHoldsSetFields(t, 0); TextFieldRoundTrip(t.description);
    DumpHoldsSetFields(t, 1); IntFieldRoundTrip(t.assignToUserId);
    DumpHoldsSetFields(t, 2); BoolFieldRoundTrip(t.autoAssignToUser);
    DumpHoldsSetFields(t, 3); IntsFieldRoundTrip(t.companyIds);
    DumpHoldsSetFields(t, 4); IntsFieldRoundTrip(t.contactIds);
    DumpHoldsSetFields(t, 5); IntsFieldRoundTrip(t.dealIds);
    DumpHoldsSetFields(t, 6); TextFieldRoundTrip(t.dueDate);
    DumpHoldsSetFields(t, 7); TextFieldRoundTrip(t.priority);
    DumpHoldsSetFields(t, 8); IntFieldRoundTrip(t.taskListId);
  }

  /** Validating the dumped body gives back the same model, with the same
      fields set and the same ones unset. */
  lemma DumpRoundTrip(t: TaskCreate)
    ensures Reload(Dump(t)) == Some(t)
  {
    ReloadFieldsOfDump(t);
  }

  lemma {:induction false} NothingSetNoEntries(keys: seq<string>, slots: seq<Field<Json>>)
    requires |keys| == |slots| && forall i :: 0 <= i < |slots| ==> slots[i].Unset?
    ensures SetEntries(keys, slots) == []
  {
    if keys != [] {
      NothingSetNoEntries(keys[1..], slots[1..]);
    }
  }

  /** A task with only its name set dumps to the name alone: unset fields are
      left out, not sent as null. */
  lemma NameOnlyDump(name: string)
    ensures Dump(TaskCreate(name, Unset, Unset, Unset, Unset, Unset, Unset, Unset, Unset, Unset))
         == JObj([("name", JStr(name))])
  {
    NothingSetNoEntries(OptionalKeys,
      OptionalSlots(TaskCreate(name, Unset, Unset, Unset, Unset, Unset, Unset, Unset, Unset, Unset)));
  }

  /** Whether `due_date` holds a datetime: set, and not to None. */
  predicate HasDueDate(t: TaskCreate) {
    t.dueDate.Set? && t.dueDate.value.Some?
  }

  /** What the transport's `json.dumps` makes of the dump AS WRITTEN: plain
      `model_dump` leaves `due_date` a datetime object, which `json.dumps`
      refuses with TypeError, so no body exists; every other dump encodes. */
  function EncodeDumpAsWritten(t: TaskCreate): (r: Option<Json>)
    ensures r.None? <==> HasDueDate(t)
    ensures r.Some? ==> Reload(r.value) == Some(t)
  {
    if HasDueDate(t) then None else DumpRoundTrip(t); Some(Dump(t))
  }

  /** As written, a task with a due date cannot be sent: encoding its body
      fails before any request is made. */
  lemma DueDateNotSentAsWritten(name: string, due: string)
    ensures EncodeDumpAsWritten(TaskCreate(name, Unset, Unset, Unset, Unset, Unset, Unset,
                                           Set(Some(due)), Unset, Unset)) == None
  {
  }

  /** Corrected, the due date is sent as its text and reads back. */
  lemma DueDateSentCorrected(t: TaskCreate)
    requires HasDueDate(t)
    ensures Get(Dump(t).entries, "due_date") == Some(JStr(t.dueDate.value.value))
    ensures Reload(Dump(t)) == Some(t)
  {
    DumpHoldsSetFields(t, 6);
    DumpRoundTrip(t);
  }
}
