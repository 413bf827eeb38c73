/** Merge patches: cJSON's member lists against the objects-as-maps of RFC 7396. */
module JsonMerge {
  import opened Options
  import opened Bytes
  import opened JsonParse
  import opened JsonText
  import opened JsonValues
  import opened JsonPointer
  import opened JsonPrinter

  // ---- member lists, as cJSON works on them ------------------------------------------------

  /** `cJSON_GetObjectItem`: the first member of this name, up to case. */
  function FindName(members: Members, key: Text): Option<Json>
    decreases members
  {
    match members
    case NoMembers => None
    case Member(k, v, more) => if Lower(k) == Lower(key) then Some(v) else FindName(more, key)
  }

  /** `cJSON_DetachItemFromObject`: the list without that member. */
  function Detach(members: Members, key: Text): Members
    decreases members
  {
    match members
    case NoMembers => NoMembers
    case Member(k, v, more) => if Lower(k) == Lower(key) then more else Member(k, v, Detach(more, key))
  }

  /** `cJSON_AddItemToObject`: at the end of the list. */
  function Append(members: Members, key: Text, v: Json): Members
    decreases members
  {
    match members
    case NoMembers => Member(key, v, NoMembers)
    case Member(k, w, more) => Member(k, w, Append(more, key, v))
  }

  /** `cJSONUtils_MergePatch`; no target stands for a null pointer. */
  function MergePatch(target: Option<Json>, patch: Json): Json
    decreases patch
  {
    match patch
    case Obj(members) => Obj(MergeMembers(Base(target), members))
    case _ => patch
  }

  /** The members of the target, if it is an object. */
  function Base(target: Option<Json>): Members {
    if target.Some? && target.value.Obj? then target.value.members else NoMembers
  }

  function MergeMembers(members: Members, patch: Members): Members
    decreases patch
  {
    match patch
    case NoMembers => members
    case Member(key, v, more) =>
      if v.Null? then MergeMembers(Detach(members, key), more)
      else MergeMembers(Append(Detach(members, key), key, MergePatch(FindName(members, key), v)), more)
  }

  // ---- section 2 of RFC 7396 ---------------------------------------------------------------

  /** JSON values with objects as maps; numbers are told apart by their text. */
  type Value = JsonValues.Value<Text>

  function View(v: Json): Value
    decreases v
  {
    match v
    case Null => VNull
    case False => VFalse
    case True => VTrue
    case Num(text) => VNum(text)
    case Str(bytes) => VStr(bytes)
    case Arr(items) => VArr(ViewItems(items))
    case Obj(members) => VObj(ViewMembers(members))
  }

  function ViewItems(items: Items): seq<Value>
    decreases items
  {
    match items
    case NoItems => []
    case Item(v, rest) => [View(v)] + ViewItems(rest)
  }

  /** As a lookup sees it: the first member of a name counts. */
  function ViewMembers(members: Members): map<Text, Value>
    decreases members
  {
    match members
    case NoMembers => map[]
    case Member(key, v, more) => ViewMembers(more)[key := View(v)]
  }

  /** The MergePatch function of RFC 7396. */
  function RfcMerge(target: Option<Value>, patch: Json): Value
    decreases patch
  {
    match patch
    case Obj(members) =>
      VObj(RfcMembers(if target.Some? && target.value.VObj? then target.value.fields else map[], members))
    case _ => View(patch)
  }

  function RfcMembers(fields: map<Text, Value>, patch: Members): map<Text, Value>
    decreases patch
  {
    match patch
    case NoMembers => fields
    case Member(key, v, more) =>
      if v.Null? then RfcMembers(fields - {key}, more)
      else RfcMembers(fields[key := RfcMerge(if key in fields then Some(fields[key]) else None, v)], more)
  }

  /** The member of exactly this name. */
  function Entry(members: Members, key: Text): Option<Json>
    decreases members
  {
    match members
    case NoMembers => None
    case Member(k, v, more) => if k == key then Some(v) else Entry(more, key)
  }

  /** What that function does to each field, and that a patch that is no object takes the
      target's place. */
  lemma {:induction false} RfcFields(fields: map<Text, Value>, patch: Members, key: Text)
    requires Distinct(patch)
    ensures var r := RfcMembers(fields, patch);
      match Entry(patch, key)
      case None => (key in r <==> key in fields) && (key in r ==> r[key] == fields[key])
      case Some(v) => if v.Null? then key !in r else key in r && r[key] == RfcMerge(if key in fields then Some(fields[key]) else None, v)
    decreases patch
  {
    if patch.Member? {
      var v := patch.val;
      var f := if v.Null? then fields - {patch.key} else fields[patch.key := RfcMerge(if patch.key in fields then Some(fields[patch.key]) else None, v)];
      RfcFields(f, patch.more, key);
    }
  }

  predicate Distinct(members: Members)
    decreases members
  {
    members.Member? ==> Entry(members.more, members.key).None? && Distinct(members.more)
  }

  // ---- names -------------------------------------------------------------------------------

  /** The names of an object are distinct up to case, and so on in the objects that are its
      values. */
  predicate Tidy(v: Json)
    decreases v
  {
    match v
    case Obj(members) => TidyMembers(members)
    case _ => true
  }

  predicate TidyMembers(members: Members)
    decreases members
  {
    match members
    case NoMembers => true
    case Member(key, v, more) => Tidy(v) && !Named(more, key) && TidyMembers(more)
  }

  /** The member a lookup finds, if any, has this very name. */
  predicate SameCase(members: Members, key: Text)
    decreases members
  {
    match members
    case NoMembers => true
    case Member(k, _, more) => if Lower(k) == Lower(key) then k == key else SameCase(more, key)
  }

  /** No name in the patch differs in case only from one in the object it is merged into. */
  predicate Aligned(target: Option<Json>, patch: Json)
    decreases patch
  {
    match patch
    case Obj(members) => AlignedMembers(Base(target), members)
    case _ => true
  }

  predicate AlignedMembers(members: Members, patch: Members)
    decreases patch
  {
    match patch
    case NoMembers => true
    case Member(key, v, more) =>
      && SameCase(members, key) && (v.Null? || Aligned(FindName(members, key), v))
      && AlignedMembers(members, more)
  }

  // ---- lists and maps ------------------------------------------------------------------------

  /** What a lookup finds is the one field of that name up to case. */
  lemma {:induction false} FindIs(members: Members, key: Text)
    requires TidyMembers(members)
    ensures FindName(members, key).Some? <==> Named(members, key)
    ensures match FindName(members, key)
      case None => forall k :: k in ViewMembers(members) ==> Lower(k) != Lower(key)
      case Some(v) =>
        && Tidy(v)
        && (exists k :: k in ViewMembers(members) && Lower(k) == Lower(key) && ViewMembers(members)[k] == View(v) && (k == key <==> SameCase(members, key)))
        && forall k, l :: k in ViewMembers(members) && l in ViewMembers(members) && Lower(k) == Lower(l) == Lower(key) ==> k == l
    decreases members
  {
    if members.Member? {
      FindIs(members.more, key);
      if Lower(members.key) == Lower(key) {
        NamedUpToCase(members.more, members.key, key);
        assert members.key in ViewMembers(members);
      }
    }
  }

  /** Detaching by name takes that one field out. */
  lemma {:induction false} DetachIs(members: Members, key: Text)
    requires TidyMembers(members)
    ensures var rest := Detach(members, key);
      && TidyMembers(rest) && !Named(rest, key) && (forall k :: Named(rest, k) ==> Named(members, k))
      && forall k :: k in ViewMembers(rest) <==> k in ViewMembers(members) && Lower(k) != Lower(key)
    ensures forall k :: k in ViewMembers(Detach(members, key)) ==> ViewMembers(Detach(members, key))[k] == ViewMembers(members)[k]
    decreases members
  {
    if members.Member? {
      var more := members.more;
      if Lower(members.key) == Lower(key) {
        NamedUpToCase(more, members.key, key);
        FindIs(more, key);
      } else {
        DetachIs(more, key);
      }
    }
  }

  lemma {:induction false} AppendIs(members: Members, key: Text, v: Json)
    requires TidyMembers(members) && !Named(members, key) && Tidy(v)
    ensures var all := Append(members, key, v);
      && ViewMembers(all) == ViewMembers(members)[key := View(v)] && TidyMembers(all)
      && forall k :: Named(all, k) <==> Named(members, k) || Lower(k) == Lower(key)
    decreases members
  {
    if members.Member? {
      AppendIs(members.more, key, v);
      FindIs(members, key);
    }
  }

  /** One member of the patch. */
  function Step(members: Members, key: Text, v: Json): Members {
    if v.Null? then Detach(members, key) else Append(Detach(members, key), key, MergePatch(FindName(members, key), v))
  }

  /** A member of the patch affects no other name. */
  lemma StepElsewhere(members: Members, key: Text, w: Json, put: bool)
    requires TidyMembers(members) && Tidy(w)
    ensures
      var all := if put then Append(Detach(members, key), key, w) else Detach(members, key);
      && TidyMembers(all)
      && (forall k :: Lower(k) != Lower(key) ==>
            (k in ViewMembers(all) <==> k in ViewMembers(members)) && (k in ViewMembers(all) ==> ViewMembers(all)[k] == ViewMembers(members)[k]))
      && (forall k :: Lower(k) == Lower(key) && k in ViewMembers(all) ==> put && k == key)
      && (put ==> key in ViewMembers(all) && ViewMembers(all)[key] == View(w))
  {
    DetachIs(members, key);
    if put { AppendIs(Detach(members, key), key, w); }
  }

  lemma {:induction false} FindElsewhere(members: Members, key: Text, w: Json, k: Text)
    requires Lower(k) != Lower(key)
    ensures FindName(Detach(members, key), k) == FindName(members, k) && SameCase(Detach(members, key), k) == SameCase(members, k)
    ensures FindName(Append(members, key, w), k) == FindName(members, k) && SameCase(Append(members, key, w), k) == SameCase(members, k)
    decreases members
  {
    if members.Member? { FindElsewhere(members.more, key, w, k); }
  }

  lemma {:induction false} AlignedElsewhere(members: Members, key: Text, w: Json, patch: Members)
    requires !Named(patch, key)
    ensures AlignedMembers(Detach(members, key), patch) == AlignedMembers(members, patch)
    ensures AlignedMembers(Append(members, key, w), patch) == AlignedMembers(members, patch)
    decreases patch
  {
    if patch.Member? {
      FindElsewhere(members, key, w, patch.key);
      AlignedElsewhere(members, key, w, patch.more);
    }
  }

  /** Names that the patch does not mention, up to case, keep their values. */
  lemma {:induction false} RestStays(members: Members, patch: Members, z: Text)
    requires TidyMembers(members) && TidyMembers(patch) && !Named(patch, z)
    ensures var r, vm := ViewMembers(MergeMembers(members, patch)), ViewMembers(members);
      (z in r <==> z in vm) && (z in r ==> r[z] == vm[z])
    decreases patch
  {
    if patch.Member? {
      var key, v := patch.key, patch.val;
      var w := MergePatch(FindName(members, key), v);
      FindIs(members, key);
      MergeTidy(FindName(members, key), v);
      StepElsewhere(members, key, w, !v.Null?);
      RestStays(Step(members, key, v), patch.more, z);
    }
  }

  lemma {:induction false} RfcRestStays(fields: map<Text, Value>, patch: Members, z: Text)
    requires !Named(patch, z)
    ensures var r := RfcMembers(fields, patch); (z in r <==> z in fields) && (z in r ==> r[z] == fields[z])
    decreases patch
  {
    if patch.Member? {
      var key, v := patch.key, patch.val;
      RfcRestStays(RfcStep(fields, key, v), patch.more, z);
    }
  }

  function RfcStep(fields: map<Text, Value>, key: Text, v: Json): map<Text, Value> {
    if v.Null? then fields - {key}
    else fields[key := RfcMerge(if key in fields then Some(fields[key]) else None, v)]
  }

  /** Names stay distinct. */
  lemma {:induction false} MergeTidy(target: Option<Json>, patch: Json)
    requires (target.Some? ==> Tidy(target.value)) && Tidy(patch)
    ensures Tidy(MergePatch(target, patch))
    decreases patch
  {
    if patch.Obj? { MergeMembersTidy(Base(target), patch.members); }
  }

  lemma {:induction false} MergeMembersTidy(members: Members, patch: Members)
    requires TidyMembers(members) && TidyMembers(patch)
    ensures TidyMembers(MergeMembers(members, patch))
    decreases patch
  {
    if patch.Member? {
      var key, v := patch.key, patch.val;
      FindIs(members, key);
      MergeTidy(FindName(members, key), v);
      StepElsewhere(members, key, MergePatch(FindName(members, key), v), !v.Null?);
      MergeMembersTidy(Step(members, key, v), patch.more);
    }
  }

  // ---- the theorem ---------------------------------------------------------------------------

  function ViewOf(target: Option<Json>): Option<Value> { if target.Some? then Some(View(target.value)) else None }

  /** Where names are distinct up to case, `MergePatch` computes the function of RFC 7396
      exactly if no name in the patch differs in case only from one in the object it is
      merged into. */
  lemma {:induction false} MergeIsRfc(target: Option<Json>, patch: Json)
    requires (target.Some? ==> Tidy(target.value)) && Tidy(patch)
    ensures View(MergePatch(target, patch)) == RfcMerge(ViewOf(target), patch) <==> Aligned(target, patch)
    decreases patch, 1
  {
    if patch.Obj? { MergeMembersIsRfc(Base(target), patch.members); }
  }

  lemma {:induction false} MergeMembersIsRfc(members: Members, patch: Members)
    requires TidyMembers(members) && TidyMembers(patch)
    ensures ViewMembers(MergeMembers(members, patch)) == RfcMembers(ViewMembers(members), patch) <==> AlignedMembers(members, patch)
    decreases patch, 0
  {
    hide Named;
    match patch
    case NoMembers =>
    case Member(key, v, more) =>
      var next := Step(members, key, v);
      var fields := RfcStep(ViewMembers(members), key, v);
      var ok := SameCase(members, key) && (v.Null? || Aligned(FindName(members, key), v));
      StepTidy(members, key, v);
      if ok {
        StepAgrees(members, key, v);
        MergeMembersIsRfc(next, more);
        StepAligned(members, key, v, more);
      } else {
        var z := StepDiffers(members, key, v);
        NamedUpToCase(more, z, key);
        RestStays(next, more, z);
        RfcRestStays(fields, more, z);
      }
  }

  lemma StepTidy(members: Members, key: Text, v: Json)
    requires TidyMembers(members) && Tidy(v)
    ensures TidyMembers(Step(members, key, v))
  {
    FindIs(members, key);
    MergeTidy(FindName(members, key), v);
    StepElsewhere(members, key, MergePatch(FindName(members, key), v), !v.Null?);
  }

  lemma StepAligned(members: Members, key: Text, v: Json, more: Members)
    requires !Named(more, key)
    ensures AlignedMembers(Step(members, key, v), more) == AlignedMembers(members, more)
  {
    var w := MergePatch(FindName(members, key), v);
    AlignedElsewhere(members, key, w, more);
    AlignedElsewhere(Detach(members, key), key, w, more);
  }

  lemma StepAgrees(members: Members, key: Text, v: Json)
    requires TidyMembers(members) && Tidy(v) && SameCase(members, key) && (v.Null? || Aligned(FindName(members, key), v))
    ensures ViewMembers(Step(members, key, v)) == RfcStep(ViewMembers(members), key, v)
    decreases v, 2
  {
    hide SameCase, Append, Detach, FindName, Lower, View, Aligned, Tidy, TidyMembers, MergePatch, RfcMerge, ViewMembers;
    var found := FindName(members, key);
    FoundField(members, key);
    MergeTidy(found, v);
    StepElsewhere(members, key, MergePatch(found, v), !v.Null?);
    if !v.Null? { MergeIsRfc(found, v); }
    FieldsSame(ViewMembers(Step(members, key, v)), RfcStep(ViewMembers(members), key, v), ViewMembers(members), key);
  }

  /** Two maps that differ from a third at no other name than key, and not from each other there. */
  lemma FieldsSame(a: map<Text, Value>, b: map<Text, Value>, c: map<Text, Value>, key: Text)
    requires forall k :: Lower(k) != Lower(key) ==> (k in a <==> k in c) && (k in a ==> a[k] == c[k])
    requires forall k :: k != key ==> (k in b <==> k in c) && (k in b ==> b[k] == c[k])
    requires (forall k :: k in a && Lower(k) == Lower(key) ==> k == key) && (forall k :: k in c && Lower(k) == Lower(key) ==> k == key)
    requires (key in a <==> key in b) && (key in a ==> a[key] == b[key])
    ensures a == b
  {
    hide Lower;
    forall k ensures (k in a <==> k in b) && (k in a ==> a[k] == b[k]) {
      assert Lower(k) != Lower(key) || k == key || (k !in a && k !in c);
    }
  }

  /** The field under this very name is what a lookup finds, if the case is the same. */
  lemma FoundField(members: Members, key: Text)
    requires TidyMembers(members) && SameCase(members, key)
    ensures forall k :: k in ViewMembers(members) && Lower(k) == Lower(key) ==> k == key
    ensures key in ViewMembers(members) <==> FindName(members, key).Some?
    ensures FindName(members, key).Some? ==> Tidy(FindName(members, key).value)
    ensures key in ViewMembers(members) ==> ViewMembers(members)[key] == View(FindName(members, key).value)
  {
    FindIs(members, key);
  }

  /** Otherwise the two differ at a name z that is the same up to case. */
  lemma StepDiffers(members: Members, key: Text, v: Json) returns (z: Text)
    requires TidyMembers(members) && Tidy(v) && !(SameCase(members, key) && (v.Null? || Aligned(FindName(members, key), v)))
    ensures Lower(z) == Lower(key)
    ensures var a, b := ViewMembers(Step(members, key, v)), RfcStep(ViewMembers(members), key, v);
      !(z in a <==> z in b) || (z in a && z in b && a[z] != b[z])
    decreases v, 2
  {
    var found := FindName(members, key);
    FindIs(members, key);
    MergeTidy(found, v);
    StepElsewhere(members, key, MergePatch(found, v), !v.Null?);
    if SameCase(members, key) {
      FoundField(members, key);
      MergeIsRfc(found, v);
      z := key;
    } else {
      SomeCase(members, key);
      z :| z in ViewMembers(members) && Lower(z) == Lower(key) && z != key;
    }
  }

  lemma {:induction false} SomeCase(members: Members, key: Text)
    requires TidyMembers(members) && !SameCase(members, key)
    ensures exists k :: k in ViewMembers(members) && Lower(k) == Lower(key) && k != key
    decreases members
  {
    if Lower(members.key) == Lower(key) {
      assert members.key in ViewMembers(members);
    } else {
      SomeCase(members.more, key);
      var k :| k in ViewMembers(members.more) && Lower(k) == Lower(key) && k != key;
      assert k in ViewMembers(members);
    }
  }

  /** Names that differ in case only are confused: the patch below replaces a member of
      another name. */
  lemma CaseConfusesMerge(v: Json, w: Json)
    requires !w.Null? && !w.Obj?
    ensures var target, patch := Obj(Member([97], v, NoMembers)), Obj(Member([65], w, NoMembers));
      && MergePatch(Some(target), patch) == patch
      && RfcMerge(Some(View(target)), patch) == VObj(map[[97] := View(v), [65] := View(w)])
  {
    var members, more := Member([97], v, NoMembers), Member([65], w, NoMembers);
    assert [97][1..] == [] && [65][1..] == [];
    assert Lower([97]) == Lower([65]) == [97];
    assert Detach(members, [65]) == NoMembers;
    assert Append(NoMembers, [65], w) == more;
    assert MergeMembers(more, NoMembers) == more;
    assert FindName(members, [65]) == Some(v) && MergePatch(Some(v), w) == w;
    assert MergeMembers(members, more) == MergeMembers(more, NoMembers);
    assert ViewMembers(members) == map[[97] := View(v)];
    assert View(Obj(members)) == VObj(map[[97] := View(v)]);
    assert RfcMerge(None, w) == View(w);
    assert [97][0] != [65][0];
    assert RfcMembers(map[[97] := View(v)], more) == RfcMembers(map[[97] := View(v)][[65] := View(w)], NoMembers);
    assert map[[97] := View(v)][[65] := View(w)] == map[[97] := View(v), [65] := View(w)];
  }

  /** `cJSONUtils_MergePatch`, with its loop over the patch. */
  method MergePatchInto(target: Option<Json>, patch: Json) returns (r: Json)
    ensures r == MergePatch(target, patch)
    decreases Size(patch)
  {
    if !patch.Obj? { return patch; }
    ObjectSize(patch.members);
    var members := if target.Some? && target.value.Obj? then target.value.members else NoMembers;
    var cur := patch.members;
    while cur.Member?
      invariant MergeMembers(members, cur) == MergeMembers(Base(target), patch.members)
      invariant MembersSize(cur) < Size(patch)
      decreases MembersSize(cur)
    {
      ObjectSize(cur);
      if cur.val.Null? {
        members := Detach(members, cur.key);
      } else {
        var replaced := FindName(members, cur.key);
        members := Detach(members, cur.key);
        var merged := MergePatchInto(replaced, cur.val);
        members := Append(members, cur.key, merged);
      }
      cur := cur.more;
    }
    r := Obj(members);
  }
}
