/** Comparing two trees: cJSON's pairwise search against equality of the values they
    stand for, with objects as maps. */
module JsonCompare {
  import opened Options
  import opened Bytes
  import opened JsonText
  import opened JsonValues
  import opened JsonParse
  import opened JsonPointer
  import opened JsonPrinter
  import opened JsonRoundTrip

  /** How names and numbers are told apart: with regard to case or without, and by the
      number that a text stands for. */
  datatype Rule = Rule(caseSensitive: bool, number: Text -> real)

  /** The part of a name that strcmp sees. */
  function Fold(c: Rule, key: Text): Text { if c.caseSensitive then Seen(key) else Lower(Seen(key)) }

  // ---- cJSON's comparison --------------------------------------------------------------------

  /** `get_object_item`. */
  function Lookup(c: Rule, members: Members, key: Text): (r: Option<Json>)
    ensures r.Some? ==> Size(r.value) < MembersSize(members)
    decreases members
  {
    match members
    case NoMembers => None
    case Member(k, v, more) => if Fold(c, k) == Fold(c, key) then Some(v) else Lookup(c, more, key)
  }

  /** `cJSON_Compare` of two nodes that are not the same node. */
  predicate Compare(c: Rule, a: Json, b: Json)
    decreases Size(a) + Size(b)
  {
    match a
    case Num(text) => b.Num? && c.number(text) == c.number(b.text)
    case Str(bytes) => b.Str? && Seen(bytes) == Seen(b.bytes)
    case Arr(items) => b.Arr? && CompareItems(c, items, b.items)
    case Obj(members) => b.Obj? && Covers(c, b.members, members) && Covers(c, members, b.members)
    case _ => a == b
  }

  predicate CompareItems(c: Rule, a: Items, b: Items)
    decreases ItemsSize(a) + ItemsSize(b)
  {
    if a.NoItems? || b.NoItems? then a == b
    else Compare(c, a.value, b.value) && CompareItems(c, a.rest, b.rest)
  }

  /** Each of the members has an equal one of its name among the others. */
  predicate Covers(c: Rule, others: Members, members: Members)
    decreases MembersSize(others) + MembersSize(members)
  {
    match members
    case NoMembers => true
    case Member(key, v, more) =>
      var found := Lookup(c, others, key);
      found.Some? && Compare(c, v, found.value) && Covers(c, others, more)
  }

  // ---- values ----------------------------------------------------------------------------------

  type Value = JsonValues.Value<real>

  /** The value of a tree; the first member of a name counts. */
  function Meaning(c: Rule, v: Json): Value
    decreases v
  {
    match v
    case Null => VNull
    case False => VFalse
    case True => VTrue
    case Num(text) => VNum(c.number(text))
    case Str(bytes) => VStr(Seen(bytes))
    case Arr(items) => VArr(Elements(c, items))
    case Obj(members) => VObj(FieldsOf(c, members))
  }

  function Elements(c: Rule, items: Items): seq<Value>
    decreases items
  {
    match items
    case NoItems => []
    case Item(v, rest) => [Meaning(c, v)] + Elements(c, rest)
  }

  function FieldsOf(c: Rule, members: Members): map<Text, Value>
    decreases members
  {
    match members
    case NoMembers => map[]
    case Member(key, v, more) => FieldsOf(c, more)[Fold(c, key) := Meaning(c, v)]
  }

  /** Every member has the value that the fields hold under its name. */
  predicate Agree(c: Rule, fields: map<Text, Value>, members: Members)
    decreases members
  {
    match members
    case NoMembers => true
    case Member(key, v, more) =>
      Fold(c, key) in fields && fields[Fold(c, key)] == Meaning(c, v) && Agree(c, fields, more)
  }

  /** Members of the same name have the same value, at every depth. */
  predicate Steady(c: Rule, v: Json)
    decreases v
  {
    match v
    case Arr(items) => SteadyItems(c, items)
    case Obj(members) => Agree(c, FieldsOf(c, members), members) && SteadyMembers(c, members)
    case _ => true
  }

  predicate SteadyItems(c: Rule, items: Items)
    decreases items
  {
    items.Item? ==> Steady(c, items.value) && SteadyItems(c, items.rest)
  }

  predicate SteadyMembers(c: Rule, members: Members)
    decreases members
  {
    members.Member? ==> Steady(c, members.val) && SteadyMembers(c, members.more)
  }

  // ---- the theorem -----------------------------------------------------------------------------

  lemma {:induction false} LookupIs(c: Rule, members: Members, key: Text)
    ensures match Lookup(c, members, key)
      case None => Fold(c, key) !in FieldsOf(c, members)
      case Some(v) =>
        && Fold(c, key) in FieldsOf(c, members) && FieldsOf(c, members)[Fold(c, key)] == Meaning(c, v)
        && (SteadyMembers(c, members) ==> Steady(c, v))
    decreases members
  {
    if members.Member? { LookupIs(c, members.more, key); }
  }

  /** Fields that agree with all members hold all that the members mean. */
  lemma {:induction false} AgreeHolds(c: Rule, fields: map<Text, Value>, members: Members)
    requires Agree(c, fields, members)
    ensures forall k :: k in FieldsOf(c, members) ==> k in fields && fields[k] == FieldsOf(c, members)[k]
    decreases members
  {
    if members.Member? { AgreeHolds(c, fields, members.more); }
  }

  /** Two trees compare equal exactly if they mean the same and neither has members of the
      same name that differ. */
  lemma {:induction false} CompareIs(c: Rule, a: Json, b: Json)
    ensures Compare(c, a, b) <==> Meaning(c, a) == Meaning(c, b) && Steady(c, a) && Steady(c, b)
    decreases Size(a) + Size(b)
  {
    if a.Arr? && b.Arr? {
      CompareItemsIs(c, a.items, b.items);
    } else if a.Obj? && b.Obj? {
      CoversIs(c, b.members, a.members);
      CoversIs(c, a.members, b.members);
      MutualAgree(c, a.members, b.members);
    }
  }

  lemma {:induction false} CompareItemsIs(c: Rule, a: Items, b: Items)
    ensures CompareItems(c, a, b) <==> Elements(c, a) == Elements(c, b) && SteadyItems(c, a) && SteadyItems(c, b)
    decreases ItemsSize(a) + ItemsSize(b)
  {
    if a.Item? && b.Item? {
      CompareIs(c, a.value, b.value);
      CompareItemsIs(c, a.rest, b.rest);
      var x, y := [Meaning(c, a.value)], [Meaning(c, b.value)];
      assert x + Elements(c, a.rest) == y + Elements(c, b.rest) ==>
          (x + Elements(c, a.rest))[0] == (y + Elements(c, b.rest))[0] && (x + Elements(c, a.rest))[1..] == (y + Elements(c, b.rest))[1..];
    }
  }

  lemma {:induction false} CoversIs(c: Rule, others: Members, members: Members)
    ensures Covers(c, others, members) ==> Agree(c, FieldsOf(c, others), members) && SteadyMembers(c, members)
    ensures Agree(c, FieldsOf(c, others), members) && SteadyMembers(c, members) && SteadyMembers(c, others) ==> Covers(c, others, members)
    decreases MembersSize(others) + MembersSize(members)
  {
    if members.Member? {
      LookupIs(c, others, members.key);
      var found := Lookup(c, others, members.key);
      if found.Some? { CompareIs(c, members.val, found.value); }
      CoversIs(c, others, members.more);
    }
  }

  lemma MutualAgree(c: Rule, a: Members, b: Members)
    ensures Agree(c, FieldsOf(c, b), a) && Agree(c, FieldsOf(c, a), b) <==>
            FieldsOf(c, a) == FieldsOf(c, b) && Agree(c, FieldsOf(c, a), a) && Agree(c, FieldsOf(c, b), b)
  {
    if Agree(c, FieldsOf(c, b), a) && Agree(c, FieldsOf(c, a), b) {
      AgreeHolds(c, FieldsOf(c, b), a);
      AgreeHolds(c, FieldsOf(c, a), b);
      assert FieldsOf(c, a) == FieldsOf(c, b);
    }
  }

  /** A tree printed and parsed compares equal to the tree it came from exactly if members
      of the same name have the same value in it. */
  lemma ReparsedCompares(c: Rule, v: Json, format: bool)
    requires Printable(v) && Depth(v) <= NESTING_LIMIT
    ensures var r := Parse(Print(v, format, 0), true); r.Some? && (Compare(c, r.value, v) <==> Steady(c, v))
  {
    PrintThenParse(v, format, true);
    CompareIs(c, v, v);
  }

  // ---- the loops -------------------------------------------------------------------------------

  method GetObjectItem(c: Rule, members: Members, key: Text) returns (r: Option<Json>)
    ensures r == Lookup(c, members, key)
  {
    var cur := members;
    while cur.Member? && Fold(c, key) != Fold(c, cur.key)
      invariant Lookup(c, members, key) == Lookup(c, cur, key)
      decreases cur
    {
      cur := cur.more;
    }
    r := if cur.Member? then Some(cur.val) else None;
  }

  method CompareNodes(c: Rule, a: Json, b: Json) returns (equal: bool)
    ensures equal <==> Meaning(c, a) == Meaning(c, b) && Steady(c, a) && Steady(c, b)
    decreases Size(a) + Size(b)
  {
    CompareIs(c, a, b);
    match a
    case Num(text) => return b.Num? && c.number(text) == c.number(b.text);
    case Str(bytes) => return b.Str? && Seen(bytes) == Seen(b.bytes);
    case Arr(items) =>
      if !b.Arr? { return false; }
      var x, y := items, b.items;
      while x.Item? && y.Item?
        invariant CompareItems(c, x, y) == Compare(c, a, b)
        invariant ItemsSize(x) < Size(a) && ItemsSize(y) < Size(b)
        decreases x
      {
        CompareIs(c, x.value, y.value);
        var same := CompareNodes(c, x.value, y.value);
        if !same { return false; }
        x, y := x.rest, y.rest;
      }
      return x == y;
    case Obj(members) =>
      if !b.Obj? { return false; }
      var there := CoversAll(c, b.members, members);
      if !there { return false; }
      equal := CoversAll(c, members, b.members);
    case _ => return a == b;
  }

  method CoversAll(c: Rule, others: Members, members: Members) returns (all: bool)
    ensures all == Covers(c, others, members)
    decreases MembersSize(others) + MembersSize(members)
  {
    var cur := members;
    while cur.Member?
      invariant Covers(c, others, cur) == Covers(c, others, members)
      invariant MembersSize(cur) <= MembersSize(members)
      decreases cur
    {
      var found := GetObjectItem(c, others, cur.key);
      if found.None? { return false; }
      CompareIs(c, cur.val, found.value);
      var same := CompareNodes(c, cur.val, found.value);
      if !same { return false; }
      cur := cur.more;
    }
    return true;
  }
}
