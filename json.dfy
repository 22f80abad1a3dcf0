/**
 * Values as Python's JSON decoder returns them. Numbers keep their literal
 * text; an object keeps its members in document order (a later duplicate
 * key overrides an earlier one, as in the dictionary Python builds).
 */
module Json {

  import opened Wrappers

  datatype Value =
    | Null
    | Bool(b: bool)
    | Int(literal: string)
    | Float(literal: string)
    | Str(s: string)
    | Array(items: seq<Value>)
    | Object(members: seq<(string, Value)>)

  /** The name Python gives to the type of the decoded value. */
  function TypeName(v: Value): string {
    match v
    case Null => "NoneType"
    case Bool(_) => "bool"
    case Int(_) => "int"
    case Float(_) => "float"
    case Str(_) => "str"
    case Array(_) => "list"
    case Object(_) => "dict"
  }

  /** The keys of an object's members. */
  function Keys(members: seq<(string, Value)>): set<string> {
    set k | 0 <= k < |members| :: members[k].0
  }

  /** Dictionary lookup: the value of the last member with the given key. */
  function Get(members: seq<(string, Value)>, key: string): (r: Option<Value>)
    ensures r.Some? <==> key in Keys(members)
    ensures r.Some? ==> exists i :: 0 <= i < |members| && members[i] == (key, r.value) && forall j :: i < j < |members| ==> members[j].0 != key
  {
    if members == [] then None
    else if members[|members| - 1].0 == key then Some(members[|members| - 1].1)
    else
      var front := members[..|members| - 1];
      var r := Get(front, key);
      assert Keys(members) == Keys(front) + {members[|members| - 1].0};
      assert r.Some? ==> exists i :: 0 <= i < |members| && members[i] == (key, r.value) && forall j :: i < j < |members| ==> members[j].0 != key by {
        if r.Some? {
          var i :| 0 <= i < |front| && front[i] == (key, r.value) && forall j :: i < j < |front| ==> front[j].0 != key;
          assert members[i] == front[i];
          forall j | i < j < |members| ensures members[j].0 != key {
            if j < |front| { assert members[j] == front[j]; }
          }
        }
      }
      r
  }

}
