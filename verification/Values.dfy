/** Workflow state and its merge rules (graph/state.go). */
module Values {

  /** The dynamic values a state map can hold. `Nil` is the nil interface. */
  datatype Value =
    | Nil
    | Bool(b: bool)
    | Int(i: int)
    | Float(f: real)
    | Str(s: string)
    | List(items: seq<Value>)
    | Dict(fields: map<string, Value>)

  type State = map<string, Value>
  type Update = map<string, Value>
  type Reducer = (Value, Value) -> Value

  /** A missing key reads as nil. */
  function Lookup(s: State, key: string): Value {
    if key in s then s[key] else Nil
  }

  function GetString(s: State, key: string): string {
    match Lookup(s, key)
    case Str(v) => v
    case _ => ""
  }

  /** Numeric read used by the presets; a float is truncated towards zero. */
  function StateInt(s: State, key: string): int {
    match Lookup(s, key)
    case Int(v) => v
    case Float(f) => if f >= 0.0 then f.Floor else -((-f).Floor)
    case _ => 0
  }

  /** The sequence a value denotes for the appending reducer. */
  function AsList(v: Value): seq<Value> {
    match v
    case Nil => []
    case List(items) => items
    case scalar => [scalar]
  }

  /** Appends an update to an existing list; scalars on either side are wrapped. */
  function AppendSlice(existing: Value, update: Value): Value {
    var out := match existing
               case Nil => []
               case List(e) => e
               case e => [e];
    match update
    case Nil => List(out)
    case List(u) => List(out + u)
    case u => List(out + [u])
  }

  lemma AppendSliceConcatenates(existing: Value, update: Value)
    ensures AppendSlice(existing, update) == List(AsList(existing) + AsList(update))
  {
    if update == Nil {
      assert AsList(existing) + [] == AsList(existing);
    }
  }

  /** What one key holds after a merge. */
  function MergedValue(s: State, u: Update, reducers: map<string, Reducer>, key: string): Value
    requires key in s || key in u
  {
    if key !in u then s[key]
    else if key in reducers then reducers[key](Lookup(s, key), u[key])
    else u[key]
  }

  /** The pointwise meaning of merging an update into a state. */
  function Merged(s: State, u: Update, reducers: map<string, Reducer>): State {
    map key | key in s.Keys + u.Keys :: MergedValue(s, u, reducers, key)
  }

  /** The source ranges over the update in an unspecified order; the loop picks
      keys arbitrarily, so the contract also says that the order is immaterial. */
  method Apply(s: State, u: Update, reducers: map<string, Reducer>) returns (out: State)
    ensures out == Merged(s, u, reducers)
  {
    out := s;
    var todo := u.Keys;
    while todo != {}
      invariant todo <= u.Keys
      invariant out.Keys == s.Keys + (u.Keys - todo)
      invariant forall key :: key in out && key in u && key !in todo ==> out[key] == MergedValue(s, u, reducers, key)
      invariant forall key :: key in out && (key !in u || key in todo) ==> key in s && out[key] == s[key]
      decreases todo
    {
      var k :| k in todo;
      if k in reducers {
        out := out[k := reducers[k](Lookup(out, k), u[k])];
      } else {
        out := out[k := u[k]];
      }
      todo := todo - {k};
    }
  }

  /** True when the list under `key` in `later` extends the one in `earlier`. */
  predicate ListGrows(earlier: State, later: State, key: string) {
    AsList(Lookup(earlier, key)) <= AsList(Lookup(later, key))
  }

  lemma MergeGrowsAppendedList(s: State, u: Update, reducers: map<string, Reducer>, key: string)
    requires key in reducers && forall a, b :: reducers[key](a, b) == AppendSlice(a, b)
    ensures ListGrows(s, Merged(s, u, reducers), key)
  {
    if key in u {
      AppendSliceConcatenates(Lookup(s, key), u[key]);
    }
  }
}
