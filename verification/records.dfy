/** Persisted records as the widget stores them: JSON-like dicts keyed by strings.

    Zone configurations and learner item states are Python dicts decoded from
    stored JSON; this module fixes the value domain they range over and the
    dictionary helpers (`dict.get`, "every key outside a set is untouched")
    that the migration steps are specified with. */
module Records {

  /** A stored value. `VNone` is Python's `None`; `VOther` stands for any value
      of a kind the migrations never inspect (floats, lists, nested dicts),
      distinguished only by an opaque tag. */
  datatype Val =
    | VStr(s: string)
    | VInt(i: int)
    | VBool(b: bool)
    | VNone
    | VOther(tag: nat)

  /** A Python dict with string keys. Key order is not modelled. */
  type Record = map<string, Val>

  /** `d.get(key)`: the bound value, or `None` when the key is absent. */
  function Get(d: Record, key: string): (v: Val)
    ensures key in d ==> v == d[key]
    ensures key !in d ==> v == VNone
  {
    if key in d then d[key] else VNone
  }

  /** Every key outside `touched` is bound in `after` exactly when it is bound
      in `before`, and to the same value. */
  predicate UnchangedExcept(before: Record, after: Record, touched: set<string>)
  {
    && (forall k :: k in before && k !in touched ==> k in after && after[k] == before[k])
    && (forall k :: k in after && k !in touched ==> k in before)
  }
}
