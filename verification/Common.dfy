/** Definitions shared by the component models. */
module Common {

  datatype Option<+T> = None | Some(value: T)

  /** No element occurs twice. */
  ghost predicate Distinct<T>(s: seq<T>) {
    forall i, j :: 0 <= i < j < |s| ==> s[i] != s[j]
  }

  /** The texts with `sep` between neighbours, as Python's `sep.join(parts)`. */
  function Join(parts: seq<string>, sep: string): string {
    if |parts| == 0 then ""
    else if |parts| == 1 then parts[0]
    else Join(parts[..|parts|-1], sep) + sep + parts[|parts|-1]
  }

  /** The texts one after the other. */
  function Concat(parts: seq<string>): string {
    if parts == [] then "" else Concat(parts[..|parts|-1]) + parts[|parts|-1]
  }

  /** `kept` are the elements of `all` at the places `at`, in order. */
  ghost predicate Picks<T>(kept: seq<T>, all: seq<T>, at: seq<nat>) {
    && |at| == |kept|
    && (forall k :: 0 <= k < |at| ==> at[k] < |all| && kept[k] == all[at[k]])
    && (forall k, l :: 0 <= k < l < |at| ==> at[k] < at[l])
  }

  lemma NothingPicked<T>()
    ensures Picks<T>([], [], [])
  {
  }

  /** One more element, taken or left. */
  lemma PickNext<T>(kept: seq<T>, all: seq<T>, at: seq<nat>, x: T)
    requires Picks(kept, all, at)
    ensures Picks(kept, all + [x], at) && |all| !in at
    ensures Picks(kept + [x], all + [x], at + [|all|])
  {
  }
}
