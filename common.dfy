/** Small building blocks shared by the cart and checkout models. */
module Common {

  datatype Option<T> = None | Some(value: T)

  /** JavaScript truthiness of an optional string field of a request:
      a missing field and the empty string are both falsy. */
  predicate Given(o: Option<string>)
  {
    o.Some? && o.value != ""
  }

  /** `s` without its element at `i`, the others kept in order, as
      `Array.prototype.splice(i, 1)` leaves an array. */
  function RemoveAt<T>(s: seq<T>, i: nat): (r: seq<T>)
    requires i < |s|
    ensures |r| == |s| - 1
  {
    s[..i] + s[i + 1..]
  }

  /** Splicing out the element at `i` keeps the elements before it in place
      and moves every later one down by one position. */
  lemma RemoveAtIndex<T>(s: seq<T>, i: nat, m: nat)
    requires i < |s| && m < |s| - 1
    ensures RemoveAt(s, i)[m] == if m < i then s[m] else s[m + 1]
  {
  }
}
