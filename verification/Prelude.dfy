/** Stock datatypes and the few sequence facts that several modules share. */
module Prelude {

  datatype Option<+T> = None | Some(value: T)

  datatype Result<+T, +E> = Ok(value: T) | Err(error: E)

  newtype byte = x: int | 0 <= x < 256

  /** JSON data as Python's json module delivers it. */
  datatype Json =
    | Null
    | Bool(b: bool)
    | Int(i: int)
    | Float(r: real)
    | Str(s: string)
    | Arr(items: seq<Json>)
    | Obj(members: map<string, Json>)

  predicate NoDuplicates<T(==)>(s: seq<T>) {
    forall i, j :: 0 <= i < j < |s| ==> s[i] != s[j]
  }

  /** The last n elements: what a deque with maxlen n retains of everything appended to it. */
  function Suffix<T>(s: seq<T>, n: nat): (r: seq<T>)
    ensures |r| == if |s| <= n then |s| else n
  {
    if |s| <= n then s else s[|s| - n..]
  }

  /** Appending to a bounded deque: a full one drops its oldest element. */
  function Push<T>(retained: seq<T>, x: T, limit: nat): seq<T> {
    var longer := retained + [x];
    if |longer| > limit then longer[1..] else longer
  }

  /** A deque that starts empty always holds exactly the last elements of everything appended to it. */
  lemma PushKeepsSuffix<T>(s: seq<T>, x: T, limit: nat)
    requires limit >= 1
    ensures Push(Suffix(s, limit), x, limit) == Suffix(s + [x], limit)
  {
    if |s| > limit {
      assert s[|s| - limit..] + [x] == (s + [x])[|s| - limit..];
    } else if |s| == limit {
      assert (s + [x])[1..] == s[1..] + [x];
    }
  }
}
