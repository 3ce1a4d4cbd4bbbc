/** Values shared by every module: optional results, a raised exception, and a
    Python dictionary (a map that also remembers the order its keys first came in). */
module Prelude {

  datatype Option<+T> = None | Some(value: T) {
    function GetOr(default: T): T {
      match this
      case Some(v) => v
      case None => default
    }
  }

  /** What a call that may raise leaves behind: its value, or nothing but the raise. */
  datatype Result<+T> = Ok(value: T) | Raised

  datatype Dict<K(==, !new), V> = Dict(keys: seq<K>, at: map<K, V>) {

    ghost predicate Valid() {
      && (forall k :: k in keys <==> k in at)
      && (forall i, j :: 0 <= i < j < |keys| ==> keys[i] != keys[j])
    }

    /** `d[k] = v`: a new key goes last, a known key keeps its place. */
    function Put(k: K, v: V): Dict<K, V> {
      Dict(if k in at then keys else keys + [k], at[k := v])
    }

    lemma PutKeepsValid(k: K, v: V)
      requires Valid()
      ensures Put(k, v).Valid()
    {
      var d := Put(k, v);
      forall x ensures x in d.keys <==> x in d.at {
        if k !in at {
          assert x in keys + [k] <==> x in keys || x == k;
        }
      }
      if k !in at {
        assert forall i :: 0 <= i < |keys| ==> keys[i] in keys;
      }
    }
  }

  function EmptyDict<K(==, !new), V>(): Dict<K, V> {
    Dict([], map[])
  }
}
