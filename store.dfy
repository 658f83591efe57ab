/** The Redis store the pipeline talks to, as a map from keys to stored
    strings plus the `SETEX` writes that produced it. Expiry is not modelled:
    a write records its time-to-live and the key stays. */
module KeyValueStore {
  import opened Wrappers
  import opened Text
  import opened PyValue

  type Store = map<string, string>

  /** One `SETEX key ttl value`. */
  datatype Write = Write(key: string, ttl: int, value: string)

  /** The store after the writes, in order. */
  function ApplyWrites(s: Store, ws: seq<Write>): Store
    decreases |ws|
  {
    if ws == [] then s
    else
      var last := ws[|ws| - 1];
      ApplyWrites(s, ws[..|ws| - 1])[last.key := last.value]
  }

  lemma {:induction false} ApplyWritesAppend(s: Store, a: seq<Write>, b: seq<Write>)
    ensures ApplyWrites(s, a + b) == ApplyWrites(ApplyWrites(s, a), b)
    decreases |b|
  {
    if b == [] {
      assert a + b == a;
    } else {
      assert (a + b)[..|a + b| - 1] == a + b[..|b| - 1];
      ApplyWritesAppend(s, a, b[..|b| - 1]);
    }
  }

  /** Writes never remove a key. */
  lemma {:induction false} ApplyWritesKeepsKeys(s: Store, ws: seq<Write>)
    ensures s.Keys <= ApplyWrites(s, ws).Keys
    decreases |ws|
  {
    if ws != [] {
      ApplyWritesKeepsKeys(s, ws[..|ws| - 1]);
    }
  }

  /** A key that no write names keeps its presence and its value. */
  lemma {:induction false} ApplyWritesElsewhere(s: Store, ws: seq<Write>, k: string)
    requires forall i :: 0 <= i < |ws| ==> ws[i].key != k
    ensures k in ApplyWrites(s, ws) <==> k in s
    ensures k in s ==> ApplyWrites(s, ws)[k] == s[k]
    decreases |ws|
  {
    if ws != [] {
      ApplyWritesElsewhere(s, ws[..|ws| - 1], k);
    }
  }

  /** The value the last write gives to its key is what the store holds. */
  lemma LastWriteWins(s: Store, ws: seq<Write>, w: Write, rest: seq<Write>)
    requires forall i :: 0 <= i < |rest| ==> rest[i].key != w.key
    ensures w.key in ApplyWrites(s, ws + [w] + rest)
    ensures ApplyWrites(s, ws + [w] + rest)[w.key] == w.value
  {
    ApplyWritesAppend(s, ws + [w], rest);
    ApplyWritesElsewhere(ApplyWrites(s, ws + [w]), rest, w.key);
    assert (ws + [w])[..|ws + [w]| - 1] == ws;
  }

  /** The values written to `key`, in order. */
  function KeyValues(ws: seq<Write>, key: string): (vs: seq<string>)
    ensures |vs| <= |ws|
    decreases |ws|
  {
    if ws == [] then []
    else
      var last := ws[|ws| - 1];
      KeyValues(ws[..|ws| - 1], key) + (if last.key == key then [last.value] else [])
  }

  lemma {:induction false} KeyValuesAppend(a: seq<Write>, b: seq<Write>, key: string)
    ensures KeyValues(a + b, key) == KeyValues(a, key) + KeyValues(b, key)
    decreases |b|
  {
    if b == [] {
      assert a + b == a;
    } else {
      assert (a + b)[..|a + b| - 1] == a + b[..|b| - 1];
      KeyValuesAppend(a, b[..|b| - 1], key);
    }
  }

  /** A key no write names has no values. */
  lemma {:induction false} KeyValuesUnwritten(ws: seq<Write>, key: string)
    requires forall i :: 0 <= i < |ws| ==> ws[i].key != key
    ensures KeyValues(ws, key) == []
    decreases |ws|
  {
    if ws != [] {
      KeyValuesUnwritten(ws[..|ws| - 1], key);
    }
  }

  /** The store holds, under each written key, the last value written to it. */
  lemma {:induction false} StoreHoldsLastValue(s: Store, ws: seq<Write>, key: string)
    requires KeyValues(ws, key) != []
    ensures key in ApplyWrites(s, ws)
    ensures ApplyWrites(s, ws)[key] == KeyValues(ws, key)[|KeyValues(ws, key)| - 1]
    decreases |ws|
  {
    var last := ws[|ws| - 1];
    if last.key != key {
      StoreHoldsLastValue(s, ws[..|ws| - 1], key);
    }
  }

  /** The Redis client's encoding of a value passed to `SETEX`: strings as
      they are, integers in decimal; booleans, None, lists and dicts raise. */
  function Encode(v: Value): (r: Result<string, Exc>)
    ensures v.StrV? ==> r == Ok(v.s)
    ensures v.IntV? ==> r == Ok(IntToString(v.i))
    ensures v.NoneV? || v.BoolV? || v.ListV? || v.DictV? ==> r.Err? && r.error.DataError?
  {
    match v
    case StrV(s) => Ok(s)
    case IntV(i) => Ok(IntToString(i))
    case _ => Err(DataError("Invalid input of type: '" + TypeName(v)
                            + "'. Convert to a bytes, string, int or float first."))
  }
}
