/**
 * JSON values as the Python server sees them after `json.loads`, and the two
 * pieces of Python's dynamic behaviour on such values that the server relies on:
 * the `in` operator and the exceptions a wrong type raises.
 */
module JsonValue {
  import opened Wrappers

  /** A parsed JSON document. Python keeps object keys in insertion order;
      the model keeps only the key/value mapping, which is all the server reads. */
  datatype Json =
    | Null
    | Bool(b: bool)
    | Num(n: real)
    | Str(s: string)
    | Arr(items: seq<Json>)
    | Obj(fields: map<string, Json>)

  /** The exceptions the server's own code can raise on a value of the wrong
      type, plus a failure reported by an external collaborator. The model keeps
      the kind of the exception; the text Python prints for it is not modelled. */
  datatype Fault =
    | NotAContainer                     // TypeError: `x in v` where v is a number, bool or null
    | NotSubscriptableByKey             // TypeError: `v["key"]` where v is a list or a string
    | MissingAttribute(name: string)    // AttributeError: v.keys(), v.get(), v.append(), v.remove()
    | Collaborator(message: string)     // an exception raised by the sheet service or its auth
    | DecodeError                       // json.JSONDecodeError while reading a stored file

  /** `needle` occurs as a contiguous piece of `hay` (Python's `needle in hay` on str). */
  predicate IsSubstring(needle: string, hay: string)
    decreases |hay|
  {
    needle <= hay || (|hay| > 0 && IsSubstring(needle, hay[1..]))
  }

  /** `needle` sits in `hay` starting at position k. */
  predicate OccursAt(needle: string, hay: string, k: int) {
    0 <= k <= |hay| - |needle| && hay[k..k + |needle|] == needle
  }

  /** IsSubstring agrees with the positional definition of "occurs somewhere". */
  lemma {:induction false} SubstringWitness(needle: string, hay: string)
    ensures IsSubstring(needle, hay) <==> exists k :: OccursAt(needle, hay, k)
    decreases |hay|
  {
    if needle <= hay {
      assert OccursAt(needle, hay, 0);
    } else if |hay| > 0 {
      SubstringWitness(needle, hay[1..]);
      if exists k :: OccursAt(needle, hay, k) {
        var k :| OccursAt(needle, hay, k);
        assert k != 0;
        assert hay[1..][k - 1..k - 1 + |needle|] == hay[k..k + |needle|];
        assert OccursAt(needle, hay[1..], k - 1);
      }
      if IsSubstring(needle, hay[1..]) {
        var k :| OccursAt(needle, hay[1..], k);
        assert hay[k + 1..k + 1 + |needle|] == hay[1..][k..k + |needle|];
        assert OccursAt(needle, hay, k + 1);
      }
    }
  }

  /**
   * Python's `key in container` for a string key: key membership on a dict,
   * element equality on a list, substring on a str; any other type raises.
   */
  function PyContains(container: Json, key: string): (r: Result<bool, Fault>)
  {
    match container
    case Obj(m) => Ok(key in m)
    case Arr(xs) => Ok(Str(key) in xs)
    case Str(s) => Ok(IsSubstring(key, s))
    case _ => Err(NotAContainer)
  }

  /** Python's `d.get(key, default)` on a dict. */
  function Get(m: map<string, Json>, key: string, default: Json): (r: Json)
  {
    if key in m then m[key] else default
  }
}
