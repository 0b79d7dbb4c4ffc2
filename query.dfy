/**
 * The query string of the page address as `URLSearchParams` sees it: an
 * ordered list of name/value pairs.
 */
module QueryString {
  import opened Wrappers

  type QueryParams = seq<(string, string)>

  /** `urlParams.get(name)`: the value of the first pair with that name. */
  function Get(ps: QueryParams, name: string): (r: Option<string>)
    ensures r.None? <==> forall i :: 0 <= i < |ps| ==> ps[i].0 != name
    ensures r.Some? ==>
      exists i :: 0 <= i < |ps| && ps[i] == (name, r.value) && (forall j :: 0 <= j < i ==> ps[j].0 != name)
  {
    if |ps| == 0 then None
    else if ps[0].0 == name then Some(ps[0].1)
    else
      var r := Get(ps[1..], name);
      if r.Some? then
        var i :| 0 <= i < |ps[1..]| && ps[1..][i] == (name, r.value) &&
          (forall j :: 0 <= j < i ==> ps[1..][j].0 != name);
        assert ps[i + 1] == (name, r.value);
        assert forall j :: 0 <= j < i + 1 ==> ps[j].0 != name by {
          forall j | 0 <= j < i + 1 ensures ps[j].0 != name {
            if j > 0 { assert ps[j] == ps[1..][j - 1]; }
          }
        }
        r
      else r
  }

  /** `urlParams.delete(name)`: every pair with that name goes, the rest keep their order. */
  function Delete(ps: QueryParams, name: string): (r: QueryParams)
    ensures forall i :: 0 <= i < |r| ==> r[i].0 != name
    ensures forall kv :: kv in r <==> kv in ps && kv.0 != name
  {
    if |ps| == 0 then []
    else if ps[0].0 == name then Delete(ps[1..], name)
    else [ps[0]] + Delete(ps[1..], name)
  }

  /** Deleting from a single pair drops it exactly when it carries the name. */
  lemma DeleteOne(kv: (string, string), name: string)
    ensures Delete([kv], name) == if kv.0 == name then [] else [kv]
  {
    assert [kv][1..] == [];
  }

  /** Deleting works pair by pair: the kept pairs stay in their order, duplicates included. */
  lemma {:induction false} DeleteConcat(a: QueryParams, b: QueryParams, name: string)
    ensures Delete(a + b, name) == Delete(a, name) + Delete(b, name)
  {
    if |a| == 0 {
      assert a + b == b;
    } else {
      assert (a + b)[0] == a[0];
      assert (a + b)[1..] == a[1..] + b;
      DeleteConcat(a[1..], b, name);
    }
  }

  /** After deleting a name, `get` of that name finds nothing. */
  lemma DeletedIsAbsent(ps: QueryParams, name: string)
    ensures Get(Delete(ps, name), name) == None
  {
  }

  /** Deleting a name leaves what `get` returns for every other name unchanged. */
  lemma {:induction false} DeleteKeepsOthers(ps: QueryParams, name: string, other: string)
    requires other != name
    ensures Get(Delete(ps, name), other) == Get(ps, other)
  {
    if |ps| > 0 {
      DeleteKeepsOthers(ps[1..], name, other);
    }
  }
}
